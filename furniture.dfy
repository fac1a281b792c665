/** The furniture record that the scraper writes, the loader reads and the store holds. */
module Furniture {
  datatype FurnitureItem = FurnitureItem(
    id: string,
    title: string,
    description: string,
    price: string,
    category: string,
    imageUrl: string)
}
