/**
 * `loadFurniture` (src/utils/loadFurniture.ts): the scraped catalogue when
 * it can be fetched and is non-empty, and three built-in items otherwise.
 */
module LoadFurniture {
  import opened Furniture

  /** How fetching and decoding `/src/data/furniture.json` ended. */
  datatype FetchResult =
    | NetworkFailure       // `fetch` rejected
    | NotOk                // the response status was not ok
    | ParseError           // `response.json()` rejected: the body was not valid JSON
    | Json(items: seq<FurnitureItem>)

  const FallbackItems: seq<FurnitureItem> := [
    FurnitureItem("1", "Modern Sofa", "A comfortable modern sofa for your living room", "$899", "Sofas",
      "https://images.unsplash.com/photo-1555041469-a586c61ea9bc"),
    FurnitureItem("2", "Wooden Dining Table", "Elegant dining table for family gatherings", "$649", "Tables",
      "https://images.unsplash.com/photo-1592078615290-033ee584e267"),
    FurnitureItem("3", "Minimalist Bed Frame", "Simple and modern bed frame for your bedroom", "$749", "Beds",
      "https://images.unsplash.com/photo-1540574163026-643ea20ade25")
  ]

  /** The fallback catalogue is non-empty and its ids are distinct. */
  lemma FallbackItemsDistinct()
    ensures |FallbackItems| == 3
    ensures forall i, j :: 0 <= i < j < |FallbackItems| ==> FallbackItems[i].id != FallbackItems[j].id
  {
  }

  function Load(r: FetchResult): (items: seq<FurnitureItem>)
    ensures items != []
    ensures r.Json? && r.items != [] ==> items == r.items
    ensures !(r.Json? && r.items != []) ==> items == FallbackItems
  {
    match r
    case Json(items) => if |items| > 0 then items else FallbackItems
    case _ => FallbackItems
  }

  /** Either the fetched items are kept unchanged or the fallback is used; nothing is merged. */
  lemma LoadIsFetchedOrFallback(r: FetchResult)
    ensures Load(r) == FallbackItems || (r.Json? && Load(r) == r.items)
  {
  }
}
