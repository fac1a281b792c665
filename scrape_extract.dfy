/**
 * Reading one product card (scripts/scrape.ts): the fields of a card are
 * found through fixed fallback chains, and a card becomes a furniture item
 * only when both a title and a URL were found.
 *
 * The DOM is modelled as plain data: each element carries its tag, its
 * attributes, its `href` property, and the answers of the `querySelector`
 * calls the extraction makes on it.
 */
module ProductExtraction {
  import opened Options
  import opened Furniture
  import Decimal
  import Text

  /** The first `<a>` below an element: its `href`, its `aria-label` and the `src` of its first `<img>`. */
  datatype Anchor = Anchor(href: string, ariaLabel: Option<string>, imageSrc: Option<string>)

  /**
   * An element: `tagName`, its attributes, its own `href` property (used when it is itself an `<a>`),
   * the answers of `querySelector('a')` and `querySelector('img')`, and the `textContent` of the
   * first descendant matching the price selector.
   */
  datatype Node = Node(
    tagName: string,
    attributes: map<string, string>,
    href: string,
    firstAnchor: Option<Anchor>,
    imageSrc: Option<string>,
    priceText: Option<string>)

  /** A product card and the answer of `querySelector('[data-product-name]')` on it. */
  datatype Card = Card(element: Node, namedDescendant: Option<Node>)

  /** An element handle: either `page.evaluate` can read it, or the evaluation throws. */
  datatype Product = Unreadable | Readable(card: Card)

  /** What the in-page extraction returns. */
  datatype ProductInfo = ProductInfo(title: string, price: string, url: string, imageUrl: string)

  const ProductUrlPrefix := "https://www.ikea.com/us/en/p/"
  const DefaultPrice := "0.00"
  const IdPrefix := "ikea-"

  /** `el.querySelector('[data-product-name]') || el` */
  function ProductElement(card: Card): Node {
    match card.namedDescendant
    case Some(n) => n
    case None => card.element
  }

  /** `getAttribute(name) || ''`: an absent attribute reads as the empty string. */
  function AttributeOrEmpty(n: Node, name: string): string {
    if name in n.attributes then n.attributes[name] else ""
  }

  function OrEmpty(s: Option<string>): string {
    match s
    case Some(v) => v
    case None => ""
  }

  /** The `aria-label` of the first anchor, or "" when there is no anchor or no label. */
  function AnchorLabel(p: Node): string {
    match p.firstAnchor
    case Some(a) => OrEmpty(a.ariaLabel)
    case None => ""
  }

  /** Title: the `data-product-name` attribute, else the first anchor's label, else "". */
  function TitleOf(p: Node): string {
    Text.FirstNonEmpty([AttributeOrEmpty(p, "data-product-name"), AnchorLabel(p)])
  }

  /** Where the price comes from before `parseFloat(..).toFixed(2)` formats it. */
  datatype PriceSource = NoPrice | FromAttribute(raw: string) | FromElement(digits: string)

  function PriceSourceOf(p: Node): PriceSource {
    var dataPrice := AttributeOrEmpty(p, "data-price");
    if dataPrice != "" then FromAttribute(dataPrice)
    else match p.priceText
      case None => NoPrice
      case Some(text) =>
        var digits := Text.KeepPriceChars(text);
        FromElement(if digits == "" then "0" else digits)
  }

  /** The price text; `format` stands for `(parseFloat(x) || 0).toFixed(2)`. */
  function PriceOf(p: Node, format: string -> string): string {
    match PriceSourceOf(p)
    case NoPrice => DefaultPrice
    case FromAttribute(raw) => format(raw)
    case FromElement(digits) => format(digits)
  }

  /** Only a non-empty `data-price` is used; text from a price element is reduced to digits and dots. */
  lemma PriceSourceShape(p: Node)
    ensures PriceSourceOf(p).FromAttribute? <==> AttributeOrEmpty(p, "data-price") != ""
    ensures PriceSourceOf(p).NoPrice? <==> AttributeOrEmpty(p, "data-price") == "" && p.priceText.None?
    ensures PriceSourceOf(p).FromAttribute? ==> PriceSourceOf(p).raw == AttributeOrEmpty(p, "data-price")
    ensures PriceSourceOf(p).FromElement? ==>
      PriceSourceOf(p).digits == (if Text.KeepPriceChars(p.priceText.value) == "" then "0" else Text.KeepPriceChars(p.priceText.value))
    ensures PriceSourceOf(p).FromElement? ==> PriceSourceOf(p).digits != ""
    ensures PriceSourceOf(p).FromElement? ==> forall i :: 0 <= i < |PriceSourceOf(p).digits| ==> Text.IsPriceChar(PriceSourceOf(p).digits[i])
  {
  }

  /** The price is "0.00" when there is no source, and the formatted source text otherwise. */
  lemma PriceOfSource(p: Node, format: string -> string)
    ensures PriceSourceOf(p).NoPrice? ==> PriceOf(p, format) == DefaultPrice
    ensures PriceSourceOf(p).FromAttribute? ==> PriceOf(p, format) == format(AttributeOrEmpty(p, "data-price"))
    ensures PriceSourceOf(p).FromElement? ==> PriceOf(p, format) == format(PriceSourceOf(p).digits)
  {
  }

  datatype Link = Link(url: string, imageUrl: string)

  /**
   * URL and image: the first anchor's `href` and image; else, for an `<a>` element, its own `href`
   * and first image; else a product URL built from `data-ref-id` with the element's first image;
   * else nothing.
   */
  function LinkOf(p: Node): Link {
    match p.firstAnchor
    case Some(a) => Link(a.href, OrEmpty(a.imageSrc))
    case None =>
      if p.tagName == "A" then Link(p.href, OrEmpty(p.imageSrc))
      else if AttributeOrEmpty(p, "data-ref-id") != "" then
        Link(ProductUrlPrefix + AttributeOrEmpty(p, "data-ref-id") + "/", OrEmpty(p.imageSrc))
      else Link("", "")
  }

  function ProductInfoOf(card: Card, format: string -> string): ProductInfo {
    var p := ProductElement(card);
    ProductInfo(TitleOf(p), PriceOf(p, format), LinkOf(p).url, LinkOf(p).imageUrl)
  }

  /** A card has a title exactly when its product element is named or its first anchor is labelled. */
  lemma TitleFoundIff(card: Card)
    ensures TitleOf(ProductElement(card)) != "" <==>
      AttributeOrEmpty(ProductElement(card), "data-product-name") != "" || AnchorLabel(ProductElement(card)) != ""
    ensures AttributeOrEmpty(ProductElement(card), "data-product-name") != "" ==>
      TitleOf(ProductElement(card)) == AttributeOrEmpty(ProductElement(card), "data-product-name")
    ensures AttributeOrEmpty(ProductElement(card), "data-product-name") == "" ==>
      TitleOf(ProductElement(card)) == AnchorLabel(ProductElement(card))
  {
    var p := ProductElement(card);
    var c := [AttributeOrEmpty(p, "data-product-name"), AnchorLabel(p)];
    assert c[0] == "" ==> (forall j :: 0 <= j < 1 ==> c[j] == "");
    assert c[0] == "" && c[1] == "" ==> (forall j :: 0 <= j < 2 ==> c[j] == "");
  }

  /**
   * A URL is found exactly when the product element has an anchor with an `href`, is itself an
   * `<a>` with an `href`, or has a `data-ref-id`.
   */
  lemma UrlFoundIff(p: Node)
    ensures LinkOf(p).url != "" <==>
      (p.firstAnchor.Some? && p.firstAnchor.value.href != "")
      || (p.firstAnchor.None? && p.tagName == "A" && p.href != "")
      || (p.firstAnchor.None? && p.tagName != "A" && AttributeOrEmpty(p, "data-ref-id") != "")
    ensures LinkOf(p).url == "" ==> p.firstAnchor.Some? || p.tagName == "A" || LinkOf(p).imageUrl == ""
  {
  }

  /** The in-page extraction closure, reassigning its fields branch by branch. */
  method ExtractProductInfo(card: Card, format: string -> string) returns (info: ProductInfo)
    ensures info == ProductInfoOf(card, format)
  {
    var productEl := if card.namedDescendant.Some? then card.namedDescendant.value else card.element;

    var title := AttributeOrEmpty(productEl, "data-product-name");
    if title == "" {
      if productEl.firstAnchor.Some? {
        title := OrEmpty(productEl.firstAnchor.value.ariaLabel);
      }
    }
    assert title == TitleOf(productEl) by {
      var c := [AttributeOrEmpty(productEl, "data-product-name"), AnchorLabel(productEl)];
      assert c[0] == "" ==> (forall j :: 0 <= j < 1 ==> c[j] == "");
      assert c[0] == "" && c[1] == "" ==> (forall j :: 0 <= j < 2 ==> c[j] == "");
    }

    var price := DefaultPrice;
    var dataPrice := AttributeOrEmpty(productEl, "data-price");
    if dataPrice != "" {
      price := format(dataPrice);
    } else if productEl.priceText.Some? {
      var rawPrice := Text.KeepPriceChars(productEl.priceText.value);
      if rawPrice == "" {
        rawPrice := "0";
      }
      price := format(rawPrice);
    }

    var url := "";
    var imageUrl := "";
    if productEl.firstAnchor.Some? {
      var link := productEl.firstAnchor.value;
      url := link.href;
      if link.imageSrc.Some? {
        imageUrl := link.imageSrc.value;
      }
    } else if productEl.tagName == "A" {
      url := productEl.href;
      if productEl.imageSrc.Some? {
        imageUrl := productEl.imageSrc.value;
      }
    } else {
      var refId := AttributeOrEmpty(productEl, "data-ref-id");
      if refId != "" {
        url := ProductUrlPrefix + refId + "/";
        if productEl.imageSrc.Some? {
          imageUrl := productEl.imageSrc.value;
        }
      }
    }

    info := ProductInfo(title, price, url, imageUrl);
  }

  /** `ikea-${index}` */
  function ItemId(index: nat): (r: string)
    ensures |r| > |IdPrefix| && r[..|IdPrefix|] == IdPrefix && Decimal.AllDigits(r[|IdPrefix|..])
  {
    IdPrefix + Decimal.NatToString(index)
  }

  /** Cards at different positions get different ids. */
  lemma ItemIdInjective(i: nat, j: nat)
    ensures ItemId(i) == ItemId(j) ==> i == j
  {
    if ItemId(i) == ItemId(j) {
      assert Decimal.NatToString(i) == ItemId(i)[|IdPrefix|..];
      assert Decimal.NatToString(j) == ItemId(j)[|IdPrefix|..];
      Decimal.NatToStringInjective(i, j);
    }
  }

  /** The item for a card, or None when its title or URL is missing. */
  function BuildItem(category: string, index: nat, info: ProductInfo): (r: Option<FurnitureItem>)
    ensures r.Some? <==> info.title != "" && info.url != ""
    ensures r.Some? ==> r.value.title == info.title && r.value.description == info.title
    ensures r.Some? ==> r.value.id == ItemId(index) && r.value.category == category
    ensures r.Some? ==> r.value.price == "$" + info.price
    ensures r.Some? ==> r.value.imageUrl == (if info.imageUrl != "" then info.imageUrl else info.url)
    ensures r.Some? ==> r.value.imageUrl != "" && r.value.title != ""
  {
    if info.title != "" && info.url != "" then
      Some(FurnitureItem(
        id := ItemId(index),
        title := info.title,
        description := info.title,
        price := "$" + info.price,
        category := category,
        imageUrl := if info.imageUrl != "" then info.imageUrl else info.url))
    else None
  }

  /** One card's contribution: an unreadable card, like an incomplete one, yields None. */
  function CardOutcome(category: string, index: nat, product: Product, format: string -> string): Option<FurnitureItem> {
    match product
    case Unreadable => None
    case Readable(card) => BuildItem(category, index, ProductInfoOf(card, format))
  }

  function Min(a: nat, b: nat): nat {
    if a <= b then a else b
  }

  /** `products.slice(0, limit).map(...)`: one outcome per card of the capped list. */
  function Candidates(category: string, products: seq<Product>, format: string -> string, limit: nat): (r: seq<Option<FurnitureItem>>)
    ensures |r| == Min(limit, |products|)
  {
    seq(Min(limit, |products|), i requires 0 <= i < Min(limit, |products|) => CardOutcome(category, i, products[i], format))
  }

  /** The map over the capped card list, run one card after another. */
  method ExtractAll(category: string, products: seq<Product>, format: string -> string, limit: nat)
    returns (outcomes: seq<Option<FurnitureItem>>)
    ensures outcomes == Candidates(category, products, format, limit)
  {
    var capped := products[..Min(limit, |products|)];
    outcomes := [];
    for index := 0 to |capped|
      invariant |outcomes| == index
      invariant forall k :: 0 <= k < index ==> outcomes[k] == CardOutcome(category, k, products[k], format)
    {
      var outcome: Option<FurnitureItem> := None;
      match capped[index] {
        case Unreadable =>
        case Readable(card) =>
          var info := ExtractProductInfo(card, format);
          outcome := BuildItem(category, index, info);
      }
      outcomes := outcomes + [outcome];
    }
  }

  /** `items.filter(item => item !== null)` */
  function KeepValid(outcomes: seq<Option<FurnitureItem>>): (r: seq<FurnitureItem>)
    ensures |r| <= |outcomes|
  {
    if outcomes == [] then []
    else (match outcomes[0] case Some(x) => [x] case None => []) + KeepValid(outcomes[1..])
  }

  /** The filter keeps order: filtering a concatenation concatenates the filtered parts. */
  lemma {:induction false} KeepValidAppend(a: seq<Option<FurnitureItem>>, b: seq<Option<FurnitureItem>>)
    ensures KeepValid(a + b) == KeepValid(a) + KeepValid(b)
  {
    if a == [] {
      assert a + b == b;
    } else {
      assert (a + b)[1..] == a[1..] + b;
      KeepValidAppend(a[1..], b);
    }
  }

  /** An item survives the filter exactly when some outcome holds it. */
  lemma {:induction false} KeepValidMembers(outcomes: seq<Option<FurnitureItem>>, x: FurnitureItem)
    ensures x in KeepValid(outcomes) <==> Some(x) in outcomes
  {
    if outcomes != [] {
      KeepValidMembers(outcomes[1..], x);
      assert outcomes == [outcomes[0]] + outcomes[1..];
    }
  }

  /** When no two outcomes share an id, neither do the kept items. */
  lemma {:induction false} KeepValidDistinctIds(outcomes: seq<Option<FurnitureItem>>)
    requires forall i, j :: 0 <= i < j < |outcomes| && outcomes[i].Some? && outcomes[j].Some? ==> outcomes[i].value.id != outcomes[j].value.id
    ensures forall i, j :: 0 <= i < j < |KeepValid(outcomes)| ==> KeepValid(outcomes)[i].id != KeepValid(outcomes)[j].id
  {
    if outcomes != [] {
      var rest := KeepValid(outcomes[1..]);
      KeepValidDistinctIds(outcomes[1..]);
      if outcomes[0].Some? {
        forall y | y in rest ensures y.id != outcomes[0].value.id {
          KeepValidMembers(outcomes[1..], y);
          var k :| 0 <= k < |outcomes[1..]| && outcomes[1..][k] == Some(y);
          assert outcomes[k + 1] == Some(y);
        }
        assert KeepValid(outcomes) == [outcomes[0].value] + rest;
      }
    }
  }

  /** The items one successful attempt returns from the cards it found. */
  function ScrapedItems(category: string, products: seq<Product>, format: string -> string, limit: nat): seq<FurnitureItem> {
    KeepValid(Candidates(category, products, format, limit))
  }

  /** The shape of every item the scraper keeps for a category. */
  ghost predicate WellFormedFor(category: string, x: FurnitureItem) {
    && x.category == category
    && x.title != "" && x.description == x.title
    && x.imageUrl != ""
    && Text.IsPrefix("$", x.price)
  }

  /**
   * At most `limit` items are kept, each complete and labelled with its category, ids pairwise
   * distinct, and a card's item is kept exactly when its extraction found a title and a URL.
   */
  lemma ScrapedItemsProperties(category: string, products: seq<Product>, format: string -> string, limit: nat)
    ensures |ScrapedItems(category, products, format, limit)| <= limit
    ensures forall x :: x in ScrapedItems(category, products, format, limit) ==> WellFormedFor(category, x)
    ensures forall i, j :: 0 <= i < j < |ScrapedItems(category, products, format, limit)| ==>
      ScrapedItems(category, products, format, limit)[i].id != ScrapedItems(category, products, format, limit)[j].id
  {
    var outcomes := Candidates(category, products, format, limit);
    forall x | x in ScrapedItems(category, products, format, limit) ensures WellFormedFor(category, x) {
      KeepValidMembers(outcomes, x);
      var k :| 0 <= k < |outcomes| && outcomes[k] == Some(x);
      assert x.price == "$" + ProductInfoOf(products[k].card, format).price;
    }
    forall i, j | 0 <= i < j < |outcomes| && outcomes[i].Some? && outcomes[j].Some?
      ensures outcomes[i].value.id != outcomes[j].value.id
    {
      ItemIdInjective(i, j);
    }
    KeepValidDistinctIds(outcomes);
  }

  /** The card at position `index` of the capped list contributes an item exactly when it is readable and complete. */
  lemma CardKeptIff(category: string, products: seq<Product>, format: string -> string, limit: nat, index: nat)
    requires index < Min(limit, |products|)
    ensures (exists x :: x in ScrapedItems(category, products, format, limit) && x.id == ItemId(index)) <==>
      (products[index].Readable? && TitleOf(ProductElement(products[index].card)) != ""
        && LinkOf(ProductElement(products[index].card)).url != "")
  {
    var outcomes := Candidates(category, products, format, limit);
    if products[index].Readable? && TitleOf(ProductElement(products[index].card)) != ""
        && LinkOf(ProductElement(products[index].card)).url != "" {
      var x := outcomes[index].value;
      KeepValidMembers(outcomes, x);
    }
    if x :| x in ScrapedItems(category, products, format, limit) && x.id == ItemId(index) {
      KeepValidMembers(outcomes, x);
      var k :| 0 <= k < |outcomes| && outcomes[k] == Some(x);
      ItemIdInjective(k, index);
    }
  }
}
