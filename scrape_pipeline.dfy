/**
 * The scraper's driver (scripts/scrape.ts): the categories are scraped one
 * after another and their items concatenated in category order; the summary
 * counts the items of each category.
 */
module ScrapePipeline {
  import opened Furniture
  import CategoryScraper
  import ProductExtraction

  datatype Category = Category(url: string, name: string)

  const Categories: seq<Category> := [
    Category("https://www.ikea.com/us/en/cat/sofas-sectionals-fu003/", "Living Room"),
    Category("https://www.ikea.com/us/en/cat/beds-bm003/", "Bedroom"),
    Category("https://www.ikea.com/us/en/cat/dining-sets-25219/", "Dining")
  ]

  const ItemsPerCategory: nat := 7

  /** What the site shows on each attempt of each category: one row per category, one entry per attempt. */
  predicate WellShaped(sites: seq<seq<CategoryScraper.Attempt>>) {
    |sites| == |Categories| && forall i :: 0 <= i < |sites| ==> |sites[i]| == CategoryScraper.MaxRetries
  }

  /** Each category's items, in category order. */
  function PerCategory(sites: seq<seq<CategoryScraper.Attempt>>, format: string -> string): (r: seq<seq<FurnitureItem>>)
    requires WellShaped(sites)
    ensures |r| == |Categories|
  {
    seq(|Categories|, i requires 0 <= i < |Categories| =>
      CategoryScraper.CategoryItems(Categories[i].name, sites[i], format, ItemsPerCategory))
  }

  /** `items.push(...categoryItems)` for each list in turn. */
  function Concat(lists: seq<seq<FurnitureItem>>): seq<FurnitureItem> {
    if lists == [] then [] else Concat(lists[..|lists| - 1]) + lists[|lists| - 1]
  }

  /** The batch `scrapeFurniture` returns. */
  function Batch(sites: seq<seq<CategoryScraper.Attempt>>, format: string -> string): seq<FurnitureItem>
    requires WellShaped(sites)
  {
    Concat(PerCategory(sites, format))
  }

  /** `scrapeFurniture`'s loop: each category in turn, its items pushed onto the batch. */
  method ScrapeFurniture(sites: seq<seq<CategoryScraper.Attempt>>, format: string -> string)
    returns (items: seq<FurnitureItem>)
    requires WellShaped(sites)
    ensures items == Batch(sites, format)
  {
    ghost var lists := PerCategory(sites, format);
    items := [];
    for i := 0 to |Categories|
      invariant items == Concat(lists[..i])
    {
      var categoryItems, _, _ := CategoryScraper.ScrapeCategory(Categories[i].name, sites[i], format, ItemsPerCategory);
      assert lists[..i + 1][..i] == lists[..i];
      items := items + categoryItems;
    }
    assert lists[..|Categories|] == lists;
  }

  /** The number of items labelled with a category. */
  function Count(items: seq<FurnitureItem>, category: string): nat {
    if items == [] then 0
    else Count(items[..|items| - 1], category) + (if items[|items| - 1].category == category then 1 else 0)
  }

  lemma {:induction false} CountAppend(a: seq<FurnitureItem>, b: seq<FurnitureItem>, category: string)
    ensures Count(a + b, category) == Count(a, category) + Count(b, category)
    decreases |b|
  {
    if b == [] {
      assert a + b == a;
    } else {
      assert (a + b)[..|a + b| - 1] == a + b[..|b| - 1];
      CountAppend(a, b[..|b| - 1], category);
    }
  }

  lemma {:induction false} CountAllOf(items: seq<FurnitureItem>, category: string)
    requires AllLabelled(items, category)
    ensures Count(items, category) == |items|
  {
    if items != [] {
      CountAllOf(items[..|items| - 1], category);
    }
  }

  lemma {:induction false} CountNoneOf(items: seq<FurnitureItem>, category: string)
    requires forall x :: x in items ==> x.category != category
    ensures Count(items, category) == 0
  {
    if items != [] {
      CountNoneOf(items[..|items| - 1], category);
    }
  }

  /** `reduce((acc, item) => { acc[item.category] = (acc[item.category] || 0) + 1 }, {})` */
  function Tally(items: seq<FurnitureItem>): map<string, nat> {
    if items == [] then map[]
    else
      var acc := Tally(items[..|items| - 1]);
      var c := items[|items| - 1].category;
      acc[c := (if c in acc then acc[c] else 0) + 1]
  }

  /** The summary has a line for exactly the categories present, each with that category's item count. */
  lemma {:induction false} TallyCounts(items: seq<FurnitureItem>, category: string)
    ensures category in Tally(items) <==> Count(items, category) > 0
    ensures category in Tally(items) ==> Tally(items)[category] == Count(items, category)
  {
    if items != [] {
      TallyCounts(items[..|items| - 1], category);
    }
  }

  function TallyOf(summary: map<string, nat>, category: string): nat {
    if category in summary then summary[category] else 0
  }

  /** The summary lines of the listed categories added up. */
  function SumOver(summary: map<string, nat>, names: seq<string>): nat {
    if names == [] then 0 else TallyOf(summary, names[0]) + SumOver(summary, names[1..])
  }

  function CountOver(items: seq<FurnitureItem>, names: seq<string>): nat {
    if names == [] then 0 else Count(items, names[0]) + CountOver(items, names[1..])
  }

  lemma {:induction false} CountOverAppendOne(items: seq<FurnitureItem>, x: FurnitureItem, names: seq<string>)
    requires forall i, j :: 0 <= i < j < |names| ==> names[i] != names[j]
    ensures CountOver(items + [x], names) == CountOver(items, names) + (if x.category in names then 1 else 0)
  {
    if names != [] {
      CountOverAppendOne(items, x, names[1..]);
      assert (items + [x])[..|items + [x]| - 1] == items;
      assert x.category in names <==> x.category == names[0] || x.category in names[1..];
    }
  }

  lemma {:induction false} CountOverIsLength(items: seq<FurnitureItem>, names: seq<string>)
    requires forall i, j :: 0 <= i < j < |names| ==> names[i] != names[j]
    requires forall x :: x in items ==> x.category in names
    ensures CountOver(items, names) == |items|
    decreases |items|
  {
    if items == [] {
      CountOverOfEmpty(names);
    } else {
      var init := items[..|items| - 1];
      CountOverIsLength(init, names);
      assert items == init + [items[|items| - 1]];
      CountOverAppendOne(init, items[|items| - 1], names);
    }
  }

  lemma {:induction false} CountOverOfEmpty(names: seq<string>)
    ensures CountOver([], names) == 0
  {
    if names != [] {
      CountOverOfEmpty(names[1..]);
    }
  }

  lemma {:induction false} SumOverIsCountOver(items: seq<FurnitureItem>, names: seq<string>)
    ensures SumOver(Tally(items), names) == CountOver(items, names)
  {
    if names != [] {
      TallyCounts(items, names[0]);
      SumOverIsCountOver(items, names[1..]);
    }
  }

  /**
   * When every item is labelled with one of a list of distinct category names, the summary lines of
   * those names add up to the number of items.
   */
  lemma TallySumsToLength(items: seq<FurnitureItem>, names: seq<string>)
    requires forall i, j :: 0 <= i < j < |names| ==> names[i] != names[j]
    requires forall x :: x in items ==> x.category in names
    ensures SumOver(Tally(items), names) == |items|
  {
    SumOverIsCountOver(items, names);
    CountOverIsLength(items, names);
  }

  function CategoryNames(): (r: seq<string>)
    ensures |r| == |Categories| && forall i :: 0 <= i < |r| ==> r[i] == Categories[i].name
  {
    seq(|Categories|, i requires 0 <= i < |Categories| => Categories[i].name)
  }

  ghost predicate AllLabelled(items: seq<FurnitureItem>, name: string) {
    forall x :: x in items ==> x.category == name
  }

  /** Every item of the concatenation comes from one of the lists. */
  lemma {:induction false} ConcatMembers(lists: seq<seq<FurnitureItem>>, x: FurnitureItem)
    requires x in Concat(lists)
    ensures exists i :: 0 <= i < |lists| && x in lists[i]
  {
    var n := |lists|;
    if x !in lists[n - 1] {
      ConcatMembers(lists[..n - 1], x);
      var i :| 0 <= i < n - 1 && x in lists[..n - 1][i];
      assert x in lists[i];
    }
  }

  /** When list i holds only items labelled names[i], the concatenation counts list c's items under names[c]. */
  lemma {:induction false} ConcatCounts(lists: seq<seq<FurnitureItem>>, names: seq<string>, c: nat)
    requires |lists| <= |names| && c < |names|
    requires forall i, j :: 0 <= i < j < |names| ==> names[i] != names[j]
    requires forall i :: 0 <= i < |lists| ==> AllLabelled(lists[i], names[i])
    ensures Count(Concat(lists), names[c]) == if c < |lists| then |lists[c]| else 0
  {
    if lists != [] {
      var n := |lists|;
      var init := lists[..n - 1];
      assert forall i :: 0 <= i < |init| ==> init[i] == lists[i];
      ConcatCounts(init, names, c);
      var last := lists[n - 1];
      CountAppend(Concat(init), last, names[c]);
      if c == n - 1 {
        CountAllOf(last, names[c]);
      } else {
        assert names[n - 1] != names[c];
        CountNoneOf(last, names[c]);
      }
    }
  }

  /** The summary of a concatenation of per-name lists: one line per name with its list's length, adding up to the total. */
  lemma ConcatSummary(lists: seq<seq<FurnitureItem>>, names: seq<string>)
    requires |lists| == |names|
    requires forall i, j :: 0 <= i < j < |names| ==> names[i] != names[j]
    requires forall i :: 0 <= i < |lists| ==> AllLabelled(lists[i], names[i])
    ensures forall c :: 0 <= c < |names| ==> TallyOf(Tally(Concat(lists)), names[c]) == |lists[c]|
    ensures SumOver(Tally(Concat(lists)), names) == |Concat(lists)|
  {
    var batch := Concat(lists);
    forall c | 0 <= c < |names| ensures TallyOf(Tally(batch), names[c]) == |lists[c]| {
      ConcatCounts(lists, names, c);
      TallyCounts(batch, names[c]);
    }
    forall x | x in batch ensures x.category in names {
      ConcatMembers(lists, x);
      var i :| 0 <= i < |lists| && x in lists[i];
      assert AllLabelled(lists[i], names[i]);
    }
    TallySumsToLength(batch, names);
  }

  lemma PerCategoryLabelled(sites: seq<seq<CategoryScraper.Attempt>>, format: string -> string, i: nat)
    requires WellShaped(sites) && i < |Categories|
    ensures AllLabelled(PerCategory(sites, format)[i], Categories[i].name)
  {
    CategoryScraper.CategoryItemsProperties(Categories[i].name, sites[i], format, ItemsPerCategory);
  }

  /**
   * The summary line of each category equals the number of items that category yielded, and the
   * lines add up to the batch length.
   */
  lemma BatchSummary(sites: seq<seq<CategoryScraper.Attempt>>, format: string -> string)
    requires WellShaped(sites)
    ensures forall c :: 0 <= c < |Categories| ==>
      TallyOf(Tally(Batch(sites, format)), Categories[c].name) == |PerCategory(sites, format)[c]|
    ensures SumOver(Tally(Batch(sites, format)), CategoryNames()) == |Batch(sites, format)|
  {
    var lists := PerCategory(sites, format);
    var names := CategoryNames();
    forall i | 0 <= i < |lists| ensures AllLabelled(lists[i], names[i]) {
      PerCategoryLabelled(sites, format, i);
    }
    ConcatSummary(lists, names);
  }
}
