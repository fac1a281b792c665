/**
 * Choosing the CSS selector for product cards (scripts/scrape.ts): every
 * candidate is counted on the page and the first one, in a fixed priority
 * order, that matches anything is used.
 */
module SelectorProbe {
  import opened Options

  /** The candidate selectors, highest priority first. */
  const DebugSelectors: seq<string> := [
    ".pip-product-compact",
    "[data-product-card]",
    ".product-compact",
    ".product-card",
    ".product",
    ".plp-fragment-wrapper",
    ".plp-product-list__products",
    "[data-ref-type=\"product\"]"
  ]

  /** A selector with the number of elements `querySelectorAll` found for it. */
  datatype Probe = Probe(selector: string, count: nat)

  /** `document.querySelectorAll(selector).length`; a selector the page has no entry for matches nothing. */
  function CountOf(counts: map<string, nat>, selector: string): nat {
    if selector in counts then counts[selector] else 0
  }

  /** `selectors.map(selector => ({ selector, count }))` */
  function ProbeAll(selectors: seq<string>, counts: map<string, nat>): seq<Probe> {
    seq(|selectors|, i requires 0 <= i < |selectors| => Probe(selectors[i], CountOf(counts, selectors[i])))
  }

  /** `probes.find(s => s.count > 0)`, as the index of the probe found. */
  function FirstWorking(probes: seq<Probe>): (r: Option<nat>)
    ensures r.None? <==> forall j :: 0 <= j < |probes| ==> probes[j].count == 0
    ensures r.Some? ==> r.value < |probes| && probes[r.value].count > 0
    ensures r.Some? ==> forall j :: 0 <= j < r.value ==> probes[j].count == 0
  {
    if probes == [] then None
    else if probes[0].count > 0 then Some(0)
    else match FirstWorking(probes[1..])
      case None => None
      case Some(k) => Some(k + 1)
  }

  /** The priority position of the working selector, or None when no candidate matches. */
  function ChooseIndex(counts: map<string, nat>): (r: Option<nat>)
    ensures r.None? <==> forall i :: 0 <= i < |DebugSelectors| ==> CountOf(counts, DebugSelectors[i]) == 0
    ensures r.Some? ==> r.value < |DebugSelectors| && CountOf(counts, DebugSelectors[r.value]) > 0
    ensures r.Some? ==> forall j :: 0 <= j < r.value ==> CountOf(counts, DebugSelectors[j]) == 0
  {
    var probes := ProbeAll(DebugSelectors, counts);
    assert forall i :: 0 <= i < |probes| ==> probes[i].count == CountOf(counts, DebugSelectors[i]);
    FirstWorking(probes)
  }

  /** The working selector of a page with its count, or None (the attempt then fails). */
  function ChooseSelector(counts: map<string, nat>): (r: Option<Probe>)
    ensures r.None? <==> ChooseIndex(counts).None?
    ensures r.Some? ==> r.value.count > 0
    ensures r.Some? ==> r.value.selector == DebugSelectors[ChooseIndex(counts).value]
    ensures r.Some? ==> r.value.count == CountOf(counts, r.value.selector)
  {
    match ChooseIndex(counts)
    case None => None
    case Some(k) => Some(Probe(DebugSelectors[k], CountOf(counts, DebugSelectors[k])))
  }

  /** When only the fifth-priority selector matches, it is the one chosen, whatever else the page holds. */
  lemma OnlyFifthSelectorMatches(counts: map<string, nat>)
    requires forall i :: 0 <= i < |DebugSelectors| && i != 4 ==> CountOf(counts, DebugSelectors[i]) == 0
    requires CountOf(counts, ".product") > 0
    ensures ChooseSelector(counts) == Some(Probe(".product", CountOf(counts, ".product")))
  {
    assert CountOf(counts, DebugSelectors[4]) > 0;
  }

  /** A higher-priority selector that matches always wins over a lower-priority one. */
  lemma HigherPriorityWins(counts: map<string, nat>, i: nat, j: nat)
    requires i < j < |DebugSelectors|
    requires CountOf(counts, DebugSelectors[i]) > 0
    ensures ChooseSelector(counts).Some? && ChooseSelector(counts).value.selector != DebugSelectors[j]
  {
  }
}
