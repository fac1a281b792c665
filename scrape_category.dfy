/**
 * Scraping one category (scripts/scrape.ts): an attempt navigates, rejects a
 * redirect to the generic products page, waits for the content, probes the
 * selectors, waits for the chosen one and extracts the capped card list; the
 * attempt is retried up to three times, and a category whose three attempts
 * all fail yields no items.
 *
 * The browser is not modelled: what the site shows on each attempt is given
 * as an `Attempt` value.
 */
module CategoryScraper {
  import opened Options
  import opened Furniture
  import Text
  import SelectorProbe
  import ProductExtraction

  const MaxRetries: nat := 3
  const RedirectMarker := "/products-products/"

  /** What the page looks like once navigation has finished. */
  datatype PageState = PageState(
    currentUrl: string,                                  // page.url() after goto
    contentAppears: bool,                                // the content-area wait (1 s) succeeds
    counts: map<string, nat>,                            // querySelectorAll counts at probing time
    selectorAppears: bool,                               // the wait for the chosen selector (10 s) succeeds
    elements: map<string, seq<ProductExtraction.Product>>) // page.$$(selector)

  /** One attempt as the site answers it: navigation throws, or a page is reached. */
  datatype Attempt = NavigationError | Navigated(page: PageState)

  datatype FailureReason = NavigationFailed | Redirected | ContentTimeout | NoProductSelector | SelectorTimeout

  datatype AttemptResult = AttemptFailed(reason: FailureReason) | AttemptSucceeded(items: seq<FurnitureItem>)

  function ElementsFor(page: PageState, selector: string): seq<ProductExtraction.Product> {
    if selector in page.elements then page.elements[selector] else []
  }

  /** What one pass through the body of the retry loop produces. */
  function AttemptOf(category: string, attempt: Attempt, format: string -> string, limit: nat): AttemptResult {
    match attempt
    case NavigationError => AttemptFailed(NavigationFailed)
    case Navigated(page) =>
      if Text.Contains(page.currentUrl, RedirectMarker) then AttemptFailed(Redirected)
      else if !page.contentAppears then AttemptFailed(ContentTimeout)
      else match SelectorProbe.ChooseSelector(page.counts)
        case None => AttemptFailed(NoProductSelector)
        case Some(probe) =>
          if !page.selectorAppears then AttemptFailed(SelectorTimeout)
          else AttemptSucceeded(ProductExtraction.ScrapedItems(category, ElementsFor(page, probe.selector), format, limit))
  }

  /** A redirect to the generic products page fails the attempt before anything is extracted. */
  lemma RedirectFailsAttempt(category: string, page: PageState, format: string -> string, limit: nat)
    requires exists i :: Text.OccursAt(page.currentUrl, RedirectMarker, i)
    ensures AttemptOf(category, Navigated(page), format, limit) == AttemptFailed(Redirected)
  {
    Text.ContainsIffOccurs(page.currentUrl, RedirectMarker);
  }

  /** A page on which no candidate selector matches fails the attempt. */
  lemma NoSelectorFailsAttempt(category: string, page: PageState, format: string -> string, limit: nat)
    requires !Text.Contains(page.currentUrl, RedirectMarker) && page.contentAppears
    requires forall i :: 0 <= i < |SelectorProbe.DebugSelectors| ==> SelectorProbe.CountOf(page.counts, SelectorProbe.DebugSelectors[i]) == 0
    ensures AttemptOf(category, Navigated(page), format, limit) == AttemptFailed(NoProductSelector)
  {
  }

  /** One attempt, in the order of its awaits; every thrown error ends it as a failure. */
  method RunAttempt(category: string, attempt: Attempt, format: string -> string, limit: nat)
    returns (result: AttemptResult)
    ensures result == AttemptOf(category, attempt, format, limit)
  {
    if attempt.NavigationError? {
      return AttemptFailed(NavigationFailed);
    }
    var page := attempt.page;
    if Text.Contains(page.currentUrl, RedirectMarker) {
      return AttemptFailed(Redirected);
    }
    if !page.contentAppears {
      return AttemptFailed(ContentTimeout);
    }
    var workingSelector := SelectorProbe.ChooseSelector(page.counts);
    if workingSelector.None? {
      return AttemptFailed(NoProductSelector);
    }
    if !page.selectorAppears {
      return AttemptFailed(SelectorTimeout);
    }
    var products := ElementsFor(page, workingSelector.value.selector);
    var outcomes := ProductExtraction.ExtractAll(category, products, format, limit);
    var validItems := ProductExtraction.KeepValid(outcomes);
    return AttemptSucceeded(validItems);
  }

  /** The result of each of the attempts, in order. */
  function Outcomes(category: string, attempts: seq<Attempt>, format: string -> string, limit: nat): seq<AttemptResult> {
    seq(|attempts|, k requires 0 <= k < |attempts| => AttemptOf(category, attempts[k], format, limit))
  }

  /** The items of the first successful result from position k on, or [] when none succeeds. */
  function FirstSuccessItems(results: seq<AttemptResult>, k: nat): seq<FurnitureItem>
    requires k <= |results|
    decreases |results| - k
  {
    if k == |results| then []
    else match results[k]
      case AttemptSucceeded(items) => items
      case AttemptFailed(_) => FirstSuccessItems(results, k + 1)
  }

  /** What `scrapeCategory` returns, given what the site shows on each of the three attempts. */
  function CategoryItems(category: string, attempts: seq<Attempt>, format: string -> string, limit: nat): seq<FurnitureItem>
    requires |attempts| == MaxRetries
  {
    FirstSuccessItems(Outcomes(category, attempts, format, limit), 0)
  }

  /**
   * How the retry loop ends, given the results its attempts would have: it stops at the first
   * success, returning its items after one wait per earlier failure; after MaxRetries failures it
   * returns [] having waited after all but the last.
   */
  ghost predicate RetryEnds(results: seq<AttemptResult>, items: seq<FurnitureItem>, attemptsMade: nat, delays: nat)
    requires |results| == MaxRetries
  {
    && 1 <= attemptsMade <= MaxRetries
    && (forall k :: 0 <= k < attemptsMade - 1 ==> results[k].AttemptFailed?)
    && (results[attemptsMade - 1].AttemptSucceeded? ==>
          items == results[attemptsMade - 1].items && delays == attemptsMade - 1)
    && (results[attemptsMade - 1].AttemptFailed? ==>
          items == [] && attemptsMade == MaxRetries && delays == MaxRetries - 1)
  }

  /** The way the loop ends determines what it returns: the same as the declarative definition. */
  lemma RetryEndsDeterminesItems(results: seq<AttemptResult>, items: seq<FurnitureItem>, attemptsMade: nat, delays: nat)
    requires |results| == MaxRetries
    requires RetryEnds(results, items, attemptsMade, delays)
    ensures items == FirstSuccessItems(results, 0)
  {
    var n := attemptsMade - 1;
    if results[n].AttemptSucceeded? {
      FirstSuccessItemsSkipsFailures(results, n);
    } else {
      FirstSuccessItemsSkipsFailures(results, MaxRetries);
    }
  }

  lemma {:induction false} FirstSuccessItemsSkipsFailures(results: seq<AttemptResult>, n: nat)
    requires n <= |results|
    requires forall k :: 0 <= k < n ==> results[k].AttemptFailed?
    ensures FirstSuccessItems(results, 0) == FirstSuccessItems(results, n)
  {
    if n > 0 {
      FirstSuccessItemsSkipsFailures(results, n - 1);
    }
  }

  /** The loop stops at attempt k + 1 with the items of its success, after k waits. */
  lemma SuccessEnds(results: seq<AttemptResult>, k: nat)
    requires |results| == MaxRetries && k < MaxRetries
    requires forall j :: 0 <= j < k ==> results[j].AttemptFailed?
    requires results[k].AttemptSucceeded?
    ensures RetryEnds(results, results[k].items, k + 1, k)
    ensures results[k].items == FirstSuccessItems(results, 0)
  {
    RetryEndsDeterminesItems(results, results[k].items, k + 1, k);
  }

  /** After MaxRetries failures the loop returns [] having waited between attempts only. */
  lemma FailureEnds(results: seq<AttemptResult>)
    requires |results| == MaxRetries
    requires forall j :: 0 <= j < MaxRetries ==> results[j].AttemptFailed?
    ensures RetryEnds(results, [], MaxRetries, MaxRetries - 1)
    ensures FirstSuccessItems(results, 0) == []
  {
    RetryEndsDeterminesItems(results, [], MaxRetries, MaxRetries - 1);
  }

  /**
   * The retry loop. `attempts[k]` is what the site shows on attempt k + 1; `attemptsMade` counts
   * the attempts run and `delays` the waits between them.
   */
  method ScrapeCategory(category: string, attempts: seq<Attempt>, format: string -> string, limit: nat)
    returns (items: seq<FurnitureItem>, attemptsMade: nat, delays: nat)
    requires |attempts| == MaxRetries
    ensures RetryEnds(Outcomes(category, attempts, format, limit), items, attemptsMade, delays)
    ensures items == CategoryItems(category, attempts, format, limit)
  {
    ghost var results := Outcomes(category, attempts, format, limit);
    items := [];
    var retries := 0;
    attemptsMade, delays := 0, 0;
    while retries < MaxRetries
      invariant 0 <= retries <= MaxRetries
      invariant attemptsMade == retries
      invariant delays == if retries < MaxRetries then retries else MaxRetries - 1
      invariant items == []
      invariant forall k :: 0 <= k < retries ==> results[k].AttemptFailed?
    {
      attemptsMade := attemptsMade + 1;
      var result := RunAttempt(category, attempts[retries], format, limit);
      assert result == results[retries];
      if result.AttemptSucceeded? {
        SuccessEnds(results, retries);
        return result.items, attemptsMade, delays;
      }
      retries := retries + 1;
      if retries != MaxRetries {
        delays := delays + 1;
      }
    }
    FailureEnds(results);
    return items, attemptsMade, delays;
  }

  /** A category whose three attempts all fail yields no items, without an error. */
  lemma AllAttemptsFailYieldsEmpty(category: string, attempts: seq<Attempt>, format: string -> string, limit: nat)
    requires |attempts| == MaxRetries
    requires forall k :: 0 <= k < MaxRetries ==> AttemptOf(category, attempts[k], format, limit).AttemptFailed?
    ensures CategoryItems(category, attempts, format, limit) == []
  {
    var results := Outcomes(category, attempts, format, limit);
    FirstSuccessItemsSkipsFailures(results, MaxRetries);
  }

  /** At most `limit` items, each complete and labelled with the category, with pairwise distinct ids. */
  ghost predicate GoodItems(category: string, limit: nat, items: seq<FurnitureItem>) {
    && |items| <= limit
    && (forall x :: x in items ==> ProductExtraction.WellFormedFor(category, x))
    && (forall i, j :: 0 <= i < j < |items| ==> items[i].id != items[j].id)
  }

  /** Whatever single attempt succeeds returns good items. */
  lemma {:induction false} AttemptItemsGood(category: string, attempt: Attempt, format: string -> string, limit: nat)
    ensures AttemptOf(category, attempt, format, limit).AttemptSucceeded? ==>
      GoodItems(category, limit, AttemptOf(category, attempt, format, limit).items)
  {
    match attempt
    case NavigationError =>
    case Navigated(page) =>
      var probe := SelectorProbe.ChooseSelector(page.counts);
      if probe.Some? {
        ProductExtraction.ScrapedItemsProperties(category, ElementsFor(page, probe.value.selector), format, limit);
      }
  }

  /** When every success among the results is good, so is the first one (and [] is good). */
  lemma {:induction false} FirstSuccessItemsGood(category: string, limit: nat, results: seq<AttemptResult>, k: nat)
    requires k <= |results|
    requires forall j :: k <= j < |results| && results[j].AttemptSucceeded? ==> GoodItems(category, limit, results[j].items)
    ensures GoodItems(category, limit, FirstSuccessItems(results, k))
    decreases |results| - k
  {
    if k < |results| && results[k].AttemptFailed? {
      FirstSuccessItemsGood(category, limit, results, k + 1);
    }
  }

  /** The items a category yields, from whichever attempt, are good. */
  lemma CategoryItemsProperties(category: string, attempts: seq<Attempt>, format: string -> string, limit: nat)
    requires |attempts| == MaxRetries
    ensures GoodItems(category, limit, CategoryItems(category, attempts, format, limit))
  {
    var results := Outcomes(category, attempts, format, limit);
    forall j | 0 <= j < |results| && results[j].AttemptSucceeded?
      ensures GoodItems(category, limit, results[j].items)
    {
      AttemptItemsGood(category, attempts[j], format, limit);
    }
    FirstSuccessItemsGood(category, limit, results, 0);
  }
}
