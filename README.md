# vennie, modelled in Dafny

vennie is a "swipe on furniture together" web app. Two partners swipe through furniture items.
An item both of them like becomes a match. The catalogue comes from a headless-browser scraper
that reads IKEA category pages.

This project models the decision logic of that scraper and of the client's core:

- **Scraper** (`scripts/scrape.ts`):
  - the redirect guard;
  - the selector probe;
  - the per-card extraction, with its title, price and URL fallback chains;
  - item construction and the validity filter;
  - the three-attempt retry loop;
  - the category loop and the per-category summary.
- **Client**:
  - the likes store (`useStore.ts`) and its matching rule;
  - the matches page filter and view;
  - the swipe page's index and likes;
  - the swipe card's keyboard and drag classification;
  - the image preloader;
  - the dark-mode toggle;
  - the registration form's submit handler;
  - `getCurrentUser`;
  - `loadFurniture`;
  - the route guard.

Modules follow the source files:

| module | models |
|---|---|
| `SelectorProbe`, `ProductExtraction`, `CategoryScraper`, `ScrapePipeline` | `scripts/scrape.ts` |
| `LikesStore` | `src/store/useStore.ts` |
| `MatchesPage` | `src/pages/MatchesPage.tsx` |
| `SwipePage` | `src/pages/SwipePage.tsx` |
| `SwipeCard` | `src/components/ui/SwipeCard.tsx` |
| `ImagePreloader` | `src/components/ImagePreloader.tsx` |
| `DarkMode` | `src/components/DarkModeToggle.tsx` |
| `RegisterPage` | `src/pages/RegisterPage.tsx` |
| `AuthUser` | `getCurrentUser` in `src/lib/supabase.ts` |
| `LoadFurniture` | `src/utils/loadFurniture.ts` |
| `ProtectedRoute` | `src/components/ProtectedRoute.tsx` |

Four helper modules support them:

- `Options`: an option type.
- `Furniture`: the item record.
- `Text`: the string operations `includes`, the price-character filter, `split('@')[0]` and `a || b || c`.
- `Decimal`: writing a number in decimal, for item ids.

## How the model is built

- **The browser is not modelled.** What a site shows on one scrape attempt is a value of type
  `CategoryScraper.Attempt`. That value records whether navigation threw, the URL reached,
  whether each wait succeeds, the selector counts, and the cards found.
- **Cards are data.** Each card (`ProductExtraction.Card`) carries the answers of the
  `querySelector` and `getAttribute` calls the in-page closure makes.
- **Number formatting is a parameter.** `(parseFloat(x) || 0).toFixed(2)` is the function
  parameter `format`.
- **Each imperative routine is a method proved against a specification function.**
  - The retry loop is `CategoryScraper.ScrapeCategory`, against `CategoryItems`.
  - The category loop is `ScrapePipeline.ScrapeFurniture`, against `Batch`.
  - The extraction closure that reassigns `title`/`price`/`url`/`imageUrl` is
    `ProductExtraction.ExtractProductInfo`, against `ProductInfoOf`.
  - The preloader loop is `ImagePreloader.PreloadImages`, against `UpcomingImages`.
  - Lemmas then state what the source promises about those specification functions.
- **Components with state are classes whose methods update fields.** These are the store, the
  swipe session, the swipe card, the dark-mode toggle and the registration form.
- **The store's invariant.** The set of `matches` equals the set of ids both users like. Every
  store action preserves it. The initial store satisfies it.

### A consequence worth knowing

Scraped ids are `ikea-<index>`, where the index counts cards within one category. Ids are
therefore distinct within a category (`ProductExtraction.ScrapedItemsProperties`). Two
categories can still produce the same id, so ids in the merged batch need not be distinct.

## Model

| member | source | states |
|---|---|---|
| SelectorProbe.FirstWorking | scripts/scrape.ts:106 | `find(s => s.count > 0)` gives the first probe with a positive count, or none exactly when every count is 0 |
| SelectorProbe.ChooseIndex | scripts/scrape.ts:77-95 | the chosen position is the first of the 8 candidate selectors, in priority order, that matches something on the page; none exactly when all counts are 0 |
| SelectorProbe.ChooseSelector | scripts/scrape.ts:89-114 | the working selector is the candidate at the chosen priority position, with a positive count equal to what the page reports for it |
| SelectorProbe.CountOf | scripts/scrape.ts:90-92 | `querySelectorAll(selector).length`: the count the page reports, 0 for a selector the page does not report |
| SelectorProbe.ProbeAll | scripts/scrape.ts:89-95 | one probe per selector, in the selectors' order, each with its count |
| SelectorProbe.HigherPriorityWins | scripts/scrape.ts:77-106 | when a higher-priority selector matches, a lower-priority one is never chosen |
| SelectorProbe.OnlyFifthSelectorMatches | scripts/scrape.ts:77-86 | when only `.product` matches, `.product` is chosen with its count |
| Text.Contains | scripts/scrape.ts:63 | `includes`: `sub` is a prefix of `s` or of one of its suffixes; stated by `ContainsIffOccurs` |
| Text.ContainsIffOccurs | scripts/scrape.ts:63 | the recursive `includes` holds exactly when the marker occurs at some position |
| CategoryScraper.RedirectFailsAttempt | scripts/scrape.ts:63-65 | a URL containing `/products-products/` fails the attempt (Redirected) before anything is extracted |
| CategoryScraper.NoSelectorFailsAttempt | scripts/scrape.ts:106-112 | when no candidate selector matches, the attempt fails (NoProductSelector) |
| CategoryScraper.AttemptOf | scripts/scrape.ts:45-217 | what one attempt yields: failure on a navigation error, a redirect, the content timeout, no matching selector or the selector timeout, in that order, else the filtered items of the chosen selector's cards; stated by `RedirectFailsAttempt`, `NoSelectorFailsAttempt` and `AttemptItemsGood` |
| CategoryScraper.RunAttempt | scripts/scrape.ts:45-217 | one attempt in the order of its awaits; each thrown error (navigation, redirect, the two timeouts, no selector) ends it as a failure, else it returns the filtered items of the chosen selector's cards. A throw from `page.title()` (line 58), the probe `evaluate` (line 89) or `page.$$` (line 124) can only be expressed as the navigation failure |
| ProductExtraction.TitleOf | scripts/scrape.ts:142-148 | the title: a non-empty `data-product-name`, else the first anchor's `aria-label`, else ""; its properties are stated by `TitleFoundIff` |
| ProductExtraction.TitleFoundIff | scripts/scrape.ts:139-148 | the title is non-empty exactly when the product element is named or its first anchor is labelled; a non-empty name is the title; without a name the title is the first anchor's label ("" without an anchor or label) |
| ProductExtraction.PriceSourceOf | scripts/scrape.ts:151-161 | where the price comes from: a non-empty `data-price`, else the price element's text, else nothing; its properties are stated by `PriceSourceShape` |
| ProductExtraction.PriceSourceShape | scripts/scrape.ts:151-161 | the attribute is the source exactly when `data-price` is non-empty, and then its value is used as it is; there is no source exactly when `data-price` is empty and there is no price element; text from a price element becomes its digits and dots, or "0" when none are left |
| ProductExtraction.PriceOf | scripts/scrape.ts:151-161 | the price text: "0.00" without a source, otherwise `format` applied to the source text; stated by `PriceOfSource` |
| ProductExtraction.PriceOfSource | scripts/scrape.ts:151-161 | with no price source the price stays "0.00"; with an attribute it is the formatted `data-price`; with a price element it is the formatted digits |
| Text.KeepPriceChars | scripts/scrape.ts:158 | `replace(/[^0-9.]/g, '')` keeps only digits and dots, never lengthening the text |
| Text.KeepPriceCharsKeepsPriceText | scripts/scrape.ts:158 | text made only of digits and dots passes through unchanged |
| Text.KeepPriceCharsCounts | scripts/scrape.ts:158 | every digit or dot is kept as often as it occurred, so nothing of the price is lost |
| ProductExtraction.LinkOf | scripts/scrape.ts:164-189 | URL and image: the first anchor's `href` and image; else, for an `A` element, its own `href` and first image; else the product URL built from `data-ref-id` with the first image; else both ""; stated by `UrlFoundIff` |
| ProductExtraction.UrlFoundIff | scripts/scrape.ts:164-189 | a URL is found exactly when the element has a first anchor with a non-empty href; or it has no anchor, is an `A` and has a non-empty href; or it has no anchor, is not an `A` and has a `data-ref-id`. Without a URL, an image is only possible when there is an anchor or the element is an `A` |
| ProductExtraction.ProductInfoOf | scripts/scrape.ts:139-191 | the closure's result: title, price, URL and image of the product element (the named descendant if any, else the card); `ExtractProductInfo` computes it |
| ProductExtraction.ExtractProductInfo | scripts/scrape.ts:137-192 | the branch-by-branch closure yields the fallback-chain title, price, URL and image |
| ProductExtraction.ItemId | scripts/scrape.ts:196 | the id is `ikea-` followed by a non-empty run of digits |
| ProductExtraction.ItemIdInjective | scripts/scrape.ts:196 | `ikea-${index}` differs for different card positions |
| Decimal.DigitsValueOfNatToString | scripts/scrape.ts:196 | the decimal text of an index reads back as that index |
| Decimal.NatToString | scripts/scrape.ts:196 | the decimal text of an index is non-empty, all digits, without a leading zero |
| ProductExtraction.BuildItem | scripts/scrape.ts:194-206 | an item exists exactly when title and URL are non-empty; its id is `ikea-<index>`, description = title, category = the category name, price = `$` + price, image = image or else URL |
| ProductExtraction.CardOutcome | scripts/scrape.ts:131-210 | an unreadable card (its closure threw) gives null; a readable one gives the item built from its extracted info; stated by `CardKeptIff` |
| ProductExtraction.ExtractAll | scripts/scrape.ts:127-212 | the map over `products.slice(0, limit)` gives one outcome per card of the capped list, in card order, an unreadable card giving null |
| ProductExtraction.Candidates | scripts/scrape.ts:128 | the capped list has min(limit, number of cards) entries |
| ProductExtraction.KeepValid | scripts/scrape.ts:214 | `filter(item => item !== null)` never lengthens the list; its members are stated by `KeepValidMembers` |
| ProductExtraction.KeepValidMembers | scripts/scrape.ts:214 | an item survives the null filter exactly when some outcome holds it |
| ProductExtraction.KeepValidAppend | scripts/scrape.ts:214 | the filter keeps order: filtering a concatenation concatenates the filtered parts |
| ProductExtraction.KeepValidDistinctIds | scripts/scrape.ts:214 | the filter keeps distinct ids distinct |
| ProductExtraction.ScrapedItems | scripts/scrape.ts:127-214 | a successful attempt's items: the non-null outcomes of the capped cards, in card order; stated by `ScrapedItemsProperties` and `CardKeptIff` |
| ProductExtraction.ScrapedItemsProperties | scripts/scrape.ts:128-217 | a successful attempt returns at most `limit` items; each has the category, a non-empty title equal to its description, a non-empty image and a `$` price, and ids are pairwise distinct |
| ProductExtraction.CardKeptIff | scripts/scrape.ts:194-214 | the card at capped position i contributes an item exactly when it is readable and has both a title and a URL |
| CategoryScraper.ScrapeCategory | scripts/scrape.ts:33-244 | the retry loop stops at the first successful attempt and returns its items; after 3 failures it returns [] without an error; it waits after failures 1 and 2 only; its result equals `CategoryItems` |
| CategoryScraper.FirstSuccessItems | scripts/scrape.ts:231-241 | the items of the first successful attempt from position k on, or [] when none succeeds; stated by `FirstSuccessItemsSkipsFailures` and `RetryEndsDeterminesItems` |
| CategoryScraper.CategoryItems | scripts/scrape.ts:33-244 | the category's items: those of the first of its three attempts that succeeds, or []; `ScrapeCategory` computes it and `CategoryItemsProperties` states its properties |
| CategoryScraper.RetryEndsDeterminesItems | scripts/scrape.ts:42-243 | however the loop ends, what it returns is the items of the first success among the attempts, or [] |
| CategoryScraper.AllAttemptsFailYieldsEmpty | scripts/scrape.ts:39-243 | three failed attempts give the empty list (the outer `items` is never filled) |
| CategoryScraper.FirstSuccessItemsSkipsFailures | scripts/scrape.ts:231-241 | failed attempts before position n do not change which success is found |
| CategoryScraper.AttemptItemsGood | scripts/scrape.ts:124-217 | whatever single attempt succeeds returns at most `limit` well-formed items with distinct ids |
| CategoryScraper.CategoryItemsProperties | scripts/scrape.ts:33-244 | a category yields at most `limit` items, each well formed and labelled with the category, ids pairwise distinct |
| ScrapePipeline.Concat | scripts/scrape.ts:272-284 | the lists joined in order; its members and counts are stated by `ConcatMembers` and `ConcatCounts` |
| ScrapePipeline.Batch | scripts/scrape.ts:269-284 | the batch: each category's items, in category order; `ScrapeFurniture` computes it and `BatchSummary` states its summary |
| ScrapePipeline.ScrapeFurniture | scripts/scrape.ts:269-284 | the batch is the concatenation of each category's items in category order |
| ScrapePipeline.Tally | scripts/scrape.ts:303-306 | the `reduce` into a category-to-count map; stated by `TallyCounts` |
| ScrapePipeline.TallyCounts | scripts/scrape.ts:303-306 | the `reduce` summary has a line for a category exactly when the batch holds an item of it, and that line is the category's item count |
| ScrapePipeline.TallySumsToLength | scripts/scrape.ts:303-306 | when every item carries one of a list of distinct names, the summary lines for those names add up to the number of items |
| ScrapePipeline.ConcatSummary | scripts/scrape.ts:272-306 | for per-category lists labelled with distinct names, each name's summary line is its list's length and the lines add up to the total |
| ScrapePipeline.BatchSummary | scripts/scrape.ts:272-306 | for the three categories, each summary line equals the number of items that category yielded, and the lines add up to the batch length |
| ScrapePipeline.CountAppend | scripts/scrape.ts:275 | pushing a category's items adds their count to each category's count |
| LikesStore.Without | src/store/useStore.ts:126 | the id filter keeps exactly the other ids and never lengthens the list |
| LikesStore.WithoutAbsent | src/store/useStore.ts:126 | removing an id that is not there changes nothing |
| LikesStore.MatchesAfterLike | src/store/useStore.ts:101-121 | after a like of `itemId` the matches gain exactly `itemId` as a set when the other user likes it, and stay the same otherwise; the old matches are kept as a prefix and at most one entry is added |
| LikesStore.Store.Valid | src/store/useStore.ts:101-135 | the store invariant: the set of matches equals the set of ids both users like; the constructor establishes it and every action keeps it |
| LikesStore.AddUserLikeKeepsMatches | src/store/useStore.ts:101-111 | a like by the user keeps matches = user likes ∩ partner likes (as sets) |
| LikesStore.AddPartnerLikeKeepsMatches | src/store/useStore.ts:113-123 | a like by the partner keeps the invariant |
| LikesStore.RemoveUserLikeKeepsMatches | src/store/useStore.ts:125-128 | withdrawing the user's like keeps the invariant |
| LikesStore.RemovePartnerLikeKeepsMatches | src/store/useStore.ts:130-133 | withdrawing the partner's like keeps the invariant |
| LikesStore.Store.constructor | src/store/useStore.ts:87-94 | the initial store: demo users `user1`/`user2`, the five mock items, no likes, and the invariant holds |
| LikesStore.Store.SetCurrentUser | src/store/useStore.ts:97 | replaces only the current user |
| LikesStore.Store.SetPartner | src/store/useStore.ts:98 | replaces only the partner |
| LikesStore.Store.SetItems | src/store/useStore.ts:99 | replaces only the items |
| LikesStore.Store.AddUserLike | src/store/useStore.ts:101-111 | appends the id to the user's likes; appends it to the matches iff the partner likes it; the partner's likes, items and users are unchanged; the invariant is kept |
| LikesStore.Store.AddPartnerLike | src/store/useStore.ts:113-123 | the mirror rule for the partner |
| LikesStore.Store.RemoveUserLike | src/store/useStore.ts:125-128 | deletes every occurrence of the id from the user's likes and the matches; the partner's likes are unchanged; the invariant is kept |
| LikesStore.Store.RemovePartnerLike | src/store/useStore.ts:130-133 | the mirror rule for the partner |
| LikesStore.Store.ResetLikes | src/store/useStore.ts:135 | empties both like lists and the matches, nothing else changes |
| LikesStore.Dispatch | src/store/useStore.ts:92-135 | any sequence of actions from a valid store, such as the initial one, keeps the store valid: the matches equal the common likes |
| MatchesPage.MatchedItems | src/pages/MatchesPage.tsx:26 | an item is shown exactly when it is in `items` and its id is matched; no item appears more often than in `items` |
| MatchesPage.MatchedItemsKeepOrder | src/pages/MatchesPage.tsx:26 | the matched items are a subsequence of `items` |
| MatchesPage.MatchedItemsAppend | src/pages/MatchesPage.tsx:26 | the filter distributes over concatenation, so item order is preserved |
| MatchesPage.MatchedItemsIgnoreRepeats | src/pages/MatchesPage.tsx:26 | only the set of matched ids matters, so duplicate ids in `matches` duplicate nothing |
| MatchesPage.MatchedItemsAreCommonLikes | src/pages/MatchesPage.tsx:26 | with the store invariant, an item is shown exactly when both users like it |
| MatchesPage.View | src/pages/MatchesPage.tsx:28-52 | the spinner exactly while loading; "No matches yet" exactly when no item is matched; otherwise the non-empty gallery of matched items |
| SwipePage.Session.IsFinished | src/pages/SwipePage.tsx:16 | the swipe is finished exactly when the index has reached the number of items; related to the counter by `Viewed` |
| SwipePage.Session.Viewed | src/pages/SwipePage.tsx:16-87 | the counter shows `currentIndex` of `items.length`; its first number reaches the second exactly when the swipe is finished |
| SwipePage.Session.HandleSwipe | src/pages/SwipePage.tsx:18-30 | a right swipe with a user likes the current item's id; any other swipe likes nothing; each swipe advances the index by exactly 1; only a right swipe with a user past the end throws |
| SwipePage.SwipeWithoutLike | src/pages/SwipePage.tsx:21 | a left swipe, or a swipe with nobody signed in, adds no like and no match |
| SwipeCard.KeyDirection | src/components/ui/SwipeCard.tsx:33-39 | ArrowLeft gives left, ArrowRight gives right, every other key gives no swipe |
| SwipeCard.DragDirection | src/components/ui/SwipeCard.tsx:53-67 | a drag beyond +100 gives right; one beyond -100 gives left; [-100, 100] gives no swipe, boundaries included |
| SwipeCard.ExitOffset | src/components/ui/SwipeCard.tsx:42 | left leaves at -200, right at +200 |
| SwipeCard.Card.HandleSwipe | src/components/ui/SwipeCard.tsx:41-51 | sets `exitX` and the animation target to the side's offset and reports the same direction |
| SwipeCard.Card.HandleKeyDown | src/components/ui/SwipeCard.tsx:33-39 | an arrow key swipes to its side; any other key changes nothing |
| SwipeCard.Card.HandleDragEnd | src/components/ui/SwipeCard.tsx:53-67 | beyond the threshold swipes; otherwise nothing is reported and the card springs back to 0 |
| ImagePreloader.PreloadLength | src/components/ImagePreloader.tsx:21-26 | the count is max(0, min(preloadCount, items - currentIndex - 1)): never more than `preloadCount`, never past the last item |
| ImagePreloader.UpcomingImages | src/components/ImagePreloader.tsx:18-26 | the k-th URL is the image of item currentIndex + 1 + k, so URLs come in ascending index order after the current item |
| ImagePreloader.PreloadImages | src/components/ImagePreloader.tsx:17-26 | the `for i := 1 .. preloadCount` loop collects exactly the upcoming images |
| ImagePreloader.UpcomingImagesAfterCurrent | src/components/ImagePreloader.tsx:21-26 | nothing is preloaded at the last item or with a non-positive count; away from the end exactly `preloadCount` images are |
| ImagePreloader.DefaultPreloadsAtMostThree | src/components/ImagePreloader.tsx:14 | with the default count at most 3 URLs are collected |
| DarkMode.InitialMode | src/components/DarkModeToggle.tsx:10-18 | a saved value decides: only "true" is dark, any other saved string is light; with nothing saved the system preference decides |
| DarkMode.AppliedAtInit | src/components/DarkModeToggle.tsx:21-23 | the theme applied on mount: a saved "true", or nothing saved with a dark system preference; stated by `AppliedAtInitAgrees` |
| DarkMode.AppliedAtInitAgrees | src/components/DarkModeToggle.tsx:12-23 | the theme applied on mount equals the state set on mount |
| DarkMode.BoolToString | src/components/DarkModeToggle.tsx:41 | `toString()` of the mode is always "true" or "false"; `BoolToStringRoundTrip` states that it reads back |
| DarkMode.BoolToStringRoundTrip | src/components/DarkModeToggle.tsx:14-41 | the saved "true"/"false" reads back as the mode saved |
| DarkMode.ToggleThenReloadKeepsMode | src/components/DarkModeToggle.tsx:10-41 | after a toggle saves its mode, a fresh mount reads it back, whatever the system preference |
| DarkMode.Toggle.ApplyTheme | src/components/DarkModeToggle.tsx:27-33 | the `dark` class is present afterwards iff the argument is true; other classes are untouched |
| DarkMode.Toggle.Initialize | src/components/DarkModeToggle.tsx:8-24 | the mode is the initial mode and the document agrees with it |
| DarkMode.Toggle.ToggleDarkMode | src/components/DarkModeToggle.tsx:36-54 | negates the mode, saves "true"/"false" under `darkMode`, applies it, and shows the matching toast |
| DarkMode.ToastMessage | src/components/DarkModeToggle.tsx:47 | "Dark mode activated" or "Light mode activated", matching the new mode |
| DarkMode.ToggleTwice | src/components/DarkModeToggle.tsx:36-54 | two toggles restore the mode and the document's classes, and the saved value matches the mode |
| RegisterPage.ValidationError | src/pages/RegisterPage.tsx:20-33 | the empty-field check comes first, then password length < 6, then mismatch; each message appears exactly under its condition; none iff all fields are filled, the password has at least 6 characters and the two passwords agree |
| RegisterPage.OutcomeEffects | src/pages/RegisterPage.tsx:37-61 | after the sign-up call every path shows a toast first and ends by clearing the loading flag |
| RegisterPage.SubmitEffects | src/pages/RegisterPage.tsx:16-62 | the effects of one submission: the validation toast alone, or raising the loading flag, the sign-up call and the outcome's effects; stated by `SignUpOnlyWhenValid`, `NavigatesOnlyForNewUser` and `OneToastPerSubmit` |
| RegisterPage.Page.HandleSubmit | src/pages/RegisterPage.tsx:16-62 | a rejected form only toasts its message and leaves `isLoading` alone; otherwise loading is raised, sign-up is called, the outcome is reported, and `isLoading` ends false |
| RegisterPage.SignUpOnlyWhenValid | src/pages/RegisterPage.tsx:20-38 | sign-up is called exactly when every check passed, with the form's email, password and name |
| RegisterPage.NavigatesOnlyForNewUser | src/pages/RegisterPage.tsx:44-51 | the page navigates (to `/swipe`) exactly when sign-up returned a user |
| RegisterPage.OneToastPerSubmit | src/pages/RegisterPage.tsx:16-62 | every submission shows exactly one toast, and one that reaches sign-up starts by raising and ends by clearing the loading flag |
| RegisterPage.FailureToastMessage | src/pages/RegisterPage.tsx:52-58 | a failed sign-up shows the error's message, or "Failed to create account" when it is empty; a non-Error shows "An unknown error occurred" |
| AuthUser.LocalPart | src/lib/supabase.ts:26 | `split('@')[0]` is the longest prefix without `@` |
| Text.BeforeFirst | src/lib/supabase.ts:26 | the part before the first separator: a prefix of the text without the separator, which is followed by the separator unless it is the whole text |
| Text.FirstNonEmpty | src/lib/supabase.ts:26 | the `||` chain: "" exactly when every candidate is "", otherwise the first non-empty candidate |
| AuthUser.LocalPartOfAddress | src/lib/supabase.ts:26 | the local part of `local@domain` is `local` |
| AuthUser.DisplayName | src/lib/supabase.ts:26 | the metadata name if non-empty; else the e-mail's local part if non-empty; else "User"; never empty |
| AuthUser.NameFromAddress | src/lib/supabase.ts:26 | without a metadata name, an address `local@domain` with a non-empty `local` gives the name `local` |
| AuthUser.EmptyLocalPartFallsBack | src/lib/supabase.ts:26 | an empty address, or one starting with `@`, gives "User" |
| AuthUser.CurrentUser | src/lib/supabase.ts:18-28 | no account gives no user; otherwise the id is copied, the e-mail defaults to "", and the name is never empty |
| LoadFurniture.Load | src/utils/loadFurniture.ts:31-44 | a non-empty fetched list is returned unchanged; an empty list, a non-ok response, or a fetch or parse failure gives the fallback; the result is never empty |
| LoadFurniture.FallbackItemsDistinct | src/utils/loadFurniture.ts:4-29 | the fallback holds three items with distinct ids |
| LoadFurniture.LoadIsFetchedOrFallback | src/utils/loadFurniture.ts:38-42 | the result is either the fetched list or the fallback, never a mixture |
| ProtectedRoute.Guard | src/components/ProtectedRoute.tsx:8-27 | the spinner exactly while loading, whatever the user; the child outlet exactly when not loading with a user; otherwise a redirect to `redirectPath` |
| ProtectedRoute.SignedOutGoesToLogin | src/components/ProtectedRoute.tsx:8-23 | by default a signed-out visitor is sent to `/login` |
| ProtectedRoute.GuardAdmitsAccounts | src/components/ProtectedRoute.tsx:20-26 | once loading is done, the guard admits exactly those for whom the account lookup found an account |

## Left out

- Browser and file I/O in the scraper are not modelled: the Puppeteer launch, viewport and
  request interception; the user agent; `page.title()`; the debugging `evaluate` calls; the
  `fs` writes in `main`; `process.exit`; and all console logging. What each attempt observes is
  an input.
- The `setTimeout` sleeps are not modelled as time: the 2 s waits, the 1 s wait between
  categories, and the 300 ms swipe delay. `ScrapeCategory` counts the waits between attempts
  instead. The swipe index advances at once.
- The `Promise.all` fan-out over cards is modelled as a sequential map. This keeps its result
  order; concurrency is not modelled.
- `parseFloat(..).toFixed(2)` is floating-point formatting and is the parameter `format`.
- ProductExtraction.PriceOfSource: the formatted number is stated only as `format` applied to
  the source text, because the formatting is a parameter.
- SwipeCard.DragDirection: the drag offset is a JavaScript double, modelled as a `real`, so `NaN`
  and the infinities are not modelled.
- CategoryScraper.RunAttempt: a throw from `page.title()`, from the selector probe's `evaluate`,
  from the page-text `evaluate` or from `page.$$` is not a separate case. Such an attempt can
  only be given as `NavigationError`. It fails and is retried as in the source, but under a
  different failure reason.
- `TimeoutError` handling (scripts/scrape.ts:220-229) only logs and rethrows, so it is the same
  failure as any other error.
- DOM and browser APIs are abstracted:
  - `localStorage` is a map and the document's class list is a set.
  - The `prefers-color-scheme` query is a boolean parameter.
  - Toasts are recorded messages; their styles and icons are not modelled.
  - framer-motion animations are a target value, with the animation taken as finished before
    `onSwipe`.
  - `useTransform` interpolation is not modelled.
- The `fetchUserLikes` loading effect of the matches page (src/pages/MatchesPage.tsx:11-23) calls
  a store action that `useStore.ts` does not define. The loading flag is a parameter of
  `MatchesPage.View`.
- The Supabase client and its calls are foreign:
  - `getUser` becomes the `CurrentUser` argument.
  - The calls `signUp`, `signIn`, `signOut` and `resetPassword` are not modelled.
  - `signUp`'s outcome is the `SignUpOutcome` argument of the submit handler.
- `fetch`/`response.json()` are I/O. Their results are cases of `FetchResult`. The model assumes
  a body that decodes at all decodes to a list of items. The source does not check this: it
  returns any decoded value whose `length` is positive as it is, and only a value without a
  positive `length` falls back (a decoded `null` throws and falls back too).
- Password length is measured in Unicode scalar values. JavaScript's `length` counts UTF-16 code
  units, so the two differ on characters outside the Basic Multilingual Plane.
- The following are rendering or foreign code, so they are not part of this model:
  - `FurnitureCard` (floating-point display arithmetic);
  - `AuthContext` (asynchronous React state);
  - `LoginPage`, `CurrencySelector` and `SettingsPage`;
  - `App`, `Layout` and `HomePage`;
  - the Tailwind configuration.
- `ImagePreloader.PreloadImages` takes `currentIndex` as a natural number, the index of a shown
  card. The effect's `new Image()` requests are not modelled, only the list of URLs.
- `SwipePage.Session.HandleSwipe`: a right swipe by a signed-in user past the end reads `.id` of
  `undefined`, which throws. The model returns `ok == false` and changes nothing.
- Navigation-only handlers and rendering are not modelled: `handleViewMatches` (`navigate('/matches')`),
  the `MatchCard` list, the form's `onChange` setters, and the toggle's labels and icons. None of
  them decides anything the model covers.
- The preloader effect re-running when its dependencies change is React scheduling, so it is not
  modelled. Each run is one call of `PreloadImages`.
