/**
 * The matches page (src/pages/MatchesPage.tsx): the items whose id is among
 * the matches, in item order, and the view chosen from them.
 */
module MatchesPage {
  import opened Furniture
  import LikesStore

  /** `items.filter(item => matches.includes(item.id))` */
  function MatchedItems(items: seq<FurnitureItem>, matches: seq<string>): (r: seq<FurnitureItem>)
    ensures forall x :: x in r <==> x in items && x.id in matches
    ensures multiset(r) <= multiset(items)
  {
    if items == [] then []
    else
      var rest := MatchedItems(items[1..], matches);
      assert items == [items[0]] + items[1..];
      (if items[0].id in matches then [items[0]] else []) + rest
  }

  /** `sub` can be obtained from `s` by deleting elements. */
  predicate IsSubsequence(sub: seq<FurnitureItem>, s: seq<FurnitureItem>)
    decreases |s|
  {
    if s == [] then sub == []
    else (sub != [] && sub[0] == s[0] && IsSubsequence(sub[1..], s[1..])) || IsSubsequence(sub, s[1..])
  }

  /** The matched items keep the relative order they have in `items`. */
  lemma {:induction false} MatchedItemsKeepOrder(items: seq<FurnitureItem>, matches: seq<string>)
    ensures IsSubsequence(MatchedItems(items, matches), items)
  {
    if items != [] {
      var r := MatchedItems(items, matches);
      var rest := MatchedItems(items[1..], matches);
      MatchedItemsKeepOrder(items[1..], matches);
      if items[0].id in matches {
        assert r == [items[0]] + rest;
        assert r[1..] == rest;
        assert r != [] && r[0] == items[0] && IsSubsequence(r[1..], items[1..]);
      } else {
        assert r == rest;
        assert IsSubsequence(r, items[1..]);
      }
    }
  }

  /** Filtering a concatenation filters each part: the matched items come in item order. */
  lemma {:induction false} MatchedItemsAppend(a: seq<FurnitureItem>, b: seq<FurnitureItem>, matches: seq<string>)
    ensures MatchedItems(a + b, matches) == MatchedItems(a, matches) + MatchedItems(b, matches)
  {
    if a == [] {
      assert a + b == b;
    } else {
      assert (a + b)[1..] == a[1..] + b;
      MatchedItemsAppend(a[1..], b, matches);
    }
  }

  /** Only which ids are matched matters: repeating an id in the matches repeats no item. */
  lemma {:induction false} MatchedItemsIgnoreRepeats(items: seq<FurnitureItem>, m1: seq<string>, m2: seq<string>)
    requires LikesStore.SetOf(m1) == LikesStore.SetOf(m2)
    ensures MatchedItems(items, m1) == MatchedItems(items, m2)
  {
    if items != [] {
      assert items[0].id in m1 <==> items[0].id in LikesStore.SetOf(m1);
      assert items[0].id in m2 <==> items[0].id in LikesStore.SetOf(m2);
      MatchedItemsIgnoreRepeats(items[1..], m1, m2);
    }
  }

  /** With the store's invariant, an item is shown exactly when both users like it. */
  lemma MatchedItemsAreCommonLikes(items: seq<FurnitureItem>, userLikes: seq<string>, partnerLikes: seq<string>, matches: seq<string>, x: FurnitureItem)
    requires LikesStore.MatchesAreCommonLikes(userLikes, partnerLikes, matches)
    ensures x in MatchedItems(items, matches) <==> x in items && x.id in userLikes && x.id in partnerLikes
  {
    assert x.id in matches <==> x.id in LikesStore.SetOf(matches);
    assert x.id in userLikes <==> x.id in LikesStore.SetOf(userLikes);
    assert x.id in partnerLikes <==> x.id in LikesStore.SetOf(partnerLikes);
  }

  datatype MatchesView = Loading | NoMatchesYet | Gallery(cards: seq<FurnitureItem>)

  /** The page: a spinner while loading, else "No matches yet" or one card per matched item. */
  function View(isLoading: bool, items: seq<FurnitureItem>, matches: seq<string>): (v: MatchesView)
    ensures v.Loading? <==> isLoading
    ensures v == NoMatchesYet <==> !isLoading && forall x :: x in items ==> x.id !in matches
    ensures v.Gallery? ==> v.cards != [] && v.cards == MatchedItems(items, matches)
  {
    if isLoading then Loading
    else
      var matched := MatchedItems(items, matches);
      assert matched != [] ==> matched[0] in matched;
      if |matched| == 0 then NoMatchesYet else Gallery(matched)
  }
}
