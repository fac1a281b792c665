/**
 * The image preloader (src/components/ImagePreloader.tsx): the image URLs of
 * the next few items after the current one, never past the end of the list.
 */
module ImagePreloader {
  import opened Furniture

  const DefaultPreloadCount: int := 3

  function Max(a: int, b: int): int { if a < b then b else a }
  function Min(a: int, b: int): int { if a < b then a else b }

  /** How many images are preloaded: up to `preloadCount`, but only items that exist after the current one. */
  function PreloadLength(itemCount: nat, currentIndex: nat, preloadCount: int): (n: nat)
    ensures n <= Max(preloadCount, 0)
    ensures currentIndex + n <= Max(itemCount - 1, currentIndex)
    ensures n == Max(0, Min(preloadCount, itemCount - currentIndex - 1))
  {
    Max(0, Min(preloadCount, itemCount - currentIndex - 1))
  }

  /** The URLs the preloader requests, in order of distance from the current item. */
  function UpcomingImages(items: seq<FurnitureItem>, currentIndex: nat, preloadCount: int): (urls: seq<string>)
    ensures |urls| == PreloadLength(|items|, currentIndex, preloadCount)
    ensures forall k :: 0 <= k < |urls| ==> currentIndex + 1 + k < |items| && urls[k] == items[currentIndex + 1 + k].imageUrl
  {
    seq(PreloadLength(|items|, currentIndex, preloadCount), k requires 0 <= k < PreloadLength(|items|, currentIndex, preloadCount) =>
      items[currentIndex + 1 + k].imageUrl)
  }

  /** `preloadImages`: the loop over `i = 1 .. preloadCount`, skipping indices past the end. */
  method PreloadImages(items: seq<FurnitureItem>, currentIndex: nat, preloadCount: int) returns (urls: seq<string>)
    ensures urls == UpcomingImages(items, currentIndex, preloadCount)
  {
    urls := [];
    var i := 1;
    while i <= preloadCount
      invariant 1 <= i <= Max(preloadCount, 0) + 1
      invariant |urls| == Max(0, Min(i - 1, |items| - currentIndex - 1))
      invariant forall k :: 0 <= k < |urls| ==> currentIndex + 1 + k < |items| && urls[k] == items[currentIndex + 1 + k].imageUrl
      decreases preloadCount - i
    {
      var nextIndex := currentIndex + i;
      if nextIndex < |items| {
        urls := urls + [items[nextIndex].imageUrl];
      }
      i := i + 1;
    }
  }

  /** Preloading never reaches the current item or anything before it, and never past the end. */
  lemma UpcomingImagesAfterCurrent(items: seq<FurnitureItem>, currentIndex: nat, preloadCount: int)
    ensures currentIndex + 1 >= |items| ==> UpcomingImages(items, currentIndex, preloadCount) == []
    ensures preloadCount <= 0 ==> UpcomingImages(items, currentIndex, preloadCount) == []
    ensures currentIndex + 1 + preloadCount <= |items| && preloadCount >= 0 ==>
      UpcomingImages(items, currentIndex, preloadCount) == seq(preloadCount, k requires 0 <= k < preloadCount => items[currentIndex + 1 + k].imageUrl)
  {
  }

  /** With the default count, at most three images are requested. */
  lemma DefaultPreloadsAtMostThree(items: seq<FurnitureItem>, currentIndex: nat)
    ensures |UpcomingImages(items, currentIndex, DefaultPreloadCount)| <= 3
  {
  }
}
