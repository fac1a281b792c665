/**
 * The swipe page (src/pages/SwipePage.tsx): the index of the current item,
 * advanced by every swipe; a right swipe by a signed-in user likes the item.
 */
module SwipePage {
  import opened Options
  import opened Furniture
  import LikesStore
  import SwipeCard

  class Session {
    const store: LikesStore.Store
    var currentIndex: nat

    constructor (store: LikesStore.Store)
      ensures this.store == store && currentIndex == 0
    {
      this.store := store;
      currentIndex := 0;
    }

    /** `isFinished`: every item has been seen. */
    predicate IsFinished()
      reads this, store
    {
      currentIndex >= |store.items|
    }

    /** The counter line: how many items have been viewed, out of how many. */
    function Viewed(): (r: (nat, nat))
      reads this, store
      ensures r.0 == currentIndex && r.1 == |store.items|
      ensures r.0 >= r.1 <==> IsFinished()
    {
      var total: nat := |store.items|;
      (currentIndex, total)
    }

    /**
     * `handleSwipe`. Reading `item.id` when the index is past the end throws, which only a right
     * swipe by a signed-in user does: then `ok` is false and nothing changes. Otherwise the index
     * advances by one (the 300 ms delay is taken as elapsed).
     */
    method HandleSwipe(d: SwipeCard.Direction) returns (ok: bool)
      modifies this, store
      ensures old(store.Valid()) ==> store.Valid()
      ensures ok <==> !(d == SwipeCard.Right && old(store.currentUser).Some? && old(currentIndex) >= |old(store.items)|)
      ensures ok ==> currentIndex == old(currentIndex) + 1
      ensures !ok ==> currentIndex == old(currentIndex)
      ensures ok && d == SwipeCard.Right && old(store.currentUser).Some? ==>
        var id := old(store.items)[old(currentIndex)].id;
        && store.userLikes == old(store.userLikes) + [id]
        && store.matches == (if id in old(store.partnerLikes) then old(store.matches) + [id] else old(store.matches))
      ensures !(ok && d == SwipeCard.Right && old(store.currentUser).Some?) ==>
        store.userLikes == old(store.userLikes) && store.matches == old(store.matches)
      ensures store.partnerLikes == old(store.partnerLikes) && store.items == old(store.items)
      ensures store.currentUser == old(store.currentUser) && store.partner == old(store.partner)
    {
      if d == SwipeCard.Right && store.currentUser.Some? {
        if currentIndex >= |store.items| {
          return false;
        }
        var item := store.items[currentIndex];
        store.AddUserLike(item.id);
      }
      currentIndex := currentIndex + 1;
      return true;
    }
  }

  /** A left swipe, or a right swipe with nobody signed in, likes nothing. */
  method SwipeWithoutLike(store: LikesStore.Store, session: Session, d: SwipeCard.Direction)
    requires session.store == store
    requires d == SwipeCard.Left || store.currentUser.None?
    modifies session, store
    ensures store.userLikes == old(store.userLikes) && store.matches == old(store.matches)
    ensures session.currentIndex == old(session.currentIndex) + 1
  {
    var ok := session.HandleSwipe(d);
  }
}
