/**
 * The client-side store (src/store/useStore.ts): the two users, the items,
 * each user's liked ids, and the matched ids. Each action computes new lists
 * from the old ones; the store keeps the matches equal, as a set, to the ids
 * both users like.
 */
module LikesStore {
  import opened Options
  import opened Furniture

  datatype User = User(id: string, name: string)

  const MockFurniture: seq<FurnitureItem> := [
    FurnitureItem("1", "Modern Sofa", "Comfortable and stylish sofa for your living room", "$899", "sofa",
      "https://images.unsplash.com/photo-1555041469-a586c61ea9bc"),
    FurnitureItem("2", "Wooden Dining Table", "Elegant dining table for family gatherings", "$649", "table",
      "https://images.unsplash.com/photo-1592078615290-033ee584e267"),
    FurnitureItem("3", "Minimalist Bed Frame", "Simple and modern bed frame for your bedroom", "$749", "bed",
      "https://images.unsplash.com/photo-1540574163026-643ea20ade25"),
    FurnitureItem("4", "Accent Chair", "Stylish accent chair for any room", "$349", "chair",
      "https://images.unsplash.com/photo-1493663284031-b7e3aefcae8e"),
    FurnitureItem("5", "Modern Kitchen Cabinet", "Sleek kitchen cabinet with ample storage", "$1,299", "kitchen",
      "https://images.unsplash.com/photo-1551298370-9d3d53740c72")
  ]

  function SetOf(s: seq<string>): set<string> {
    set x | x in s
  }

  /** The store's invariant: the matches are exactly, as a set, the ids both users like. */
  ghost predicate MatchesAreCommonLikes(userLikes: seq<string>, partnerLikes: seq<string>, matches: seq<string>) {
    SetOf(matches) == SetOf(userLikes) * SetOf(partnerLikes)
  }

  /** `s.filter(id => id !== itemId)` */
  function Without(s: seq<string>, itemId: string): (r: seq<string>)
    ensures forall x :: x in r <==> x in s && x != itemId
    ensures |r| <= |s|
  {
    if s == [] then []
    else (if s[0] != itemId then [s[0]] else []) + Without(s[1..], itemId)
  }

  /** Removing an id that is not there changes nothing. */
  lemma {:induction false} WithoutAbsent(s: seq<string>, itemId: string)
    requires itemId !in s
    ensures Without(s, itemId) == s
  {
    if s != [] {
      WithoutAbsent(s[1..], itemId);
    }
  }

  /** The new matches after one user likes `itemId`: appended exactly when the other user likes it too. */
  function MatchesAfterLike(otherLikes: seq<string>, matches: seq<string>, itemId: string): (r: seq<string>)
    ensures SetOf(r) == if itemId in otherLikes then SetOf(matches) + {itemId} else SetOf(matches)
    ensures |matches| <= |r| <= |matches| + 1 && r[..|matches|] == matches
  {
    if itemId in otherLikes then matches + [itemId] else matches
  }

  /** A like by the current user keeps the invariant. */
  lemma AddUserLikeKeepsMatches(userLikes: seq<string>, partnerLikes: seq<string>, matches: seq<string>, itemId: string)
    requires MatchesAreCommonLikes(userLikes, partnerLikes, matches)
    ensures MatchesAreCommonLikes(userLikes + [itemId], partnerLikes, MatchesAfterLike(partnerLikes, matches, itemId))
  {
    assert SetOf(userLikes + [itemId]) == SetOf(userLikes) + {itemId};
    assert SetOf(matches + [itemId]) == SetOf(matches) + {itemId};
  }

  /** A like by the partner keeps the invariant. */
  lemma AddPartnerLikeKeepsMatches(userLikes: seq<string>, partnerLikes: seq<string>, matches: seq<string>, itemId: string)
    requires MatchesAreCommonLikes(userLikes, partnerLikes, matches)
    ensures MatchesAreCommonLikes(userLikes, partnerLikes + [itemId], MatchesAfterLike(userLikes, matches, itemId))
  {
    assert SetOf(partnerLikes + [itemId]) == SetOf(partnerLikes) + {itemId};
    assert SetOf(matches + [itemId]) == SetOf(matches) + {itemId};
  }

  /** Withdrawing the current user's like keeps the invariant. */
  lemma RemoveUserLikeKeepsMatches(userLikes: seq<string>, partnerLikes: seq<string>, matches: seq<string>, itemId: string)
    requires MatchesAreCommonLikes(userLikes, partnerLikes, matches)
    ensures MatchesAreCommonLikes(Without(userLikes, itemId), partnerLikes, Without(matches, itemId))
  {
    assert SetOf(Without(userLikes, itemId)) == SetOf(userLikes) - {itemId};
    assert SetOf(Without(matches, itemId)) == SetOf(matches) - {itemId};
  }

  /** Withdrawing the partner's like keeps the invariant. */
  lemma RemovePartnerLikeKeepsMatches(userLikes: seq<string>, partnerLikes: seq<string>, matches: seq<string>, itemId: string)
    requires MatchesAreCommonLikes(userLikes, partnerLikes, matches)
    ensures MatchesAreCommonLikes(userLikes, Without(partnerLikes, itemId), Without(matches, itemId))
  {
    assert SetOf(Without(partnerLikes, itemId)) == SetOf(partnerLikes) - {itemId};
    assert SetOf(Without(matches, itemId)) == SetOf(matches) - {itemId};
  }

  class Store {
    var currentUser: Option<User>
    var partner: Option<User>
    var items: seq<FurnitureItem>
    var userLikes: seq<string>
    var partnerLikes: seq<string>
    var matches: seq<string>

    ghost predicate Valid()
      reads this
    {
      MatchesAreCommonLikes(userLikes, partnerLikes, matches)
    }

    /** The initial state: two demo users, the mock furniture and no likes. */
    constructor ()
      ensures Valid()
      ensures currentUser == Some(User("user1", "User 1")) && partner == Some(User("user2", "User 2"))
      ensures items == MockFurniture
      ensures userLikes == [] && partnerLikes == [] && matches == []
    {
      currentUser := Some(User("user1", "User 1"));
      partner := Some(User("user2", "User 2"));
      items := MockFurniture;
      userLikes, partnerLikes, matches := [], [], [];
    }

    method SetCurrentUser(user: Option<User>)
      modifies this
      ensures old(Valid()) ==> Valid()
      ensures currentUser == user
      ensures partner == old(partner) && items == old(items)
      ensures userLikes == old(userLikes) && partnerLikes == old(partnerLikes) && matches == old(matches)
    {
      currentUser := user;
    }

    method SetPartner(user: Option<User>)
      modifies this
      ensures old(Valid()) ==> Valid()
      ensures partner == user
      ensures currentUser == old(currentUser) && items == old(items)
      ensures userLikes == old(userLikes) && partnerLikes == old(partnerLikes) && matches == old(matches)
    {
      partner := user;
    }

    /** Replaces the items and nothing else. */
    method SetItems(newItems: seq<FurnitureItem>)
      modifies this
      ensures old(Valid()) ==> Valid()
      ensures items == newItems
      ensures currentUser == old(currentUser) && partner == old(partner)
      ensures userLikes == old(userLikes) && partnerLikes == old(partnerLikes) && matches == old(matches)
    {
      items := newItems;
    }

    method AddUserLike(itemId: string)
      modifies this
      ensures old(Valid()) ==> Valid()
      ensures userLikes == old(userLikes) + [itemId]
      ensures matches == if itemId in old(partnerLikes) then old(matches) + [itemId] else old(matches)
      ensures partnerLikes == old(partnerLikes)
      ensures items == old(items) && currentUser == old(currentUser) && partner == old(partner)
    {
      if Valid() {
        AddUserLikeKeepsMatches(userLikes, partnerLikes, matches, itemId);
      }
      var newUserLikes := userLikes + [itemId];
      var newMatches := MatchesAfterLike(partnerLikes, matches, itemId);
      userLikes, matches := newUserLikes, newMatches;
    }

    method AddPartnerLike(itemId: string)
      modifies this
      ensures old(Valid()) ==> Valid()
      ensures partnerLikes == old(partnerLikes) + [itemId]
      ensures matches == if itemId in old(userLikes) then old(matches) + [itemId] else old(matches)
      ensures userLikes == old(userLikes)
      ensures items == old(items) && currentUser == old(currentUser) && partner == old(partner)
    {
      if Valid() {
        AddPartnerLikeKeepsMatches(userLikes, partnerLikes, matches, itemId);
      }
      var newPartnerLikes := partnerLikes + [itemId];
      var newMatches := MatchesAfterLike(userLikes, matches, itemId);
      partnerLikes, matches := newPartnerLikes, newMatches;
    }

    method RemoveUserLike(itemId: string)
      modifies this
      ensures old(Valid()) ==> Valid()
      ensures userLikes == Without(old(userLikes), itemId) && matches == Without(old(matches), itemId)
      ensures partnerLikes == old(partnerLikes)
      ensures items == old(items) && currentUser == old(currentUser) && partner == old(partner)
    {
      if Valid() {
        RemoveUserLikeKeepsMatches(userLikes, partnerLikes, matches, itemId);
      }
      userLikes, matches := Without(userLikes, itemId), Without(matches, itemId);
    }

    method RemovePartnerLike(itemId: string)
      modifies this
      ensures old(Valid()) ==> Valid()
      ensures partnerLikes == Without(old(partnerLikes), itemId) && matches == Without(old(matches), itemId)
      ensures userLikes == old(userLikes)
      ensures items == old(items) && currentUser == old(currentUser) && partner == old(partner)
    {
      if Valid() {
        RemovePartnerLikeKeepsMatches(userLikes, partnerLikes, matches, itemId);
      }
      partnerLikes, matches := Without(partnerLikes, itemId), Without(matches, itemId);
    }

    method ResetLikes()
      modifies this
      ensures old(Valid()) ==> Valid()
      ensures userLikes == [] && partnerLikes == [] && matches == []
      ensures items == old(items) && currentUser == old(currentUser) && partner == old(partner)
    {
      userLikes, partnerLikes, matches := [], [], [];
    }
  }

  /** A sequence of store actions, as a client would dispatch them. */
  datatype Action =
    | AddUser(id: string) | AddPartner(id: string) | RemoveUser(id: string) | RemovePartner(id: string)
    | Reset | SetItemsTo(newItems: seq<FurnitureItem>)

  /** Dispatching actions one after another from a valid store keeps it valid; in particular from the initial store. */
  method Dispatch(store: Store, actions: seq<Action>)
    requires store.Valid()
    modifies store
    ensures store.Valid()
  {
    for i := 0 to |actions|
      invariant store.Valid()
    {
      match actions[i] {
        case AddUser(id) => store.AddUserLike(id);
        case AddPartner(id) => store.AddPartnerLike(id);
        case RemoveUser(id) => store.RemoveUserLike(id);
        case RemovePartner(id) => store.RemovePartnerLike(id);
        case Reset => store.ResetLikes();
        case SetItemsTo(newItems) => store.SetItems(newItems);
      }
    }
  }
}
