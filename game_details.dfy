/** The details page of scripts/game-details-manager.js
    (`gameDetailsManager`): choosing what the page shows from the `id` in
    the address, the similar-games strip, the wishlist toggle and the
    add-to-cart button.

    The page never assigns its `currentGameData` (it stays `null`), so the
    wishlist and cart actions take it as a parameter here. */
module GameDetails {
  import opened Wrappers
  import opened Games
  import opened Catalog

  // ---------------------------------------------------------------------
  // What the page shows (initializeGameDetails, fetchGameData)

  datatype View = ErrorMessage(text: string) | Details(game: Game)

  /** `gameId` is the `id` parameter of the address (None when absent);
      `fetched` is the dataset's item list, or None when the fetch or its
      parsing failed. A missing or empty id is "not found"; a failed fetch
      or an id no item carries cannot be loaded; otherwise the first item
      with that identifier is shown. */
  function InitialView(gameId: Option<string>, fetched: Option<seq<Game>>): (v: View)
    ensures v == ErrorMessage("Game not found.") <==> gameId.None? || gameId.value == ""
    ensures v == ErrorMessage("Could not load game data.") <==>
              gameId.Some? && gameId.value != ""
              && (fetched.None? || forall i :: 0 <= i < |fetched.value| ==> fetched.value[i].uniqueIdentifier != gameId.value)
    ensures v.Details? ==>
              gameId.Some? && fetched.Some? && v.game.uniqueIdentifier == gameId.value
              && exists i :: 0 <= i < |fetched.value| && fetched.value[i] == v.game
                             && forall j :: 0 <= j < i ==> fetched.value[j].uniqueIdentifier != gameId.value
  {
    if gameId.None? || gameId.value == "" then ErrorMessage("Game not found.")
    else
      var found := if fetched.None? then None else FindGame(fetched.value, gameId.value);
      if found.None? then ErrorMessage("Could not load game data.")
      else Details(found.value)
  }

  // ---------------------------------------------------------------------
  // Similar games (renderSimilarGames)

  /** The games of the same category as `current`, other than `current`
      itself, in dataset order. */
  function SameCategoryOthers(all: seq<Game>, current: Game): (r: seq<Game>)
    ensures forall g :: g in r <==> g in all && g.category == current.category && g.uniqueIdentifier != current.uniqueIdentifier
    ensures forall g :: multiset(r)[g] ==
              if g.category == current.category && g.uniqueIdentifier != current.uniqueIdentifier then multiset(all)[g] else 0
    ensures SubsequenceOf(r, all)
  {
    if all == [] then []
    else
      var rest := SameCategoryOthers(all[1..], current);
      assert all == [all[0]] + all[1..];
      if all[0].category == current.category && all[0].uniqueIdentifier != current.uniqueIdentifier
      then [all[0]] + rest
      else rest
  }

  /** The first elements of a subsequence form a subsequence. */
  lemma {:induction false} PrefixSubsequence(a: seq<Game>, b: seq<Game>, k: nat)
    requires k <= |a| && SubsequenceOf(a, b)
    ensures SubsequenceOf(a[..k], b)
    decreases |b|
  {
    if k > 0 {
      if a[0] == b[0] {
        PrefixSubsequence(a[1..], b[1..], k - 1);
        assert a[..k][1..] == a[1..][..k - 1];
      } else {
        PrefixSubsequence(a, b[1..], k);
      }
    }
  }

  /** The strip: the first three of those games. */
  function SimilarGames(all: seq<Game>, current: Game): (r: seq<Game>)
    ensures |r| <= 3
    ensures forall g :: g in r ==> g in all && g.category == current.category && g.uniqueIdentifier != current.uniqueIdentifier
    ensures SubsequenceOf(r, all)
    ensures |r| < 3 ==> forall g :: g in all && g.category == current.category && g.uniqueIdentifier != current.uniqueIdentifier ==> g in r
    ensures var others := SameCategoryOthers(all, current);
            |r| == (if |others| < 3 then |others| else 3) && r == others[..|r|]
  {
    var others := SameCategoryOthers(all, current);
    var r := if |others| <= 3 then others else others[..3];
    PrefixSubsequence(others, all, |r|);
    assert r == others[..|r|];
    r
  }

  // ---------------------------------------------------------------------
  // Wishlist (addGameToWishlist)

  /** What `JSON.parse(localStorage.getItem("pixelvault_wishlist") || "[]")`
      gives: an absent or empty item reads as `[]`; a list of game records;
      or a value on which the handler throws (text that is not JSON, or JSON
      such as `null` that has no `findIndex`). */
  datatype WishlistSlot = Absent | Entries(items: seq<Game>) | Unreadable

  /** The index of the first entry with identifier `id`, or -1. */
  function WishIndex(items: seq<Game>, id: string): (r: int)
    ensures -1 <= r < |items|
    ensures r == -1 <==> forall i :: 0 <= i < |items| ==> items[i].uniqueIdentifier != id
    ensures r >= 0 ==> items[r].uniqueIdentifier == id && forall i :: 0 <= i < r ==> items[i].uniqueIdentifier != id
  {
    if items == [] then -1
    else if items[0].uniqueIdentifier == id then 0
    else
      var r := WishIndex(items[1..], id);
      if r == -1 then -1 else r + 1
  }

  /** The list after a toggle of `g`: appended when no entry has its
      identifier, otherwise the first such entry cut out. */
  function Toggled(items: seq<Game>, g: Game): (r: seq<Game>)
    ensures |r| == |items| + 1 <==> forall i :: 0 <= i < |items| ==> items[i].uniqueIdentifier != g.uniqueIdentifier
    ensures |r| == |items| - 1 <==> exists i :: 0 <= i < |items| && items[i].uniqueIdentifier == g.uniqueIdentifier
    ensures UniqueIds(items) ==>
              ((exists k :: 0 <= k < |r| && r[k].uniqueIdentifier == g.uniqueIdentifier) <==>
               (forall k :: 0 <= k < |items| ==> items[k].uniqueIdentifier != g.uniqueIdentifier))
  {
    var i := WishIndex(items, g.uniqueIdentifier);
    if i == -1 then
      var r := items + [g];
      assert r[|items|].uniqueIdentifier == g.uniqueIdentifier;
      r
    else
      var r := items[..i] + items[i + 1..];
      assert forall k :: 0 <= k < |r| ==> r[k] == if k < i then items[k] else items[k + 1];
      r
  }

  /** No two entries share an identifier. */
  predicate UniqueIds(items: seq<Game>) {
    forall i, j :: 0 <= i < j < |items| ==> items[i].uniqueIdentifier != items[j].uniqueIdentifier
  }

  /** A toggle either appends `g` at the end, or removes exactly one entry,
      the first with `g`'s identifier, keeping every other entry in order. */
  lemma {:induction false} ToggleCases(items: seq<Game>, g: Game)
    ensures (forall i :: 0 <= i < |items| ==> items[i].uniqueIdentifier != g.uniqueIdentifier) ==>
              Toggled(items, g) == items + [g]
    ensures forall i :: 0 <= i < |items| && items[i].uniqueIdentifier == g.uniqueIdentifier
                        && (forall j :: 0 <= j < i ==> items[j].uniqueIdentifier != g.uniqueIdentifier) ==>
              Toggled(items, g) == items[..i] + items[i + 1..]
  {
  }

  /** Cutting out the entry at `k` shifts the later entries down by one. */
  lemma {:induction false} CutShifts(items: seq<Game>, k: nat, r: seq<Game>)
    requires k < |items| && r == items[..k] + items[k + 1..]
    ensures |r| == |items| - 1
    ensures forall a :: 0 <= a < k ==> r[a] == items[a]
    ensures forall a :: k <= a < |r| ==> r[a] == items[a + 1]
  {
  }

  /** On a list with unique identifiers, cutting out the entry at `k` keeps
      them unique and leaves no entry with that entry's identifier. */
  lemma {:induction false} CutKeepsUnique(items: seq<Game>, k: nat, r: seq<Game>)
    requires k < |items| && UniqueIds(items) && r == items[..k] + items[k + 1..]
    ensures UniqueIds(r)
    ensures forall a :: 0 <= a < |r| ==> r[a].uniqueIdentifier != items[k].uniqueIdentifier
  {
    CutShifts(items, k, r);
    forall a, b | 0 <= a < b < |r| ensures r[a].uniqueIdentifier != r[b].uniqueIdentifier {
      var a' := if a < k then a else a + 1;
      var b' := if b < k then b else b + 1;
      assert r[a] == items[a'] && r[b] == items[b'];
    }
    forall a | 0 <= a < |r| ensures r[a].uniqueIdentifier != items[k].uniqueIdentifier {
      var a' := if a < k then a else a + 1;
      assert r[a] == items[a'];
    }
  }

  /** Toggling keeps the identifiers unique; on such a list a present game
      is gone afterwards, and an absent one is present. */
  lemma {:induction false} ToggleKeepsUnique(items: seq<Game>, g: Game)
    requires UniqueIds(items)
    ensures UniqueIds(Toggled(items, g))
    ensures (exists i :: 0 <= i < |items| && items[i].uniqueIdentifier == g.uniqueIdentifier) <==>
            (forall i :: 0 <= i < |Toggled(items, g)| ==> Toggled(items, g)[i].uniqueIdentifier != g.uniqueIdentifier)
  {
    var k := WishIndex(items, g.uniqueIdentifier);
    var r := Toggled(items, g);
    if k == -1 {
      assert r == items + [g];
      assert r[|items|] == g;
    } else {
      assert r == items[..k] + items[k + 1..];
      assert items[k].uniqueIdentifier == g.uniqueIdentifier;
      CutKeepsUnique(items, k, r);
    }
  }

  /** Toggling a game that is not on the list twice restores the list. */
  lemma {:induction false} ToggleTwiceRestores(items: seq<Game>, g: Game)
    requires forall i :: 0 <= i < |items| ==> items[i].uniqueIdentifier != g.uniqueIdentifier
    ensures Toggled(Toggled(items, g), g) == items
  {
    var once := items + [g];
    assert WishIndex(once, g.uniqueIdentifier) == |items| by {
      assert once[|items|] == g;
      assert forall i :: 0 <= i < |items| ==> once[i] == items[i];
      assert forall i :: 0 <= i < |items| ==> once[i].uniqueIdentifier != g.uniqueIdentifier;
    }
    assert once[..|items|] == items;
  }

  /** The storage item `pixelvault_wishlist`. */
  class WishlistStore {
    var slot: WishlistSlot

    constructor (stored: WishlistSlot)
      ensures slot == stored
    {
      slot := stored;
    }
  }

  /** `addGameToWishlist`: with no current game nothing happens; an
      unreadable item makes the handler throw before any write (`thrown`);
      otherwise the entry is pushed or spliced out in place and the list
      written back. */
  method AddGameToWishlist(current: Option<Game>, store: WishlistStore) returns (thrown: bool)
    modifies store
    ensures current.None? ==> store.slot == old(store.slot) && !thrown
    ensures current.Some? && old(store.slot).Unreadable? ==> store.slot == old(store.slot) && thrown
    ensures current.Some? && !old(store.slot).Unreadable? ==>
              !thrown && store.slot == Entries(Toggled(if old(store.slot).Entries? then old(store.slot).items else [], current.value))
  {
    thrown := false;
    if current.None? {
      return;
    }
    if store.slot.Unreadable? {
      thrown := true;
      return;
    }
    var wishlist := if store.slot.Entries? then store.slot.items else [];
    var existingIndex := WishIndex(wishlist, current.value.uniqueIdentifier);
    if existingIndex == -1 {
      wishlist := wishlist + [current.value];
    } else {
      wishlist := wishlist[..existingIndex] + wishlist[existingIndex + 1..];
    }
    store.slot := Entries(wishlist);
  }

  // ---------------------------------------------------------------------
  // Add to cart (addGameToCart)

  datatype CartAttempt = Skipped | TypeError

  /** The button calls `addItemToCart` on the navigation object, which has
      no such method (the cart store is a separate object): with a current
      game and that object loaded, the call throws; otherwise nothing runs.
      The cart is never written on this page. */
  function DetailsAddToCart(current: Option<Game>, navigationLoaded: bool): (o: CartAttempt)
    ensures o == Skipped <==> current.None? || !navigationLoaded
  {
    if current.Some? && navigationLoaded then TypeError else Skipped
  }
}
