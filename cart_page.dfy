/** The cart page of scripts/cart-manager.js (`cartManager`): the summary
    totals, the item-count text, the recommendations, the pre-checkout
    snapshot, the statistics, and the quantity buttons, which act through
    the cart store.

    The page renders each line's `uniqueIdentifier` into its buttons with a
    template literal, so a line without that property (every line the store
    itself writes) hands the string "undefined" to the store, which matches
    on `id`. */
module CartPage {
  import opened Wrappers
  import opened Text
  import opened Games
  import opened CartManagement

  /** The sales-tax rate, 8%. */
  const TaxRate: real := 0.08

  /** The three amounts of an order summary. */
  datatype Totals = Totals(subtotal: real, tax: real, total: real)

  /** Subtotal, tax and total of a list of lines (`updateCartSummary`; the
      checkout page computes the same three amounts). */
  function OrderTotals(items: seq<CartLine>): (t: Totals)
    ensures t.subtotal == Subtotal(items)
    ensures t.tax == TaxRate * t.subtotal
    ensures t.total == t.subtotal + t.tax
  {
    var subtotal := Subtotal(items);
    var tax := subtotal * TaxRate;
    Totals(subtotal, tax, subtotal + tax)
  }

  /** No line has a negative price or quantity. */
  predicate NonNegativeLines(items: seq<CartLine>) {
    forall i :: 0 <= i < |items| ==> items[i].price >= 0.0 && items[i].quantity >= 0
  }

  /** With no negative prices or quantities the amounts are ordered
      0 <= tax <= subtotal <= total, and the total is 108% of the subtotal. */
  lemma {:induction false} TotalsOrdered(items: seq<CartLine>)
    requires NonNegativeLines(items)
    ensures 0.0 <= OrderTotals(items).tax <= OrderTotals(items).subtotal <= OrderTotals(items).total
    ensures OrderTotals(items).total == 1.08 * OrderTotals(items).subtotal
  {
    SubtotalNonNegative(items);
  }

  lemma {:induction false} SubtotalNonNegative(items: seq<CartLine>)
    requires NonNegativeLines(items)
    ensures Subtotal(items) >= 0.0
  {
    if items != [] {
      SubtotalNonNegative(items[1..]);
      assert items[0].price * items[0].quantity as real >= 0.0;
    }
  }

  /** Whether the checkout button is disabled: exactly when the cart is empty. */
  function CheckoutDisabled(items: seq<CartLine>): (disabled: bool)
    ensures disabled <==> |items| == 0
    ensures forall timestamp :: disabled <==> ProceedToCheckout(items, timestamp).None?
  {
    |items| == 0
  }

  // ---------------------------------------------------------------------
  // The item-count text (updateCartCount)

  /** `${n} item${n !== 1 ? "s" : ""}` for the total quantity `n`. */
  function CountLabel(items: seq<CartLine>): string {
    var n := ItemCount(items);
    IntToString(n) + " item" + (if n != 1 then "s" else "")
  }

  /** For a non-negative count the text starts with the count's decimal
      digits, which read back as the count, and the word after them is the
      singular "item" exactly when the count is 1. */
  lemma {:induction false} CountLabelReadsBack(items: seq<CartLine>)
    requires ItemCount(items) >= 0
    ensures var text := CountLabel(items);
            var d := |NatToString(ItemCount(items))|;
            && d < |text|
            && AllDigits(text[..d]) && DecimalValue(text[..d]) == ItemCount(items)
            && (text[d..] == " item" <==> ItemCount(items) == 1)
            && (text[d..] == " items" <==> ItemCount(items) != 1)
  {
    var n := ItemCount(items);
    var text := CountLabel(items);
    var digits := NatToString(n);
    assert text[..|digits|] == digits;
    NatToStringRoundTrip(n);
  }

  // ---------------------------------------------------------------------
  // Recommendations (selectRecommendations)

  /** `cartItems.map((item) => item.uniqueIdentifier)`. */
  function CartUniqueIdentifiers(items: seq<CartLine>): (ids: seq<Key>)
    ensures |ids| == |items|
    ensures forall i :: 0 <= i < |items| ==> ids[i] == items[i].uniqueIdentifier
  {
    if items == [] then [] else [items[0].uniqueIdentifier] + CartUniqueIdentifiers(items[1..])
  }

  /** The games whose identifier is not among the cart lines'
      `uniqueIdentifier` values, in dataset order. */
  function AvailableGames(allGames: seq<Game>, cartIds: seq<Key>): (r: seq<Game>)
    ensures forall g :: g in r <==> g in allGames && Some(g.uniqueIdentifier) !in cartIds
  {
    if allGames == [] then []
    else if Some(allGames[0].uniqueIdentifier) !in cartIds then [allGames[0]] + AvailableGames(allGames[1..], cartIds)
    else AvailableGames(allGames[1..], cartIds)
  }

  /** The first four of `shuffled`, which is the random reordering of the
      available games (any permutation of them). */
  function SelectRecommendations(allGames: seq<Game>, items: seq<CartLine>, shuffled: seq<Game>): (r: seq<Game>)
    requires multiset(shuffled) == multiset(AvailableGames(allGames, CartUniqueIdentifiers(items)))
    ensures |r| == if |shuffled| < 4 then |shuffled| else 4
    ensures forall g :: g in r ==> g in allGames
    ensures forall g :: g in r ==> forall i :: 0 <= i < |items| ==> items[i].uniqueIdentifier != Some(g.uniqueIdentifier)
    ensures r == shuffled[..|r|]
    ensures multiset(r) <= multiset(shuffled)
  {
    var r := if |shuffled| < 4 then shuffled else shuffled[..4];
    assert shuffled == r + shuffled[|r|..];
    assert forall g :: g in r ==> g in multiset(shuffled);
    r
  }

  /** On a cart the store wrote (no line has a `uniqueIdentifier`) nothing
      is excluded: every game of the dataset stays available. */
  lemma {:induction false} StoreCartExcludesNothing(allGames: seq<Game>, items: seq<CartLine>)
    requires forall i :: 0 <= i < |items| ==> items[i].uniqueIdentifier.None?
    ensures AvailableGames(allGames, CartUniqueIdentifiers(items)) == allGames
  {
    var ids := CartUniqueIdentifiers(items);
    if allGames != [] {
      StoreCartExcludesNothing(allGames[1..], items);
      assert Some(allGames[0].uniqueIdentifier) !in ids;
    }
  }

  // ---------------------------------------------------------------------
  // Quantity buttons (updateQuantity, removeItem)

  /** The id a line's quantity and remove buttons pass to the page. */
  function ButtonItemId(line: CartLine): Key {
    Some(Interpolate(line.uniqueIdentifier))
  }

  /** The store keeps quantities positive under both paths the buttons take. */
  lemma {:induction false} ButtonPathsKeepPositive(items: seq<CartLine>, key: Key, newQuantity: int)
    requires PositiveQuantities(items)
    ensures PositiveQuantities(RemoveLines(items, key))
    ensures newQuantity > 0 && UpdateLines(items, key, newQuantity).Some? ==>
              PositiveQuantities(UpdateLines(items, key, newQuantity).value)
  {
    var r := RemoveLines(items, key);
    forall a | 0 <= a < |r| ensures r[a].quantity >= 1 {
      assert r[a] in items;
    }
  }

  /** On a cart the store wrote (every line has an `id` other than the text
      "undefined" and no `uniqueIdentifier`) the buttons of every line miss:
      neither a quantity change nor a removal alters the stored list. */
  lemma {:induction false} ButtonsMissStoreLines(items: seq<CartLine>, line: CartLine, newQuantity: int)
    requires forall i :: 0 <= i < |items| ==>
               items[i].id.Some? && items[i].id != Some("undefined") && items[i].uniqueIdentifier.None?
    requires line in items
    ensures UpdateLines(items, ButtonItemId(line), newQuantity).None?
    ensures RemoveLines(items, ButtonItemId(line)) == items
  {
    assert ButtonItemId(line) == Some("undefined");
    RemoveLinesFilters(items, ButtonItemId(line));
  }

  /** `updateQuantity`: a non-positive quantity takes the remove path, which
      acts only if the line's row is on the page (`rowShown`; the removal
      itself runs after an animation delay, not modelled); any other quantity
      goes to the store's `updateItemQuantity`. No path ever stores a
      non-positive quantity. */
  method UpdateQuantity(itemId: Key, newQuantity: int, rowShown: bool, store: CartStore)
    modifies store
    ensures newQuantity <= 0 && rowShown ==> store.slot == Some(RemoveLines(old(store.Items()), itemId))
    ensures newQuantity <= 0 && !rowShown ==> store.slot == old(store.slot)
    ensures newQuantity > 0 ==>
              store.slot == (match UpdateLines(old(store.Items()), itemId, newQuantity)
                             case None => old(store.slot)
                             case Some(v) => Some(v))
    ensures PositiveQuantities(old(store.Items())) ==> PositiveQuantities(store.Items())
  {
    ghost var before := store.Items();
    if PositiveQuantities(before) {
      ButtonPathsKeepPositive(before, itemId, newQuantity);
    }
    if newQuantity <= 0 {
      if rowShown {
        store.RemoveItemFromCart(itemId);
      }
      return;
    }
    store.UpdateItemQuantity(itemId, newQuantity);
  }

  // ---------------------------------------------------------------------
  // Checkout snapshot and statistics

  /** What `proceedToCheckout` stores under `pixelVaultCheckout`; the
      timestamp is the clock's ISO string, passed in. */
  datatype CheckoutSnapshot = CheckoutSnapshot(items: seq<CartLine>, total: real, timestamp: string)

  /** The snapshot written, or None when the cart is empty and nothing is
      written. Its total is the pre-tax sum. */
  function ProceedToCheckout(items: seq<CartLine>, timestamp: string): (r: Option<CheckoutSnapshot>)
    ensures r.None? <==> items == []
    ensures r.Some? ==> r.value.items == items && r.value.timestamp == timestamp
    ensures r.Some? ==> r.value.total == OrderTotals(items).subtotal
  {
    if |items| == 0 then None
    else Some(CheckoutSnapshot(items, Subtotal(items), timestamp))
  }

  /** With positive prices and quantities, the snapshot's total is strictly
      below the total the summary shows, which adds the tax. */
  lemma {:induction false} SnapshotOmitsTax(items: seq<CartLine>, timestamp: string)
    requires items != []
    requires forall i :: 0 <= i < |items| ==> items[i].price > 0.0 && items[i].quantity >= 1
    ensures ProceedToCheckout(items, timestamp).value.total < OrderTotals(items).total
  {
    SubtotalPositive(items);
  }

  lemma {:induction false} SubtotalPositive(items: seq<CartLine>)
    requires items != []
    requires forall i :: 0 <= i < |items| ==> items[i].price > 0.0 && items[i].quantity >= 1
    ensures Subtotal(items) > 0.0
  {
    assert items[0].price * items[0].quantity as real > 0.0;
    if |items| > 1 {
      SubtotalPositive(items[1..]);
    } else {
      assert items[1..] == [];
    }
  }

  datatype CartStats = CartStats(itemCount: int, uniqueItems: nat, totalValue: real, averagePrice: real)

  /** `getCartStats`. */
  function GetCartStats(items: seq<CartLine>): (s: CartStats)
    ensures s.itemCount == ItemCount(items) && s.uniqueItems == |items| && s.totalValue == Subtotal(items)
    ensures s.itemCount <= 0 ==> s.averagePrice == 0.0
  {
    var totalItems := ItemCount(items);
    var totalValue := Subtotal(items);
    CartStats(totalItems, |items|, totalValue, if totalItems > 0 then totalValue / totalItems as real else 0.0)
  }

  /** The average price times the item count gives back the total value when
      there are items, and a cart with positive quantities has at least as
      many items as lines. */
  lemma {:induction false} CartStatsConsistent(items: seq<CartLine>)
    requires PositiveQuantities(items)
    ensures var s := GetCartStats(items);
            && s.uniqueItems <= s.itemCount
            && (s.itemCount > 0 ==> s.averagePrice * s.itemCount as real == s.totalValue)
            && (s.itemCount == 0 <==> items == [])
  {
    IndicatorActiveIffNonEmpty(items);
  }
}
