/** The cart store of scripts/navigation-injector.js (`cartManagementSystem`)
    and the cart indicator count of `navigationInjectionSystem`.

    The cart lives in one localStorage slot (`pixelVaultCart`) as a JSON list
    of lines. Every operation reads the slot (missing or unparsable data reads
    as the empty list), changes the list and writes it back. The slot is
    modelled as `Option<seq<CartLine>>`, `None` standing for missing or
    unparsable data.

    Lines are matched with JavaScript's `===` on a property that may be
    `undefined`: a key is an `Option<string>` and `None` is `undefined`, so
    `undefined === undefined` holds as it does in the scripts. This store
    writes and matches `id`; the catalogue page writes and matches
    `uniqueIdentifier` on the same slot (see Catalog). */
module CartManagement {
  import opened Wrappers

  /** A JavaScript property that is either a string or `undefined`. */
  type Key = Option<string>

  datatype CartLine = CartLine(
    id: Key,
    uniqueIdentifier: Key,
    title: string,
    price: real,
    image: string,
    quantity: int)

  /** Which property a writer matches lines on. */
  datatype KeyField = ById | ByUniqueIdentifier

  function KeyOf(line: CartLine, field: KeyField): Key {
    match field
    case ById => line.id
    case ByUniqueIdentifier => line.uniqueIdentifier
  }

  /** The record handed to `addItemToCart`. */
  datatype GameData = GameData(id: Key, title: string, price: real, image: string)

  /** `getCartItemsFromStorage`: the stored list, or the empty list when the
      slot is missing or does not parse. */
  function ReadCart(slot: Option<seq<CartLine>>): (items: seq<CartLine>)
    ensures slot.None? ==> items == []
    ensures slot.Some? ==> items == slot.value
  {
    match slot
    case None => []
    case Some(v) => v
  }

  /** `findIndex` on a key property: the first matching position, or -1. */
  function FindIndex(items: seq<CartLine>, field: KeyField, key: Key): (r: int)
    ensures -1 <= r < |items|
    ensures r == -1 <==> forall i :: 0 <= i < |items| ==> KeyOf(items[i], field) != key
    ensures r >= 0 ==> KeyOf(items[r], field) == key
    ensures r >= 0 ==> forall i :: 0 <= i < r ==> KeyOf(items[i], field) != key
  {
    if items == [] then -1
    else if KeyOf(items[0], field) == key then 0
    else
      var r := FindIndex(items[1..], field, key);
      if r == -1 then -1 else r + 1
  }

  /** Adding on a key: the first line with that key gets one more unit,
      otherwise `newLine` is appended. Shared by this store (on `id`) and by
      the catalogue page (on `uniqueIdentifier`). */
  function Bump(items: seq<CartLine>, field: KeyField, key: Key, newLine: CartLine): seq<CartLine> {
    var i := FindIndex(items, field, key);
    if i >= 0 then items[i := items[i].(quantity := items[i].quantity + 1)]
    else items + [newLine]
  }

  /** The line `addItemToCart` pushes for a new game. */
  function NewLine(g: GameData): CartLine {
    CartLine(g.id, None, g.title, g.price, g.image, 1)
  }

  /** The list `addItemToCart` saves. */
  function AddLine(items: seq<CartLine>, g: GameData): (r: seq<CartLine>)
    ensures |r| == |items| + 1 <==> forall j :: 0 <= j < |items| ==> items[j].id != g.id
    ensures |r| == |items| <==> exists j :: 0 <= j < |items| && items[j].id == g.id
  {
    Bump(items, ById, g.id, NewLine(g))
  }

  /** The list `removeItemFromCart` saves: `filter(item.id !== gameId)`. */
  function RemoveLines(items: seq<CartLine>, key: Key): (r: seq<CartLine>)
    ensures |r| <= |items|
    ensures forall l :: l in r ==> l in items && l.id != key
  {
    if items == [] then []
    else if items[0].id == key then RemoveLines(items[1..], key)
    else [items[0]] + RemoveLines(items[1..], key)
  }

  /** What `updateItemQuantity` saves: nothing when no line has the id,
      the list without that line when the quantity is not positive, and
      otherwise the list with that line's quantity replaced. */
  function UpdateLines(items: seq<CartLine>, key: Key, newQuantity: int): (r: Option<seq<CartLine>>)
    ensures r.Some? ==> |r.value| == if newQuantity <= 0 then |items| - 1 else |items|
  {
    var i := FindIndex(items, ById, key);
    if i == -1 then None
    else if newQuantity <= 0 then Some(items[..i] + items[i + 1..])
    else Some(items[i := items[i].(quantity := newQuantity)])
  }

  function LineTotal(l: CartLine): real {
    l.price * l.quantity as real
  }

  /** `reduce((total, item) => total + item.price * item.quantity, 0)`. */
  function Subtotal(items: seq<CartLine>): (total: real)
    ensures NonNegativePrices(items) && PositiveQuantities(items) ==> total >= 0.0
  {
    if items == [] then 0.0 else LineTotal(items[0]) + Subtotal(items[1..])
  }

  /** `reduce((total, item) => total + item.quantity, 0)`. */
  function ItemCount(items: seq<CartLine>): int {
    if items == [] then 0 else items[0].quantity + ItemCount(items[1..])
  }

  /** No two lines share a key on `field`. */
  predicate UniqueKeys(items: seq<CartLine>, field: KeyField) {
    forall i, j :: 0 <= i < j < |items| ==> KeyOf(items[i], field) != KeyOf(items[j], field)
  }

  predicate NonNegativePrices(items: seq<CartLine>) {
    forall i :: 0 <= i < |items| ==> items[i].price >= 0.0
  }

  predicate PositiveQuantities(items: seq<CartLine>) {
    forall i :: 0 <= i < |items| ==> items[i].quantity >= 1
  }

  /** The invariant the store keeps: one line per id, every quantity positive. */
  predicate WellFormed(items: seq<CartLine>) {
    UniqueKeys(items, ById) && PositiveQuantities(items)
  }

  /** The cart-count badge: the total quantity, and whether it is "active". */
  datatype Indicator = Indicator(count: int, active: bool)

  /** `navigationInjectionSystem.updateCartIndicator`. */
  function CartIndicator(items: seq<CartLine>): Indicator {
    var n := ItemCount(items);
    Indicator(n, n > 0)
  }

  // ---------------------------------------------------------------------
  // Properties of the list operations

  /** Adding an id that is already present raises that one line by one unit;
      the length, the order and every other line stay as they were. */
  lemma {:induction false} AddExistingIncrements(items: seq<CartLine>, g: GameData, i: int)
    requires 0 <= i < |items| && items[i].id == g.id
    requires forall j :: 0 <= j < i ==> items[j].id != g.id
    ensures |AddLine(items, g)| == |items|
    ensures AddLine(items, g)[i] == items[i].(quantity := items[i].quantity + 1)
    ensures forall j :: 0 <= j < |items| && j != i ==> AddLine(items, g)[j] == items[j]
  {
    assert FindIndex(items, ById, g.id) == i;
  }

  /** Adding an absent id appends exactly one line, at the end, with
      quantity 1 and the id, title, price and image of the input. */
  lemma {:induction false} AddNewAppends(items: seq<CartLine>, g: GameData)
    requires forall j :: 0 <= j < |items| ==> items[j].id != g.id
    ensures AddLine(items, g) == items + [CartLine(g.id, None, g.title, g.price, g.image, 1)]
  {
  }

  /** Removing keeps the other lines, in order, and drops every line with the
      id; an absent id leaves the list as it is. */
  lemma {:induction false} RemoveLinesFilters(items: seq<CartLine>, key: Key)
    ensures forall j :: 0 <= j < |items| && items[j].id != key ==> items[j] in RemoveLines(items, key)
    ensures (forall j :: 0 <= j < |items| ==> items[j].id != key) ==> RemoveLines(items, key) == items
  {
    RemoveLinesKeepsOthers(items, key);
    if forall j :: 0 <= j < |items| ==> items[j].id != key {
      RemoveAbsentKeepsAll(items, key);
    }
  }

  /** Every line whose id differs from the key survives the removal. */
  lemma {:induction false} RemoveLinesKeepsOthers(items: seq<CartLine>, key: Key)
    ensures forall j :: 0 <= j < |items| && items[j].id != key ==> items[j] in RemoveLines(items, key)
  {
    if items != [] {
      var rest := RemoveLines(items[1..], key);
      RemoveLinesKeepsOthers(items[1..], key);
      assert forall l :: l in rest ==> l in RemoveLines(items, key);
      forall j | 0 <= j < |items| && items[j].id != key
        ensures items[j] in RemoveLines(items, key)
      {
        if j > 0 {
          assert items[1..][j - 1] == items[j];
        }
      }
    }
  }

  /** Removing an id no line carries changes nothing. */
  lemma {:induction false} RemoveAbsentKeepsAll(items: seq<CartLine>, key: Key)
    requires forall j :: 0 <= j < |items| ==> items[j].id != key
    ensures RemoveLines(items, key) == items
  {
    if items != [] {
      assert forall j :: 0 <= j < |items[1..]| ==> items[1..][j].id != key by {
        forall j | 0 <= j < |items[1..]| ensures items[1..][j].id != key {
          assert items[1..][j] == items[j + 1];
        }
      }
      RemoveAbsentKeepsAll(items[1..], key);
      assert items == [items[0]] + items[1..];
    }
  }

  /** In a cart with one line per id, removing an id that sits at position
      `i` cuts out exactly that line. */
  lemma {:induction false} RemoveLinesCutsOne(items: seq<CartLine>, i: int)
    requires UniqueKeys(items, ById)
    requires 0 <= i < |items|
    ensures RemoveLines(items, items[i].id) == items[..i] + items[i + 1..]
  {
    var key := items[i].id;
    var rest := items[i..];
    NeighboursSurviveRemoval(items, i);
    assert items == items[..i] + rest;
    assert rest[0] == items[i] && rest[1..] == items[i + 1..];
    RemoveLinesConcat(items[..i], rest, key);
  }

  /** With distinct ids, the lines before and after position `i` carry
      other ids, so removing that line's id leaves both parts as they are. */
  lemma {:induction false} NeighboursSurviveRemoval(items: seq<CartLine>, i: int)
    requires UniqueKeys(items, ById)
    requires 0 <= i < |items|
    ensures RemoveLines(items[..i], items[i].id) == items[..i]
    ensures RemoveLines(items[i + 1..], items[i].id) == items[i + 1..]
  {
    var key := items[i].id;
    var before, after := items[..i], items[i + 1..];
    OthersHaveOtherIds(items, i);
    assert forall j :: 0 <= j < |before| ==> before[j].id != key by {
      forall j | 0 <= j < |before| ensures before[j].id != key {
        assert before[j] == items[j];
      }
    }
    assert forall j :: 0 <= j < |after| ==> after[j].id != key by {
      forall j | 0 <= j < |after| ensures after[j].id != key {
        assert after[j] == items[i + 1 + j];
      }
    }
    RemoveAbsentKeepsAll(before, key);
    RemoveAbsentKeepsAll(after, key);
  }

  /** With distinct ids, no line other than the one at `i` has its id. */
  lemma {:induction false} OthersHaveOtherIds(items: seq<CartLine>, i: int)
    requires UniqueKeys(items, ById)
    requires 0 <= i < |items|
    ensures forall j :: 0 <= j < |items| && j != i ==> items[j].id != items[i].id
  {
    forall j | 0 <= j < |items| && j != i ensures items[j].id != items[i].id {
      if j < i {
        assert KeyOf(items[j], ById) != KeyOf(items[i], ById);
      } else {
        assert KeyOf(items[i], ById) != KeyOf(items[j], ById);
      }
    }
  }

  /** Removal works line by line: removing from a concatenation removes from
      each part. */
  lemma {:induction false} RemoveLinesConcat(a: seq<CartLine>, b: seq<CartLine>, key: Key)
    ensures RemoveLines(a + b, key) == RemoveLines(a, key) + RemoveLines(b, key)
  {
    if a == [] {
      assert a + b == b;
    } else {
      assert (a + b)[0] == a[0] && (a + b)[1..] == a[1..] + b;
      RemoveLinesConcat(a[1..], b, key);
    }
  }

  /** Adding a new id and then removing it gives back the cart before the
      add, line for line. */
  lemma {:induction false} AddThenRemoveRestores(items: seq<CartLine>, g: GameData)
    requires forall j :: 0 <= j < |items| ==> items[j].id != g.id
    ensures RemoveLines(AddLine(items, g), g.id) == items
  {
    RemoveLinesConcat(items, [NewLine(g)], g.id);
    assert RemoveLines([NewLine(g)], g.id) == [];
    RemoveAbsentKeepsAll(items, g.id);
  }

  /** The outcomes of `updateItemQuantity`: an absent id saves nothing; a
      quantity `<= 0` cuts out exactly the first line with the id; any other
      quantity replaces that line's quantity and nothing else. */
  lemma {:induction false} UpdateLinesCases(items: seq<CartLine>, key: Key, newQuantity: int)
    ensures (forall j :: 0 <= j < |items| ==> items[j].id != key) <==> UpdateLines(items, key, newQuantity).None?
    ensures forall i :: 0 <= i < |items| && items[i].id == key
                        && (forall j :: 0 <= j < i ==> items[j].id != key) ==>
              UpdateLines(items, key, newQuantity)
              == Some(if newQuantity <= 0 then items[..i] + items[i + 1..]
                      else items[i := items[i].(quantity := newQuantity)])
  {
    var f := FindIndex(items, ById, key);
    assert forall j :: 0 <= j < |items| ==> KeyOf(items[j], ById) == items[j].id;
    forall i | 0 <= i < |items| && items[i].id == key && (forall j :: 0 <= j < i ==> items[j].id != key)
      ensures UpdateLines(items, key, newQuantity)
              == Some(if newQuantity <= 0 then items[..i] + items[i + 1..]
                      else items[i := items[i].(quantity := newQuantity)])
    {
      assert KeyOf(items[i], ById) == key;
      assert f == i;
    }
  }

  /** The other direction of the shared cart item: on lines the catalogue
      page pushed (no `id`), the store's lookup by a defined id finds
      nothing, so an add appends a new line, and remove and update change
      nothing. */
  lemma {:induction false} StoreMissesCatalogLines(items: seq<CartLine>, g: GameData, newQuantity: int)
    requires forall i :: 0 <= i < |items| ==> items[i].id.None?
    requires g.id.Some?
    ensures FindIndex(items, ById, g.id) == -1
    ensures AddLine(items, g) == items + [NewLine(g)]
    ensures RemoveLines(items, g.id) == items
    ensures UpdateLines(items, g.id, newQuantity).None?
  {
    RemoveAbsentKeepsAll(items, g.id);
  }

  lemma {:induction false} UniqueKeysSlice(items: seq<CartLine>, i: int)
    requires UniqueKeys(items, ById) && 0 <= i < |items|
    ensures UniqueKeys(items[..i] + items[i + 1..], ById)
  {
    var r := items[..i] + items[i + 1..];
    forall a, b | 0 <= a < b < |r| ensures r[a].id != r[b].id {
      var a' := if a < i then a else a + 1;
      var b' := if b < i then b else b + 1;
      assert r[a] == items[a'] && r[b] == items[b'];
    }
  }

  /** Adding keeps the store's invariant. */
  lemma {:induction false} AddKeepsWellFormed(items: seq<CartLine>, g: GameData)
    requires WellFormed(items)
    ensures WellFormed(AddLine(items, g))
  {
    var i := FindIndex(items, ById, g.id);
    var r := AddLine(items, g);
    if i == -1 {
      forall a, b | 0 <= a < b < |r| ensures r[a].id != r[b].id {
        if b == |items| { assert r[b].id == g.id && r[a] == items[a]; }
      }
    }
  }

  /** Removing keeps the store's invariant. */
  lemma {:induction false} RemoveKeepsWellFormed(items: seq<CartLine>, key: Key)
    requires WellFormed(items)
    ensures WellFormed(RemoveLines(items, key))
  {
    var i := FindIndex(items, ById, key);
    if i == -1 {
      RemoveLinesFilters(items, key);
    } else {
      RemoveLinesCutsOne(items, i);
      UniqueKeysSlice(items, i);
      var r := items[..i] + items[i + 1..];
      forall a | 0 <= a < |r| ensures r[a].quantity >= 1 {
        assert r[a] == items[if a < i then a else a + 1];
      }
    }
  }

  /** Updating keeps the store's invariant, whatever the new quantity. */
  lemma {:induction false} UpdateKeepsWellFormed(items: seq<CartLine>, key: Key, newQuantity: int)
    requires WellFormed(items)
    ensures UpdateLines(items, key, newQuantity).Some? ==> WellFormed(UpdateLines(items, key, newQuantity).value)
  {
    var i := FindIndex(items, ById, key);
    if i >= 0 && newQuantity <= 0 {
      UniqueKeysSlice(items, i);
      var r := items[..i] + items[i + 1..];
      forall a | 0 <= a < |r| ensures r[a].quantity >= 1 {
        assert r[a] == items[if a < i then a else a + 1];
      }
    }
  }

  /** One call on the store, as a value. */
  datatype CartOp = Add(g: GameData) | Remove(key: Key) | Update(key: Key, quantity: int) | Clear

  /** The list saved after one operation (an update on an absent id saves
      nothing, which leaves the list as it was). */
  function Apply(items: seq<CartLine>, op: CartOp): seq<CartLine> {
    match op
    case Add(g) => AddLine(items, g)
    case Remove(k) => RemoveLines(items, k)
    case Update(k, q) => UpdateLines(items, k, q).GetOr(items)
    case Clear => []
  }

  function ApplyAll(items: seq<CartLine>, ops: seq<CartOp>): seq<CartLine>
    decreases |ops|
  {
    if ops == [] then items else ApplyAll(Apply(items, ops[0]), ops[1..])
  }

  /** Any sequence of adds, removes, updates and clears started from a cart
      with one line per id and positive quantities keeps both properties. */
  lemma {:induction false} OperationsKeepWellFormed(items: seq<CartLine>, ops: seq<CartOp>)
    requires WellFormed(items)
    ensures WellFormed(ApplyAll(items, ops))
    decreases |ops|
  {
    if ops != [] {
      match ops[0] {
        case Add(g) => AddKeepsWellFormed(items, g);
        case Remove(k) => RemoveKeepsWellFormed(items, k);
        case Update(k, q) => UpdateKeepsWellFormed(items, k, q);
        case Clear =>
      }
      OperationsKeepWellFormed(Apply(items, ops[0]), ops[1..]);
    }
  }

  lemma {:induction false} SumsAppend(a: seq<CartLine>, b: seq<CartLine>)
    ensures Subtotal(a + b) == Subtotal(a) + Subtotal(b)
    ensures ItemCount(a + b) == ItemCount(a) + ItemCount(b)
  {
    if a == [] {
      assert a + b == b;
    } else {
      assert (a + b)[1..] == a[1..] + b;
      SumsAppend(a[1..], b);
    }
  }

  lemma {:induction false} SumsUpdate(items: seq<CartLine>, i: int, x: CartLine)
    requires 0 <= i < |items|
    ensures Subtotal(items[i := x]) == Subtotal(items) - LineTotal(items[i]) + LineTotal(x)
    ensures ItemCount(items[i := x]) == ItemCount(items) - items[i].quantity + x.quantity
  {
    assert items == items[..i] + [items[i]] + items[i + 1..];
    assert items[i := x] == items[..i] + [x] + items[i + 1..];
    SumsAppend(items[..i] + [items[i]], items[i + 1..]);
    SumsAppend(items[..i] + [x], items[i + 1..]);
    SumsAppend(items[..i], [items[i]]);
    SumsAppend(items[..i], [x]);
  }

  /** Adding raises the count by one and the total by the price of one unit:
      the stored line's price when the id is present, the input's otherwise. */
  lemma {:induction false} AddRaisesTotals(items: seq<CartLine>, g: GameData)
    ensures ItemCount(AddLine(items, g)) == ItemCount(items) + 1
    ensures var i := FindIndex(items, ById, g.id);
            Subtotal(AddLine(items, g)) == Subtotal(items) + (if i >= 0 then items[i].price else g.price)
  {
    var i := FindIndex(items, ById, g.id);
    if i >= 0 {
      var x := items[i].(quantity := items[i].quantity + 1);
      assert AddLine(items, g) == items[i := x];
      SumsUpdate(items, i, x);
    } else {
      assert AddLine(items, g) == items + [NewLine(g)];
      SumsAppend(items, [NewLine(g)]);
    }
  }

  /** With positive quantities the badge is active exactly when the cart has
      a line. */
  lemma {:induction false} IndicatorActiveIffNonEmpty(items: seq<CartLine>)
    requires PositiveQuantities(items)
    ensures CartIndicator(items).active <==> items != []
    ensures ItemCount(items) >= |items|
  {
    if items != [] {
      IndicatorActiveIffNonEmpty(items[1..]);
    }
  }

  // ---------------------------------------------------------------------
  // The store object

  /** `cartManagementSystem` together with its localStorage slot. Each method
      reads the slot, computes the new list and writes it back, as the script
      does; the list functions above are what each write stores. */
  class CartStore {
    var slot: Option<seq<CartLine>>

    constructor (stored: Option<seq<CartLine>>)
      ensures slot == stored
    {
      slot := stored;
    }

    /** `getCartItemsFromStorage`. */
    function Items(): (items: seq<CartLine>)
      reads this
      ensures slot.None? ==> items == []
    {
      ReadCart(slot)
    }

    /** `addItemToCart`: find the line by `id`, raise it in place or push a
        new one, then save. */
    method AddItemToCart(g: GameData)
      modifies this
      ensures slot == Some(AddLine(old(Items()), g))
      ensures ItemCount(Items()) == ItemCount(old(Items())) + 1
      ensures WellFormed(old(Items())) ==> WellFormed(Items())
    {
      var cartItems := Items();
      var existingItemIndex := FindIndex(cartItems, ById, g.id);
      if existingItemIndex != -1 {
        var line := cartItems[existingItemIndex];
        cartItems := cartItems[existingItemIndex := line.(quantity := line.quantity + 1)];
      } else {
        cartItems := cartItems + [NewLine(g)];
      }
      AddRaisesTotals(old(Items()), g);
      if WellFormed(old(Items())) { AddKeepsWellFormed(old(Items()), g); }
      slot := Some(cartItems);
    }

    /** `removeItemFromCart`: save the list without the id's lines (a save
        happens even when no line has the id). */
    method RemoveItemFromCart(gameId: Key)
      modifies this
      ensures slot == Some(RemoveLines(old(Items()), gameId))
      ensures forall l :: l in Items() ==> l.id != gameId
      ensures WellFormed(old(Items())) ==> WellFormed(Items())
    {
      var filteredItems := RemoveLines(Items(), gameId);
      if WellFormed(Items()) { RemoveKeepsWellFormed(Items(), gameId); }
      slot := Some(filteredItems);
    }

    /** `updateItemQuantity`: on an absent id nothing is saved; otherwise the
        line is spliced out (quantity `<= 0`) or given the new quantity. */
    method UpdateItemQuantity(gameId: Key, newQuantity: int)
      modifies this
      ensures UpdateLines(old(Items()), gameId, newQuantity).None? ==> slot == old(slot)
      ensures UpdateLines(old(Items()), gameId, newQuantity).Some? ==>
                slot == Some(UpdateLines(old(Items()), gameId, newQuantity).value)
      ensures WellFormed(old(Items())) ==> WellFormed(Items())
    {
      var cartItems := Items();
      var itemIndex := FindIndex(cartItems, ById, gameId);
      if WellFormed(cartItems) { UpdateKeepsWellFormed(cartItems, gameId, newQuantity); }
      if itemIndex != -1 {
        if newQuantity <= 0 {
          cartItems := cartItems[..itemIndex] + cartItems[itemIndex + 1..];
        } else {
          cartItems := cartItems[itemIndex := cartItems[itemIndex].(quantity := newQuantity)];
        }
        slot := Some(cartItems);
      }
    }

    /** `calculateCartTotal`. */
    function CalculateCartTotal(): (total: real)
      reads this
      ensures Items() == [] ==> total == 0.0
      ensures NonNegativePrices(Items()) && PositiveQuantities(Items()) ==> total >= 0.0
    {
      Subtotal(Items())
    }

    /** `clearCart`: saves the empty list, after which the total is 0. */
    method ClearCart()
      modifies this
      ensures slot == Some([])
      ensures CalculateCartTotal() == 0.0 && CartIndicator(Items()) == Indicator(0, false)
    {
      slot := Some([]);
    }
  }
}
