/** A model of the shopping-cart store of the GoMarketplace app: an ordered
    list of line items keyed by product id, three operations that change it
    (add, increment, decrement) and a single storage slot that receives the
    whole list after every change that found or added an item. */
module Cart {

  datatype Option<T> = None | Some(value: T)

  /** One line item. `price` is only ever copied, never computed with. */
  datatype Product = Product(id: string, title: string, imageUrl: string, price: real, quantity: int)

  /** What `addToCart` receives: a product without its quantity. */
  datatype Item = Item(id: string, title: string, imageUrl: string, price: real) {
    /** The line item that carries this item's fields and the given quantity. */
    function WithQuantity(quantity: int): Product {
      Product(id, title, imageUrl, price, quantity)
    }
  }

  /** The ids of a list, in list order. */
  function Ids(s: seq<Product>): seq<string> {
    seq(|s|, i requires 0 <= i < |s| => s[i].id)
  }

  predicate UniqueIds(s: seq<Product>) {
    forall i, j :: 0 <= i < j < |s| ==> s[i].id != s[j].id
  }

  predicate PositiveQuantities(s: seq<Product>) {
    forall i :: 0 <= i < |s| ==> s[i].quantity >= 1
  }

  /** The invariant the three operations keep: no id twice, no quantity below 1. */
  predicate WellFormed(s: seq<Product>) {
    UniqueIds(s) && PositiveQuantities(s)
  }

  /** `Array.prototype.findIndex` with the predicate `item.id === id`:
      the first position holding `id`, or -1 when no position does. */
  function FindIndex(s: seq<Product>, id: string): (r: int)
    ensures -1 <= r < |s|
    ensures 0 <= r ==> s[r].id == id && forall j :: 0 <= j < r ==> s[j].id != id
    ensures r == -1 <==> forall j :: 0 <= j < |s| ==> s[j].id != id
  {
    if |s| == 0 then -1
    else if s[0].id == id then 0
    else
      var k := FindIndex(s[1..], id);
      if k < 0 then -1 else k + 1
  }

  // ---------------------------------------------------------------------
  // The three operations as functions on the list

  /** The list after `addToCart(item)`: an existing entry is overwritten
      with the item's fields and one more unit, otherwise a new entry
      with quantity 1 goes at the end. */
  function AddedTo(s: seq<Product>, item: Item): seq<Product> {
    var k := FindIndex(s, item.id);
    if k >= 0 then s[k := item.WithQuantity(s[k].quantity + 1)]
    else s + [item.WithQuantity(1)]
  }

  /** The list after `increment(id)`. */
  function Incremented(s: seq<Product>, id: string): seq<Product> {
    var k := FindIndex(s, id);
    if k >= 0 then s[k := s[k].(quantity := s[k].quantity + 1)] else s
  }

  /** The quantity rule of `decrement`: one less while that stays positive. */
  function Lowered(q: int): int {
    if q - 1 > 0 then q - 1 else q
  }

  /** The list after `decrement(id)`. */
  function Decremented(s: seq<Product>, id: string): seq<Product> {
    var k := FindIndex(s, id);
    if k >= 0 then s[k := s[k].(quantity := Lowered(s[k].quantity))] else s
  }

  // ---------------------------------------------------------------------
  // Lookup

  /** The lookup depends on the ids alone and on their order. */
  lemma {:induction false} FindIndexByIds(s: seq<Product>, t: seq<Product>, id: string)
    requires Ids(s) == Ids(t)
    ensures FindIndex(s, id) == FindIndex(t, id)
  {
    assert |s| == |Ids(s)| == |Ids(t)| == |t|;
    if |s| > 0 {
      assert s[0].id == Ids(s)[0] == Ids(t)[0] == t[0].id;
      assert Ids(s[1..]) == Ids(s)[1..] == Ids(t)[1..] == Ids(t[1..]);
      FindIndexByIds(s[1..], t[1..], id);
    }
  }

  /** Looking an id up in a list extended at the end. */
  lemma FindIndexAppend(s: seq<Product>, p: Product, id: string)
    ensures FindIndex(s + [p], id) ==
      if FindIndex(s, id) >= 0 then FindIndex(s, id)
      else if p.id == id then |s|
      else -1
  {
    var t, k := s + [p], FindIndex(s, id);
    assert forall j :: 0 <= j < |s| ==> t[j] == s[j];
    if k == -1 && p.id == id {
      assert t[|s|].id == id;
    }
  }

  // ---------------------------------------------------------------------
  // addToCart

  /** Adding an id already present keeps the length and the order of ids,
      and only the matched entry changes: it takes the item's fields and
      one more unit. */
  lemma AddExisting(s: seq<Product>, item: Item)
    requires FindIndex(s, item.id) >= 0
    ensures var k, r := FindIndex(s, item.id), AddedTo(s, item);
      && |r| == |s|
      && Ids(r) == Ids(s)
      && r[k].title == item.title && r[k].imageUrl == item.imageUrl && r[k].price == item.price
      && r[k].quantity == s[k].quantity + 1
      && forall j :: 0 <= j < |s| && j != k ==> r[j] == s[j]
  {
  }

  /** Adding an absent id appends exactly one entry with quantity 1 and
      leaves every earlier entry where and as it was. */
  lemma AddNew(s: seq<Product>, item: Item)
    requires FindIndex(s, item.id) == -1
    ensures var r := AddedTo(s, item);
      && |r| == |s| + 1
      && r[..|s|] == s
      && r[|s|] == Product(item.id, item.title, item.imageUrl, item.price, 1)
      && Ids(r) == Ids(s) + [item.id]
  {
  }

  /** After an add, the lookup of the item's id finds an entry carrying
      the item's fields, at the old position or at the new end. */
  lemma AddThenFind(s: seq<Product>, item: Item)
    ensures var k, r := FindIndex(s, item.id), AddedTo(s, item);
      var m := FindIndex(r, item.id);
      && m == (if k >= 0 then k else |s|)
      && r[m].title == item.title && r[m].imageUrl == item.imageUrl && r[m].price == item.price
      && r[m].quantity == (if k >= 0 then s[k].quantity + 1 else 1)
  {
    var k := FindIndex(s, item.id);
    if k >= 0 {
      FindIndexByIds(AddedTo(s, item), s, item.id);
    } else {
      FindIndexAppend(s, item.WithQuantity(1), item.id);
    }
  }

  /** Adding keeps ids unique and quantities at least 1. */
  lemma AddKeepsWellFormed(s: seq<Product>, item: Item)
    requires WellFormed(s)
    ensures WellFormed(AddedTo(s, item))
  {
  }

  /** Re-adding an item whose fields are unchanged is an increment. */
  lemma AddSameFieldsIsIncrement(s: seq<Product>, item: Item)
    requires FindIndex(s, item.id) >= 0
    requires var k := FindIndex(s, item.id);
      s[k].title == item.title && s[k].imageUrl == item.imageUrl && s[k].price == item.price
    ensures AddedTo(s, item) == Incremented(s, item.id)
  {
  }

  /** Adding the same id twice to a cart without it leaves one entry of
      quantity 2 carrying the second add's fields. */
  lemma AddTwiceMerges(s: seq<Product>, a: Item, b: Item)
    requires FindIndex(s, a.id) == -1
    requires b.id == a.id
    ensures AddedTo(AddedTo(s, a), b) == s + [b.WithQuantity(2)]
  {
    FindIndexAppend(s, a.WithQuantity(1), a.id);
  }

  /** Adding two distinct new ids appends them in the order they were added. */
  lemma AddDistinctAppends(s: seq<Product>, a: Item, b: Item)
    requires FindIndex(s, a.id) == -1 && FindIndex(s, b.id) == -1
    requires a.id != b.id
    ensures AddedTo(AddedTo(s, a), b) == s + [a.WithQuantity(1), b.WithQuantity(1)]
  {
    FindIndexAppend(s, a.WithQuantity(1), b.id);
  }

  // ---------------------------------------------------------------------
  // increment and decrement

  /** An id that is not in the list leaves it unchanged under both. */
  lemma MissingIdIsNoOp(s: seq<Product>, id: string)
    requires FindIndex(s, id) == -1
    ensures Incremented(s, id) == s && Decremented(s, id) == s
  {
  }

  /** On a found id, increment raises that entry's quantity by one and
      changes nothing else. */
  lemma IncrementFound(s: seq<Product>, id: string)
    requires FindIndex(s, id) >= 0
    ensures var k, r := FindIndex(s, id), Incremented(s, id);
      && |r| == |s|
      && r[k].id == s[k].id && r[k].title == s[k].title
      && r[k].imageUrl == s[k].imageUrl && r[k].price == s[k].price
      && r[k].quantity == s[k].quantity + 1
      && forall j :: 0 <= j < |s| && j != k ==> r[j] == s[j]
  {
  }

  /** On a found id, decrement lowers that entry's quantity by one when it
      is above 1 and leaves it as it is otherwise; the entry stays in the
      list and nothing else changes. */
  lemma DecrementFound(s: seq<Product>, id: string)
    requires FindIndex(s, id) >= 0
    ensures var k, r := FindIndex(s, id), Decremented(s, id);
      && |r| == |s|
      && Ids(r) == Ids(s)
      && r[k].title == s[k].title && r[k].imageUrl == s[k].imageUrl && r[k].price == s[k].price
      && r[k].quantity == (if s[k].quantity > 1 then s[k].quantity - 1 else s[k].quantity)
      && forall j :: 0 <= j < |s| && j != k ==> r[j] == s[j]
  {
  }

  /** Increment and decrement keep the ids and their order. */
  lemma QuantityChangesKeepIds(s: seq<Product>, id: string)
    ensures Ids(Incremented(s, id)) == Ids(s)
    ensures Ids(Decremented(s, id)) == Ids(s)
  {
  }

  lemma IncrementKeepsWellFormed(s: seq<Product>, id: string)
    requires WellFormed(s)
    ensures WellFormed(Incremented(s, id))
  {
  }

  lemma DecrementKeepsWellFormed(s: seq<Product>, id: string)
    requires WellFormed(s)
    ensures WellFormed(Decremented(s, id))
  {
  }

  /** Decrement undoes increment on a list whose quantities are at least 1
      (the floor at 1 is never reached from above it). */
  lemma DecrementUndoesIncrement(s: seq<Product>, id: string)
    requires PositiveQuantities(s)
    ensures Decremented(Incremented(s, id), id) == s
  {
  }

  /** Increment does not undo decrement at the floor: an entry of quantity 1
      comes back as 2. */
  lemma IncrementAfterFloor(s: seq<Product>, id: string)
    requires FindIndex(s, id) >= 0 && s[FindIndex(s, id)].quantity == 1
    ensures var k := FindIndex(s, id);
      Incremented(Decremented(s, id), id)[k].quantity == 2
  {
  }

  // ---------------------------------------------------------------------
  // The store

  /** The cart provider's state: the in-memory list and the storage slot
      `@GoMarketplace:products`, with serialisation taken as the identity. */
  class CartStore {
    var products: seq<Product>
    var stored: Option<seq<Product>>
    /** Every value written to the slot by this store, oldest first. */
    ghost var writes: seq<seq<Product>>

    /** The slot holds the in-memory list, or nothing while the cart is
        still empty and unsaved. */
    ghost predicate Persisted()
      reads this
    {
      stored == Some(products) || (stored == None && products == [])
    }

    /** Start-up: install the list found in the slot, or start empty. */
    constructor (slot: Option<seq<Product>>)
      ensures products == (if slot.Some? then slot.value else [])
      ensures stored == slot && writes == []
      ensures Persisted()
    {
      products := if slot.Some? then slot.value else [];
      stored := slot;
      writes := [];
    }

    method AddToCart(item: Item)
      modifies this
      ensures products == AddedTo(old(products), item)
      ensures stored == Some(products) && writes == old(writes) + [products]
      ensures WellFormed(old(products)) ==> WellFormed(products)
    {
      var newProducts := products;
      var index := FindIndex(newProducts, item.id);
      if index >= 0 {
        newProducts := newProducts[index := item.WithQuantity(newProducts[index].quantity + 1)];
      } else {
        newProducts := newProducts + [item.WithQuantity(1)];
      }
      products := newProducts;
      stored := Some(newProducts);
      writes := writes + [newProducts];
      if WellFormed(old(products)) {
        AddKeepsWellFormed(old(products), item);
      }
    }

    method Increment(id: string)
      modifies this
      ensures products == Incremented(old(products), id)
      ensures FindIndex(old(products), id) >= 0 ==>
        stored == Some(products) && writes == old(writes) + [products]
      ensures FindIndex(old(products), id) == -1 ==>
        products == old(products) && stored == old(stored) && writes == old(writes)
      ensures old(Persisted()) ==> Persisted()
      ensures WellFormed(old(products)) ==> WellFormed(products)
    {
      var index := FindIndex(products, id);
      if index >= 0 {
        var newProducts := products;
        var p := newProducts[index];
        newProducts := newProducts[index := Product(id, p.title, p.imageUrl, p.price, p.quantity + 1)];
        products := newProducts;
        stored := Some(newProducts);
        writes := writes + [newProducts];
      }
      if WellFormed(old(products)) {
        IncrementKeepsWellFormed(old(products), id);
      }
    }

    method Decrement(id: string)
      modifies this
      ensures products == Decremented(old(products), id)
      ensures FindIndex(old(products), id) >= 0 ==>
        stored == Some(products) && writes == old(writes) + [products]
      ensures FindIndex(old(products), id) == -1 ==>
        products == old(products) && stored == old(stored) && writes == old(writes)
      ensures old(Persisted()) ==> Persisted()
      ensures WellFormed(old(products)) ==> WellFormed(products)
    {
      var index := FindIndex(products, id);
      if index >= 0 {
        var newProducts := products;
        var p := newProducts[index];
        var quantity := if p.quantity - 1 > 0 then p.quantity - 1 else p.quantity;
        newProducts := newProducts[index := Product(id, p.title, p.imageUrl, p.price, quantity)];
        products := newProducts;
        stored := Some(newProducts);
        writes := writes + [newProducts];
      }
      if WellFormed(old(products)) {
        DecrementKeepsWellFormed(old(products), id);
      }
    }
  }

  // ---------------------------------------------------------------------
  // Clients

  /** A store started without a saved list is empty. */
  method StartWithoutSavedList() returns (items: seq<Product>)
    ensures items == []
  {
    var cart := new CartStore(None);
    items := cart.products;
  }

  /** Two adds of the same id merge into one entry with the second add's fields. */
  method ReAddMerges() returns (items: seq<Product>)
    ensures items == [Product("A", "T2", "u2", 20.0, 2)]
  {
    var cart := new CartStore(None);
    cart.AddToCart(Item("A", "T", "u", 10.0));
    cart.AddToCart(Item("A", "T2", "u2", 20.0));
    items := cart.products;
  }

  /** Decrement floors at 1 and otherwise lowers by one. */
  method DecrementFloorsAtOne() returns (atFloor: int, aboveFloor: int)
    ensures atFloor == 1 && aboveFloor == 2
  {
    var a := Product("A", "T", "u", 10.0, 1);
    var cart := new CartStore(Some([a]));
    cart.Decrement("A");
    atFloor := cart.products[0].quantity;
    cart := new CartStore(Some([a.(quantity := 3)]));
    cart.Decrement("A");
    aboveFloor := cart.products[0].quantity;
  }

  /** After any sequence of operations, a store started from the slot
      holds the list the old store holds in memory. */
  method RestartRestoresCart(item: Item, id: string) returns (before: seq<Product>, after: seq<Product>)
    ensures after == before && |before| == 1
  {
    var cart := new CartStore(None);
    cart.AddToCart(item);
    cart.Increment(id);
    cart.Decrement(id);
    cart.Decrement(item.id);
    var restarted := new CartStore(cart.stored);
    before, after := cart.products, restarted.products;
  }
}
