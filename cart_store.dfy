/**
 * The shared cart store (`CartContext`): one ordered list of lines that every
 * catalogue page, the header and the checkout read and write.
 *
 * The list operations are specified by pure functions on `seq<CartItem>`
 * (`Added`, `Removed`, `QtyUpdated`, `CountOf`, `SubtotalOf`); the `Cart`
 * class holds the list and its methods replace it, as `setCartItems` does.
 */
module CartStore {
  import opened Wrappers

  /** One cart line. Prices are integer rupees. */
  datatype CartItem = CartItem(id: string, name: string, price: int, qty: int, image: Option<string>)

  /** What `addItem` is given: a line without its quantity (`Omit<CartItem, 'qty'>`). */
  datatype NewItem = NewItem(id: string, name: string, price: int, image: Option<string>)

  // ---------------------------------------------------------------------------
  // Queries on a list of lines
  // ---------------------------------------------------------------------------

  predicate HasId(items: seq<CartItem>, id: string)
  {
    exists i :: 0 <= i < |items| && items[i].id == id
  }

  /** No two lines share an id. */
  predicate UniqueIds(items: seq<CartItem>)
  {
    forall i, j :: 0 <= i < j < |items| ==> items[i].id != items[j].id
  }

  /** Every line has a positive quantity. */
  predicate AllPositive(items: seq<CartItem>)
  {
    forall i :: 0 <= i < |items| ==> items[i].qty > 0
  }

  /** `items.findIndex(p => p.id === id)`: the first line with that id, or -1. */
  function FindIndex(items: seq<CartItem>, id: string): (r: int)
    ensures -1 <= r < |items|
    ensures r == -1 <==> !HasId(items, id)
    ensures r >= 0 ==> items[r].id == id && forall i :: 0 <= i < r ==> items[i].id != id
  {
    if items == [] then -1
    else if items[0].id == id then 0
    else
      var k := FindIndex(items[1..], id);
      assert forall i :: 1 <= i < |items| ==> items[i] == items[1..][i - 1];
      if k == -1 then -1 else k + 1
  }

  /** `reduce((acc, it) => acc + it.qty, 0)` */
  function CountOf(items: seq<CartItem>): int
  {
    if items == [] then 0 else items[0].qty + CountOf(items[1..])
  }

  /** `reduce((acc, it) => acc + it.price * it.qty, 0)` */
  function SubtotalOf(items: seq<CartItem>): int
  {
    if items == [] then 0 else items[0].price * items[0].qty + SubtotalOf(items[1..])
  }

  // ---------------------------------------------------------------------------
  // The four list updates
  // ---------------------------------------------------------------------------

  /**
   * `addItem(item, qty)`: merge into the first line with the same id (its
   * name, price and image are kept), or append a new line at the end.
   */
  function Added(items: seq<CartItem>, item: NewItem, qty: int): (r: seq<CartItem>)
    ensures |r| == if HasId(items, item.id) then |items| else |items| + 1
  {
    var k := FindIndex(items, item.id);
    if k == -1 then items + [CartItem(item.id, item.name, item.price, qty, item.image)]
    else items[k := items[k].(qty := items[k].qty + qty)]
  }

  /** A new id is appended as a line of its own at the end. */
  lemma AddedNew(items: seq<CartItem>, item: NewItem, qty: int)
    requires !HasId(items, item.id)
    ensures Added(items, item, qty) == items + [CartItem(item.id, item.name, item.price, qty, item.image)]
  {
  }

  /** An id already present raises the first matching line's quantity and keeps its name, price and image. */
  lemma AddedAt(items: seq<CartItem>, item: NewItem, qty: int, k: int)
    requires k == FindIndex(items, item.id) && k >= 0
    ensures Added(items, item, qty) == items[k := items[k].(qty := items[k].qty + qty)]
  {
  }

  /** After `addItem` the cart has a line with that id. */
  lemma AddedHasId(items: seq<CartItem>, item: NewItem, qty: int)
    ensures HasId(Added(items, item, qty), item.id)
  {
    var k := FindIndex(items, item.id);
    if k == -1 {
      AddedNew(items, item, qty);
      assert Added(items, item, qty)[|items|].id == item.id;
    } else {
      AddedAt(items, item, qty, k);
      assert Added(items, item, qty)[k].id == item.id;
    }
  }

  /** `addItem` keeps the ids unique: it either appends a new id or keeps every id in place. */
  lemma AddedKeepsUnique(items: seq<CartItem>, item: NewItem, qty: int)
    requires UniqueIds(items)
    ensures UniqueIds(Added(items, item, qty))
  {
    var k := FindIndex(items, item.id);
    var r := Added(items, item, qty);
    if k == -1 {
      AddedNew(items, item, qty);
      assert forall i :: 0 <= i < |items| ==> r[i] == items[i];
    } else {
      AddedAt(items, item, qty, k);
      assert forall i :: 0 <= i < |items| ==> r[i].id == items[i].id;
    }
  }

  /** `items.filter(p => p.id !== id)` */
  function Removed(items: seq<CartItem>, id: string): (r: seq<CartItem>)
    ensures |r| <= |items|
  {
    if items == [] then []
    else if items[0].id == id then Removed(items[1..], id)
    else [items[0]] + Removed(items[1..], id)
  }

  /** `removeItem(id)` keeps exactly the lines with another id. */
  lemma {:induction false} RemovedSpec(items: seq<CartItem>, id: string)
    ensures forall x :: x in Removed(items, id) <==> x in items && x.id != id
  {
    if items != [] {
      RemovedSpec(items[1..], id);
      assert forall x :: x in items <==> x == items[0] || x in items[1..];
    }
  }

  /** After `removeItem(id)` no line has that id. */
  lemma RemovedHasNoId(items: seq<CartItem>, id: string)
    ensures !HasId(Removed(items, id), id)
  {
    var r := Removed(items, id);
    RemovedSpec(items, id);
    forall i | 0 <= i < |r| ensures r[i].id != id {
      assert r[i] in r;
    }
  }

  /** `removeItem` keeps the ids unique. */
  lemma {:induction false} RemovedKeepsUnique(items: seq<CartItem>, id: string)
    requires UniqueIds(items)
    ensures UniqueIds(Removed(items, id))
  {
    if items != [] {
      var rest := Removed(items[1..], id);
      assert UniqueIds(items[1..]);
      RemovedKeepsUnique(items[1..], id);
      if items[0].id != id {
        RemovedSpec(items[1..], id);
        FirstIdNotInTail(items, rest);
        ConsUnique(items[0], rest);
      }
    }
  }

  /** `items.map(p => p.id === id ? { ...p, qty } : p)` */
  function WithQty(items: seq<CartItem>, id: string, qty: int): seq<CartItem>
  {
    seq(|items|, i requires 0 <= i < |items| => if items[i].id == id then items[i].(qty := qty) else items[i])
  }

  /** `items.filter(p => p.qty > 0)` */
  function DropNonPositive(items: seq<CartItem>): (r: seq<CartItem>)
    ensures |r| <= |items|
  {
    if items == [] then []
    else if items[0].qty <= 0 then DropNonPositive(items[1..])
    else [items[0]] + DropNonPositive(items[1..])
  }

  /** The filter keeps exactly the positive lines. */
  lemma {:induction false} DropNonPositiveSpec(items: seq<CartItem>)
    ensures forall x :: x in DropNonPositive(items) <==> x in items && x.qty > 0
  {
    if items != [] {
      DropNonPositiveSpec(items[1..]);
      assert forall x :: x in items <==> x == items[0] || x in items[1..];
    }
  }

  /** After the filter every line is positive. */
  lemma DropLeavesPositive(items: seq<CartItem>)
    ensures AllPositive(DropNonPositive(items))
  {
    var r := DropNonPositive(items);
    DropNonPositiveSpec(items);
    forall i | 0 <= i < |r| ensures r[i].qty > 0 {
      assert r[i] in r;
    }
  }

  /** The filter keeps the ids unique. */
  lemma {:induction false} DropKeepsUnique(items: seq<CartItem>)
    requires UniqueIds(items)
    ensures UniqueIds(DropNonPositive(items))
  {
    if items != [] {
      var rest := DropNonPositive(items[1..]);
      assert UniqueIds(items[1..]);
      DropKeepsUnique(items[1..]);
      if items[0].qty > 0 {
        DropNonPositiveSpec(items[1..]);
        FirstIdNotInTail(items, rest);
        ConsUnique(items[0], rest);
      }
    }
  }

  /** A list drawn from the tail of a list with unique ids misses the head's id. */
  lemma FirstIdNotInTail(items: seq<CartItem>, rest: seq<CartItem>)
    requires |items| > 0 && forall x :: x in rest ==> x in items[1..]
    ensures UniqueIds(items) ==> forall i :: 0 <= i < |rest| ==> rest[i].id != items[0].id
  {
    if UniqueIds(items) {
      forall i | 0 <= i < |rest| ensures rest[i].id != items[0].id {
        assert rest[i] in items[1..];
        var j :| 0 <= j < |items| - 1 && items[1..][j] == rest[i];
        assert items[j + 1] == rest[i];
      }
    }
  }

  /** A line in front of a unique list whose ids it avoids keeps the ids unique. */
  lemma ConsUnique(x: CartItem, rest: seq<CartItem>)
    requires UniqueIds(rest) && forall i :: 0 <= i < |rest| ==> rest[i].id != x.id
    ensures UniqueIds([x] + rest)
  {
    var r := [x] + rest;
    assert forall i :: 1 <= i < |r| ==> r[i] == rest[i - 1];
  }

  /** `updateQty(id, qty)`: overwrite the quantity, then drop every non-positive line. */
  function QtyUpdated(items: seq<CartItem>, id: string, qty: int): seq<CartItem>
  {
    DropNonPositive(WithQty(items, id, qty))
  }

  // ---------------------------------------------------------------------------
  // The store
  // ---------------------------------------------------------------------------

  /** The provider's `cartItems` state and the operations it exposes. */
  class Cart {
    var items: seq<CartItem>

    /** The initial state `useState<CartItem[]>([])`. */
    constructor ()
      ensures items == []
    {
      items := [];
    }

    /** Total number of units: `itemCount`. */
    function ItemCount(): int
      reads this
    {
      CountOf(items)
    }

    /** Σ price·qty: `subtotal`. */
    function Subtotal(): int
      reads this
    {
      SubtotalOf(items)
    }

    method AddItem(item: NewItem, qty: int)
      modifies this
      ensures items == Added(old(items), item, qty)
      ensures UniqueIds(old(items)) ==> UniqueIds(items)
      ensures AllPositive(old(items)) && qty > 0 ==> AllPositive(items)
    {
      var idx := FindIndex(items, item.id);
      if idx == -1 {
        items := items + [CartItem(item.id, item.name, item.price, qty, item.image)];
      } else {
        var next := items;
        next := next[idx := next[idx].(qty := next[idx].qty + qty)];
        items := next;
      }
      if AllPositive(old(items)) && qty > 0 {
        AddedKeepsPositive(old(items), item, qty);
      }
      if UniqueIds(old(items)) {
        AddedKeepsUnique(old(items), item, qty);
      }
    }

    method RemoveItem(id: string)
      modifies this
      ensures items == Removed(old(items), id)
      ensures !HasId(items, id)
      ensures UniqueIds(old(items)) ==> UniqueIds(items)
    {
      RemovedHasNoId(items, id);
      if UniqueIds(items) {
        RemovedKeepsUnique(items, id);
      }
      items := Removed(items, id);
    }

    method UpdateQty(id: string, qty: int)
      modifies this
      ensures items == QtyUpdated(old(items), id, qty)
      ensures AllPositive(items)
      ensures UniqueIds(old(items)) ==> UniqueIds(items)
    {
      DropLeavesPositive(WithQty(items, id, qty));
      WithQtyKeepsIds(items, id, qty);
      items := DropNonPositive(WithQty(items, id, qty));
    }

    method ClearCart()
      modifies this
      ensures items == [] && ItemCount() == 0 && Subtotal() == 0
    {
      items := [];
    }
  }

  // ---------------------------------------------------------------------------
  // Properties of the updates
  // ---------------------------------------------------------------------------

  lemma AddedKeepsPositive(items: seq<CartItem>, item: NewItem, qty: int)
    requires AllPositive(items) && qty > 0
    ensures AllPositive(Added(items, item, qty))
  {
    var r := Added(items, item, qty);
    var k := FindIndex(items, item.id);
    if k >= 0 {
      AddedAt(items, item, qty, k);
      assert forall i :: 0 <= i < |r| ==> r[i] == items[i] || i == k;
    } else {
      AddedNew(items, item, qty);
      assert forall i :: 0 <= i < |r| ==> i == |items| || r[i] == items[i];
    }
  }

  /** Overwriting a quantity keeps every id where it was, so unique ids stay unique. */
  lemma WithQtyKeepsIds(items: seq<CartItem>, id: string, qty: int)
    ensures |WithQty(items, id, qty)| == |items|
    ensures forall i :: 0 <= i < |items| ==> WithQty(items, id, qty)[i].id == items[i].id
    ensures UniqueIds(items) ==> UniqueIds(QtyUpdated(items, id, qty))
  {
    var w := WithQty(items, id, qty);
    if UniqueIds(items) {
      assert UniqueIds(w);
      DropKeepsUnique(w);
    }
  }

  /**
   * After `updateQty(id, q)` every line is positive, there is no line with
   * `id` unless `q > 0`, an absent id is never created, and when the lines
   * were positive with unique ids a positive `q` keeps the length and the
   * position of the target line.
   */
  lemma {:induction false} QtyUpdatedSpec(items: seq<CartItem>, id: string, qty: int)
    ensures AllPositive(QtyUpdated(items, id, qty))
    ensures qty <= 0 ==> !HasId(QtyUpdated(items, id, qty), id)
    ensures !HasId(items, id) ==> !HasId(QtyUpdated(items, id, qty), id)
    ensures AllPositive(items) && qty > 0 ==>
      QtyUpdated(items, id, qty) == WithQty(items, id, qty)
  {
    var w := WithQty(items, id, qty);
    var r := DropNonPositive(w);
    DropLeavesPositive(w);
    DropNonPositiveSpec(w);
    if HasId(r, id) {
      var i :| 0 <= i < |r| && r[i].id == id;
      assert r[i] in w;
      var j :| 0 <= j < |w| && w[j] == r[i];
      assert items[j].id == id;
    }
    if AllPositive(items) && qty > 0 {
      assert AllPositive(w);
      DropAllPositive(w);
    }
  }

  lemma {:induction false} DropAllPositive(items: seq<CartItem>)
    requires AllPositive(items)
    ensures DropNonPositive(items) == items
  {
    if items != [] {
      assert AllPositive(items[1..]);
      DropAllPositive(items[1..]);
    }
  }

  /** On a cart of positive lines, `updateQty(id, q)` with `q <= 0` is `removeItem(id)`. */
  lemma {:induction false} UpdateToZeroIsRemove(items: seq<CartItem>, id: string, qty: int)
    requires AllPositive(items) && qty <= 0
    ensures QtyUpdated(items, id, qty) == Removed(items, id)
  {
    if items != [] {
      assert AllPositive(items[1..]);
      UpdateToZeroIsRemove(items[1..], id, qty);
      assert WithQty(items, id, qty)[1..] == WithQty(items[1..], id, qty);
    }
  }

  /** `removeItem` keeps the relative order: it distributes over concatenation. */
  lemma {:induction false} RemovedAppend(a: seq<CartItem>, b: seq<CartItem>, id: string)
    ensures Removed(a + b, id) == Removed(a, id) + Removed(b, id)
  {
    if a != [] {
      assert (a + b)[1..] == a[1..] + b;
      RemovedAppend(a[1..], b, id);
    } else {
      assert a + b == b;
    }
  }

  /** Removing an id that is not in the cart changes nothing. */
  lemma {:induction false} RemovedAbsent(items: seq<CartItem>, id: string)
    requires !HasId(items, id)
    ensures Removed(items, id) == items
  {
    if items != [] {
      assert !HasId(items[1..], id) by {
        forall i | 0 <= i < |items[1..]| ensures items[1..][i].id != id {
          assert items[1..][i] == items[i + 1];
        }
      }
      RemovedAbsent(items[1..], id);
    }
  }

  // ---------------------------------------------------------------------------
  // The reductions
  // ---------------------------------------------------------------------------

  /** Both reductions distribute over concatenation. */
  lemma {:induction false} ReductionsAppend(a: seq<CartItem>, b: seq<CartItem>)
    ensures CountOf(a + b) == CountOf(a) + CountOf(b)
    ensures SubtotalOf(a + b) == SubtotalOf(a) + SubtotalOf(b)
  {
    if a == [] {
      assert a + b == b;
    } else {
      assert (a + b)[1..] == a[1..] + b;
      ReductionsAppend(a[1..], b);
    }
  }

  /** Changing one line changes the reductions by that line's difference. */
  lemma {:induction false} ReductionsUpdate(items: seq<CartItem>, k: nat, x: CartItem)
    requires k < |items|
    ensures CountOf(items[k := x]) == CountOf(items) - items[k].qty + x.qty
    ensures SubtotalOf(items[k := x]) == SubtotalOf(items) - items[k].price * items[k].qty + x.price * x.qty
  {
    if k > 0 {
      assert items[k := x][1..] == items[1..][k - 1 := x];
      ReductionsUpdate(items[1..], k - 1, x);
    } else {
      assert items[k := x][1..] == items[1..];
    }
  }

  /** On a cart of positive lines there are at least as many units as lines, so the count is 0 exactly when the cart is empty. */
  lemma {:induction false} CountZeroIffEmpty(items: seq<CartItem>)
    requires AllPositive(items)
    ensures CountOf(items) >= |items|
    ensures CountOf(items) == 0 <==> items == []
  {
    if items != [] {
      CountZeroIffEmpty(items[1..]);
    }
  }

  /** Adding a new id raises the item count by `q` and the subtotal by `item.price * q`. */
  lemma AddedNewReductions(items: seq<CartItem>, item: NewItem, qty: int)
    requires !HasId(items, item.id)
    ensures CountOf(Added(items, item, qty)) == CountOf(items) + qty
    ensures SubtotalOf(Added(items, item, qty)) == SubtotalOf(items) + item.price * qty
  {
    var line := CartItem(item.id, item.name, item.price, qty, item.image);
    AddedNew(items, item, qty);
    ReductionsAppend(items, [line]);
  }

  /**
   * Merging into an existing line raises the item count by `q` and the
   * subtotal by that line's original price times `q`: the new price is ignored.
   */
  lemma AddedMergeReductions(items: seq<CartItem>, item: NewItem, qty: int, k: int)
    requires k == FindIndex(items, item.id) && k >= 0
    ensures CountOf(Added(items, item, qty)) == CountOf(items) + qty
    ensures SubtotalOf(Added(items, item, qty)) == SubtotalOf(items) + items[k].price * qty
  {
    var was := items[k];
    var now := was.(qty := was.qty + qty);
    AddedAt(items, item, qty, k);
    ReductionsUpdate(items, k, now);
    MergeArith(SubtotalOf(items), SubtotalOf(items[k := now]), was.price, was.qty, qty);
  }



  lemma MergeArith(before: int, after: int, p: int, a: int, q: int)
    requires after == before - p * a + p * (a + q)
    ensures after == before + p * q
  {
  }

  /** The cart after any sequence of operations; the reductions are read fresh from it. */
  datatype Op = Add(item: NewItem, qty: int) | Remove(id: string) | SetQty(id: string, qty: int) | Clear

  function Apply(items: seq<CartItem>, op: Op): seq<CartItem>
  {
    match op
    case Add(item, qty) => Added(items, item, qty)
    case Remove(id) => Removed(items, id)
    case SetQty(id, qty) => QtyUpdated(items, id, qty)
    case Clear => []
  }

  function ApplyAll(items: seq<CartItem>, ops: seq<Op>): seq<CartItem>
    decreases |ops|
  {
    if ops == [] then items else ApplyAll(Apply(items, ops[0]), ops[1..])
  }

  /** Every sequence of operations keeps the ids unique. */
  lemma {:induction false} ApplyAllKeepsUnique(items: seq<CartItem>, ops: seq<Op>)
    requires UniqueIds(items)
    ensures UniqueIds(ApplyAll(items, ops))
    decreases |ops|
  {
    if ops != [] {
      var next := Apply(items, ops[0]);
      if ops[0].SetQty? {
        WithQtyKeepsIds(items, ops[0].id, ops[0].qty);
      } else if ops[0].Remove? {
        RemovedKeepsUnique(items, ops[0].id);
      }
      ApplyAllKeepsUnique(next, ops[1..]);
    }
  }

  /** Adding the same id twice, with `a` and then `b`, gives one line of quantity `a + b`. */
  lemma AddTwiceMerges(items: seq<CartItem>, item: NewItem, a: int, b: int)
    requires !HasId(items, item.id)
    ensures Added(Added(items, item, a), item, b) == items + [CartItem(item.id, item.name, item.price, a + b, item.image)]
  {
    var once := Added(items, item, a);
    AddedNew(items, item, a);
    assert once[|items|].id == item.id;
    assert FindIndex(once, item.id) == |items|;
    AddedAt(once, item, b, |items|);
  }
}
