/**
 * The hero section's own little cart, kept apart from the shared one: a
 * merge-or-append add, a remove by id, a clear, a category filter over the
 * sample items, and the count and total it shows.
 */
module Hero {
  import opened Wrappers

  datatype MenuItem = MenuItem(id: string, name: string, price: int, category: string)

  /** A cart line: the item's fields and a quantity. */
  datatype Line = Line(id: string, name: string, price: int, category: string, qty: int)

  const SAMPLE_ITEMS: seq<MenuItem> := [
    MenuItem("vwrap", "Veg Wrap", 99, "Food"),
    MenuItem("coffee", "Cold Coffee", 79, "Drinks"),
    MenuItem("chips", "Potato Chips", 45, "Snacks"),
    MenuItem("milk", "Dairy Milk 1L", 89, "Groceries")
  ]

  const CATEGORIES: seq<string> := ["All", "Groceries", "Food", "Snacks", "Drinks", "Medicine"]

  /** `{ ...item, qty }` */
  function LineOf(item: MenuItem, qty: int): Line
  {
    Line(item.id, item.name, item.price, item.category, qty)
  }

  predicate HasId(cart: seq<Line>, id: string)
  {
    exists i :: 0 <= i < |cart| && cart[i].id == id
  }

  predicate UniqueIds(cart: seq<Line>)
  {
    forall i, j :: 0 <= i < j < |cart| ==> cart[i].id != cart[j].id
  }

  /** `prev.map(p => p.id === id ? { ...p, qty: p.qty + 1 } : p)` */
  function Bumped(cart: seq<Line>, id: string): seq<Line>
  {
    seq(|cart|, i requires 0 <= i < |cart| => if cart[i].id == id then cart[i].(qty := cart[i].qty + 1) else cart[i])
  }

  /** `handleAddToCart`'s update: bump the line when the id is there, append a line of one otherwise. */
  function Added(cart: seq<Line>, item: MenuItem): seq<Line>
  {
    if HasId(cart, item.id) then Bumped(cart, item.id) else cart + [LineOf(item, 1)]
  }

  /** `prev.filter(p => p.id !== id)` */
  function RemovedId(cart: seq<Line>, id: string): (r: seq<Line>)
    ensures |r| <= |cart|
  {
    if cart == [] then []
    else if cart[|cart| - 1].id == id then RemovedId(cart[..|cart| - 1], id)
    else RemovedId(cart[..|cart| - 1], id) + [cart[|cart| - 1]]
  }

  /** `cart.reduce((s, i) => s + i.qty, 0)` */
  function Count(cart: seq<Line>): int
  {
    if cart == [] then 0 else Count(cart[..|cart| - 1]) + cart[|cart| - 1].qty
  }

  /** `cart.reduce((s, i) => s + i.qty * i.price, 0)` */
  function Total(cart: seq<Line>): int
  {
    if cart == [] then 0 else Total(cart[..|cart| - 1]) + cart[|cart| - 1].qty * cart[|cart| - 1].price
  }

  /** How many lines carry `id`, and what one more of each would add to the total. */
  function Occurrences(cart: seq<Line>, id: string): nat
  {
    if cart == [] then 0 else Occurrences(cart[..|cart| - 1], id) + (if cart[|cart| - 1].id == id then 1 else 0)
  }

  function MatchedPrice(cart: seq<Line>, id: string): int
  {
    if cart == [] then 0 else MatchedPrice(cart[..|cart| - 1], id) + (if cart[|cart| - 1].id == id then cart[|cart| - 1].price else 0)
  }

  // ---------------------------------------------------------------------------
  // Adding
  // ---------------------------------------------------------------------------

  lemma ReductionsAppend(cart: seq<Line>, l: Line)
    ensures Count(cart + [l]) == Count(cart) + l.qty
    ensures Total(cart + [l]) == Total(cart) + l.qty * l.price
  {
    assert (cart + [l])[..|cart|] == cart;
  }

  /** Bumping adds one to the count per matching line, and the matching lines' prices to the total. */
  lemma {:induction false} BumpedReductions(cart: seq<Line>, id: string)
    ensures Count(Bumped(cart, id)) == Count(cart) + Occurrences(cart, id)
    ensures Total(Bumped(cart, id)) == Total(cart) + MatchedPrice(cart, id)
  {
    if cart != [] {
      var init := cart[..|cart| - 1];
      var b := Bumped(cart, id);
      BumpedReductions(init, id);
      assert b[..|b| - 1] == Bumped(init, id);
    }
  }

  /** With distinct ids, the line at `k` is the only one carrying its id. */
  lemma {:induction false} UniqueOccurrence(cart: seq<Line>, k: nat)
    requires UniqueIds(cart) && k < |cart|
    ensures Occurrences(cart, cart[k].id) == 1 && MatchedPrice(cart, cart[k].id) == cart[k].price
  {
    var init := cart[..|cart| - 1];
    if k == |cart| - 1 {
      NoOccurrence(init, cart[k].id);
    } else {
      UniqueOccurrence(init, k);
    }
  }

  lemma {:induction false} NoOccurrence(cart: seq<Line>, id: string)
    requires !HasId(cart, id)
    ensures Occurrences(cart, id) == 0 && MatchedPrice(cart, id) == 0
  {
    if cart != [] {
      var init := cart[..|cart| - 1];
      assert !HasId(init, id) by {
        forall i | 0 <= i < |init| ensures init[i].id != id {
          assert init[i] == cart[i];
        }
      }
      NoOccurrence(init, id);
    }
  }

  /** A new id is appended as a line of one at the end; a known id bumps its line in place, length and order unchanged. */
  lemma AddedSpec(cart: seq<Line>, item: MenuItem)
    ensures !HasId(cart, item.id) ==> Added(cart, item) == cart + [LineOf(item, 1)]
    ensures HasId(cart, item.id) ==> |Added(cart, item)| == |cart|
    ensures HasId(cart, item.id) ==> forall i :: 0 <= i < |cart| ==>
      Added(cart, item)[i] == if cart[i].id == item.id then cart[i].(qty := cart[i].qty + 1) else cart[i]
  {
  }

  /** Adding keeps the ids distinct, and always adds one to the item count. */
  lemma AddedKeepsUnique(cart: seq<Line>, item: MenuItem)
    requires UniqueIds(cart)
    ensures UniqueIds(Added(cart, item))
    ensures Count(Added(cart, item)) == Count(cart) + 1
  {
    if HasId(cart, item.id) {
      var k :| 0 <= k < |cart| && cart[k].id == item.id;
      BumpedReductions(cart, item.id);
      UniqueOccurrence(cart, k);
    } else {
      ReductionsAppend(cart, LineOf(item, 1));
    }
  }

  /** The total grows by the item's price for a new line, and by the stored line's price for a known one. */
  lemma AddedTotal(cart: seq<Line>, item: MenuItem, k: nat)
    requires UniqueIds(cart)
    ensures !HasId(cart, item.id) ==> Total(Added(cart, item)) == Total(cart) + item.price
    ensures k < |cart| && cart[k].id == item.id ==> Total(Added(cart, item)) == Total(cart) + cart[k].price
  {
    if k < |cart| && cart[k].id == item.id {
      BumpedReductions(cart, item.id);
      UniqueOccurrence(cart, k);
    }
    if !HasId(cart, item.id) {
      ReductionsAppend(cart, LineOf(item, 1));
    }
  }

  /** Adding the veg wrap twice to an empty cart gives one line of two, 2 items and ₹198. */
  lemma VegWrapTwice(item: MenuItem)
    requires item == SAMPLE_ITEMS[0]
    ensures Added(Added([], item), item) == [Line("vwrap", "Veg Wrap", 99, "Food", 2)]
    ensures Count(Added(Added([], item), item)) == 2 && Total(Added(Added([], item), item)) == 198
  {
    var once := Added([], item);
    assert once == [LineOf(item, 1)];
    assert HasId(once, item.id) by {
      assert once[0].id == item.id;
    }
    var twice := Added(once, item);
    assert twice == [LineOf(item, 2)];
    ReductionsAppend([], LineOf(item, 2));
    assert [] + [LineOf(item, 2)] == twice;
  }

  // ---------------------------------------------------------------------------
  // Removing
  // ---------------------------------------------------------------------------

  /** Removing drops exactly the lines with that id and keeps the rest. */
  lemma {:induction false} RemovedIdSpec(cart: seq<Line>, id: string)
    ensures !HasId(RemovedId(cart, id), id)
    ensures forall l :: l in RemovedId(cart, id) <==> l in cart && l.id != id
  {
    if cart != [] {
      var init := cart[..|cart| - 1];
      var last := cart[|cart| - 1];
      assert cart == init + [last];
      RemovedIdSpec(init, id);
    }
  }

  /** Removing keeps the order of the remaining lines: removing from a concatenation removes from each part. */
  lemma {:induction false} RemovedIdAppend(a: seq<Line>, b: seq<Line>, id: string)
    ensures RemovedId(a + b, id) == RemovedId(a, id) + RemovedId(b, id)
  {
    if b == [] {
      assert a + b == a;
    } else {
      var init := b[..|b| - 1];
      assert (a + b)[..|a + b| - 1] == a + init && (a + b)[|a + b| - 1] == b[|b| - 1];
      RemovedIdAppend(a, init, id);
    }
  }

  /** Removing keeps the ids distinct. */
  lemma {:induction false} RemovedIdKeepsUnique(cart: seq<Line>, id: string)
    requires UniqueIds(cart)
    ensures UniqueIds(RemovedId(cart, id))
  {
    if cart != [] {
      var init := cart[..|cart| - 1];
      var last := cart[|cart| - 1];
      assert cart == init + [last];
      assert UniqueIds(init) by {
        forall i, j | 0 <= i < j < |init| ensures init[i].id != init[j].id {
          assert init[i] == cart[i] && init[j] == cart[j];
        }
      }
      RemovedIdKeepsUnique(init, id);
      if last.id != id {
        var r := RemovedId(init, id);
        RemovedIdSpec(init, id);
        forall i | 0 <= i < |r| ensures r[i].id != last.id {
          assert r[i] in init;
          var j :| 0 <= j < |init| && init[j] == r[i];
          assert cart[j] == init[j];
        }
        assert RemovedId(cart, id) == r + [last];
      }
    }
  }

  // ---------------------------------------------------------------------------
  // The category filter
  // ---------------------------------------------------------------------------

  function InCategory(items: seq<MenuItem>, c: string): (r: seq<MenuItem>)
    ensures |r| <= |items|
  {
    if items == [] then []
    else if items[|items| - 1].category == c then InCategory(items[..|items| - 1], c) + [items[|items| - 1]]
    else InCategory(items[..|items| - 1], c)
  }

  /** `filtered` */
  function Filtered(active: string): seq<MenuItem>
  {
    if active == "All" then SAMPLE_ITEMS else InCategory(SAMPLE_ITEMS, active)
  }

  lemma {:induction false} InCategorySpec(items: seq<MenuItem>, c: string)
    ensures forall x :: x in InCategory(items, c) <==> x in items && x.category == c
  {
    if items != [] {
      InCategorySpec(items[..|items| - 1], c);
      assert items == items[..|items| - 1] + [items[|items| - 1]];
    }
  }

  /** The category filter keeps the items' order: filtering a concatenation filters each part, in turn. */
  lemma {:induction false} InCategoryAppend(a: seq<MenuItem>, b: seq<MenuItem>, c: string)
    ensures InCategory(a + b, c) == InCategory(a, c) + InCategory(b, c)
  {
    if b == [] {
      assert a + b == a;
    } else {
      var init := b[..|b| - 1];
      assert (a + b)[..|a + b| - 1] == a + init && (a + b)[|a + b| - 1] == b[|b| - 1];
      InCategoryAppend(a, init, c);
    }
  }

  /** "All" shows every sample item; any other category shows exactly the items of that category. */
  lemma FilteredSpec(active: string)
    ensures active == "All" ==> Filtered(active) == SAMPLE_ITEMS
    ensures active != "All" ==> forall x :: x in Filtered(active) <==> x in SAMPLE_ITEMS && x.category == active
  {
    InCategorySpec(SAMPLE_ITEMS, active);
  }

  /** No sample item is medicine, so that chip shows nothing. */
  lemma MedicineIsEmpty(c: string)
    requires c == "Medicine"
    ensures Filtered(c) == []
  {
    assert forall i :: 0 <= i < |SAMPLE_ITEMS| ==> SAMPLE_ITEMS[i].category != c;
    InCategoryNone(SAMPLE_ITEMS, c);
  }

  lemma {:induction false} InCategoryNone(items: seq<MenuItem>, c: string)
    requires forall i :: 0 <= i < |items| ==> items[i].category != c
    ensures InCategory(items, c) == []
  {
    if items != [] {
      InCategoryNone(items[..|items| - 1], c);
    }
  }

  // ---------------------------------------------------------------------------
  // The section's state
  // ---------------------------------------------------------------------------

  class HeroSection {
    var activeCategory: string
    var cart: seq<Line>
    var toast: Option<string>
    /** The last `navigate(...)`. */
    var route: Option<string>

    /** The cart starts from what the browser had stored, or empty when there was nothing readable. */
    constructor (stored: Option<seq<Line>>)
      ensures activeCategory == "All" && toast.None? && route.None?
      ensures cart == stored.GetOr([])
    {
      activeCategory := "All";
      cart := stored.GetOr([]);
      toast := None;
      route := None;
    }

    method SelectCategory(c: string)
      modifies this`activeCategory
      ensures activeCategory == c
    {
      activeCategory := c;
    }

    /** `handleAddToCart` */
    method HandleAddToCart(item: MenuItem)
      modifies this`cart, this`toast
      ensures cart == Added(old(cart), item)
      ensures toast == Some(item.name + " added to cart")
      ensures UniqueIds(old(cart)) ==> UniqueIds(cart) && Count(cart) == Count(old(cart)) + 1
    {
      if UniqueIds(cart) {
        AddedKeepsUnique(cart, item);
      }
      var exists_ := HasId(cart, item.id);
      if exists_ {
        cart := Bumped(cart, item.id);
      } else {
        cart := cart + [LineOf(item, 1)];
      }
      toast := Some(item.name + " added to cart");
    }

    /** `handleRemoveFromCart` */
    method HandleRemoveFromCart(id: string)
      modifies this`cart
      ensures cart == RemovedId(old(cart), id)
      ensures !HasId(cart, id)
      ensures UniqueIds(old(cart)) ==> UniqueIds(cart)
    {
      RemovedIdSpec(cart, id);
      if UniqueIds(cart) {
        RemovedIdKeepsUnique(cart, id);
      }
      cart := RemovedId(cart, id);
    }

    /** The Clear link. */
    method Clear()
      modifies this`cart
      ensures cart == [] && Count(cart) == 0 && Total(cart) == 0
    {
      cart := [];
    }

    /** "Order Now": the parent's handler when there is one, otherwise the `/cart` route. */
    method HandleNavigateToCart(hasOrderNow: bool)
      modifies this`route
      ensures route == if hasOrderNow then old(route) else Some("/cart")
    {
      if hasOrderNow {
        return;
      }
      route := Some("/cart");
    }

    function Shown(): seq<MenuItem>
      reads this
    {
      Filtered(activeCategory)
    }
  }
}
