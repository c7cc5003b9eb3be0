/**
 * The stationery ("tuck") shop: items with optional variants, cart lines
 * keyed `itemId@optionId`, and a sidebar that shows and clears only the
 * lines whose keys look like its own.
 */
module Tuck {
  import opened Wrappers
  import opened Text
  import opened CartStore
  import opened Navigation

  datatype ItemOption = ItemOption(id: string, caption: string, price: int)

  /** A stationery item. An empty `options` list stands for an absent one. */
  datatype TuckItem = TuckItem(id: string, title: string, options: seq<ItemOption>, price: Option<int>)

  /** The stationery catalogue. */
  const STATIONERY: seq<TuckItem> := [
    TuckItem("pens-ball", "Ball Pens", [], Some(12)),
    TuckItem("pencils", "Pencils (HB)", [], Some(8)),
    TuckItem("erasers", "Erasers", [], Some(5)),
    TuckItem("sharpeners", "Sharpeners", [], Some(7)),
    TuckItem("highlighters", "Highlighters (Pack of 4)", [], Some(40)),
    TuckItem("notebooks", "Notebooks", [
      ItemOption("n-ruled", "Ruled - \U{20B9}40", 40),
      ItemOption("n-plain", "Plain - \U{20B9}45", 45),
      ItemOption("n-spiral", "Spiral - \U{20B9}60", 60)], None),
    TuckItem("registers", "Registers", [], Some(55)),
    TuckItem("sticky-notes", "Sticky Notes (Pack)", [], Some(30)),
    TuckItem("a4-sheets", "A4 Sheets (Ream)", [], Some(120)),
    TuckItem("files-folders", "Files & Folders", [], Some(35)),
    TuckItem("stapler", "Stapler & Pins", [], Some(150)),
    TuckItem("glue-stick", "Glue Stick", [], Some(20)),
    TuckItem("scissors", "Scissors", [], Some(80)),
    TuckItem("ruler", "Ruler", [], Some(15)),
    TuckItem("geometry-box", "Geometry Box", [], Some(95)),
    TuckItem("calculator", "Calculator", [
      ItemOption("c-basic", "Basic - \U{20B9}250", 250),
      ItemOption("c-scientific", "Scientific - \U{20B9}700", 700)], None),
    TuckItem("printouts", "Printouts from stationery", [], Some(3))
  ]

  // ---------------------------------------------------------------------------
  // Cart keys and the sidebar filter
  // ---------------------------------------------------------------------------

  predicate NoAt(s: string)
  {
    '@' !in s
  }

  /** `makeCartId(itemId, optionId)` */
  function MakeCartId(itemId: string, optionId: Option<string>): string
  {
    itemId + "@" + optionId.GetOr("def")
  }

  /** For item ids without `@`, the key determines the item and the option. */
  lemma MakeCartIdInjective(a: string, x: string, b: string, y: string)
    requires NoAt(a) && NoAt(b)
    ensures MakeCartId(a, Some(x)) == MakeCartId(b, Some(y)) <==> a == b && x == y
  {
    var ka, kb := MakeCartId(a, Some(x)), MakeCartId(b, Some(y));
    IndexOfChar(ka, '@', |a|);
    IndexOfChar(kb, '@', |b|);
    if ka == kb {
      assert ka[..|a|] == a && kb[..|b|] == b;
      assert ka[|a| + 1..] == x && kb[|b| + 1..] == y;
    }
  }

  /** `STATIONERY.some(s => id.startsWith(s.id))` */
  predicate FromCatalogue(id: string)
  {
    exists k :: 0 <= k < |STATIONERY| && StartsWith(id, STATIONERY[k].id)
  }

  /** The sidebar's filter: `id.includes('@') && id.split('@')[0] && STATIONERY.some(…)`. */
  predicate TuckAdmits(id: string)
  {
    Contains(id, "@") && SplitOn(id, "@")[0] != "" && FromCatalogue(id)
  }

  /** `id.split('@')[0]` is the text before the first `@`, so the filter asks for a non-empty item part. */
  lemma TuckAdmitsIff(id: string)
    ensures TuckAdmits(id) <==> IndexOf(id, "@") > 0 && FromCatalogue(id)
  {
    var k := IndexOf(id, "@");
    IndexOfContains(id, "@");
    if k >= 0 {
      SplitOnFirst(id, "@", k);
    } else {
      SplitOnAbsent(id, "@");
    }
  }

  /** Every key the page makes for a catalogue item passes its own sidebar filter. */
  lemma OwnKeysAdmitted(k: nat, option: Option<string>)
    requires k < |STATIONERY|
    ensures TuckAdmits(MakeCartId(STATIONERY[k].id, option))
  {
    var item := STATIONERY[k];
    var key := MakeCartId(item.id, option);
    CatalogueIdsWellFormed();
    assert key[..|item.id|] == item.id;
    assert StartsWith(key, item.id);
    IndexOfChar(key, '@', |item.id|);
    TuckAdmitsIff(key);
  }

  /** Catalogue ids are non-empty and contain no `@` (nor the `|` of the grocery keys). */
  lemma CatalogueIdsWellFormed()
    ensures forall k :: 0 <= k < |STATIONERY| ==> |STATIONERY[k].id| > 0 && NoAt(STATIONERY[k].id) && '|' !in STATIONERY[k].id
  {
    forall k | 0 <= k < |STATIONERY|
      ensures |STATIONERY[k].id| > 0 && NoAt(STATIONERY[k].id) && '|' !in STATIONERY[k].id
    {
      if k < 5 {
        IdWellFormedFirst(k);
      } else if k < 9 {
        IdWellFormedSecond(k);
      } else if k < 13 {
        IdWellFormedThird(k);
      } else {
        IdWellFormedFourth(k);
      }
    }
  }

  // The catalogue check in four parts, each over a few entries.
  lemma IdWellFormedFirst(k: nat)
    requires k < 5
    ensures |STATIONERY[k].id| > 0 && NoAt(STATIONERY[k].id) && '|' !in STATIONERY[k].id
  {
  }

  lemma IdWellFormedSecond(k: nat)
    requires 5 <= k < 9
    ensures |STATIONERY[k].id| > 0 && NoAt(STATIONERY[k].id) && '|' !in STATIONERY[k].id
  {
  }

  lemma IdWellFormedThird(k: nat)
    requires 9 <= k < 13
    ensures |STATIONERY[k].id| > 0 && NoAt(STATIONERY[k].id) && '|' !in STATIONERY[k].id
  {
  }

  lemma IdWellFormedFourth(k: nat)
    requires 13 <= k < |STATIONERY|
    ensures |STATIONERY[k].id| > 0 && NoAt(STATIONERY[k].id) && '|' !in STATIONERY[k].id
  {
  }

  /** `cartItems.filter(…)`: the sidebar's lines, in cart order. */
  function TuckCart(items: seq<CartItem>): (r: seq<CartItem>)
    ensures forall x :: x in r <==> x in items && TuckAdmits(x.id)
  {
    if items == [] then []
    else if TuckAdmits(items[0].id) then [items[0]] + TuckCart(items[1..])
    else TuckCart(items[1..])
  }

  /** The lines the sidebar does not show. */
  function OtherLines(items: seq<CartItem>): (r: seq<CartItem>)
    ensures forall x :: x in r <==> x in items && !TuckAdmits(x.id)
  {
    if items == [] then []
    else if TuckAdmits(items[0].id) then OtherLines(items[1..])
    else [items[0]] + OtherLines(items[1..])
  }

  /** The sidebar subtotal and the rest of the cart add up to the cart subtotal. */
  lemma {:induction false} SubtotalSplits(items: seq<CartItem>)
    ensures SubtotalOf(TuckCart(items)) + SubtotalOf(OtherLines(items)) == SubtotalOf(items)
    ensures CountOf(TuckCart(items)) + CountOf(OtherLines(items)) == CountOf(items)
  {
    if items != [] {
      SubtotalSplits(items[1..]);
    }
  }

  /** The lines whose ids are not in `ids`, in order. */
  function WithoutIds(items: seq<CartItem>, ids: set<string>): seq<CartItem>
  {
    if items == [] then []
    else if items[0].id in ids then WithoutIds(items[1..], ids)
    else [items[0]] + WithoutIds(items[1..], ids)
  }

  lemma {:induction false} WithoutNoIds(items: seq<CartItem>)
    ensures WithoutIds(items, {}) == items
  {
    if items != [] {
      WithoutNoIds(items[1..]);
    }
  }

  /** Removing one more id from a filtered cart is filtering by one more id. */
  lemma {:induction false} RemovedWithout(items: seq<CartItem>, ids: set<string>, id: string)
    ensures Removed(WithoutIds(items, ids), id) == WithoutIds(items, ids + {id})
  {
    if items != [] {
      RemovedWithout(items[1..], ids, id);
    }
  }

  /** Filtering by exactly the admitted ids leaves the other lines. */
  lemma {:induction false} WithoutAdmitted(items: seq<CartItem>, ids: set<string>)
    requires forall i :: 0 <= i < |items| ==> (items[i].id in ids <==> TuckAdmits(items[i].id))
    ensures WithoutIds(items, ids) == OtherLines(items)
  {
    if items != [] {
      WithoutAdmitted(items[1..], ids);
    }
  }

  // ---------------------------------------------------------------------------
  // handleAddToCart
  // ---------------------------------------------------------------------------

  /** `options.find(o => o.id === id)` */
  function FindOption(options: seq<ItemOption>, id: string): (r: Option<ItemOption>)
    ensures r.Some? <==> exists i :: 0 <= i < |options| && options[i].id == id
    ensures r.Some? ==> r.value in options && r.value.id == id
    ensures r.Some? ==> exists i :: 0 <= i < |options| && options[i] == r.value
                                    && forall j :: 0 <= j < i ==> options[j].id != id
  {
    if options == [] then None
    else if options[0].id == id then Some(options[0])
    else
      var r := FindOption(options[1..], id);
      assert forall i :: 1 <= i < |options| ==> options[i] == options[1..][i - 1];
      if r.Some? then
        ghost var i :| 0 <= i < |options[1..]| && options[1..][i] == r.value
          && forall j :: 0 <= j < i ==> options[1..][j].id != id;
        assert options[i + 1] == r.value;
        r
      else r
  }

  /** What `handleAddToCart(item)` decides: the line passed to `addItem`, and the new `selectedOptions`. */
  datatype Resolution = Resolution(line: NewItem, selected: map<string, string>)

  function Lookup(selected: map<string, string>, id: string): Option<string>
  {
    if id in selected then Some(selected[id]) else None
  }

  /**
   * `handleAddToCart(item)` as a value. Price and label come from the
   * selected option when it exists, from the first option when nothing is
   * selected, else from `item.price ?? 0`; the key uses the selection as it
   * was BEFORE this click.
   */
  function ResolveAdd(selected: map<string, string>, item: TuckItem): Resolution
  {
    var optionId := Lookup(selected, item.id);
    var found := if |item.options| > 0 && Truthy(optionId) then FindOption(item.options, optionId.value) else None;
    var usesFirst := |item.options| > 0 && !Truthy(optionId);
    var price :=
      if found.Some? then found.value.price
      else if usesFirst then item.options[0].price
      else item.price.GetOr(0);
    var caption: Option<string> :=
      if found.Some? then Some(found.value.caption)
      else if usesFirst then Some(item.options[0].caption)
      else None;
    var selected' := if usesFirst then selected[item.id := item.options[0].id] else selected;
    var keyOption := if optionId.Some? then optionId else if |item.options| > 0 then Some(item.options[0].id) else None;
    var name := if Truthy(caption) then item.title + " \U{2014} " + caption.value else item.title;
    Resolution(NewItem(MakeCartId(item.id, keyOption), name, price, None), selected')
  }

  /**
   * No selection on an item with options: the first option is priced,
   * named and recorded; a selection of an existing option is used as is; an
   * item without options is keyed `@def` at `price ?? 0`.
   */
  lemma ResolveAddSpec(selected: map<string, string>, item: TuckItem)
    ensures var r := ResolveAdd(selected, item);
      |item.options| > 0 && (item.id !in selected || selected[item.id] == "") ==>
        && r.line.price == item.options[0].price
        && r.line.name == (if item.options[0].caption != "" then item.title + " \U{2014} " + item.options[0].caption else item.title)
        && r.selected == selected[item.id := item.options[0].id]
        && (item.id !in selected ==> r.line.id == MakeCartId(item.id, Some(item.options[0].id)))
    ensures var r := ResolveAdd(selected, item);
      |item.options| > 0 && item.id in selected && selected[item.id] != "" && FindOption(item.options, selected[item.id]).Some? ==>
        && r.line.price == FindOption(item.options, selected[item.id]).value.price
        && r.line.name == (var opt := FindOption(item.options, selected[item.id]).value;
                           if opt.caption != "" then item.title + " \U{2014} " + opt.caption else item.title)
        && r.line.id == MakeCartId(item.id, Some(selected[item.id]))
        && r.selected == selected
    ensures var r := ResolveAdd(selected, item);
      |item.options| == 0 ==>
        r.line.id == MakeCartId(item.id, if item.id in selected then Some(selected[item.id]) else None)
        && r.line.price == item.price.GetOr(0) && r.line.name == item.title && r.selected == selected
  {
  }

  /**
   * A stored option id that names no option (the select can only store real
   * ones) gets price `item.price ?? 0`, no label, and still keys the line by
   * the stored id.
   */
  lemma ResolveAddStale(selected: map<string, string>, item: TuckItem)
    requires |item.options| > 0 && item.id in selected && selected[item.id] != ""
    requires FindOption(item.options, selected[item.id]).None?
    ensures var r := ResolveAdd(selected, item);
      r.line.price == item.price.GetOr(0) && r.line.name == item.title
      && r.line.id == MakeCartId(item.id, Some(selected[item.id])) && r.selected == selected
  {
  }

  /** First click on Notebooks: line `notebooks@n-ruled` at 40, and Ruled becomes the selection. */
  lemma NotebooksFirstClick(selected: map<string, string>)
    requires "notebooks" !in selected
    ensures var r := ResolveAdd(selected, STATIONERY[5]);
      r.line == NewItem("notebooks@n-ruled", "Notebooks \U{2014} Ruled - \U{20B9}40", 40, None)
      && r.selected == selected["notebooks" := "n-ruled"]
  {
    var item := STATIONERY[5];
    ResolveAddFirstOption(selected, item);
    assert MakeCartId(item.id, Some(item.options[0].id)) == "notebooks@n-ruled";
  }

  /** The first click on an item with options, nothing selected yet: the first option names, prices and keys the line. */
  lemma ResolveAddFirstOption(selected: map<string, string>, item: TuckItem)
    requires item.id !in selected && |item.options| > 0 && item.options[0].caption != ""
    ensures ResolveAdd(selected, item) == Resolution(
      NewItem(MakeCartId(item.id, Some(item.options[0].id)), item.title + " \U{2014} " + item.options[0].caption, item.options[0].price, None),
      selected[item.id := item.options[0].id])
  {
  }

  /** Every line the page adds for a catalogue item is shown in its sidebar. */
  lemma ResolveAddAdmitted(selected: map<string, string>, k: nat)
    requires k < |STATIONERY|
    ensures TuckAdmits(ResolveAdd(selected, STATIONERY[k]).line.id)
  {
    var item := STATIONERY[k];
    var optionId := Lookup(selected, item.id);
    var keyOption := if optionId.Some? then optionId else if |item.options| > 0 then Some(item.options[0].id) else None;
    OwnKeysAdmitted(k, keyOption);
  }

  // ---------------------------------------------------------------------------
  // handleChangeQty and the checkout button
  // ---------------------------------------------------------------------------

  /** `handleChangeQty(cartId, delta)` as a value. */
  function TuckDelta(items: seq<CartItem>, id: string, delta: int): seq<CartItem>
  {
    var k := FindIndex(items, id);
    if k == -1 then items
    // the page clamps `qty + delta` at zero and removes the line on zero, which is the test below
    else if items[k].qty + delta <= 0 then Removed(items, id)
    else QtyUpdated(items, id, items[k].qty + delta)
  }

  /** A change for an id not in the cart is ignored. */
  lemma TuckDeltaAbsent(items: seq<CartItem>, id: string, delta: int)
    requires !HasId(items, id)
    ensures TuckDelta(items, id, delta) == items
  {
  }

  /** A change that takes the line to zero or below removes it. */
  lemma TuckDeltaRemoves(items: seq<CartItem>, id: string, delta: int, k: int)
    requires k == FindIndex(items, id) && k >= 0 && items[k].qty + delta <= 0
    ensures TuckDelta(items, id, delta) == Removed(items, id)
    ensures !HasId(TuckDelta(items, id, delta), id)
  {
    RemovedHasNoId(items, id);
  }

  /** On a cart of positive lines, a change that stays positive sets that line's quantity in place. */
  lemma TuckDeltaSets(items: seq<CartItem>, id: string, delta: int, k: int)
    requires AllPositive(items)
    requires k == FindIndex(items, id) && k >= 0 && items[k].qty + delta > 0
    ensures TuckDelta(items, id, delta) == WithQty(items, id, items[k].qty + delta)
  {
    QtyUpdatedSpec(items, id, items[k].qty + delta);
  }

  /** The sidebar Checkout button. */
  function CheckoutClick(items: seq<CartItem>): Effect
  {
    if |TuckCart(items)| == 0 then Effect(Some("Cart is empty. Add items before checkout."), None)
    else Effect(None, Some("/checkout"))
  }

  /** Checkout is reached exactly when some cart line is a tuck line; other pages' lines do not count. */
  lemma CheckoutGate(items: seq<CartItem>)
    ensures CheckoutClick(items).route.Some? <==> exists i :: 0 <= i < |items| && TuckAdmits(items[i].id)
    ensures CheckoutClick(items).route.Some? ==> CheckoutClick(items).route == Some("/checkout")
  {
    if |TuckCart(items)| > 0 {
      var x := TuckCart(items)[0];
      assert x in items && TuckAdmits(x.id);
      var i :| 0 <= i < |items| && items[i] == x;
    }
    if exists i :: 0 <= i < |items| && TuckAdmits(items[i].id) {
      var i :| 0 <= i < |items| && TuckAdmits(items[i].id);
      assert items[i] in TuckCart(items);
    }
  }

  // ---------------------------------------------------------------------------
  // The page state
  // ---------------------------------------------------------------------------

  class TuckPage {
    /** `selectedOptions`; a key set to `undefined` is absent here. */
    var selectedOptions: map<string, string>
    var openCart: bool
    const cart: Cart

    constructor (cart: Cart)
      ensures this.cart == cart && selectedOptions == map[] && !openCart
    {
      this.cart := cart;
      selectedOptions := map[];
      openCart := false;
    }

    /** `handleAddToCart(item)` */
    method HandleAddToCart(item: TuckItem)
      modifies this`selectedOptions, this`openCart, cart
      ensures var r := ResolveAdd(old(selectedOptions), item);
        cart.items == Added(old(cart.items), r.line, 1) && selectedOptions == r.selected && openCart
    {
      var optionId := if item.id in selectedOptions then Some(selectedOptions[item.id]) else None;
      var price := item.price.GetOr(0);
      var optionLabel: Option<string> := None;
      if |item.options| > 0 && Truthy(optionId) {
        var opt := FindOption(item.options, optionId.value);
        if opt.Some? {
          price := opt.value.price;
          optionLabel := Some(opt.value.caption);
        }
      }
      var before := selectedOptions;
      if |item.options| > 0 && !Truthy(optionId) {
        var opt := item.options[0];
        price := opt.price;
        optionLabel := Some(opt.caption);
        selectedOptions := selectedOptions[item.id := opt.id];
      }
      // the key reads the selection captured before this click
      var keyOption := if item.id in before then Some(before[item.id])
        else if |item.options| > 0 then Some(item.options[0].id) else None;
      var cartId := MakeCartId(item.id, keyOption);
      var displayName := if Truthy(optionLabel) then item.title + " \U{2014} " + optionLabel.value else item.title;
      cart.AddItem(NewItem(cartId, displayName, price, None), 1);
      openCart := true;
    }

    /** `handleChangeQty(cartId, delta)` */
    method HandleChangeQty(cartId: string, delta: int)
      modifies cart
      ensures cart.items == TuckDelta(old(cart.items), cartId, delta)
    {
      var k := FindIndex(cart.items, cartId);
      if k == -1 {
        return;
      }
      var newQty := if cart.items[k].qty + delta < 0 then 0 else cart.items[k].qty + delta;
      if newQty == 0 {
        cart.RemoveItem(cartId);
      } else {
        cart.UpdateQty(cartId, newQty);
      }
    }

    /** `handleRemove(cartId)` */
    method HandleRemove(cartId: string)
      modifies cart
      ensures cart.items == Removed(old(cart.items), cartId)
    {
      cart.RemoveItem(cartId);
    }

    /** The select's `onChange`. */
    method SelectOption(itemId: string, optionId: string)
      modifies this`selectedOptions
      ensures selectedOptions == old(selectedOptions)[itemId := optionId]
    {
      selectedOptions := selectedOptions[itemId := optionId];
    }

    /** "Clear selection": the entry becomes `undefined`. */
    method ClearSelection(itemId: string)
      modifies this`selectedOptions
      ensures selectedOptions == old(selectedOptions) - {itemId}
    {
      selectedOptions := selectedOptions - {itemId};
    }

    /** The sidebar Clear button: `removeItem` for each sidebar line; every other line stays, in order. */
    method ClearTuckLines()
      modifies cart
      ensures cart.items == OtherLines(old(cart.items))
      ensures TuckCart(cart.items) == []
    {
      var lines := TuckCart(cart.items);
      ghost var start := cart.items;
      WithoutNoIds(start);
      assert IdSet(lines[..0]) == {};
      var i := 0;
      while i < |lines|
        invariant 0 <= i <= |lines|
        invariant cart.items == WithoutIds(start, IdSet(lines[..i]))
      {
        RemovedWithout(start, IdSet(lines[..i]), lines[i].id);
        IdSetStep(lines, i);
        cart.RemoveItem(lines[i].id);
        i := i + 1;
      }
      assert lines[..i] == lines;
      TuckIdsExact(start);
      WithoutAdmitted(start, IdSet(lines));
      OtherLinesHaveNoTuck(start);
    }

    /** The sidebar subtotal: the shared subtotal less that of the lines the sidebar does not show. */
    function SidebarSubtotal(): (r: int)
      reads this, cart
      ensures r == SubtotalOf(cart.items) - SubtotalOf(OtherLines(cart.items))
    {
      SubtotalSplits(cart.items);
      SubtotalOf(TuckCart(cart.items))
    }
  }

  lemma {:induction false} OtherLinesHaveNoTuck(items: seq<CartItem>)
    ensures TuckCart(OtherLines(items)) == []
  {
    if items != [] {
      OtherLinesHaveNoTuck(items[1..]);
      if !TuckAdmits(items[0].id) {
        var o := OtherLines(items);
        assert o[0] == items[0] && o[1..] == OtherLines(items[1..]);
      }
    }
  }

  /** The ids of some lines. */
  ghost function IdSet(lines: seq<CartItem>): set<string>
  {
    set j | 0 <= j < |lines| :: lines[j].id
  }

  lemma IdSetStep(lines: seq<CartItem>, i: nat)
    requires i < |lines|
    ensures IdSet(lines[..i + 1]) == IdSet(lines[..i]) + {lines[i].id}
  {
    assert lines[..i + 1][i] == lines[i];
    forall id | id in IdSet(lines[..i + 1]) ensures id in IdSet(lines[..i]) + {lines[i].id} {
      var j :| 0 <= j < i + 1 && lines[..i + 1][j].id == id;
      if j < i {
        assert lines[..i][j] == lines[..i + 1][j];
      }
    }
    forall id | id in IdSet(lines[..i]) ensures id in IdSet(lines[..i + 1]) {
      var j :| 0 <= j < i && lines[..i][j].id == id;
      assert lines[..i + 1][j] == lines[..i][j];
    }
  }

  /** A line's id is among the sidebar's ids exactly when the line is a sidebar line. */
  lemma TuckIdsExact(items: seq<CartItem>)
    ensures forall i :: 0 <= i < |items| ==> (items[i].id in IdSet(TuckCart(items)) <==> TuckAdmits(items[i].id))
  {
    var lines := TuckCart(items);
    forall i | 0 <= i < |items|
      ensures items[i].id in IdSet(lines) <==> TuckAdmits(items[i].id)
    {
      if TuckAdmits(items[i].id) {
        assert items[i] in lines;
        var m :| 0 <= m < |lines| && lines[m] == items[i];
      }
      if items[i].id in IdSet(lines) {
        var m :| 0 <= m < |lines| && lines[m].id == items[i].id;
        assert lines[m] in lines;
      }
    }
  }
}
