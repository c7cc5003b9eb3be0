/**
 * The grocery page: a catalogue of categories, cart lines keyed
 * `category||name` at price 0, a per-page view of those lines (`cartMap`),
 * and a search over the catalogue.
 */
module Grocery {
  import opened Wrappers
  import opened Text
  import opened CartStore
  import opened Navigation

  datatype GroceryData = GroceryData(title: string, items: seq<string>)

  /** One entry of `cartMap`: the cart line's id, name and quantity, and the category parsed from the id. */
  datatype LocalCartItem = LocalCartItem(id: string, name: string, category: string, qty: int)

  const GROCERIES: seq<GroceryData> := [
    GroceryData("Grains & Cereals", [
      "Basmati Rice", "Sona Masoori Rice", "Wheat Flour (Atta)", "Maida (Refined Flour)",
      "Suji / Rava (Semolina)", "Poha (Flattened Rice)", "Dalia (Broken Wheat)"]),
    GroceryData("Pulses & Legumes", [
      "Toor Dal (Arhar Dal)", "Masoor Dal (Red Lentils)", "Moong Dal (Yellow/Green Gram)",
      "Chana Dal (Split Bengal Gram)", "Whole Urad Dal (Black Gram)", "Rajma (Kidney Beans)",
      "Kabuli Chana (Chickpeas)"]),
    GroceryData("Spices & Condiments", [
      "Turmeric Powder (Haldi)", "Red Chili Powder (Lal Mirch)", "Coriander Powder (Dhaniya Powder)",
      "Cumin Seeds (Jeera)", "Mustard Seeds (Rai/Sarson)", "Fenugreek Seeds (Methi)", "Garam Masala",
      "Asafoetida (Hing)", "Black Pepper (Kali Mirch)", "Bay Leaves (Tej Patta)", "Cardamom (Elaichi)",
      "Cloves (Laung)", "Cinnamon (Dalchini)", "Salt (Namak)"]),
    GroceryData("Dairy & Fats", [
      "Ghee (Clarified Butter)", "Butter", "Milk", "Curd (Dahi)", "Paneer (Cottage Cheese)"]),
    GroceryData("Other Essentials", [
      "Cooking Oil (Mustard, Groundnut, or Sunflower)", "Jaggery (Gur)", "Sugar",
      "Tea Leaves (Chai Patti)", "Coffee", "Tamarind (Imli)", "Pickle (Achar)", "Papad"])
  ]

  // ---------------------------------------------------------------------------
  // Ids
  // ---------------------------------------------------------------------------

  /** `makeId(category, name)` */
  function MakeId(category: string, name: string): string
  {
    category + "||" + name
  }

  /** `const [category, ...rest] = id.split('||'); const name = rest.join('||')` */
  function ParseId(id: string): (string, string)
  {
    var parts := SplitOn(id, "||");
    (parts[0], Join(parts[1..], "||"))
  }

  /** A category the id format can carry: no `||` inside and no `|` at the end. */
  predicate CategoryOk(c: string)
  {
    !Contains(c, "||") && (c == [] || c[|c| - 1] != '|')
  }

  /** A made id holds its first `||` right after the category. */
  lemma MakeIdNoEarlierSep(c: string, n: string)
    requires CategoryOk(c)
    ensures forall j :: 0 <= j < |c| ==> !OccursAt(MakeId(c, n), "||", j)
  {
    var s := MakeId(c, n);
    ContainsIff(c, "||");
    forall j | 0 <= j < |c|
      ensures !OccursAt(s, "||", j)
    {
      if j + 2 <= |c| {
        assert !OccursAt(c, "||", j);
        assert s[j..j + 2] == c[j..j + 2];
      } else {
        assert s[j] == c[|c| - 1] != '|';
        assert s[j..j + 2][0] == s[j];
      }
    }
  }

  /** Parsing a made id gives back the category and the name, for every name. */
  lemma ParseMakeId(c: string, n: string)
    requires CategoryOk(c)
    ensures ParseId(MakeId(c, n)) == (c, n)
  {
    var s := MakeId(c, n);
    assert s[..|c|] == c;
    assert s[|c|..|c| + 2] == "||";
    MakeIdNoEarlierSep(c, n);
    IndexOfAt(s, "||", |c|);
    SplitOnFirst(s, "||", |c|);
    assert s[..|c|] == c;
    assert s[|c| + 2..] == n;
    JoinSplitOn(n, "||");
  }

  /** A category ending in `|` loses that `|` to the name: `'a|' , 'b'` parses as `'a', '|b'`. */
  lemma ParseTrailingBar(s: string)
    requires s == MakeId("a|", "b")
    ensures ParseId(s) == ("a", "|b")
  {
    assert s == "a|||b";
    assert s[1..3] == "||";
    assert s[0..2] == "a|";
    IndexOfAt(s, "||", 1);
    SplitOnFirst(s, "||", 1);
    var rest := s[3..];
    assert rest == "|b";
    assert rest[0..2] == "|b";
    ContainsIff(rest, "||");
    SplitOnAbsent(rest, "||");
    var parts := SplitOn(s, "||");
    assert s[..1] == "a";
    assert parts == ["a", "|b"];
    assert parts[1..] == ["|b"];
  }

  predicate NoBar(s: string)
  {
    forall i :: 0 <= i < |s| ==> s[i] != '|'
  }

  lemma NoBarOk(c: string)
    requires NoBar(c)
    ensures CategoryOk(c)
  {
    forall i ensures !OccursAt(c, "||", i) {
      if 0 <= i <= |c| - 2 {
        assert c[i..i + 2][0] == c[i];
      }
    }
    ContainsIff(c, "||");
  }

  /** Every catalogue title round-trips through the id, so every catalogue line is shown under its own category. */
  lemma CatalogueIdsParse(k: nat, n: string)
    requires k < |GROCERIES|
    ensures ParseId(MakeId(GROCERIES[k].title, n)) == (GROCERIES[k].title, n)
  {
    NoBarOk(GROCERIES[k].title);
    ParseMakeId(GROCERIES[k].title, n);
  }

  // ---------------------------------------------------------------------------
  // cartMap
  // ---------------------------------------------------------------------------

  /** The lines this page recognises as its own: a non-empty id containing `||`. */
  predicate IsGroceryId(id: string)
  {
    id != "" && Contains(id, "||")
  }

  function LocalOf(c: CartItem): LocalCartItem
  {
    LocalCartItem(c.id, c.name, ParseId(c.id).0, c.qty)
  }

  /** The position of key `id` among the object's keys, or -1. */
  function KeyIndex(m: seq<LocalCartItem>, id: string): (r: int)
    ensures -1 <= r < |m|
    ensures r >= 0 ==> m[r].id == id
    ensures r == -1 <==> forall j :: 0 <= j < |m| ==> m[j].id != id
  {
    if m == [] then -1
    else if m[|m| - 1].id == id then |m| - 1
    else KeyIndex(m[..|m| - 1], id)
  }

  /** `m[e.id] = e` on a plain object: an existing key keeps its place and takes the new value; a new key goes last. */
  function Put(m: seq<LocalCartItem>, e: LocalCartItem): seq<LocalCartItem>
  {
    var k := KeyIndex(m, e.id);
    if k == -1 then m + [e] else m[k := e]
  }

  /** `cartMap` (in key order) as a fold over the cart lines. */
  function CartMapOf(items: seq<CartItem>): seq<LocalCartItem>
  {
    if items == [] then []
    else
      var m := CartMapOf(items[..|items| - 1]);
      var c := items[|items| - 1];
      if IsGroceryId(c.id) then Put(m, LocalOf(c)) else m
  }

  /** The `cartMap` loop. */
  method BuildCartMap(items: seq<CartItem>) returns (m: seq<LocalCartItem>)
    ensures m == CartMapOf(items)
  {
    m := [];
    var i := 0;
    while i < |items|
      invariant 0 <= i <= |items|
      invariant m == CartMapOf(items[..i])
    {
      var c := items[i];
      assert items[..i + 1][..i] == items[..i];
      if c.id != "" && Contains(c.id, "||") {
        var parts := SplitOn(c.id, "||");
        var entry := LocalCartItem(c.id, c.name, parts[0], c.qty);
        var k := KeyIndex(m, c.id);
        if k == -1 {
          m := m + [entry];
        } else {
          m := m[k := entry];
        }
      }
      i := i + 1;
    }
    assert items[..i] == items;
  }

  /** The keys of `cartMap` are distinct. */
  lemma {:induction false} CartMapKeysDistinct(items: seq<CartItem>)
    ensures forall i, j :: 0 <= i < j < |CartMapOf(items)| ==> CartMapOf(items)[i].id != CartMapOf(items)[j].id
  {
    if items != [] {
      var p := items[..|items| - 1];
      CartMapKeysDistinct(p);
    }
  }

  /** Every key of `cartMap` is the id of a grocery line of the cart. */
  lemma {:induction false} CartMapKeysFromCart(items: seq<CartItem>)
    ensures forall j :: 0 <= j < |CartMapOf(items)| ==> HasId(items, CartMapOf(items)[j].id) && IsGroceryId(CartMapOf(items)[j].id)
  {
    if items != [] {
      var p := items[..|items| - 1];
      var c := items[|items| - 1];
      CartMapKeysFromCart(p);
      var mp := CartMapOf(p);
      var m := CartMapOf(items);
      forall j | 0 <= j < |m| ensures HasId(items, m[j].id) && IsGroceryId(m[j].id) {
        if j < |mp| && m[j].id == mp[j].id {
          var i :| 0 <= i < |p| && p[i].id == mp[j].id;
          assert items[i] == p[i];
        } else {
          assert m[j].id == c.id && items[|items| - 1] == c;
        }
      }
    }
  }

  /** Every grocery line of the cart has a key in `cartMap`. */
  lemma {:induction false} CartMapCoversLines(items: seq<CartItem>)
    ensures forall i :: 0 <= i < |items| && IsGroceryId(items[i].id) ==> KeyIndex(CartMapOf(items), items[i].id) >= 0
  {
    if items != [] {
      var p := items[..|items| - 1];
      var c := items[|items| - 1];
      CartMapCoversLines(p);
      var mp := CartMapOf(p);
      var m := CartMapOf(items);
      forall i | 0 <= i < |items| && IsGroceryId(items[i].id) ensures KeyIndex(m, items[i].id) >= 0 {
        if i < |p| && items[i].id != c.id {
          assert items[i] == p[i];
          var k := KeyIndex(mp, items[i].id);
          assert m[k].id == items[i].id;
        } else {
          assert items[i].id == c.id;
          var k := KeyIndex(mp, c.id);
          if k == -1 {
            assert m[|m| - 1].id == c.id;
          } else {
            assert m[k].id == c.id;
          }
        }
      }
    }
  }

  /** The grocery lines, in cart order. */
  function GroceryLines(items: seq<CartItem>): (r: seq<CartItem>)
    ensures forall x :: x in r <==> x in items && IsGroceryId(x.id)
  {
    if items == [] then []
    else
      var g := GroceryLines(items[..|items| - 1]);
      assert forall x :: x in items <==> x in items[..|items| - 1] || x == items[|items| - 1];
      if IsGroceryId(items[|items| - 1].id) then g + [items[|items| - 1]] else g
  }

  function MapLocal(lines: seq<CartItem>): seq<LocalCartItem>
  {
    seq(|lines|, i requires 0 <= i < |lines| => LocalOf(lines[i]))
  }

  /** With the distinct ids the cart keeps, `cartMap` has one entry per grocery line, in cart order. */
  lemma {:induction false} CartMapUnique(items: seq<CartItem>)
    requires UniqueIds(items)
    ensures CartMapOf(items) == MapLocal(GroceryLines(items))
  {
    if items != [] {
      var p := items[..|items| - 1];
      var c := items[|items| - 1];
      assert UniqueIds(p);
      CartMapUnique(p);
      CartMapKeysFromCart(p);
      if IsGroceryId(c.id) {
        var mp := CartMapOf(p);
        forall j | 0 <= j < |mp| ensures mp[j].id != c.id {
          var i :| 0 <= i < |p| && p[i].id == mp[j].id;
          assert items[i] == p[i];
        }
        assert KeyIndex(mp, c.id) == -1;
        assert MapLocal(GroceryLines(p) + [c]) == MapLocal(GroceryLines(p)) + [LocalOf(c)];
      }
    }
  }

  /** `cartTotalItems`: Σ qty over `Object.values(cartMap)`. */
  function CartTotalItems(m: seq<LocalCartItem>): int
  {
    if m == [] then 0 else CartTotalItems(m[..|m| - 1]) + m[|m| - 1].qty
  }

  lemma {:induction false} TotalOfMapLocal(lines: seq<CartItem>)
    ensures CartTotalItems(MapLocal(lines)) == CountOf(lines)
  {
    if lines != [] {
      var p := lines[..|lines| - 1];
      TotalOfMapLocal(p);
      assert MapLocal(lines)[..|lines| - 1] == MapLocal(p);
      ReductionsAppend(p, [lines[|lines| - 1]]);
      assert p + [lines[|lines| - 1]] == lines;
    }
  }

  /** The page's unit count is the cart's unit count restricted to grocery lines. */
  lemma CartTotalItemsSpec(items: seq<CartItem>)
    requires UniqueIds(items)
    ensures CartTotalItems(CartMapOf(items)) == CountOf(GroceryLines(items))
  {
    CartMapUnique(items);
    TotalOfMapLocal(GroceryLines(items));
  }

  // ---------------------------------------------------------------------------
  // Search
  // ---------------------------------------------------------------------------

  /** `cat.items.filter(it => it.toLowerCase().includes(q))` */
  function Matches(items: seq<string>, q: string): (r: seq<string>)
    ensures forall x :: x in r <==> x in items && Contains(Lower(x), q)
  {
    if items == [] then []
    else if Contains(Lower(items[0]), q) then [items[0]] + Matches(items[1..], q)
    else Matches(items[1..], q)
  }

  /** One category's contribution to the results: its matches, if any. */
  function Hit(cat: GroceryData, q: string): seq<GroceryData>
  {
    var m := Matches(cat.items, q);
    if |m| > 0 then [GroceryData(cat.title, m)] else []
  }

  /** The search loop's results over `cats`, in catalogue order. */
  function SearchOf(cats: seq<GroceryData>, q: string): seq<GroceryData>
  {
    if cats == [] then [] else SearchOf(cats[..|cats| - 1], q) + Hit(cats[|cats| - 1], q)
  }

  /** `filteredByQuery` as a value. */
  function FilteredOf(query: string): seq<GroceryData>
  {
    var q := Lower(Trim(query));
    if q == "" then GROCERIES else SearchOf(GROCERIES, q)
  }

  /** The `filteredByQuery` loop. */
  method FilteredByQuery(query: string) returns (results: seq<GroceryData>)
    ensures results == FilteredOf(query)
  {
    var q := Lower(Trim(query));
    if q == "" {
      return GROCERIES;
    }
    results := SearchLoop(GROCERIES, q);
  }

  /** The search loop itself, over the categories `cats`. */
  method SearchLoop(cats: seq<GroceryData>, q: string) returns (results: seq<GroceryData>)
    ensures results == SearchOf(cats, q)
  {
    results := [];
    var i := 0;
    while i < |cats|
      invariant 0 <= i <= |cats|
      invariant results == SearchOf(cats[..i], q)
    {
      var cat := cats[i];
      assert cats[..i + 1][..i] == cats[..i];
      var matches := Matches(cat.items, q);
      if |matches| > 0 {
        results := results + [GroceryData(cat.title, matches)];
      }
      i := i + 1;
    }
    assert cats[..i] == cats;
  }

  /**
   * A result category is a catalogue category cut down to its matches, and
   * never empty; every catalogue category with a match is a result.
   */
  lemma {:induction false} SearchSpec(cats: seq<GroceryData>, q: string, r: GroceryData)
    ensures r in SearchOf(cats, q) <==> |r.items| > 0 && exists c :: c in cats && c.title == r.title && r.items == Matches(c.items, q)
  {
    if cats != [] {
      var p := cats[..|cats| - 1];
      var last := cats[|cats| - 1];
      SearchSpec(p, q, r);
      assert forall c :: c in cats <==> c in p || c == last;
    }
  }

  /** The item filter keeps catalogue order: the matches of a concatenation are each part's matches, in turn. */
  lemma {:induction false} MatchesAppend(a: seq<string>, b: seq<string>, q: string)
    ensures Matches(a + b, q) == Matches(a, q) + Matches(b, q)
  {
    if a == [] {
      assert a + b == b;
    } else {
      assert (a + b)[0] == a[0] && (a + b)[1..] == a[1..] + b;
      MatchesAppend(a[1..], b, q);
    }
  }

  /** The results keep catalogue order: searching a concatenation searches each part, in turn. */
  lemma {:induction false} SearchAppend(a: seq<GroceryData>, b: seq<GroceryData>, q: string)
    ensures SearchOf(a + b, q) == SearchOf(a, q) + SearchOf(b, q)
  {
    if b == [] {
      assert a + b == a;
    } else {
      var init := b[..|b| - 1];
      assert (a + b)[..|a + b| - 1] == a + init && (a + b)[|a + b| - 1] == b[|b| - 1];
      SearchAppend(a, init, q);
    }
  }

  lemma {:induction false} MatchesEmptyQuery(items: seq<string>)
    ensures Matches(items, "") == items
  {
    if items != [] {
      assert StartsWith(Lower(items[0]), "");
      MatchesEmptyQuery(items[1..]);
    }
  }

  /** Searching for the empty string would return every non-empty category unchanged, as the blank-query shortcut does. */
  lemma {:induction false} SearchEmptyQuery(cats: seq<GroceryData>)
    requires forall k :: 0 <= k < |cats| ==> |cats[k].items| > 0
    ensures SearchOf(cats, "") == cats
  {
    if cats != [] {
      var p := cats[..|cats| - 1];
      var last := cats[|cats| - 1];
      assert p + [last] == cats;
      assert forall k :: 0 <= k < |p| ==> p[k] == cats[k];
      SearchEmptyQuery(p);
      MatchesEmptyQuery(last.items);
      assert Hit(last, "") == [last];
    }
  }

  /** A query of blanks shows the whole catalogue. */
  lemma BlankQuery(query: string)
    requires AllWhitespace(query)
    ensures FilteredOf(query) == GROCERIES
  {
    TrimEmptyIff(query);
  }

  /** A non-blank query drops every category with no matching item. */
  lemma ShownNonEmpty(query: string)
    requires !AllWhitespace(query)
    ensures forall c :: c in FilteredOf(query) ==> |c.items| > 0
  {
    TrimEmptyIff(query);
    var q := Lower(Trim(query));
    assert |q| == |Trim(query)| > 0;
    forall c | c in SearchOf(GROCERIES, q)
      ensures |c.items| > 0
    {
      SearchSpec(GROCERIES, q, c);
    }
  }

  // ---------------------------------------------------------------------------
  // Cart wrappers and buttons
  // ---------------------------------------------------------------------------

  /** `handleUpdateQty(id, newQty)` as a value. */
  function GroceryUpdate(items: seq<CartItem>, id: string, newQty: int): seq<CartItem>
  {
    if newQty <= 0 then Removed(items, id) else QtyUpdated(items, id, newQty)
  }

  /** On a cart of positive lines the wrapper does what `updateQty` alone does: remove at 0 or below, set otherwise. */
  lemma GroceryUpdateIsUpdate(items: seq<CartItem>, id: string, newQty: int)
    requires AllPositive(items)
    ensures GroceryUpdate(items, id, newQty) == QtyUpdated(items, id, newQty)
    ensures newQty > 0 ==> GroceryUpdate(items, id, newQty) == WithQty(items, id, newQty)
  {
    if newQty <= 0 {
      UpdateToZeroIsRemove(items, id, newQty);
    } else {
      QtyUpdatedSpec(items, id, newQty);
    }
  }

  /** `handleAddToCart(category, name, qty)`: a new grocery line adds `qty` units and nothing to the subtotal. */
  lemma GroceryAddReductions(items: seq<CartItem>, category: string, name: string, qty: int)
    requires !HasId(items, MakeId(category, name))
    ensures var after := Added(items, NewItem(MakeId(category, name), name, 0, None), qty);
      CountOf(after) == CountOf(items) + qty && SubtotalOf(after) == SubtotalOf(items)
  {
    AddedNewReductions(items, NewItem(MakeId(category, name), name, 0, None), qty);
  }

  /** Either Checkout button. Signed out, it alerts and still navigates. */
  function CheckoutClick(local: seq<LocalCartItem>, signedIn: bool): Effect
  {
    if |local| == 0 then Effect(Some("Cart is empty. Add items before checkout."), None)
    else if !signedIn then Effect(Some("Please sign in to continue to checkout."), Some("/checkout"))
    else Effect(None, Some("/checkout"))
  }

  /** Checkout is reached exactly when the cart holds a grocery line, whether or not the user is signed in. */
  lemma CheckoutGate(items: seq<CartItem>, signedIn: bool)
    ensures CheckoutClick(CartMapOf(items), signedIn).route.Some? <==> exists i :: 0 <= i < |items| && IsGroceryId(items[i].id)
    ensures CheckoutClick(CartMapOf(items), signedIn).route.Some? ==> CheckoutClick(CartMapOf(items), signedIn).route == Some("/checkout")
    ensures CheckoutClick(CartMapOf(items), signedIn).alert.Some? <==> !signedIn || forall i :: 0 <= i < |items| ==> !IsGroceryId(items[i].id)
  {
    CartMapEmptyIff(items);
  }

  /** `cartMap` is empty exactly when no cart line is a grocery line. */
  lemma CartMapEmptyIff(items: seq<CartItem>)
    ensures |CartMapOf(items)| == 0 <==> forall i :: 0 <= i < |items| ==> !IsGroceryId(items[i].id)
  {
    CartMapKeysFromCart(items);
    CartMapCoversLines(items);
    var m := CartMapOf(items);
    if |m| > 0 {
      assert HasId(items, m[0].id) && IsGroceryId(m[0].id);
      var i :| 0 <= i < |items| && items[i].id == m[0].id;
    }
    if exists i :: 0 <= i < |items| && IsGroceryId(items[i].id) {
      var i :| 0 <= i < |items| && IsGroceryId(items[i].id);
      assert KeyIndex(m, items[i].id) >= 0;
    }
  }

  class GroceryPage {
    var query: string
    var activeCategory: Option<string>
    const cart: Cart

    constructor (cart: Cart)
      ensures this.cart == cart && query == "" && activeCategory == None
    {
      this.cart := cart;
      query := "";
      activeCategory := None;
    }

    /** The effect that selects the first category when none is active. */
    method SelectFirstCategory()
      modifies this`activeCategory
      ensures activeCategory == if old(activeCategory).Some? && old(activeCategory).value != "" then old(activeCategory) else Some(GROCERIES[0].title)
    {
      if activeCategory.None? || activeCategory.value == "" {
        activeCategory := Some(GROCERIES[0].title);
      }
    }

    /** `handleAddToCart(category, name, qty)` */
    method HandleAddToCart(category: string, name: string, qty: int)
      modifies cart
      ensures cart.items == Added(old(cart.items), NewItem(MakeId(category, name), name, 0, None), qty)
    {
      var id := MakeId(category, name);
      cart.AddItem(NewItem(id, name, 0, None), qty);
    }

    /** `handleUpdateQty(id, newQty)` */
    method HandleUpdateQty(id: string, newQty: int)
      modifies cart
      ensures cart.items == GroceryUpdate(old(cart.items), id, newQty)
    {
      if newQty <= 0 {
        cart.RemoveItem(id);
      } else {
        cart.UpdateQty(id, newQty);
      }
    }

    /** `handleRemove(id)` */
    method HandleRemove(id: string)
      modifies cart
      ensures cart.items == Removed(old(cart.items), id)
    {
      cart.RemoveItem(id);
    }

    /** The search box's `setQuery`. */
    method SetQuery(q: string)
      modifies this`query
      ensures query == q
    {
      query := q;
    }

    /** The categories the page lists for the current query; a blank query lists the whole catalogue. */
    function Shown(): (r: seq<GroceryData>)
      reads this
      ensures AllWhitespace(query) ==> r == GROCERIES
      ensures forall c :: c in r && !AllWhitespace(query) ==> |c.items| > 0
    {
      if AllWhitespace(query) then BlankQuery(query); FilteredOf(query)
      else ShownNonEmpty(query); FilteredOf(query)
    }

    /** The Clear button: the whole shared cart, not only grocery lines. */
    method Clear()
      modifies cart
      ensures cart.items == []
    {
      cart.ClearCart();
    }
  }
}
