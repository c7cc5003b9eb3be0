/**
 * The food menu page: size variants parsed out of free-text descriptions,
 * and adding a (dish, size) pair to the shared cart under the key `id::label`.
 */
module FoodMenu {
  import opened Wrappers
  import opened Text
  import opened CartStore
  import opened Navigation

  /** A size variant; `name` is the source's `label`. */
  datatype Size = Size(name: string, price: int)

  /** A dish. An empty `sizes` list stands for an absent one: the page treats both alike. */
  datatype MenuItem = MenuItem(id: string, name: string, desc: Option<string>, price: int, sizes: seq<Size>)

  // ---------------------------------------------------------------------------
  // extractNumbersFromString
  // ---------------------------------------------------------------------------

  /**
   * The price pattern `₹?\s*([0-9]{1,4})(?:[,0-9]*)`: the optional `₹` and
   * blanks only move where a match starts, so every match captures the next
   * ASCII digit and at most three digits after it, then swallows the digits
   * and commas that follow.
   */
  predicate IsNumberTail(c: char)
  {
    c == ',' || IsDigit(c)
  }

  /** Length of the run of leading digits of `s`, at most `cap`. */
  function DigitRun(s: string, cap: nat): (k: nat)
    ensures k <= cap && k <= |s|
  {
    if cap == 0 || s == [] || !IsDigit(s[0]) then 0
    else 1 + DigitRun(s[1..], cap - 1)
  }

  /** `DigitRun` is the one length whose prefix is all digits and that stops at the cap, the end or a non-digit. */
  lemma {:induction false} DigitRunIs(s: string, cap: nat, k: nat)
    requires k <= cap && k <= |s|
    requires forall j :: 0 <= j < k ==> IsDigit(s[j])
    requires k < cap && k < |s| ==> !IsDigit(s[k])
    ensures DigitRun(s, cap) == k
  {
    if k > 0 {
      DigitRunIs(s[1..], cap - 1, k - 1);
    }
  }

  /** `s` without its leading run of digits and commas. */
  function SkipTail(s: string): (r: string)
    ensures |r| <= |s|
  {
    if s != [] && IsNumberTail(s[0]) then SkipTail(s[1..]) else s
  }

  /** The numbers the global match loop collects from `s`, left to right. */
  function ScanNumbers(s: string): seq<nat>
    decreases |s|
  {
    if s == [] then []
    else if !IsDigit(s[0]) then ScanNumbers(s[1..])
    else
      var k := DigitRun(s, 4);
      DigitRunDigits(s, 4);
      [DecimalValue(s[..k])] + ScanNumbers(SkipTail(s[k..]))
  }

  lemma {:induction false} DigitRunDigits(s: string, cap: nat)
    ensures AllDigits(s[..DigitRun(s, cap)])
  {
    var k := DigitRun(s, cap);
    if k > 0 {
      DigitRunDigits(s[1..], cap - 1);
      assert s[..k] == [s[0]] + s[1..][..k - 1];
    }
  }

  /** One step of the scan past a character that cannot start a number. */
  lemma ScanAtNonDigit(s: string)
    requires s != [] && !IsDigit(s[0])
    ensures ScanNumbers(s) == ScanNumbers(s[1..])
  {
  }

  /** One step of the scan over a number: its value, then the scan of what follows its tail. */
  lemma ScanAtDigit(s: string, k: nat, rest: string)
    requires s != [] && IsDigit(s[0])
    requires k == DigitRun(s, 4) && rest == SkipTail(s[k..])
    ensures AllDigits(s[..k])
    ensures ScanNumbers(s) == [DecimalValue(s[..k])] + ScanNumbers(rest)
  {
    DigitRunDigits(s, 4);
  }

  /** `extractNumbersFromString(txt)` as a value: nothing for an absent text. */
  function ScanOf(txt: Option<string>): seq<nat>
  {
    if txt.None? then [] else ScanNumbers(txt.value)
  }

  /** Reads the capture group `[0-9]{1,4}` starting at `i`. */
  method ReadDigits(s: string, i: nat) returns (j: nat, n: nat)
    requires i < |s| && IsDigit(s[i])
    ensures i < j <= |s| && j - i == DigitRun(s[i..], 4)
    ensures AllDigits(s[i..j]) && n == DecimalValue(s[i..j]) && n < 10000
  {
    j, n := i, 0;
    while j < |s| && j - i < 4 && IsDigit(s[j])
      invariant i <= j <= |s| && j - i <= 4
      invariant AllDigits(s[i..j]) && n == DecimalValue(s[i..j])
    {
      DecimalSnoc(s[i..j], s[j]);
      assert s[i..j + 1] == s[i..j] + [s[j]];
      n := n * 10 + DigitValue(s[j]);
      j := j + 1;
    }
    DigitRunIs(s[i..], 4, j - i);
    DecimalBelow(s[i..j]);
  }

  /** Skips the non-capturing `[,0-9]*` that follows a capture, starting at `p`. */
  method SkipNumberTail(s: string, p: nat) returns (j: nat)
    requires p <= |s|
    ensures p <= j <= |s| && s[j..] == SkipTail(s[p..])
  {
    j := p;
    while j < |s| && IsNumberTail(s[j])
      invariant p <= j <= |s|
      invariant SkipTail(s[p..]) == SkipTail(s[j..])
    {
      assert s[j..][1..] == s[j + 1..];
      j := j + 1;
    }
  }

  /** `extractNumbersFromString`: the match loop, pushing each capture into `out`. */
  method ExtractNumbersFromString(txt: Option<string>) returns (out: seq<nat>)
    ensures out == ScanOf(txt)
    ensures forall j :: 0 <= j < |out| ==> out[j] < 10000
  {
    if txt.None? || txt.value == "" {
      return [];
    }
    var s := txt.value;
    out := [];
    var i := 0;
    while i < |s|
      invariant 0 <= i <= |s|
      invariant out + ScanNumbers(s[i..]) == ScanNumbers(s)
      decreases |s| - i
    {
      if IsDigit(s[i]) {
        var p, n := ReadDigits(s, i);
        var j := SkipNumberTail(s, p);
        assert s[i..][..p - i] == s[i..p];
        assert s[i..][p - i..] == s[p..];
        ScanAtDigit(s[i..], p - i, s[j..]);
        out := out + [n];
        i := j;
      } else {
        assert s[i..][1..] == s[i + 1..];
        ScanAtNonDigit(s[i..]);
        i := i + 1;
      }
    }
    assert s[i..] == [];
    ScanBelow10000(s);
  }

  function Pow10(n: nat): nat
  {
    if n == 0 then 1 else 10 * Pow10(n - 1)
  }

  lemma {:induction false} DecimalBelowPow(ds: string)
    requires AllDigits(ds)
    ensures DecimalValue(ds) < Pow10(|ds|)
  {
    if ds != [] {
      DecimalBelowPow(ds[..|ds| - 1]);
    }
  }

  /** One more digit on the right: ten times the value, plus the digit. */
  lemma DecimalSnoc(ds: string, c: char)
    requires AllDigits(ds) && IsDigit(c)
    ensures AllDigits(ds + [c]) && DecimalValue(ds + [c]) == DecimalValue(ds) * 10 + DigitValue(c)
  {
    assert (ds + [c])[..|ds|] == ds;
  }

  /** A numeral of at most four digits is below 10000. */
  lemma DecimalBelow(ds: string)
    requires AllDigits(ds) && |ds| <= 4
    ensures DecimalValue(ds) < 10000
  {
    DecimalBelowPow(ds);
    assert Pow10(|ds|) <= Pow10(4);
  }

  /** Every number the scanner reports is in 0..9999. */
  lemma {:induction false} ScanBelow10000(s: string)
    ensures forall j :: 0 <= j < |ScanNumbers(s)| ==> ScanNumbers(s)[j] < 10000
    decreases |s|
  {
    if s != [] {
      if !IsDigit(s[0]) {
        ScanBelow10000(s[1..]);
      } else {
        var k := DigitRun(s, 4);
        ScanAtDigit(s, k, SkipTail(s[k..]));
        DecimalBelow(s[..k]);
        ScanBelow10000(SkipTail(s[k..]));
      }
    }
  }

  /** Text without digits yields no numbers. */
  lemma {:induction false} ScanNoDigits(s: string)
    requires forall j :: 0 <= j < |s| ==> !IsDigit(s[j])
    ensures ScanNumbers(s) == []
  {
    if s != [] {
      ScanNoDigits(s[1..]);
    }
  }

  /** Digit-free text before a number only moves where the scan starts. */
  lemma {:induction false} ScanSkipsHead(head: string, rest: string)
    requires forall j :: 0 <= j < |head| ==> !IsDigit(head[j])
    ensures ScanNumbers(head + rest) == ScanNumbers(rest)
  {
    if head != [] {
      assert (head + rest)[1..] == head[1..] + rest;
      ScanSkipsHead(head[1..], rest);
    } else {
      assert head + rest == rest;
    }
  }

  /** A price written with `String(n)` is read back, as long as it has at most four digits and no digit or comma follows. */
  lemma ScanRendered(n: nat, rest: string)
    requires n < 10000
    requires rest == [] || !IsNumberTail(rest[0])
    ensures ScanNumbers(NatToString(n) + rest) == [n] + ScanNumbers(rest)
  {
    var d := NatToString(n);
    NatToStringRoundTrip(n);
    var s := d + rest;
    assert s[..|d|] == d;
    assert s[|d|..] == rest;
    DigitRunIs(s, 4, |d|);
    ScanAtDigit(s, |d|, rest);
  }

  /** `head + String(n) + rest` scans as `n` followed by the scan of `rest`. */
  lemma ScanNumberAfter(head: string, n: nat, rest: string)
    requires forall j :: 0 <= j < |head| ==> !IsDigit(head[j])
    requires n < 10000
    requires rest == [] || !IsNumberTail(rest[0])
    ensures ScanNumbers(head + NatToString(n) + rest) == [n] + ScanNumbers(rest)
  {
    assert head + NatToString(n) + rest == head + (NatToString(n) + rest);
    ScanSkipsHead(head, NatToString(n) + rest);
    ScanRendered(n, rest);
  }

  /** `'₹a/₹b/…'`: a price list written the way the menu descriptions write it. */
  function PriceList(prices: seq<nat>): string
  {
    if |prices| == 0 then ""
    else if |prices| == 1 then "\U{20B9}" + NatToString(prices[0])
    else "\U{20B9}" + NatToString(prices[0]) + "/" + PriceList(prices[1..])
  }

  /** The scanner recovers every price of a written price list, in order, whatever non-numeric text follows. */
  lemma {:induction false} ScanPriceList(prices: seq<nat>, suffix: string)
    requires forall j :: 0 <= j < |prices| ==> prices[j] < 10000
    requires suffix == [] || !IsNumberTail(suffix[0])
    ensures ScanNumbers(PriceList(prices) + suffix) == prices + ScanNumbers(suffix)
  {
    if |prices| == 1 {
      assert prices == [prices[0]];
      assert PriceList(prices) + suffix == "\U{20B9}" + NatToString(prices[0]) + suffix;
      ScanNumberAfter("\U{20B9}", prices[0], suffix);
    } else if |prices| > 1 {
      assert [prices[0]] + prices[1..] == prices;
      var tail := PriceList(prices[1..]) + suffix;
      assert PriceList(prices) + suffix == "\U{20B9}" + NatToString(prices[0]) + ("/" + tail);
      ScanPriceThen(prices[0], tail);
      ScanPriceList(prices[1..], suffix);
    } else {
      assert PriceList(prices) + suffix == suffix;
    }
  }

  /** A price followed by `/` scans as that price, then whatever the text after the `/` scans as. */
  lemma ScanPriceThen(price: nat, tail: string)
    requires price < 10000
    ensures ScanNumbers("\U{20B9}" + NatToString(price) + ("/" + tail)) == [price] + ScanNumbers(tail)
  {
    ScanNumberAfter("\U{20B9}", price, "/" + tail);
    assert ("/" + tail)[1..] == tail;
    ScanAtNonDigit("/" + tail);
  }

  /** The worked example: `'₹15/₹30/₹50 (S/M/L)'` gives [15, 30, 50]. */
  lemma ScanExample(desc: string)
    requires desc == "\U{20B9}15/\U{20B9}30/\U{20B9}50 (S/M/L)"
    ensures ScanNumbers(desc) == [15, 30, 50]
  {
    var prices: seq<nat> := [15, 30, 50];
    var suffix := " (S/M/L)";
    ExampleText(desc, prices, suffix);
    ScanExampleList(prices, suffix);
  }

  lemma ScanExampleList(prices: seq<nat>, suffix: string)
    requires prices == [15, 30, 50] && suffix == " (S/M/L)"
    ensures ScanNumbers(PriceList(prices) + suffix) == prices
  {
    ScanNoDigits(suffix);
    ScanPriceList(prices, suffix);
    assert prices + [] == prices;
  }

  lemma ExampleText(desc: string, prices: seq<nat>, suffix: string)
    requires desc == "\U{20B9}15/\U{20B9}30/\U{20B9}50 (S/M/L)"
    requires prices == [15, 30, 50] && suffix == " (S/M/L)"
    ensures desc == PriceList(prices) + suffix
  {
    assert NatToString(15) == "15" && NatToString(30) == "30" && NatToString(50) == "50";
    var last := prices[1..][1..];
    assert last == [50];
    assert PriceList(last) == "\U{20B9}" + NatToString(50);
    assert PriceList(prices[1..]) == "\U{20B9}" + NatToString(30) + "/" + PriceList(last);
  }

  // ---------------------------------------------------------------------------
  // inferLabelsForCount, deriveSizesFromDesc, getSizesForItem
  // ---------------------------------------------------------------------------

  /** `inferLabelsForCount(count, desc)` */
  function InferLabelsForCount(count: nat, desc: Option<string>): (labels: seq<string>)
    ensures |labels| == count
  {
    if count == 3 then ["S", "M", "L"]
    else if count == 2 then
      var d := Lower(desc.GetOr(""));
      if Contains(d, "half") && Contains(d, "full") then ["Half", "Full"]
      // the `reg`/`large` test returns the same pair as the default
      else ["Reg", "Large"]
    else if count == 1 then ["One"]
    else seq(count, i requires 0 <= i < count => "Opt" + NatToString(i + 1))
  }

  /** The inferred labels are pairwise distinct, so a label picks out one size. */
  lemma InferredLabelsDistinct(count: nat, desc: Option<string>)
    ensures var labels := InferLabelsForCount(count, desc);
      forall i, j :: 0 <= i < j < count ==> labels[i] != labels[j]
  {
    var labels := InferLabelsForCount(count, desc);
    if count > 3 {
      forall i, j | 0 <= i < j < count ensures labels[i] != labels[j] {
        NatToStringRoundTrip(i + 1);
        NatToStringRoundTrip(j + 1);
        assert labels[i][3..] == NatToString(i + 1);
        assert labels[j][3..] == NatToString(j + 1);
      }
    }
  }

  /** `inferLabelsForCount`, case by case. */
  lemma InferLabelsCases(count: nat, desc: Option<string>)
    ensures count == 3 ==> InferLabelsForCount(count, desc) == ["S", "M", "L"]
    ensures count == 2 ==>
      var d := Lower(desc.GetOr(""));
      InferLabelsForCount(count, desc) == if Contains(d, "half") && Contains(d, "full") then ["Half", "Full"] else ["Reg", "Large"]
    ensures count == 1 ==> InferLabelsForCount(count, desc) == ["One"]
    ensures count == 0 ==> InferLabelsForCount(count, desc) == []
    ensures count >= 4 ==> forall i :: 0 <= i < count ==> InferLabelsForCount(count, desc)[i] == "Opt" + NatToString(i + 1)
  {
  }

  /** `deriveSizesFromDesc(desc, basePrice)` */
  function DeriveSizesFromDesc(desc: Option<string>, basePrice: Option<int>): Option<seq<Size>>
  {
    var nums := ScanOf(desc);
    if |nums| >= 2 then
      var labels := InferLabelsForCount(|nums|, desc);
      Some(seq(|labels|, idx requires 0 <= idx < |labels| =>
        Size(labels[idx], if idx < |nums| then nums[idx] else nums[|nums| - 1])))
    else if desc.Some? && Contains(Lower(desc.value), "s/m/l") then
      Some(seq(3, idx requires 0 <= idx < 3 => Size(["S", "M", "L"][idx], basePrice.GetOr(0))))
    else None
  }

  /**
   * With two or more numbers in the text, one size per number priced at that
   * number; otherwise S, M and L at the base price (0 if absent) when the
   * text mentions `s/m/l`; otherwise nothing.
   */
  lemma DeriveSizesSpec(desc: Option<string>, basePrice: Option<int>)
    ensures var nums := ScanOf(desc);
      var r := DeriveSizesFromDesc(desc, basePrice);
      && (|nums| >= 2 ==>
            && r.Some? && |r.value| == |nums|
            && (forall i :: 0 <= i < |nums| ==> r.value[i].price == nums[i])
            && (forall i :: 0 <= i < |nums| ==> r.value[i].name == InferLabelsForCount(|nums|, desc)[i]))
      && (|nums| < 2 && desc.Some? && Contains(Lower(desc.value), "s/m/l") ==>
            r == Some([Size("S", basePrice.GetOr(0)), Size("M", basePrice.GetOr(0)), Size("L", basePrice.GetOr(0))]))
      && (|nums| < 2 && !(desc.Some? && Contains(Lower(desc.value), "s/m/l")) ==> r.None?)
  {
    var nums := ScanOf(desc);
    var r := DeriveSizesFromDesc(desc, basePrice);
    if |nums| < 2 && desc.Some? && Contains(Lower(desc.value), "s/m/l") {
      var p := basePrice.GetOr(0);
      assert |r.value| == 3;
      assert r.value[0] == Size("S", p) && r.value[1] == Size("M", p) && r.value[2] == Size("L", p);
      assert r.value == [Size("S", p), Size("M", p), Size("L", p)];
    }
  }

  /** `getSizesForItem(item)`: the item's own sizes when it has some, else the derived ones. */
  function GetSizesForItem(item: MenuItem): (r: Option<seq<Size>>)
    ensures |item.sizes| > 0 ==> r == Some(item.sizes)
    ensures |item.sizes| == 0 ==> r == DeriveSizesFromDesc(item.desc, Some(item.price))
    ensures r.None? || |r.value| >= 2 || |item.sizes| > 0
  {
    if |item.sizes| > 0 then Some(item.sizes)
    else DeriveSizesFromDesc(item.desc, Some(item.price))
  }

  /** The dish "Dal Fry" (`'Half / Full: ₹70 / ₹120'`) is offered as Half at 70 and Full at 120. */
  lemma DalFrySizes(item: MenuItem)
    requires item == MenuItem("ox-mc1", "Dal Fry", Some("Half / Full: \U{20B9}70 / \U{20B9}120"), 70, [])
    ensures GetSizesForItem(item) == Some([Size("Half", 70), Size("Full", 120)])
  {
    var desc := "Half / Full: \U{20B9}70 / \U{20B9}120";
    DalFryPrices(desc);
    DalFryMentions(desc);
    DeriveTwoSizes(Some(desc), Some(70), "Half", "Full");
  }

  /** Two prices in the text give exactly two sizes, labelled by `inferLabelsForCount`. */
  lemma DeriveTwoSizes(desc: Option<string>, basePrice: Option<int>, first: string, second: string)
    requires |ScanOf(desc)| == 2 && InferLabelsForCount(2, desc) == [first, second]
    ensures DeriveSizesFromDesc(desc, basePrice) == Some([Size(first, ScanOf(desc)[0]), Size(second, ScanOf(desc)[1])])
  {
    var r := DeriveSizesFromDesc(desc, basePrice);
    assert r.value == [Size(first, ScanOf(desc)[0]), Size(second, ScanOf(desc)[1])];
  }

  lemma DalFryPrices(desc: string)
    requires desc == "Half / Full: \U{20B9}70 / \U{20B9}120"
    ensures ScanNumbers(desc) == [70, 120]
  {
    var a := " / \U{20B9}" + NatToString(120) + "";
    ScanNumberAfter(" / \U{20B9}", 120, "");
    ScanNumberAfter("Half / Full: \U{20B9}", 70, a);
    DalFryText(desc);
  }

  lemma DalFryText(desc: string)
    requires desc == "Half / Full: \U{20B9}70 / \U{20B9}120"
    ensures desc == "Half / Full: \U{20B9}" + NatToString(70) + (" / \U{20B9}" + NatToString(120) + "")
  {
    assert NatToString(70) == "70" && NatToString(120) == "120";
  }

  lemma DalFryMentions(desc: string)
    requires desc == "Half / Full: \U{20B9}70 / \U{20B9}120"
    ensures Contains(Lower(desc), "half") && Contains(Lower(desc), "full")
  {
    var d := Lower(desc);
    assert OccursAt(d, "half", 0);
    assert OccursAt(d, "full", 7);
    ContainsIff(d, "half");
    ContainsIff(d, "full");
  }

  // ---------------------------------------------------------------------------
  // Cart keys
  // ---------------------------------------------------------------------------

  /** `displayId`: `id::label` for a size, the bare id otherwise. */
  function DisplayId(item: MenuItem, sizeLabel: Option<string>): string
  {
    if Truthy(sizeLabel) then item.id + "::" + sizeLabel.value else item.id
  }

  /** What `addToCart` hands to `addItem`. */
  function FoodLine(item: MenuItem, sizeLabel: Option<string>, sizePrice: Option<int>): NewItem
  {
    NewItem(
      DisplayId(item, sizeLabel),
      if Truthy(sizeLabel) then item.name + " (" + sizeLabel.value + ")" else item.name,
      sizePrice.GetOr(item.price),
      None)
  }

  /** Two different size labels of one dish give two different cart keys, and neither is the bare id. */
  lemma SizeKeysDistinct(item: MenuItem, a: string, b: string)
    requires a != "" && b != "" && a != b
    ensures DisplayId(item, Some(a)) != DisplayId(item, Some(b))
    ensures DisplayId(item, Some(a)) != DisplayId(item, None)
  {
    var ka, kb := DisplayId(item, Some(a)), DisplayId(item, Some(b));
    var n := |item.id| + 2;
    assert ka[n..] == a && kb[n..] == b;
  }

  /**
   * The line `addToCart` adds: key `id::label` and name `name (label)` for a
   * size, the bare id and name otherwise; the size price when given, else the
   * dish price.
   */
  lemma FoodLineSpec(item: MenuItem, sizeLabel: Option<string>, sizePrice: Option<int>)
    ensures var line := FoodLine(item, sizeLabel, sizePrice);
      && (Truthy(sizeLabel) ==> line.id == item.id + "::" + sizeLabel.value && line.name == item.name + " (" + sizeLabel.value + ")")
      && (!Truthy(sizeLabel) ==> line.id == item.id && line.name == item.name)
      && (sizePrice.Some? ==> line.price == sizePrice.value)
      && (sizePrice.None? ==> line.price == item.price)
  {
  }

  // ---------------------------------------------------------------------------
  // Selected size
  // ---------------------------------------------------------------------------

  /**
   * `getSelectedSizeLabel(item)` as a value: the label it returns and the
   * `selectedSizes` map it leaves. A missing or empty entry is replaced by the
   * first size's label.
   */
  function SelectSize(selected: map<string, string>, item: MenuItem): (Option<string>, map<string, string>)
  {
    var sizes := GetSizesForItem(item);
    if sizes.None? || |sizes.value| == 0 then (None, selected)
    else if item.id !in selected || selected[item.id] == "" then
      (Some(sizes.value[0].name), selected[item.id := sizes.value[0].name])
    else (Some(selected[item.id]), selected)
  }

  /**
   * No label exactly when the dish has no sizes; otherwise a stored non-empty
   * label is returned with the map unchanged, and a missing or empty one is
   * replaced by the first size's, which is returned and recorded; a second
   * call returns the same label and leaves the map as the first call left it.
   */
  lemma SelectSizeStable(selected: map<string, string>, item: MenuItem)
    ensures var sizes := GetSizesForItem(item);
      (SelectSize(selected, item).0.None? <==> (sizes.None? || |sizes.value| == 0))
    ensures var sizes := GetSizesForItem(item);
      sizes.Some? && |sizes.value| > 0 && (item.id !in selected || selected[item.id] == "") ==>
        SelectSize(selected, item).0 == Some(sizes.value[0].name)
    ensures var sizes := GetSizesForItem(item);
      sizes.Some? && |sizes.value| > 0 && (item.id !in selected || selected[item.id] == "") ==>
        SelectSize(selected, item).1 == selected[item.id := sizes.value[0].name]
    ensures var sizes := GetSizesForItem(item);
      sizes.Some? && |sizes.value| > 0 && item.id in selected && selected[item.id] != "" ==>
        SelectSize(selected, item) == (Some(selected[item.id]), selected)
    ensures var (chosen, after) := SelectSize(selected, item);
      SelectSize(after, item) == (chosen, after)
  {
    var sizes := GetSizesForItem(item);
    var (chosen, after) := SelectSize(selected, item);
    if sizes.Some? && |sizes.value| > 0 && (item.id !in selected || selected[item.id] == "") {
      assert after[item.id := sizes.value[0].name] == after;
    }
  }

  /**
   * The price shown for the selected label, `sizes.find(s => s.label === label)?.price ?? item.price`
   * (the source's `label` is the field `name` here): the price of the FIRST size
   * carrying the label, or the fallback when none does.
   */
  function PriceOfLabel(sizes: seq<Size>, wanted: string, fallback: int): (p: int)
    ensures (exists i :: 0 <= i < |sizes| && sizes[i].name == wanted) ==>
      exists i :: 0 <= i < |sizes| && sizes[i].name == wanted && p == sizes[i].price
                  && forall j :: 0 <= j < i ==> sizes[j].name != wanted
    ensures (forall i :: 0 <= i < |sizes| ==> sizes[i].name != wanted) ==> p == fallback
  {
    if sizes == [] then fallback
    else if sizes[0].name == wanted then sizes[0].price
    else
      var p := PriceOfLabel(sizes[1..], wanted, fallback);
      assert forall i :: 1 <= i < |sizes| ==> sizes[i] == sizes[1..][i - 1];
      if exists i :: 0 <= i < |sizes| && sizes[i].name == wanted then
        ghost var i :| 0 <= i < |sizes[1..]| && sizes[1..][i].name == wanted && p == sizes[1..][i].price
                       && forall j :: 0 <= j < i ==> sizes[1..][j].name != wanted;
        assert sizes[i + 1].name == wanted && p == sizes[i + 1].price;
        p
      else p
  }

  // ---------------------------------------------------------------------------
  // The page state
  // ---------------------------------------------------------------------------

  /** `current + delta`, floored at 0, as `Math.max(0, …)`. */
  function NewFoodQty(items: seq<CartItem>, id: string, delta: int): nat
  {
    var k := FindIndex(items, id);
    var current := if k == -1 then 0 else items[k].qty;
    if current + delta < 0 then 0 else current + delta
  }

  /** The page's `updateQty(id, delta)` wrapper as a value. */
  function FoodDelta(items: seq<CartItem>, id: string, delta: int): seq<CartItem>
  {
    var n := NewFoodQty(items, id, delta);
    if n <= 0 then Removed(items, id) else QtyUpdated(items, id, n)
  }

  /**
   * On a cart of positive lines: a resulting quantity of 0 removes the line,
   * any other sets it; an id not in the cart is never added, whatever the delta.
   */
  lemma FoodDeltaSpec(items: seq<CartItem>, id: string, delta: int)
    requires AllPositive(items)
    ensures var n := NewFoodQty(items, id, delta);
      && (n == 0 ==> FoodDelta(items, id, delta) == Removed(items, id))
      && (n > 0 ==> FoodDelta(items, id, delta) == WithQty(items, id, n))
    ensures !HasId(items, id) ==> FoodDelta(items, id, delta) == items
  {
    var n := NewFoodQty(items, id, delta);
    if n > 0 {
      QtyUpdatedSpec(items, id, n);
    }
    if !HasId(items, id) {
      RemovedAbsent(items, id);
      if n > 0 {
        WithQtyAbsent(items, id, n);
      }
    }
  }

  lemma WithQtyAbsent(items: seq<CartItem>, id: string, qty: int)
    requires !HasId(items, id)
    ensures WithQty(items, id, qty) == items
  {
  }

  /** The cart bar's Checkout button: an alert on an empty cart, otherwise the checkout route. */
  function CheckoutClick(itemCount: int): Effect
  {
    if itemCount == 0 then Effect(Some("Cart is empty"), None) else Effect(None, Some("/checkout"))
  }

  /** On a cart of positive lines, the button leads to checkout exactly when the cart has a line, and alerts otherwise. */
  lemma CheckoutGate(items: seq<CartItem>)
    requires AllPositive(items)
    ensures CheckoutClick(CountOf(items)).route == Some("/checkout") <==> items != []
    ensures CheckoutClick(CountOf(items)).alert.Some? <==> items == []
  {
    CountZeroIffEmpty(items);
  }

  class FoodMenuPage {
    /** The keys whose Add button is currently disabled (the `true` entries of `disabledItems`). */
    var disabledItems: set<string>
    /** `selectedSizes`, keyed by dish id. */
    var selectedSizes: map<string, string>
    /** The shared store from `useCart()`. */
    const cart: Cart

    constructor (cart: Cart)
      ensures this.cart == cart && disabledItems == {} && selectedSizes == map[]
    {
      this.cart := cart;
      disabledItems := {};
      selectedSizes := map[];
    }

    /** `getSelectedSizeLabel(item)` */
    method GetSelectedSizeLabel(item: MenuItem) returns (chosen: Option<string>)
      modifies this`selectedSizes
      ensures (chosen, selectedSizes) == SelectSize(old(selectedSizes), item)
    {
      var sizes := GetSizesForItem(item);
      if sizes.None? || |sizes.value| == 0 {
        return None;
      }
      if item.id !in selectedSizes || selectedSizes[item.id] == "" {
        selectedSizes := selectedSizes[item.id := sizes.value[0].name];
        return Some(sizes.value[0].name);
      }
      return Some(selectedSizes[item.id]);
    }

    /**
     * `addToCart(item, sizeLabel, sizePrice)`: ignored while the key is
     * disabled; otherwise disables the key and adds one unit of the line.
     */
    method AddToCart(item: MenuItem, sizeLabel: Option<string>, sizePrice: Option<int>)
      modifies this`disabledItems, cart
      ensures var key := DisplayId(item, sizeLabel);
        if key in old(disabledItems) then
          cart.items == old(cart.items) && disabledItems == old(disabledItems)
        else
          cart.items == Added(old(cart.items), FoodLine(item, sizeLabel, sizePrice), 1)
          && disabledItems == old(disabledItems) + {key}
    {
      var displayId := if Truthy(sizeLabel) then item.id + "::" + sizeLabel.value else item.id;
      if displayId in disabledItems {
        return;
      }
      disabledItems := disabledItems + {displayId};
      var priceToUse := if sizePrice.Some? then sizePrice.value else item.price;
      var nameToUse := if Truthy(sizeLabel) then item.name + " (" + sizeLabel.value + ")" else item.name;
      cart.AddItem(NewItem(displayId, nameToUse, priceToUse, None), 1);
    }

    /**
     * The Add button of a dish card, given the label `getSelectedSizeLabel`
     * returned while rendering it: with sizes and a non-empty label, one unit
     * at the price of the first size carrying that label; otherwise the plain
     * dish at its base price.
     */
    method AddClick(item: MenuItem, selLabel: Option<string>)
      modifies this`disabledItems, cart
      ensures var sizes := GetSizesForItem(item);
        var chosen := if sizes.Some? && Truthy(selLabel) then selLabel else None;
        var price := if chosen.Some? then Some(PriceOfLabel(sizes.value, chosen.value, item.price)) else None;
        var key := DisplayId(item, chosen);
        if key in old(disabledItems) then
          cart.items == old(cart.items) && disabledItems == old(disabledItems)
        else
          cart.items == Added(old(cart.items), FoodLine(item, chosen, price), 1)
          && disabledItems == old(disabledItems) + {key}
    {
      var sizes := GetSizesForItem(item);
      if sizes.Some? && Truthy(selLabel) {
        var sPrice := PriceOfLabel(sizes.value, selLabel.value, item.price);
        AddToCart(item, selLabel, Some(sPrice));
      } else {
        AddToCart(item, None, None);
      }
    }

    /** The re-enable callback `addToCart` schedules (the delay itself is not modelled). */
    method ReEnable(key: string)
      modifies this`disabledItems
      ensures disabledItems == old(disabledItems) - {key}
    {
      disabledItems := disabledItems - {key};
    }

    /** The page's `updateQty(id, delta)`. */
    method UpdateQty(id: string, delta: int)
      modifies cart
      ensures cart.items == FoodDelta(old(cart.items), id, delta)
    {
      var idx := FindIndex(cart.items, id);
      var currentQty := if idx == -1 then 0 else cart.items[idx].qty;
      var newQty := if currentQty + delta < 0 then 0 else currentQty + delta;
      assert newQty == NewFoodQty(cart.items, id, delta);
      if newQty <= 0 {
        cart.RemoveItem(id);
      } else {
        cart.UpdateQty(id, newQty);
      }
    }
  }
}
