/**
 * The checkout page: the order total, the UPI payment link, the rows written
 * for an order, and `placeOrder`, with every answer of the backend (the
 * category lookups, the two inserts) passed in as an input.
 */
module Checkout {
  import opened Wrappers
  import opened Text
  import opened CartStore

  const UPI_ID := "9424476949@pthdfc"
  const UPI_PAYEE_NAME := "BluBlu"
  const UPI_NOTE := "BluBlu Order"
  const DELIVERY_FEE := 20
  const EMPTY_CART := "Your cart is empty."
  const NO_CATEGORY := "No service categories found. Please seed service categories in the database."
  const FAILED := "Failed to place order"
  const ORDERS_ROUTE := "/?orders"

  /** `total`: the cart subtotal plus the flat delivery fee. */
  function Total(subtotal: int): (t: int)
    ensures t - subtotal == DELIVERY_FEE
  {
    subtotal + DELIVERY_FEE
  }

  // ---------------------------------------------------------------------------
  // application/x-www-form-urlencoded, as `URLSearchParams.toString()` writes it
  // ---------------------------------------------------------------------------

  type Byte = b: int | 0 <= b < 256

  /** The UTF-8 bytes of one Unicode scalar value. */
  function Utf8(c: char): (bytes: seq<Byte>)
    ensures 1 <= |bytes| <= 4
    ensures c < '\U{80}' ==> bytes == [c as int]
    ensures c >= '\U{80}' ==> forall i :: 0 <= i < |bytes| ==> bytes[i] >= 0x80
  {
    var cp := c as int;
    if cp < 0x80 then [cp]
    else if cp < 0x800 then [0xC0 + cp / 64, 0x80 + cp % 64]
    else if cp < 0x10000 then [0xE0 + cp / 4096, 0x80 + (cp / 64) % 64, 0x80 + cp % 64]
    else [0xF0 + cp / 262144, 0x80 + (cp / 4096) % 64, 0x80 + (cp / 64) % 64, 0x80 + cp % 64]
  }

  /** The bytes the serializer leaves as they are: `*-._`, digits and ASCII letters. */
  predicate FormSafe(b: Byte)
  {
    || b == 0x2A || b == 0x2D || b == 0x2E || b == 0x5F
    || (0x30 <= b <= 0x39) || (0x41 <= b <= 0x5A) || (0x61 <= b <= 0x7A)
  }

  /** An upper-case hexadecimal digit. */
  function HexDigit(d: nat): char
    requires d < 16
  {
    if d < 10 then ('0' as int + d) as char else ('A' as int + d - 10) as char
  }

  predicate IsHex(c: char)
  {
    ('0' <= c <= '9') || ('A' <= c <= 'F') || ('a' <= c <= 'f')
  }

  function HexValue(c: char): (v: nat)
    requires IsHex(c)
    ensures v < 16
  {
    if '0' <= c <= '9' then c as int - '0' as int
    else if 'A' <= c <= 'F' then c as int - 'A' as int + 10
    else c as int - 'a' as int + 10
  }

  lemma HexRoundTrip(d: nat)
    requires d < 16
    ensures IsHex(HexDigit(d)) && HexValue(HexDigit(d)) == d
  {
  }

  /** One byte: a space becomes `+`, a safe byte stays, anything else becomes `%XX`. */
  function EncodeByte(b: Byte): (r: string)
    ensures '&' !in r && '=' !in r
  {
    if b == 0x20 then "+"
    else if FormSafe(b) then [b as char]
    else ['%', HexDigit(b / 16), HexDigit(b % 16)]
  }

  function EncodeBytes(bs: seq<Byte>): (r: string)
    ensures '&' !in r && '=' !in r
  {
    if bs == [] then "" else EncodeByte(bs[0]) + EncodeBytes(bs[1..])
  }

  /** The pieces, one after another. */
  function Flatten(parts: seq<string>): string
  {
    if parts == [] then "" else parts[0] + Flatten(parts[1..])
  }

  lemma {:induction false} FlattenAppend(a: seq<string>, b: seq<string>)
    ensures Flatten(a + b) == Flatten(a) + Flatten(b)
  {
    if a == [] {
      assert a + b == b;
    } else {
      assert (a + b)[1..] == a[1..] + b;
      FlattenAppend(a[1..], b);
    }
  }

  lemma {:induction false} FlattenLacks(parts: seq<string>, c: char)
    requires forall i :: 0 <= i < |parts| ==> c !in parts[i]
    ensures c !in Flatten(parts)
  {
    if parts != [] {
      FlattenLacks(parts[1..], c);
    }
  }

  /** The serializer applied to a name or a value: the bytes of each character, encoded in turn. */
  function FormEncode(s: string): string
  {
    Flatten(seq(|s|, i requires 0 <= i < |s| => EncodeBytes(Utf8(s[i]))))
  }

  /** No `&` or `=` survives the serializer. */
  lemma FormEncodeClean(s: string)
    ensures '&' !in FormEncode(s) && '=' !in FormEncode(s)
  {
    var parts := seq(|s|, i requires 0 <= i < |s| => EncodeBytes(Utf8(s[i])));
    FlattenLacks(parts, '&');
    FlattenLacks(parts, '=');
  }

  lemma FormEncodeAppend(a: string, b: string)
    ensures FormEncode(a + b) == FormEncode(a) + FormEncode(b)
  {
    var pa := seq(|a|, i requires 0 <= i < |a| => EncodeBytes(Utf8(a[i])));
    var pb := seq(|b|, i requires 0 <= i < |b| => EncodeBytes(Utf8(b[i])));
    assert seq(|a + b|, i requires 0 <= i < |a + b| => EncodeBytes(Utf8((a + b)[i]))) == pa + pb;
    FlattenAppend(pa, pb);
  }

  /** One character is serialized as its UTF-8 bytes. */
  lemma FormEncodeChar(c: char)
    ensures FormEncode([c]) == EncodeBytes(Utf8(c))
  {
    assert seq(1, i requires 0 <= i < 1 => EncodeBytes(Utf8([c][i]))) == [EncodeBytes(Utf8(c))];
    assert Flatten([EncodeBytes(Utf8(c))]) == EncodeBytes(Utf8(c)) + Flatten([]);
  }

  /**
   * The reading side: `+` is a space and `%XX` is the byte XX; every other
   * character stands for itself. Bytes are read back as single characters,
   * which is the parser's answer whenever the text was ASCII.
   */
  function FormDecode(t: string): string
  {
    if t == [] then ""
    else if t[0] == '+' then " " + FormDecode(t[1..])
    else if t[0] == '%' && |t| >= 3 && IsHex(t[1]) && IsHex(t[2]) then
      [(HexValue(t[1]) * 16 + HexValue(t[2])) as char] + FormDecode(t[3..])
    else [t[0]] + FormDecode(t[1..])
  }

  predicate Ascii(s: string)
  {
    forall i :: 0 <= i < |s| ==> s[i] < '\U{80}'
  }

  lemma DecodeEncodedByte(b: Byte, rest: string)
    requires b < 0x80
    ensures FormDecode(EncodeByte(b) + rest) == [b as char] + FormDecode(rest)
  {
    var t := EncodeByte(b) + rest;
    if b == 0x20 {
      assert t[1..] == rest;
    } else if FormSafe(b) {
      assert t[1..] == rest;
    } else {
      HexRoundTrip(b / 16);
      HexRoundTrip(b % 16);
      assert t[3..] == rest;
    }
  }

  /** Reading back what the serializer wrote gives the original ASCII text. */
  lemma {:induction false} FormDecodeEncode(s: string)
    requires Ascii(s)
    ensures FormDecode(FormEncode(s)) == s
  {
    if s != [] {
      assert s == [s[0]] + s[1..];
      FormEncodeAppend([s[0]], s[1..]);
      FormEncodeAscii(s[0]);
      DecodeEncodedByte(s[0] as int, FormEncode(s[1..]));
      FormDecodeEncode(s[1..]);
      assert s == [s[0]] + s[1..];
    }
  }

  /** `name=value` */
  function EncodePair(p: (string, string)): string
  {
    FormEncode(p.0) + "=" + FormEncode(p.1)
  }

  /** `params.toString()`: the encoded pairs in insertion order, joined by `&`. */
  function Serialize(pairs: seq<(string, string)>): string
  {
    Join(seq(|pairs|, i requires 0 <= i < |pairs| => EncodePair(pairs[i])), "&")
  }

  /** The reference reading of a query: split on `&`, then on the first `=`, then decode. */
  function ParsePair(part: string): (string, string)
  {
    var kv := SplitOn(part, "=");
    (FormDecode(kv[0]), FormDecode(Join(kv[1..], "=")))
  }

  function ParseQuery(q: string): seq<(string, string)>
  {
    var parts := SplitOn(q, "&");
    seq(|parts|, i requires 0 <= i < |parts| => ParsePair(parts[i]))
  }

  lemma ParseEncodedPair(p: (string, string))
    requires Ascii(p.0) && Ascii(p.1)
    ensures ParsePair(EncodePair(p)) == p
  {
    var a, b := FormEncode(p.0), FormEncode(p.1);
    FormEncodeClean(p.0);
    FormEncodeClean(p.1);
    SplitSepFree(a, '=', b);
    SplitNoSep(b, '=');
    assert SplitOn(EncodePair(p), "=") == [a, b];
    FormDecodeEncode(p.0);
    FormDecodeEncode(p.1);
  }

  /** Serializing ASCII pairs and reading the query back gives the same pairs, in the same order. */
  lemma ParseSerialize(pairs: seq<(string, string)>)
    requires |pairs| >= 1
    requires forall i :: 0 <= i < |pairs| ==> Ascii(pairs[i].0) && Ascii(pairs[i].1)
    ensures ParseQuery(Serialize(pairs)) == pairs
  {
    var parts := seq(|pairs|, i requires 0 <= i < |pairs| => EncodePair(pairs[i]));
    forall i | 0 <= i < |pairs|
      ensures '&' !in parts[i] && ParsePair(parts[i]) == pairs[i]
    {
      FormEncodeClean(pairs[i].0);
      FormEncodeClean(pairs[i].1);
      ParseEncodedPair(pairs[i]);
    }
    SplitOnJoin(parts, '&');
  }

  // ---------------------------------------------------------------------------
  // The UPI link
  // ---------------------------------------------------------------------------

  /** The parameters of the link, in the order the page lists them. */
  function UpiParams(total: int): seq<(string, string)>
  {
    [("pa", UPI_ID), ("pn", UPI_PAYEE_NAME), ("am", IntToString(total)), ("cu", "INR"), ("tn", UPI_NOTE)]
  }

  /** `upiUrl` */
  function UpiUrl(total: int): (r: string)
    ensures StartsWith(r, "upi://pay?")
  {
    "upi://pay?" + Serialize(UpiParams(total))
  }

  lemma {:induction false} NatToStringAscii(n: nat)
    ensures Ascii(NatToString(n))
  {
    if n >= 10 {
      NatToStringAscii(n / 10);
    }
  }

  lemma IntToStringAscii(i: int)
    ensures Ascii(IntToString(i))
  {
    if i < 0 {
      NatToStringAscii(-i);
    } else {
      NatToStringAscii(i);
    }
  }

  lemma UpiParamsAscii(total: int)
    ensures forall i :: 0 <= i < |UpiParams(total)| ==> Ascii(UpiParams(total)[i].0) && Ascii(UpiParams(total)[i].1)
  {
    var ps := UpiParams(total);
    forall i | 0 <= i < |ps|
      ensures Ascii(ps[i].0) && Ascii(ps[i].1)
    {
      if i == 0 {
        assert Ascii(UPI_ID);
      } else if i == 1 {
        assert Ascii(UPI_PAYEE_NAME);
      } else if i == 2 {
        IntToStringAscii(total);
      } else if i == 3 {
        assert Ascii("INR");
      } else {
        assert Ascii(UPI_NOTE);
      }
    }
  }

  /**
   * The query of the link reads back as payee, payee name, amount,
   * currency and note, in that order, and the amount is the decimal
   * spelling of the total.
   */
  lemma UpiUrlParams(total: int)
    ensures ParseQuery(UpiUrl(total)[10..]) == UpiParams(total)
    ensures total >= 0 ==> AllDigits(UpiParams(total)[2].1) && DecimalValue(UpiParams(total)[2].1) == total
  {
    var ps := UpiParams(total);
    UpiParamsAscii(total);
    assert UpiUrl(total)[10..] == Serialize(ps);
    ParseSerialize(ps);
    if total >= 0 {
      NatToStringRoundTrip(total);
    }
  }

  /** The characters the serializer leaves alone: `*-._`, digits and ASCII letters. */
  predicate SafeChar(c: char)
  {
    c == '*' || c == '-' || c == '.' || c == '_' || ('0' <= c <= '9') || ('A' <= c <= 'Z') || ('a' <= c <= 'z')
  }

  predicate SafeText(s: string)
  {
    forall i :: 0 <= i < |s| ==> SafeChar(s[i])
  }

  /** One ASCII character is serialized as its single byte. */
  lemma FormEncodeAscii(c: char)
    requires c < '\U{80}'
    ensures FormEncode([c]) == EncodeByte(c as int)
    ensures SafeChar(c) ==> FormEncode([c]) == [c]
  {
    FormEncodeChar(c);
    assert Utf8(c) == [c as int];
    assert EncodeBytes([c as int]) == EncodeByte(c as int) + EncodeBytes([]);
    if SafeChar(c) {
      assert FormSafe(c as int) && c as int != 0x20;
    }
  }

  lemma {:induction false} FormEncodeSafe(s: string)
    requires SafeText(s)
    ensures FormEncode(s) == s
  {
    if s != [] {
      FormEncodeAscii(s[0]);
      FormEncodeAppend([s[0]], s[1..]);
      FormEncodeSafe(s[1..]);
      assert s == [s[0]] + s[1..];
    }
  }

  /** One character between two runs of safe text is the only one the serializer changes. */
  lemma EncodeAround(a: string, c: char, b: string)
    requires SafeText(a) && SafeText(b)
    ensures FormEncode(a + [c] + b) == a + FormEncode([c]) + b
  {
    FormEncodeAppend(a + [c], b);
    FormEncodeAppend(a, [c]);
    FormEncodeSafe(a);
    FormEncodeSafe(b);
  }

  lemma EscapedAt()
    ensures FormEncode("@") == "%40"
  {
    FormEncodeAscii('@');
    assert HexDigit(4) == '4' && HexDigit(0) == '0';
  }

  /** The payee address is written with its `@` escaped. */
  lemma UpiIdEncoded(id: string)
    requires id == UPI_ID
    ensures FormEncode(id) == "9424476949" + "%40" + "pthdfc"
  {
    assert id == "9424476949" + "@" + "pthdfc";
    EncodeAround("9424476949", '@', "pthdfc");
    EscapedAt();
  }

  /** The note is written with its space as `+`. */
  lemma UpiNoteEncoded(note: string)
    requires note == UPI_NOTE
    ensures FormEncode(note) == "BluBlu+Order"
  {
    assert note == "BluBlu" + " " + "Order";
    EncodeAround("BluBlu", ' ', "Order");
    FormEncodeAscii(' ');
  }

  /** The GPay, PhonePe and Paytm buttons: `upiUrl.replace('upi://', scheme)`. */
  function AppLink(url: string, scheme: string): string
  {
    ReplaceFirst(url, "upi://", scheme)
  }

  /** An app link swaps the scheme and keeps the rest of the UPI link, query included. */
  lemma AppLinkKeepsQuery(total: int, scheme: string)
    ensures AppLink(UpiUrl(total), scheme) == scheme + "pay?" + Serialize(UpiParams(total))
  {
    SchemeSwap("pay?" + Serialize(UpiParams(total)), scheme);
  }

  /** Replacing the leading `upi://` of a link swaps the scheme and keeps the rest. */
  lemma SchemeSwap(rest: string, scheme: string)
    ensures AppLink("upi://" + rest, scheme) == scheme + rest
  {
    var u := "upi://" + rest;
    assert u[..6] == "upi://";
    assert u[6..] == rest;
  }

  // ---------------------------------------------------------------------------
  // What an order writes
  // ---------------------------------------------------------------------------

  datatype PaymentMethod = Upi | Cod

  function MethodName(m: PaymentMethod): string
  {
    match m
    case Upi => "upi"
    case Cod => "cod"
  }

  /** `payment_status`: `cod` for cash on delivery, `pending` for UPI. */
  function PaymentStatus(m: PaymentMethod): (s: string)
    ensures s == "cod" <==> m == Cod
    ensures m == Upi ==> s == "pending"
  {
    if m == Cod then "cod" else "pending"
  }

  /** The editable delivery fields of the page. */
  datatype Address = Address(building: string, room: string, phone: string)

  /** A `profiles` row as it is read; each column may be null. */
  datatype Profile = Profile(building: Option<string>, roomNumber: Option<string>, phone: Option<string>, fullName: Option<string>)

  /** The row `placeOrder` upserts into `profiles`. */
  datatype ProfileRow = ProfileRow(id: string, building: Option<string>, roomNumber: Option<string>, phone: Option<string>, fullName: Option<string>)

  /** `s || null` */
  function OrNull(s: string): (r: Option<string>)
    ensures r.None? <==> s == ""
    ensures r.Some? ==> r.value == s
  {
    if s != "" then Some(s) else None
  }

  /** `profile?.full_name || null` */
  function CustomerName(profile: Option<Profile>): (r: Option<string>)
    ensures r.Some? <==> profile.Some? && Truthy(profile.value.fullName)
    ensures r.Some? ==> r == profile.value.fullName
  {
    if profile.Some? && Truthy(profile.value.fullName) then profile.value.fullName else None
  }

  /** The address the page shows once the profile has loaded: each missing column becomes `''`. */
  function AddressOf(data: Option<Profile>): (a: Address)
    ensures data.None? ==> a == Address("", "", "")
    ensures data.Some? ==> a.building == data.value.building.GetOr("") && a.room == data.value.roomNumber.GetOr("")
                           && a.phone == data.value.phone.GetOr("")
  {
    if data.None? then Address("", "", "")
    else Address(data.value.building.GetOr(""), data.value.roomNumber.GetOr(""), data.value.phone.GetOr(""))
  }

  function ProfileUpsert(userId: string, profile: Option<Profile>, a: Address): ProfileRow
  {
    ProfileRow(userId, OrNull(a.building), OrNull(a.room), OrNull(a.phone), CustomerName(profile))
  }

  /**
   * Loading a profile and placing an order without editing writes every
   * column back as it was read, except that an empty string comes back as null.
   */
  lemma UpsertWritesBack(userId: string, p: Profile)
    ensures var row := ProfileUpsert(userId, Some(p), AddressOf(Some(p)));
      && row.id == userId
      && (row.building == p.building <==> p.building != Some(""))
      && (row.roomNumber == p.roomNumber <==> p.roomNumber != Some(""))
      && (row.phone == p.phone <==> p.phone != Some(""))
      && (row.fullName == p.fullName <==> p.fullName != Some(""))
  {
  }

  /** `deliveryLocation`: `building - Room room` when both are filled in. */
  function DeliveryLocation(a: Address): string
  {
    if a.building != "" && a.room != "" then a.building + " - Room " + a.room else "Room not set"
  }

  /** The location is the placeholder exactly when a field is missing; otherwise it starts with the building and ends with the room. */
  lemma DeliveryLocationSpec(a: Address)
    ensures DeliveryLocation(a) == "Room not set" <==> a.building == "" || a.room == ""
    ensures a.building != "" && a.room != "" ==>
      var r := DeliveryLocation(a);
      StartsWith(r, a.building) && |r| == |a.building| + 8 + |a.room|
      && r[|a.building|..|a.building| + 8] == " - Room " && r[|a.building| + 8..] == a.room
  {
    if a.building != "" && a.room != "" {
      var r := DeliveryLocation(a);
      assert r[|a.building| + 1] == '-';
      assert '-' in r;
      assert '-' !in "Room not set";
      assert r[|a.building| + 8..] == a.room;
    }
  }

  /** `${it.name} x ${it.qty}` */
  function LineSummary(it: CartItem): string
  {
    it.name + " x " + IntToString(it.qty)
  }

  /** `summary`: the line summaries in cart order, joined by `, `. */
  function Summary(items: seq<CartItem>): string
  {
    Join(seq(|items|, i requires 0 <= i < |items| => LineSummary(items[i])), ", ")
  }

  /** One line is summarised on its own, and each further line is appended after `, `. */
  lemma SummaryAppend(items: seq<CartItem>, it: CartItem)
    ensures Summary([it]) == LineSummary(it)
    ensures items != [] ==> Summary(items + [it]) == Summary(items) + ", " + LineSummary(it)
  {
    if items != [] {
      var parts := seq(|items|, i requires 0 <= i < |items| => LineSummary(items[i]));
      assert seq(|items + [it]|, i requires 0 <= i < |items + [it]| => LineSummary((items + [it])[i])) == parts + [LineSummary(it)];
      JoinAppend(parts, LineSummary(it), ", ");
    }
  }

  /** The `orders` row. */
  datatype OrderHeader = OrderHeader(
    userId: string, serviceCategoryId: string, pickupLocation: string, deliveryLocation: string,
    itemDescription: string, specialInstructions: string, status: string, deliveryFee: int,
    totalAmount: int, paymentMethod: string, paymentStatus: string, customerName: Option<string>)

  function OrderHeaderOf(userId: string, categoryId: string, profile: Option<Profile>, a: Address,
                         m: PaymentMethod, items: seq<CartItem>): OrderHeader
  {
    OrderHeader(userId, categoryId, "Checkout", DeliveryLocation(a), Summary(items), "Phone: " + a.phone,
                "pending", DELIVERY_FEE, Total(SubtotalOf(items)), MethodName(m), PaymentStatus(m), CustomerName(profile))
  }

  /** An `order_items` row. */
  datatype OrderItemRow = OrderItemRow(orderId: string, itemId: string, name: string, unitPrice: int, qty: int, image: Option<string>)

  /** `itemsPayload`: one row per cart line, in cart order. */
  function ItemsPayload(orderId: string, items: seq<CartItem>): (rows: seq<OrderItemRow>)
    ensures |rows| == |items|
  {
    seq(|items|, i requires 0 <= i < |items| =>
      OrderItemRow(orderId, items[i].id, items[i].name, items[i].price, items[i].qty, items[i].image))
  }

  /** What the rows add up to: the sum of unit price times quantity. */
  function RowsTotal(rows: seq<OrderItemRow>): int
  {
    if rows == [] then 0 else rows[0].unitPrice * rows[0].qty + RowsTotal(rows[1..])
  }

  function RowsCount(rows: seq<OrderItemRow>): int
  {
    if rows == [] then 0 else rows[0].qty + RowsCount(rows[1..])
  }

  /** The rows carry the cart: each line's id, name, price, quantity and image, and together its item count and subtotal. */
  lemma {:induction false} ItemsPayloadSpec(orderId: string, items: seq<CartItem>)
    ensures RowsTotal(ItemsPayload(orderId, items)) == SubtotalOf(items)
    ensures RowsCount(ItemsPayload(orderId, items)) == CountOf(items)
    ensures forall i :: 0 <= i < |items| ==>
      && ItemsPayload(orderId, items)[i].itemId == items[i].id && ItemsPayload(orderId, items)[i].name == items[i].name
      && ItemsPayload(orderId, items)[i].unitPrice == items[i].price && ItemsPayload(orderId, items)[i].qty == items[i].qty
      && ItemsPayload(orderId, items)[i].image == items[i].image
  {
    if items != [] {
      ItemsPayloadSpec(orderId, items[1..]);
      assert ItemsPayload(orderId, items)[1..] == ItemsPayload(orderId, items[1..]);
    }
  }

  // ---------------------------------------------------------------------------
  // placeOrder
  // ---------------------------------------------------------------------------

  /** The outcome of `insert(...).select('id').single()`: the new id, or an error with its message. */
  datatype InsertResult = Inserted(id: string) | InsertFailed(message: string)

  /** The outcome of inserting the item rows. */
  datatype WriteResult = Written | WriteFailed(message: string)

  /** What the backend answers during one `placeOrder`. */
  datatype Backend = Backend(foodCategory: Option<string>, anyCategory: Option<string>, orderInsert: InsertResult, itemsInsert: WriteResult)

  /** `e?.message || 'Failed to place order'` */
  function FailureMessage(message: string): (r: string)
    ensures r != ""
    ensures message != "" ==> r == message
    ensures message == "" ==> r == FAILED
  {
    if message != "" then message else FAILED
  }

  /** The category id: the `Food%` match when it has an id, else the oldest category's. */
  function ServiceCategoryId(db: Backend): Option<string>
  {
    if Truthy(db.foodCategory) then db.foodCategory else db.anyCategory
  }

  /** Everything one `placeOrder` call does. */
  datatype Run = Run(
    profileWrite: Option<ProfileRow>, order: Option<OrderHeader>, rows: seq<OrderItemRow>,
    clears: bool, error: Option<string>, placing: bool, location: Option<string>, route: Option<string>)

  /** The two inserts and what follows them, once the profile row is written and the header is built. */
  function InsertRun(write: ProfileRow, header: OrderHeader, m: PaymentMethod, items: seq<CartItem>, db: Backend): Run
  {
    match db.orderInsert
    case InsertFailed(msg) => Run(Some(write), Some(header), [], false, Some(FailureMessage(msg)), false, None, None)
    case Inserted(orderId) =>
      var rows := ItemsPayload(orderId, items);
      match db.itemsInsert
      case WriteFailed(msg) => Run(Some(write), Some(header), rows, false, Some(FailureMessage(msg)), false, None, None)
      case Written =>
        Run(Some(write), Some(header), rows, true, None, false,
            if m == Upi then Some(UpiUrl(Total(SubtotalOf(items)))) else None, Some(ORDERS_ROUTE))
  }

  function PlaceOrderRun(placing: bool, error: Option<string>, profile: Option<Profile>, a: Address,
                         m: PaymentMethod, user: Option<string>, items: seq<CartItem>, db: Backend): Run
  {
    if user.None? then Run(None, None, [], false, error, placing, None, None)
    else if items == [] then Run(None, None, [], false, Some(EMPTY_CART), placing, None, None)
    else
      var write := ProfileUpsert(user.value, profile, a);
      var cat := ServiceCategoryId(db);
      if !Truthy(cat) then Run(Some(write), None, [], false, Some(NO_CATEGORY), false, None, None)
      else InsertRun(write, OrderHeaderOf(user.value, cat.value, profile, a, m, items), m, items, db)
  }

  /** Signed out, the call does nothing at all; with an empty cart it only reports the empty cart. */
  lemma PlaceOrderGuards(placing: bool, error: Option<string>, profile: Option<Profile>, a: Address,
                         m: PaymentMethod, user: Option<string>, items: seq<CartItem>, db: Backend)
    ensures user.None? ==> PlaceOrderRun(placing, error, profile, a, m, user, items, db) == Run(None, None, [], false, error, placing, None, None)
    ensures user.Some? && items == [] ==>
      PlaceOrderRun(placing, error, profile, a, m, user, items, db) == Run(None, None, [], false, Some(EMPTY_CART), placing, None, None)
    ensures user.Some? && items != [] ==> !PlaceOrderRun(placing, error, profile, a, m, user, items, db).placing
    ensures user.Some? && items != [] ==> PlaceOrderRun(placing, error, profile, a, m, user, items, db).profileWrite == Some(ProfileUpsert(user.value, profile, a))
  {
  }

  /** Without a category id nothing is inserted and the cart stays. */
  lemma PlaceOrderNoCategory(placing: bool, error: Option<string>, profile: Option<Profile>, a: Address,
                             m: PaymentMethod, user: Option<string>, items: seq<CartItem>, db: Backend)
    requires user.Some? && items != []
    requires !Truthy(db.foodCategory) && !Truthy(db.anyCategory)
    ensures var r := PlaceOrderRun(placing, error, profile, a, m, user, items, db);
      r.order.None? && r.rows == [] && !r.clears && r.error == Some(NO_CATEGORY) && r.route.None?
  {
  }

  /** The cart is cleared exactly when both inserts succeed, and then there is no error. */
  lemma PlaceOrderClearsOnSuccess(placing: bool, error: Option<string>, profile: Option<Profile>, a: Address,
                                  m: PaymentMethod, user: Option<string>, items: seq<CartItem>, db: Backend)
    ensures var r := PlaceOrderRun(placing, error, profile, a, m, user, items, db);
      r.clears <==> user.Some? && items != [] && Truthy(ServiceCategoryId(db)) && db.orderInsert.Inserted? && db.itemsInsert.Written?
    ensures var r := PlaceOrderRun(placing, error, profile, a, m, user, items, db);
      r.clears ==> r.error.None? && r.route == Some(ORDERS_ROUTE) && (r.location.Some? <==> m == Upi)
    ensures var r := PlaceOrderRun(placing, error, profile, a, m, user, items, db);
      !r.clears ==> r.route.None? && r.location.None?
  {
  }

  /** A failed insert reports its message (or the generic one) and keeps the cart; a failed item insert leaves the order row written. */
  lemma PlaceOrderFailures(placing: bool, error: Option<string>, profile: Option<Profile>, a: Address,
                           m: PaymentMethod, user: Option<string>, items: seq<CartItem>, db: Backend)
    requires user.Some? && items != [] && Truthy(ServiceCategoryId(db))
    ensures var r := PlaceOrderRun(placing, error, profile, a, m, user, items, db);
      db.orderInsert.InsertFailed? ==> r.order.Some? && r.rows == [] && !r.clears && r.error == Some(FailureMessage(db.orderInsert.message))
    ensures var r := PlaceOrderRun(placing, error, profile, a, m, user, items, db);
      db.orderInsert.Inserted? && db.itemsInsert.WriteFailed? ==>
        r.order.Some? && |r.rows| == |items| && !r.clears && r.error == Some(FailureMessage(db.itemsInsert.message))
  {
  }

  /**
   * A placed order agrees with itself: its rows add up to the total less the
   * delivery fee, every row points at the new order, the payment status
   * follows the method, and the UPI link asks for the order's total.
   */
  lemma PlacedOrderConsistent(placing: bool, error: Option<string>, profile: Option<Profile>, a: Address,
                              m: PaymentMethod, user: Option<string>, items: seq<CartItem>, db: Backend)
    requires user.Some? && items != [] && Truthy(ServiceCategoryId(db)) && db.orderInsert.Inserted?
    ensures var r := PlaceOrderRun(placing, error, profile, a, m, user, items, db);
      && r.order.Some? && r.order.value.totalAmount == RowsTotal(r.rows) + DELIVERY_FEE
      && r.order.value.totalAmount == Total(SubtotalOf(items))
      && r.order.value.deliveryFee == DELIVERY_FEE && r.order.value.status == "pending"
      && r.order.value.userId == user.value && r.order.value.serviceCategoryId == ServiceCategoryId(db).value
      && r.order.value.itemDescription == Summary(items)
      && (r.order.value.paymentStatus == "cod" <==> m == Cod)
      && (m == Upi ==> r.order.value.paymentStatus == "pending")
      && (forall i :: 0 <= i < |r.rows| ==> r.rows[i].orderId == db.orderInsert.id)
    ensures var r := PlaceOrderRun(placing, error, profile, a, m, user, items, db);
      r.location.Some? ==> r.location.value == UpiUrl(r.order.value.totalAmount)
  {
    var header := OrderHeaderOf(user.value, ServiceCategoryId(db).value, profile, a, m, items);
    var write := ProfileUpsert(user.value, profile, a);
    assert PlaceOrderRun(placing, error, profile, a, m, user, items, db) == InsertRun(write, header, m, items, db);
    InsertedRun(write, header, m, items, db);
    ItemsPayloadSpec(db.orderInsert.id, items);
  }

  /** A successful order insert records the header and one row per line for the new id; the link, if any, is for the cart's total. */
  lemma InsertedRun(write: ProfileRow, header: OrderHeader, m: PaymentMethod, items: seq<CartItem>, db: Backend)
    requires db.orderInsert.Inserted?
    ensures var r := InsertRun(write, header, m, items, db);
      && r.order == Some(header) && r.rows == ItemsPayload(db.orderInsert.id, items)
      && (r.location.Some? ==> r.location.value == UpiUrl(Total(SubtotalOf(items))))
  {
  }

  /** The page's state and what it has sent out. */
  class CheckoutPage {
    var profile: Option<Profile>
    var address: Address
    var placing: bool
    var error: Option<string>
    var paymentMethod: PaymentMethod
    /** The rows sent to `profiles`, `orders` and `order_items`, oldest first. */
    var profileWrites: seq<ProfileRow>
    var orders: seq<OrderHeader>
    var orderItems: seq<OrderItemRow>
    /** `window.location.href` once the page has set it, and the last `navigate(...)`. */
    var location: Option<string>
    var route: Option<string>
    const cart: Cart

    constructor (cart: Cart)
      ensures this.cart == cart
      ensures profile.None? && address == Address("", "", "") && !placing && error.None? && paymentMethod == Upi
      ensures profileWrites == [] && orders == [] && orderItems == [] && location.None? && route.None?
    {
      this.cart := cart;
      profile := None;
      address := Address("", "", "");
      placing := false;
      error := None;
      paymentMethod := Upi;
      profileWrites := [];
      orders := [];
      orderItems := [];
      location := None;
      route := None;
    }

    /** The mount effect: signed out goes home; signed in loads the profile and fills the address from it. */
    method LoadProfile(user: Option<string>, data: Option<Profile>)
      modifies this
      ensures user.None? ==> route == Some("/") && profile == old(profile) && address == old(address)
      ensures user.Some? ==> profile == data && address == AddressOf(data) && route == old(route)
      ensures placing == old(placing) && error == old(error) && paymentMethod == old(paymentMethod)
      ensures profileWrites == old(profileWrites) && orders == old(orders) && orderItems == old(orderItems) && location == old(location)
    {
      if user.None? {
        route := Some("/");
        return;
      }
      profile := data;
      address := Address(
        if data.Some? then data.value.building.GetOr("") else "",
        if data.Some? then data.value.roomNumber.GetOr("") else "",
        if data.Some? then data.value.phone.GetOr("") else "");
    }

    method SetBuilding(v: string)
      modifies this`address
      ensures address == old(address).(building := v)
    {
      address := address.(building := v);
    }

    method SetRoom(v: string)
      modifies this`address
      ensures address == old(address).(room := v)
    {
      address := address.(room := v);
    }

    method SetPhone(v: string)
      modifies this`address
      ensures address == old(address).(phone := v)
    {
      address := address.(phone := v);
    }

    method ChoosePayment(m: PaymentMethod)
      modifies this`paymentMethod
      ensures paymentMethod == m
    {
      paymentMethod := m;
    }

    /** The place-order button is enabled unless an order is in flight or the cart is empty. */
    predicate CanPlace()
      reads this, cart
    {
      !placing && |cart.items| > 0
    }

    /** `placeOrder`, step by step; the backend's answers are the inputs `db`. */
    method PlaceOrder(user: Option<string>, db: Backend)
      modifies this, cart
      ensures var r := PlaceOrderRun(old(placing), old(error), profile, address, paymentMethod, user, old(cart.items), db);
        && placing == r.placing && error == r.error
        && profileWrites == old(profileWrites) + (if r.profileWrite.Some? then [r.profileWrite.value] else [])
        && orders == old(orders) + (if r.order.Some? then [r.order.value] else [])
        && orderItems == old(orderItems) + r.rows
        && cart.items == (if r.clears then [] else old(cart.items))
        && location == (if r.location.Some? then r.location else old(location))
        && route == (if r.route.Some? then r.route else old(route))
      ensures profile == old(profile) && address == old(address) && paymentMethod == old(paymentMethod)
    {
      if user.None? {
        return;
      }
      if |cart.items| == 0 {
        error := Some(EMPTY_CART);
        return;
      }
      placing := true;
      error := None;
      var items := cart.items;
      var write := ProfileUpsert(user.value, profile, address);
      profileWrites := profileWrites + [write];
      var serviceCategoryId := db.foodCategory;
      if !Truthy(serviceCategoryId) {
        serviceCategoryId := db.anyCategory;
      }
      if !Truthy(serviceCategoryId) {
        error := Some(NO_CATEGORY);
        placing := false;
        return;
      }
      var header := OrderHeaderOf(user.value, serviceCategoryId.value, profile, address, paymentMethod, items);
      InsertOrder(write, header, items, db);
    }

    /** The rest of the `try` block: the order row, the item rows, and what a success does. */
    method InsertOrder(write: ProfileRow, header: OrderHeader, items: seq<CartItem>, db: Backend)
      requires cart.items == items
      modifies this, cart
      ensures var r := InsertRun(write, header, paymentMethod, items, db);
        && placing == r.placing && error == (if r.error.Some? then r.error else old(error))
        && orders == old(orders) + [header]
        && orderItems == old(orderItems) + r.rows
        && cart.items == (if r.clears then [] else items)
        && location == (if r.location.Some? then r.location else old(location))
        && route == (if r.route.Some? then r.route else old(route))
      ensures profile == old(profile) && address == old(address) && paymentMethod == old(paymentMethod)
      ensures profileWrites == old(profileWrites)
    {
      orders := orders + [header];
      // a failed insert is thrown, and the `catch` keeps its message or the generic one
      match db.orderInsert {
        case InsertFailed(msg) =>
          error := Some(FailureMessage(msg));
        case Inserted(orderId) =>
          var rows := ItemsPayload(orderId, items);
          orderItems := orderItems + rows;
          match db.itemsInsert {
            case WriteFailed(msg) =>
              error := Some(FailureMessage(msg));
            case Written =>
              cart.ClearCart();
              if paymentMethod == Upi {
                location := Some(UpiUrl(Total(SubtotalOf(items))));
              }
              route := Some(ORDERS_ROUTE);
          }
      }
      placing := false;
    }
  }

  /** An enabled button never meets the empty-cart guard: a signed-in press reaches the profile write. */
  lemma EnabledPressWrites(page: CheckoutPage, user: Option<string>, db: Backend)
    requires page.CanPlace() && user.Some?
    ensures PlaceOrderRun(page.placing, page.error, page.profile, page.address, page.paymentMethod, user, page.cart.items, db).profileWrite.Some?
  {
  }
}
