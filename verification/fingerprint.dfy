/** The typed, length-prefixed encoding behind a configuration's digest, on both sides of the program. */
module Fingerprint {
  import opened Common
  import opened Utf8

  /**
   A configuration value. A float is its eight IEEE bytes; a mapping is its entries in insertion
   order; anything else, a mapping with a key that is not text included, is Unsupported.
   */
  datatype Value =
    | Null
    | Bool(b: bool)
    | Int(n: int)
    | Float(bits: seq<Byte>)
    | Text(s: string)
    | List(items: seq<Value>)
    | Dict(entries: seq<Entry>)
    | Unsupported

  datatype Entry = Entry(key: string, value: Value)

  predicate DistinctKeys(es: seq<Entry>) {
    forall i, j | 0 <= i < j < |es| :: es[i].key != es[j].key
  }

  /** Floats have eight bytes and mappings have each key once, all the way down. */
  predicate WellFormed(v: Value) {
    match v
    case Float(bits) => |bits| == 8
    case List(items) => forall x | x in items :: WellFormed(x)
    case Dict(entries) => DistinctKeys(entries) && forall e | e in entries :: WellFormed(e.value)
    case _ => true
  }

  /** Neither an infinity nor a NaN: the exponent is not all ones. */
  predicate Finite(bits: seq<Byte>)
    requires |bits| == 8
  {
    !(bits[0] % 128 == 127 && bits[1] >= 240)
  }

  predicate InRange(n: int) { -0x8000_0000_0000_0000 <= n < 0x1_0000_0000_0000_0000 }

  // ---------------------------------------------------------------- sorting by key

  /** The two orders in use: by code point, or by the bytes of the UTF-8 encoding. */
  predicate KeyLess(s: string, t: string, bytes: bool) {
    if bytes then BytesLess(Utf8.Encode(s), Utf8.Encode(t)) else TextLess(s, t)
  }

  function Insert(e: Entry, es: seq<Entry>, bytes: bool): (r: seq<Entry>)
    ensures forall x :: x in r <==> x == e || x in es
    ensures |r| == |es| + 1
  {
    if es == [] then [e]
    else if KeyLess(es[0].key, e.key, bytes) then [es[0]] + Insert(e, es[1..], bytes)
    else [e] + es
  }

  function Sorted(es: seq<Entry>, bytes: bool): (r: seq<Entry>)
    ensures forall x :: x in r <==> x in es
    ensures |r| == |es|
  {
    if es == [] then [] else Insert(es[0], Sorted(es[1..], bytes), bytes)
  }

  // ---------------------------------------------------------------- encoding

  function Length(tag: Byte, n: nat): seq<Byte> {
    [tag] + Decimal(n) + [58]
  }

  function EncodeText(s: string): seq<Byte> {
    Length(115, |Utf8.Encode(s)|) + Utf8.Encode(s)
  }

  function EncodeInt(n: int): seq<Byte> {
    [105] + (if n < 0 then [45] + Decimal(-n) else Decimal(n)) + [59]
  }

  /** The encoding, or nothing where the program raises. */
  function Encode(v: Value): Option<seq<Byte>>
    decreases v, 1, 0
  {
    match v
    case Null => Some([110])
    case Bool(b) => Some([if b then 116 else 102])
    case Int(n) => if InRange(n) then Some(EncodeInt(n)) else None
    case Float(bits) => if |bits| == 8 && Finite(bits) then Some([100] + bits) else None
    case Text(s) => Some(EncodeText(s))
    case List(items) =>
      (match EncodeItems(items, v)
       case None => None
       case Some(b) => Some(Length(97, |items|) + b))
    case Dict(entries) =>
      (match EncodeEntries(Sorted(entries, false), v)
       case None => None
       case Some(b) => Some(Length(111, |entries|) + b))
    case Unsupported => None
  }

  function EncodeItems(items: seq<Value>, ghost v: Value): Option<seq<Byte>>
    requires v.List? && forall x | x in items :: x in v.items
    decreases v, 0, |items|
  {
    if items == [] then Some([])
    else
      assert items[0] in v.items;
      match Encode(items[0])
      case None => None
      case Some(b) =>
        match EncodeItems(items[1..], v)
        case None => None
        case Some(c) => Some(b + c)
  }

  function EncodeEntries(es: seq<Entry>, ghost v: Value): Option<seq<Byte>>
    requires v.Dict? && forall e | e in es :: e in v.entries
    decreases v, 0, |es|
  {
    if es == [] then Some([])
    else
      assert es[0] in v.entries;
      match Encode(es[0].value)
      case None => None
      case Some(b) =>
        match EncodeEntries(es[1..], v)
        case None => None
        case Some(c) => Some(EncodeText(es[0].key) + b + c)
  }

  // ---------------------------------------------------------------- decoding

  /** A length after its tag, up to the colon. */
  function ReadLength(b: seq<Byte>): (r: Option<(nat, seq<Byte>)>)
    ensures r.Some? ==> |r.value.1| < |b|
  {
    if b == [] then None
    else
      ReadRest(b[1..], 0);
      var (n, rest) := ReadDecimal(b[1..], 0);
      if rest != [] && rest[0] == 58 then Some((n, rest[1..])) else None
  }

  function DecodeText(b: seq<Byte>): (r: Option<(string, seq<Byte>)>)
    ensures r.Some? ==> |r.value.1| < |b|
  {
    match ReadLength(b)
    case None => None
    case Some((n, rest)) =>
      if b[0] != 115 || |rest| < n then None
      else
        match Utf8.Decode(rest[..n])
        case None => None
        case Some(s) => Some((s, rest[n..]))
  }

  function DecodeInt(b: seq<Byte>): (r: Option<(int, seq<Byte>)>)
    ensures r.Some? ==> |r.value.1| < |b|
  {
    if b == [] then None
    else
      var negative := b[0] == 45;
      var digits := if negative then b[1..] else b;
      ReadRest(digits, 0);
      var (n, rest) := ReadDecimal(digits, 0);
      var value: int := if negative then 0 - n else n;
      if rest != [] && rest[0] == 59 then Some((value, rest[1..])) else None
  }

  /** The value at the front of b, with the entries of mappings in sorted order, and what follows it. */
  function Decode(b: seq<Byte>): (r: Option<(Value, seq<Byte>)>)
    ensures r.Some? ==> |r.value.1| < |b|
    decreases |b|, 0
  {
    if b == [] then None
    else if b[0] == 110 then Some((Null, b[1..]))
    else if b[0] == 116 then Some((Bool(true), b[1..]))
    else if b[0] == 102 then Some((Bool(false), b[1..]))
    else if b[0] == 105 then
      match DecodeInt(b[1..])
      case None => None
      case Some((n, rest)) => Some((Int(n), rest))
    else if b[0] == 100 then (if |b| < 9 then None else Some((Float(b[1..9]), b[9..])))
    else if b[0] == 115 then
      match DecodeText(b)
      case None => None
      case Some((s, rest)) => Some((Text(s), rest))
    else if b[0] == 97 then
      match ReadLength(b)
      case None => None
      case Some((n, rest)) =>
        match DecodeItems(n, rest)
        case None => None
        case Some((items, more)) => Some((List(items), more))
    else if b[0] == 111 then
      match ReadLength(b)
      case None => None
      case Some((n, rest)) =>
        match DecodeEntries(n, rest)
        case None => None
        case Some((es, more)) => Some((Dict(es), more))
    else None
  }

  function DecodeItems(n: nat, b: seq<Byte>): (r: Option<(seq<Value>, seq<Byte>)>)
    ensures r.Some? ==> |r.value.1| <= |b|
    decreases |b|, n + 1
  {
    if n == 0 then Some(([], b))
    else
      match Decode(b)
      case None => None
      case Some((x, rest)) =>
        match DecodeItems(n - 1, rest)
        case None => None
        case Some((xs, more)) => Some(([x] + xs, more))
  }

  function DecodeEntries(n: nat, b: seq<Byte>): (r: Option<(seq<Entry>, seq<Byte>)>)
    ensures r.Some? ==> |r.value.1| <= |b|
    decreases |b|, n + 1
  {
    if n == 0 then Some(([], b))
    else
      match DecodeText(b)
      case None => None
      case Some((k, rest)) =>
        match Decode(rest)
        case None => None
        case Some((x, more)) =>
          match DecodeEntries(n - 1, more)
          case None => None
          case Some((es, last)) => Some(([Entry(k, x)] + es, last))
  }

  /** The same value with the entries of every mapping sorted. */
  function Canon(v: Value): Value
    decreases v, 1, 0
  {
    match v
    case List(items) => List(CanonItems(items, v))
    case Dict(entries) => Dict(CanonEntries(Sorted(entries, false), v))
    case _ => v
  }

  function CanonItems(items: seq<Value>, ghost v: Value): (r: seq<Value>)
    requires v.List? && forall x | x in items :: x in v.items
    ensures |r| == |items| && forall i | 0 <= i < |r| :: (items[i] in v.items) && r[i] == Canon(items[i])
    decreases v, 0, |items|
  {
    if items == [] then []
    else
      assert items[0] in v.items;
      [Canon(items[0])] + CanonItems(items[1..], v)
  }

  function CanonEntries(es: seq<Entry>, ghost v: Value): (r: seq<Entry>)
    requires v.Dict? && forall e | e in es :: e in v.entries
    ensures |r| == |es| && forall i | 0 <= i < |r| :: (es[i] in v.entries) && r[i] == Entry(es[i].key, Canon(es[i].value))
    decreases v, 0, |es|
  {
    if es == [] then []
    else
      assert es[0] in v.entries;
      [Entry(es[0].key, Canon(es[0].value))] + CanonEntries(es[1..], v)
  }

  lemma LengthIsRead(tag: Byte, n: nat, rest: seq<Byte>)
    ensures ReadLength(Length(tag, n) + rest) == Some((n, rest))
    ensures (Length(tag, n) + rest)[0] == tag
  {
    var b := Length(tag, n) + rest;
    assert b[1..] == Decimal(n) + ([58] + rest);
    DecimalIsRead(n, [58] + rest);
    assert ([58] + rest)[1..] == rest;
  }

  lemma TextIsRead(s: string, rest: seq<Byte>)
    ensures DecodeText(EncodeText(s) + rest) == Some((s, rest))
    ensures (EncodeText(s) + rest)[0] == 115
  {
    var u := Utf8.Encode(s);
    LengthIsRead(115, |u|, u + rest);
    assert EncodeText(s) + rest == Length(115, |u|) + (u + rest);
    assert (u + rest)[..|u|] == u && (u + rest)[|u|..] == rest;
    TextRoundTrip(s);
  }

  lemma {:induction false} DecimalDigits(n: nat)
    ensures Decimal(n) != [] && IsDigit(Decimal(n)[0])
  {
    if n >= 10 { DecimalDigits(n / 10); }
  }

  lemma IntIsRead(n: int, rest: seq<Byte>)
    ensures DecodeInt((EncodeInt(n) + rest)[1..]) == Some((n, rest))
  {
    var m := if n < 0 then -n else n;
    var digits := Decimal(m) + ([59] + rest);
    DecimalIsRead(m, [59] + rest);
    DecimalDigits(m);
    assert ([59] + rest)[1..] == rest;
    var b := (EncodeInt(n) + rest)[1..];
    if n < 0 {
      assert b == [45] + digits;
      assert b[1..] == digits;
    } else {
      assert b == digits;
    }
  }

  lemma ScalarRoundTrip(v: Value, rest: seq<Byte>)
    requires Encode(v).Some? && !v.List? && !v.Dict?
    ensures Decode(Encode(v).value + rest) == Some((v, rest))
  {
    var b := Encode(v).value + rest;
    match v
    case Null => assert b[1..] == rest;
    case Bool(_) => assert b[1..] == rest;
    case Int(n) => IntIsRead(n, rest);
    case Float(bits) => assert b[1..9] == bits && b[9..] == rest;
    case Text(s) => TextIsRead(s, rest);
    case _ =>
  }

  /** The decoder recovers the value and leaves what follows it alone. */
  lemma {:induction false} RoundTrip(v: Value, rest: seq<Byte>)
    requires Encode(v).Some?
    ensures Decode(Encode(v).value + rest) == Some((Canon(v), rest))
    decreases v, 1, 0
  {
    match v
    case List(items) => ItemsRoundTrip(items, v, rest); ListRoundTrip(items, v, rest);
    case Dict(entries) => EntriesRoundTrip(Sorted(entries, false), v, rest); DictRoundTrip(entries, v, rest);
    case _ => ScalarRoundTrip(v, rest);
  }

  lemma DecodesList(b: seq<Byte>, n: nat, rest: seq<Byte>, items: seq<Value>, more: seq<Byte>)
    requires b != [] && b[0] == 97 && ReadLength(b) == Some((n, rest)) && DecodeItems(n, rest) == Some((items, more))
    ensures Decode(b) == Some((List(items), more))
  {
    hide ReadLength, DecodeItems;
  }

  lemma DecodesDict(b: seq<Byte>, n: nat, rest: seq<Byte>, es: seq<Entry>, more: seq<Byte>)
    requires b != [] && b[0] == 111 && ReadLength(b) == Some((n, rest)) && DecodeEntries(n, rest) == Some((es, more))
    ensures Decode(b) == Some((Dict(es), more))
  {
    hide ReadLength, DecodeEntries;
  }

  lemma EncodesList(items: seq<Value>, v: Value)
    requires v == List(items) && EncodeItems(items, v).Some?
    ensures Encode(v) == Some(Length(97, |items|) + EncodeItems(items, v).value) && Canon(v) == List(CanonItems(items, v))
  {
  }

  lemma EncodesDict(entries: seq<Entry>, v: Value)
    requires v == Dict(entries) && EncodeEntries(Sorted(entries, false), v).Some?
    ensures Encode(v) == Some(Length(111, |entries|) + EncodeEntries(Sorted(entries, false), v).value)
    ensures Canon(v) == Dict(CanonEntries(Sorted(entries, false), v))
  {
  }

  lemma ListRoundTrip(items: seq<Value>, v: Value, rest: seq<Byte>)
    requires v == List(items) && EncodeItems(items, v).Some?
    requires DecodeItems(|items|, EncodeItems(items, v).value + rest) == Some((CanonItems(items, v), rest))
    ensures Encode(v).Some? && Decode(Encode(v).value + rest) == Some((Canon(v), rest))
  {
    hide Decode, Encode, Canon, DecodeItems, EncodeItems, CanonItems, Length, ReadLength;
    EncodesList(items, v);
    var c := EncodeItems(items, v).value;
    LengthIsRead(97, |items|, c + rest);
    assert Length(97, |items|) + c + rest == Length(97, |items|) + (c + rest);
    DecodesList(Length(97, |items|) + (c + rest), |items|, c + rest, CanonItems(items, v), rest);
  }

  lemma DictRoundTrip(entries: seq<Entry>, v: Value, rest: seq<Byte>)
    requires v == Dict(entries) && EncodeEntries(Sorted(entries, false), v).Some?
    requires DecodeEntries(|entries|, EncodeEntries(Sorted(entries, false), v).value + rest) == Some((CanonEntries(Sorted(entries, false), v), rest))
    ensures Encode(v).Some? && Decode(Encode(v).value + rest) == Some((Canon(v), rest))
  {
    hide Decode, Encode, Canon, DecodeEntries, EncodeEntries, CanonEntries, Length, ReadLength, Sorted;
    EncodesDict(entries, v);
    var c := EncodeEntries(Sorted(entries, false), v).value;
    LengthIsRead(111, |entries|, c + rest);
    assert Length(111, |entries|) + c + rest == Length(111, |entries|) + (c + rest);
    DecodesDict(Length(111, |entries|) + (c + rest), |entries|, c + rest, CanonEntries(Sorted(entries, false), v), rest);
  }

  lemma {:induction false} ItemsRoundTrip(items: seq<Value>, v: Value, rest: seq<Byte>)
    requires v.List? && (forall x | x in items :: x in v.items) && EncodeItems(items, v).Some?
    ensures DecodeItems(|items|, EncodeItems(items, v).value + rest) == Some((CanonItems(items, v), rest))
    decreases v, 0, |items|
  {
    if items == [] {
      assert EncodeItems(items, v).value + rest == rest;
    } else {
      assert items[0] in v.items;
      var b, c := Encode(items[0]).value, EncodeItems(items[1..], v).value;
      assert EncodeItems(items, v).value + rest == b + (c + rest);
      RoundTrip(items[0], c + rest);
      ItemsRoundTrip(items[1..], v, rest);
    }
  }

  lemma {:induction false} EntriesRoundTrip(es: seq<Entry>, v: Value, rest: seq<Byte>)
    requires v.Dict? && (forall e | e in es :: e in v.entries) && EncodeEntries(es, v).Some?
    ensures DecodeEntries(|es|, EncodeEntries(es, v).value + rest) == Some((CanonEntries(es, v), rest))
    decreases v, 0, |es|
  {
    hide Encode, EncodeText, Decode, DecodeText, Canon;
    if es == [] {
      assert EncodeEntries(es, v).value + rest == rest;
    } else {
      assert es[0] in v.entries;
      var b, c := Encode(es[0].value).value, EncodeEntries(es[1..], v).value;
      assert EncodeEntries(es, v).value + rest == EncodeText(es[0].key) + (b + (c + rest));
      TextIsRead(es[0].key, b + (c + rest));
      RoundTrip(es[0].value, c + rest);
      EntriesRoundTrip(es[1..], v, rest);
    }
  }

  // ---------------------------------------------------------------- sorted entries

  ghost predicate Ascending(es: seq<Entry>) {
    forall i, j | 0 <= i < j < |es| :: TextLess(es[i].key, es[j].key)
  }

  ghost predicate HasKey(es: seq<Entry>, k: string) {
    exists e :: e in es && e.key == k
  }

  lemma {:induction false} InsertAscends(e: Entry, es: seq<Entry>)
    requires Ascending(es) && !HasKey(es, e.key)
    ensures Ascending(Insert(e, es, false))
  {
    var r := Insert(e, es, false);
    if es != [] {
      assert es[0] in es;
      if TextLess(es[0].key, e.key) {
        InsertAscends(e, es[1..]);
        forall x | x in Insert(e, es[1..], false) ensures TextLess(es[0].key, x.key) {
          if x != e { var i :| 0 <= i < |es[1..]| && es[1..][i] == x; assert es[i + 1] == x; }
        }
      } else {
        TextLessTotal(e.key, es[0].key);
        forall x | x in es ensures TextLess(e.key, x.key) {
          if x != es[0] { var i :| 0 <= i < |es| && es[i] == x; TextLessTransitive(e.key, es[0].key, x.key); }
        }
      }
    }
  }

  lemma {:induction false} SortedAscends(es: seq<Entry>)
    requires DistinctKeys(es)
    ensures Ascending(Sorted(es, false))
  {
    if es != [] {
      SortedAscends(es[1..]);
      InsertAscends(es[0], Sorted(es[1..], false));
    }
  }

  lemma SortedKeys(es: seq<Entry>)
    ensures forall k :: HasKey(Sorted(es, false), k) <==> HasKey(es, k)
  {
    forall k ensures HasKey(Sorted(es, false), k) <==> HasKey(es, k) { }
  }

  lemma TailKeys(es: seq<Entry>)
    requires Ascending(es) && es != []
    ensures forall k :: HasKey(es[1..], k) <==> HasKey(es, k) && k != es[0].key
  {
    forall k ensures HasKey(es[1..], k) <==> HasKey(es, k) && k != es[0].key {
      if HasKey(es[1..], k) {
        var e :| e in es[1..] && e.key == k;
        assert e in es;
        TextLessAsymmetric(es[0].key, k);
      }
      if HasKey(es, k) && k != es[0].key {
        var e :| e in es && e.key == k;
        assert e in es[1..];
      }
    }
  }

  /** Two ascending lists with the same keys have them at the same places. */
  lemma {:induction false} AscendingIsUnique(es: seq<Entry>, fs: seq<Entry>)
    requires Ascending(es) && Ascending(fs) && forall k :: HasKey(es, k) <==> HasKey(fs, k)
    ensures |es| == |fs| && forall i | 0 <= i < |es| :: es[i].key == fs[i].key
  {
    if es == [] {
      assert fs != [] ==> fs[0] in fs && HasKey(fs, fs[0].key);
    } else {
      assert es[0] in es && HasKey(es, es[0].key) && HasKey(fs, es[0].key);
      assert fs[0] in fs && HasKey(fs, fs[0].key) && HasKey(es, fs[0].key);
      if es[0].key != fs[0].key { TextLessAsymmetric(es[0].key, fs[0].key); }
      TailKeys(es);
      TailKeys(fs);
      AscendingIsUnique(es[1..], fs[1..]);
      forall i | 0 < i < |es| ensures es[i].key == fs[i].key { assert es[1..][i - 1] == es[i] && fs[1..][i - 1] == fs[i]; }
    }
  }

  /** Both programs sort alike. */
  lemma {:induction false} SortsAgree(es: seq<Entry>)
    ensures Sorted(es, true) == Sorted(es, false)
  {
    if es != [] {
      SortsAgree(es[1..]);
      InsertsAgree(es[0], Sorted(es[1..], false));
    }
  }

  lemma {:induction false} InsertsAgree(e: Entry, es: seq<Entry>)
    ensures Insert(e, es, true) == Insert(e, es, false)
  {
    if es != [] {
      OrdersAgree(es[0].key, e.key);
      InsertsAgree(e, es[1..]);
    }
  }

  // ---------------------------------------------------------------- equal bytes, equal values

  /** The same value, whatever the order in which mappings list their entries. */
  ghost predicate Same(v: Value, w: Value)
    decreases v
  {
    match v
    case List(a) => w.List? && |a| == |w.items| && forall i | 0 <= i < |a| :: Same(a[i], w.items[i])
    case Dict(a) =>
      && w.Dict?
      && (forall k :: HasKey(a, k) <==> HasKey(w.entries, k))
      && (forall i, f | 0 <= i < |a| && f in w.entries && a[i].key == f.key :: Same(a[i].value, f.value))
    case _ => v == w
  }

  lemma {:induction false} SameEncodes(v: Value, w: Value)
    requires WellFormed(v) && WellFormed(w) && Same(v, w)
    ensures Encode(v) == Encode(w)
    decreases v, 1, 0
  {
    match v
    case List(a) => SameItems(a, w.items, v, w);
    case Dict(a) =>
      var es, fs := Sorted(a, false), Sorted(w.entries, false);
      SortedAscends(a);
      SortedAscends(w.entries);
      SortedKeys(a);
      SortedKeys(w.entries);
      AscendingIsUnique(es, fs);
      SameEntries(es, fs, v, w);
    case _ =>
  }

  lemma {:induction false} SameItems(a: seq<Value>, b: seq<Value>, v: Value, w: Value)
    requires v.List? && w.List? && WellFormed(v) && WellFormed(w) && |a| == |b|
    requires (forall x | x in a :: x in v.items) && (forall x | x in b :: x in w.items)
    requires forall i | 0 <= i < |a| :: Same(a[i], b[i])
    ensures EncodeItems(a, v) == EncodeItems(b, w)
    decreases v, 0, |a|
  {
    if a != [] {
      assert a[0] in v.items && b[0] in w.items;
      SameEncodes(a[0], b[0]);
      SameItems(a[1..], b[1..], v, w);
    }
  }

  lemma {:induction false} SameEntries(es: seq<Entry>, fs: seq<Entry>, v: Value, w: Value)
    requires v.Dict? && w.Dict? && WellFormed(v) && WellFormed(w) && Same(v, w) && |es| == |fs|
    requires (forall e | e in es :: e in v.entries) && (forall f | f in fs :: f in w.entries)
    requires forall i | 0 <= i < |es| :: es[i].key == fs[i].key
    ensures EncodeEntries(es, v) == EncodeEntries(fs, w)
    decreases v, 0, |es|
  {
    if es != [] {
      assert es[0] in v.entries && fs[0] in w.entries && es[0].key == fs[0].key;
      SameEncodes(es[0].value, fs[0].value);
      SameEntries(es[1..], fs[1..], v, w);
    }
  }

  lemma {:induction false} CanonSame(v: Value, w: Value)
    requires WellFormed(v) && WellFormed(w) && Canon(v) == Canon(w)
    ensures Same(v, w)
    decreases v
  {
    match v
    case List(a) =>
      forall i | 0 <= i < |a| ensures |w.items| == |a| && Same(a[i], w.items[i]) {
        assert a[i] in v.items && CanonItems(a, v)[i] == CanonItems(w.items, w)[i] && w.items[i] in w.items;
        CanonSame(a[i], w.items[i]);
      }
    case Dict(a) =>
      CanonKeys(v, w);
      forall i, f | 0 <= i < |a| && f in w.entries && a[i].key == f.key ensures Same(a[i].value, f.value) {
        assert a[i] in v.entries;
        CanonValues(v, w, a[i], f);
        CanonSame(a[i].value, f.value);
      }
    case _ =>
  }

  lemma CanonKeys(v: Value, w: Value)
    requires v.Dict? && WellFormed(v) && WellFormed(w) && Canon(v) == Canon(w)
    ensures w.Dict? && forall k :: HasKey(v.entries, k) <==> HasKey(w.entries, k)
  {
    hide HasKey, WellFormed;
    forall k ensures HasKey(v.entries, k) <==> HasKey(w.entries, k) {
      if HasKey(v.entries, k) { CanonKey(v, w, k); }
      if HasKey(w.entries, k) { CanonKey(w, v, k); }
    }
  }

  lemma CanonKey(v: Value, w: Value, k: string)
    requires v.Dict? && w.Dict? && Canon(v) == Canon(w) && HasKey(v.entries, k)
    ensures HasKey(w.entries, k)
  {
    var es, fs := Sorted(v.entries, false), Sorted(w.entries, false);
    var c, d := CanonEntries(es, v), CanonEntries(fs, w);
    var e :| e in v.entries && e.key == k;
    var i :| 0 <= i < |es| && es[i] == e;
    assert c[i].key == d[i].key && fs[i] in w.entries;
  }

  lemma CanonValues(v: Value, w: Value, e: Entry, f: Entry)
    requires v.Dict? && w.Dict? && WellFormed(v) && WellFormed(w) && Canon(v) == Canon(w)
    requires e in v.entries && f in w.entries && e.key == f.key
    ensures Canon(e.value) == Canon(f.value)
  {
    var es, fs := Sorted(v.entries, false), Sorted(w.entries, false);
    var c, d := CanonEntries(es, v), CanonEntries(fs, w);
    assert c == d;
    var i :| 0 <= i < |es| && es[i] == e;
    var j :| 0 <= j < |fs| && fs[j] == f;
    SortedAscends(w.entries);
    assert c[i].key == d[i].key;
    if i < j { TextLessAsymmetric(fs[i].key, fs[j].key); }
    if j < i { TextLessAsymmetric(fs[j].key, fs[i].key); }
  }

  /**
   Two values that can be encoded have the same bytes exactly when they are the same value up to
   the order of mappings, and no encoding is the start of another.
   */
  lemma SameBytesSameValue(v: Value, w: Value, x: seq<Byte>, y: seq<Byte>)
    requires WellFormed(v) && WellFormed(w) && Encode(v).Some? && Encode(w).Some?
    ensures Encode(v).value + x == Encode(w).value + y <==> Same(v, w) && x == y
  {
    if Encode(v).value + x == Encode(w).value + y {
      RoundTrip(v, x);
      RoundTrip(w, y);
      CanonSame(v, w);
    }
    if Same(v, w) { SameEncodes(v, w); }
  }

  // ---------------------------------------------------------------- which values, which bytes

  /** What the program can encode, on values alone. */
  predicate Encodable(v: Value) {
    match v
    case Null => true
    case Bool(_) => true
    case Int(n) => -9223372036854775808 <= n <= 18446744073709551615
    case Float(bits) => |bits| == 8 && (bits[0] == 127 || bits[0] == 255 ==> bits[1] < 240)
    case Text(_) => true
    case List(items) => forall x | x in items :: Encodable(x)
    case Dict(entries) => forall e | e in entries :: Encodable(e.value)
    case Unsupported => false
  }

  /** A value is encoded exactly if it is encodable; one bad part anywhere spoils the whole. */
  lemma {:induction false} EncodesEncodable(v: Value)
    ensures Encode(v).Some? <==> Encodable(v)
    decreases v, 1, 0
  {
    match v
    case List(items) => ItemsEncodable(items, v);
    case Dict(entries) => EntriesEncodable(Sorted(entries, false), v);
    case _ =>
  }

  lemma {:induction false} ItemsEncodable(items: seq<Value>, v: Value)
    requires v.List? && forall x | x in items :: x in v.items
    ensures EncodeItems(items, v).Some? <==> forall x | x in items :: Encodable(x)
    decreases v, 0, |items|
  {
    hide Encode, Encodable;
    if items != [] {
      assert items[0] in v.items && items == [items[0]] + items[1..];
      EncodesEncodable(items[0]);
      ItemsEncodable(items[1..], v);
    }
  }

  lemma {:induction false} EntriesEncodable(es: seq<Entry>, v: Value)
    requires v.Dict? && forall e | e in es :: e in v.entries
    ensures EncodeEntries(es, v).Some? <==> forall e | e in es :: Encodable(e.value)
    decreases v, 0, |es|
  {
    hide Encode, Encodable;
    if es != [] {
      assert es[0] in v.entries && es == [es[0]] + es[1..];
      EncodesEncodable(es[0].value);
      EntriesEncodable(es[1..], v);
    }
  }

  function Joined(parts: seq<seq<Byte>>): seq<Byte> {
    if parts == [] then [] else parts[0] + Joined(parts[1..])
  }

  /** The format, byte by byte, for everything but lists and mappings. */
  lemma ScalarBytes(n: int, bits: seq<Byte>, s: string)
    ensures Encode(Null) == Some([110]) && Encode(Bool(true)) == Some([116]) && Encode(Bool(false)) == Some([102])
    ensures 0 <= n < 18446744073709551616 ==> Encode(Int(n)) == Some([105] + Decimal(n) + [59])
    ensures -9223372036854775808 <= n < 0 ==> Encode(Int(n)) == Some([105, 45] + Decimal(-n) + [59])
    ensures Encodable(Float(bits)) ==> Encode(Float(bits)) == Some([100] + bits)
    ensures Encode(Text(s)) == Some([115] + Decimal(|Utf8.Encode(s)|) + [58] + Utf8.Encode(s))
  {
    if n < 0 { assert [105] + ([45] + Decimal(-n)) + [59] == [105, 45] + Decimal(-n) + [59]; }
  }

  /** A list is its tag, its length and the encodings of its parts in order. */
  lemma ListBytes(items: seq<Value>, parts: seq<seq<Byte>>)
    requires |parts| == |items| && forall i | 0 <= i < |items| :: Encode(items[i]) == Some(parts[i])
    ensures Encode(List(items)) == Some([97] + Decimal(|items|) + [58] + Joined(parts))
  {
    ItemsBytes(items, List(items), parts);
  }

  lemma {:induction false} ItemsBytes(items: seq<Value>, v: Value, parts: seq<seq<Byte>>)
    requires v.List? && forall x | x in items :: x in v.items
    requires |parts| == |items| && forall i | 0 <= i < |items| :: Encode(items[i]) == Some(parts[i])
    ensures EncodeItems(items, v) == Some(Joined(parts))
  {
    if items != [] { ItemsBytes(items[1..], v, parts[1..]); }
  }

  /** A mapping is its tag, its size, and each key with its value, by ascending keys. */
  lemma DictBytes(entries: seq<Entry>, es: seq<Entry>, parts: seq<seq<Byte>>)
    requires DistinctKeys(entries) && Ascending(es) && forall e :: e in es <==> e in entries
    requires |parts| == |es|
    requires forall i | 0 <= i < |es| :: Encode(es[i].value).Some? && parts[i] == Encode(Text(es[i].key)).value + Encode(es[i].value).value
    ensures Encode(Dict(entries)) == Some([111] + Decimal(|entries|) + [58] + Joined(parts))
  {
    SortedIsTheAscending(entries, es);
    EntriesBytes(es, Dict(entries), parts);
  }

  lemma SortedIsTheAscending(entries: seq<Entry>, es: seq<Entry>)
    requires DistinctKeys(entries) && Ascending(es) && forall e :: e in es <==> e in entries
    ensures es == Sorted(entries, false)
  {
    var fs := Sorted(entries, false);
    SortedAscends(entries);
    forall k ensures HasKey(es, k) <==> HasKey(fs, k) { }
    AscendingIsUnique(es, fs);
    forall i | 0 <= i < |es| ensures es[i] == fs[i] {
      assert es[i] in entries && fs[i] in entries;
      var a :| 0 <= a < |entries| && entries[a] == es[i];
      var b :| 0 <= b < |entries| && entries[b] == fs[i];
      assert a == b;
    }
  }

  lemma {:induction false} EntriesBytes(es: seq<Entry>, v: Value, parts: seq<seq<Byte>>)
    requires v.Dict? && forall e | e in es :: e in v.entries
    requires |parts| == |es|
    requires forall i | 0 <= i < |es| :: Encode(es[i].value).Some? && parts[i] == Encode(Text(es[i].key)).value + Encode(es[i].value).value
    ensures EncodeEntries(es, v) == Some(Joined(parts))
  {
    if es != [] { EntriesBytes(es[1..], v, parts[1..]); }
  }

  // ---------------------------------------------------------------- the other program

  /** The byte buffer that the desktop program fills in place. */
  class Buffer {
    var bytes: seq<Byte>

    constructor (start: seq<Byte>)
      ensures bytes == start
    {
      bytes := start;
    }

    method Put(more: seq<Byte>)
      modifies this
      ensures bytes == old(bytes) + more
    {
      bytes := bytes + more;
    }
  }

  /** Appends the encoding of v to the buffer; an error leaves the buffer unfinished. */
  method EncodeInto(v: Value, output: Buffer) returns (ok: bool)
    modifies output
    ensures ok == Encodable(v) == Encode(v).Some?
    ensures ok ==> output.bytes == old(output.bytes) + Encode(v).value
    decreases v, 1, 0
  {
    EncodesEncodable(v);
    ok := true;
    match v
    case Null => output.Put([110]);
    case Bool(b) => output.Put([if b then 116 else 102]);
    case Int(n) => if InRange(n) { output.Put(EncodeInt(n)); } else { ok := false; }
    case Float(bits) => if |bits| == 8 && Finite(bits) { output.Put([100] + bits); } else { ok := false; }
    case Text(s) => output.Put(EncodeText(s));
    case List(items) => ok := ItemsInto(v, output);
    case Dict(entries) => ok := EntriesInto(v, output);
    case Unsupported => ok := false;
  }

  lemma Associative(a: seq<Byte>, b: seq<Byte>, c: seq<Byte>)
    ensures a + (b + c) == a + b + c
  {
  }

  lemma ItemsSnoc(items: seq<Value>, x: Value, v: Value)
    requires v.List? && (forall y | y in items + [x] :: y in v.items) && x in v.items
    ensures EncodeItems(items + [x], v) ==
      if EncodeItems(items, v).None? || Encode(x).None? then None else Some(EncodeItems(items, v).value + Encode(x).value)
  {
    if items == [] {
      assert items + [x] == [x] && [x][1..] == [];
      assert EncodeItems([x][1..], v) == Some([]);
      assert Encode(x).Some? ==> Encode(x).value + [] == Encode(x).value == [] + Encode(x).value;
    } else {
      assert (items + [x])[1..] == items[1..] + [x] && (items + [x])[0] == items[0];
      assert forall y | y in items[1..] + [x] :: y in items + [x];
      ItemsSnoc(items[1..], x, v);
      if Encode(items[0]).Some? && EncodeItems(items[1..], v).Some? && Encode(x).Some? {
        Associative(Encode(items[0]).value, EncodeItems(items[1..], v).value, Encode(x).value);
      }
    }
  }

  lemma ItemsFail(items: seq<Value>, n: nat, v: Value)
    requires v.List? && (forall y | y in items :: y in v.items) && n <= |items| && EncodeItems(items[..n], v).None?
    ensures EncodeItems(items, v).None?
    decreases n
  {
    if n > 0 {
      assert items[..n][0] == items[0] && items[..n][1..] == items[1..][..n - 1];
      if Encode(items[0]).Some? { ItemsFail(items[1..], n - 1, v); }
    }
  }

  lemma EncodesItems(v: Value)
    requires v.List?
    ensures Encode(v).Some? <==> EncodeItems(v.items, v).Some?
    ensures Encode(v).Some? ==> Encode(v).value == Length(97, |v.items|) + EncodeItems(v.items, v).value
    ensures EncodeItems([], v) == Some([])
  {
  }

  method ItemsInto(v: Value, output: Buffer) returns (ok: bool)
    requires v.List?
    modifies output
    ensures ok == Encode(v).Some?
    ensures ok ==> output.bytes == old(output.bytes) + Encode(v).value
    decreases v, 0, 0
  {
    hide Encode, EncodeItems, Encodable, Length;
    EncodesItems(v);
    ghost var was := output.bytes + Length(97, |v.items|);
    output.Put(Length(97, |v.items|));
    for i := 0 to |v.items|
      invariant EncodeItems(v.items[..i], v).Some? && output.bytes == was + EncodeItems(v.items[..i], v).value
    {
      assert v.items[i] in v.items && v.items[..i + 1] == v.items[..i] + [v.items[i]];
      ItemsSnoc(v.items[..i], v.items[i], v);
      ok := EncodeInto(v.items[i], output);
      if !ok {
        ItemsFail(v.items, i + 1, v);
        return;
      }
      Associative(was, EncodeItems(v.items[..i], v).value, Encode(v.items[i]).value);
    }
    assert v.items[..|v.items|] == v.items;
    Associative(old(output.bytes), Length(97, |v.items|), EncodeItems(v.items, v).value);
    ok := true;
  }

  lemma EntriesSnoc(es: seq<Entry>, e: Entry, v: Value)
    requires v.Dict? && (forall y | y in es + [e] :: y in v.entries) && e in v.entries
    ensures EncodeEntries(es + [e], v) ==
      if EncodeEntries(es, v).None? || Encode(e.value).None? then None
      else Some(EncodeEntries(es, v).value + (EncodeText(e.key) + Encode(e.value).value))
  {
    if es == [] {
      assert es + [e] == [e] && [e][1..] == [];
      assert EncodeEntries([e][1..], v) == Some([]);
      assert Encode(e.value).Some? ==> EncodeText(e.key) + Encode(e.value).value + [] == [] + (EncodeText(e.key) + Encode(e.value).value);
    } else {
      assert (es + [e])[1..] == es[1..] + [e] && (es + [e])[0] == es[0];
      assert forall y | y in es[1..] + [e] :: y in es + [e];
      EntriesSnoc(es[1..], e, v);
      if Encode(es[0].value).Some? && EncodeEntries(es[1..], v).Some? && Encode(e.value).Some? {
        Associative(EncodeText(es[0].key) + Encode(es[0].value).value, EncodeEntries(es[1..], v).value, EncodeText(e.key) + Encode(e.value).value);
      }
    }
  }

  lemma EntriesFail(es: seq<Entry>, n: nat, v: Value)
    requires v.Dict? && (forall y | y in es :: y in v.entries) && n <= |es| && EncodeEntries(es[..n], v).None?
    ensures EncodeEntries(es, v).None?
    decreases n
  {
    if n > 0 {
      assert es[..n][0] == es[0] && es[..n][1..] == es[1..][..n - 1];
      if Encode(es[0].value).Some? { EntriesFail(es[1..], n - 1, v); }
    }
  }

  method EntryInto(e: Entry, v: Value, output: Buffer) returns (ok: bool)
    requires v.Dict? && e in v.entries
    modifies output
    ensures ok == Encode(e.value).Some?
    ensures ok ==> output.bytes == old(output.bytes) + (EncodeText(e.key) + Encode(e.value).value)
    decreases v, 0, 0
  {
    hide Encode, Encodable, EncodeText;
    output.Put(EncodeText(e.key));
    ok := EncodeInto(e.value, output);
    if ok { Associative(old(output.bytes), EncodeText(e.key), Encode(e.value).value); }
  }

  lemma EncodesEntries(v: Value, es: seq<Entry>)
    requires v.Dict? && es == Sorted(v.entries, false)
    ensures Encode(v).Some? <==> EncodeEntries(es, v).Some?
    ensures Encode(v).Some? ==> Encode(v).value == Length(111, |es|) + EncodeEntries(es, v).value
  {
  }

  /** The keys go in the order of their UTF-8 bytes. */
  method EntriesInto(v: Value, output: Buffer) returns (ok: bool)
    requires v.Dict?
    modifies output
    ensures ok == Encode(v).Some?
    ensures ok ==> output.bytes == old(output.bytes) + Encode(v).value
    decreases v, 0, 1
  {
    hide Encode, EncodeEntries, Encodable, Length, EncodeText, Sorted;
    var es := Sorted(v.entries, true);
    SortsAgree(v.entries);
    EncodesEntries(v, es);
    ghost var was := output.bytes + Length(111, |es|);
    output.Put(Length(111, |es|));
    NoEntries(v);
    for i := 0 to |es|
      invariant EncodeEntries(es[..i], v).Some? && output.bytes == was + EncodeEntries(es[..i], v).value
    {
      assert es[i] in es && es[..i + 1] == es[..i] + [es[i]];
      EntriesSnoc(es[..i], es[i], v);
      ok := EntryInto(es[i], v, output);
      if !ok { EntriesFail(es, i + 1, v); return; }
      Associative(was, EncodeEntries(es[..i], v).value, EncodeText(es[i].key) + Encode(es[i].value).value);
    }
    assert es[..|es|] == es;
    Associative(old(output.bytes), Length(111, |es|), EncodeEntries(es, v).value);
    ok := true;
  }

  lemma NoEntries(v: Value)
    requires v.Dict?
    ensures EncodeEntries([], v) == Some([])
  {
  }
}
