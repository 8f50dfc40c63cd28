/**
 * The part of CBOR (RFC 8949) that the telemetry messages use, at the level
 * of bytes on the wire:
 *   - the initial byte and argument of a data item (RFC 8949 section 3, section 3.1
 *     for the major types 0 unsigned, 1 negative, 3 text, 4 array),
 *   - indefinite-length maps closed by the "break" stop code 0xFF
 *     (RFC 8949 sections 3.2.1 and 3.2.2),
 *   - single-precision floats (0xFA) and the simple values false, true and
 *     null (0xF4, 0xF5, 0xF6; RFC 8949 section 3.3).
 * Arguments are always written in their shortest form, as TinyCBOR does.
 * Float payloads are carried as their 32 IEEE 754 bits and never interpreted.
 *
 * `Decode` is a reader for the same subset; `DecodeEncode` proves that it
 * recovers every well-formed item from its encoding, whatever follows it.
 */
module Cbor {
  import opened Wrappers

  type Byte = x: int | 0 <= x < 256

  const TWO_32: nat := 0x1_0000_0000
  const TWO_64: nat := 0x1_0000_0000_0000_0000

  /** The stop code that closes an indefinite-length item (RFC 8949 section 3.2.1). */
  const BREAK: Byte := 0xFF
  /** Initial byte of an indefinite-length map: major type 5, additional information 31. */
  const INDEF_MAP: Byte := 0xBF
  /** Initial byte of a single-precision float: major type 7, additional information 26. */
  const FLOAT32: Byte := 0xFA
  const SIMPLE_FALSE: Byte := 0xF4
  const SIMPLE_TRUE: Byte := 0xF5
  const SIMPLE_NULL: Byte := 0xF6

  const MAJOR_UNSIGNED: nat := 0
  const MAJOR_NEGATIVE: nat := 1
  const MAJOR_TEXT: nat := 3
  const MAJOR_ARRAY: nat := 4

  /** A CBOR data item of the subset. */
  datatype Item =
    | UInt(n: nat)              // major type 0: the integer n
    | NegInt(n: nat)            // major type 1: the integer -1 - n
    | Text(bytes: seq<Byte>)    // major type 3: UTF-8 text (here: the C string's bytes)
    | Array(items: seq<Item>)   // major type 4, definite length
    | IndefMap(entries: seq<Entry>) // major type 5, indefinite length
    | Float32(bits: nat)        // major type 7, additional information 26
    | Bool(b: bool)             // simple values 20 and 21
    | Null                      // simple value 22

  datatype Entry = Entry(key: Item, value: Item)

  /** The signed integer a major type 0 or 1 item stands for. */
  function IntValue(i: Item): int
    requires i.UInt? || i.NegInt?
  {
    if i.UInt? then i.n else -1 - i.n
  }

  /** Every argument fits the 64 bits the wire format allows; floats are 32 bits. */
  predicate WellFormed(i: Item)
  {
    match i
    case UInt(n) => n < TWO_64
    case NegInt(n) => n < TWO_64
    case Text(b) => |b| < TWO_64
    case Array(items) => |items| < TWO_64 && AllWellFormed(items)
    case IndefMap(es) => EntriesWellFormed(es)
    case Float32(bits) => bits < TWO_32
    case Bool(_) => true
    case Null => true
  }

  predicate AllWellFormed(items: seq<Item>)
  {
    items == [] || (WellFormed(items[0]) && AllWellFormed(items[1..]))
  }

  predicate EntryWellFormed(e: Entry)
  {
    WellFormed(e.key) && WellFormed(e.value)
  }

  predicate EntriesWellFormed(es: seq<Entry>)
  {
    es == [] || (EntryWellFormed(es[0]) && EntriesWellFormed(es[1..]))
  }

  function Pow256(k: nat): (r: nat)
    ensures r >= 1
  {
    if k == 0 then 1 else 256 * Pow256(k - 1)
  }

  /** The value of a big-endian byte string ("network byte order", RFC 8949 section 3). */
  function FromBigEndian(s: seq<Byte>): nat
  {
    if s == [] then 0 else FromBigEndian(s[..|s| - 1]) * 256 + s[|s| - 1]
  }

  /** n written as exactly k big-endian bytes; reading them back gives n. */
  function BigEndian(n: nat, k: nat): (r: seq<Byte>)
    requires n < Pow256(k)
    ensures |r| == k && FromBigEndian(r) == n
    decreases k
  {
    if k == 0 then []
    else
      var high := BigEndian(n / 256, k - 1);
      var r := high + [n % 256];
      assert r[..|r| - 1] == high;
      r
  }

  /**
   * The additional information of the shortest head for an argument
   * (RFC 8949 section 3): the argument itself below 24, else 24, 25, 26 or 27 for an
   * argument in the following 1, 2, 4 or 8 bytes.
   */
  function HeadInfo(arg: nat): (info: nat)
    ensures info < 28 && (info < 24 <==> arg < 24) && (info < 24 ==> info == arg)
  {
    if arg < 24 then arg
    else if arg < 0x100 then 24
    else if arg < 0x1_0000 then 25
    else if arg < TWO_32 then 26
    else 27
  }

  /** The number of argument bytes that follow the initial byte. */
  function ArgWidth(arg: nat): nat
  {
    if arg < 24 then 0
    else if arg < 0x100 then 1
    else if arg < 0x1_0000 then 2
    else if arg < TWO_32 then 4
    else 8
  }

  /** The number of bytes the shortest head for an argument takes. */
  function HeadSize(arg: nat): nat
  {
    1 + ArgWidth(arg)
  }

  function ArgumentBytes(arg: nat): (r: seq<Byte>)
    requires arg < TWO_64
    ensures |r| == ArgWidth(arg) && (arg >= 24 ==> FromBigEndian(r) == arg)
  {
    Pow256Values();
    if arg < 24 then [] else BigEndian(arg, ArgWidth(arg))
  }

  /**
   * The initial byte and argument of an item of the given major type
   * (RFC 8949 section 3): the major type in the top three bits, the additional
   * information in the low five, and then the argument bytes.
   */
  function Head(major: nat, arg: nat): (r: seq<Byte>)
    requires major < 8 && arg < TWO_64
    ensures |r| == HeadSize(arg)
    ensures major * 32 <= r[0] < major * 32 + 28
  {
    [major * 32 + HeadInfo(arg)] + ArgumentBytes(arg)
  }

  /** The bytes of a data item, as a CBOR encoder writes them. */
  function Encode(i: Item): (r: seq<Byte>)
    requires WellFormed(i)
    ensures |r| >= 1 && r[0] != BREAK
  {
    match i
    case UInt(n) => Head(MAJOR_UNSIGNED, n)
    case NegInt(n) => Head(MAJOR_NEGATIVE, n)
    case Text(b) => Head(MAJOR_TEXT, |b|) + b
    case Array(items) => Head(MAJOR_ARRAY, |items|) + EncodeAll(items)
    case IndefMap(es) => [INDEF_MAP] + EncodeEntries(es) + [BREAK]
    case Float32(bits) =>
      assert Pow256(4) == TWO_32;
      [FLOAT32] + BigEndian(bits, 4)
    case Bool(b) => [if b then SIMPLE_TRUE else SIMPLE_FALSE]
    case Null => [SIMPLE_NULL]
  }

  function EncodeAll(items: seq<Item>): seq<Byte>
    requires AllWellFormed(items)
  {
    if items == [] then [] else Encode(items[0]) + EncodeAll(items[1..])
  }

  function EncodeEntry(e: Entry): seq<Byte>
    requires EntryWellFormed(e)
  {
    Encode(e.key) + Encode(e.value)
  }

  function EncodeEntries(es: seq<Entry>): seq<Byte>
    requires EntriesWellFormed(es)
  {
    if es == [] then [] else EncodeEntry(es[0]) + EncodeEntries(es[1..])
  }

  /** Reads an initial byte and its argument: (major type, argument, rest). */
  function DecodeHead(s: seq<Byte>): (r: Option<(nat, nat, seq<Byte>)>)
    ensures r.Some? ==> |r.value.2| < |s|
  {
    if |s| == 0 then None
    else
      var major, info := s[0] / 32, s[0] % 32;
      if info < 24 then Some((major, info, s[1..]))
      else if info == 24 && |s| >= 2 then Some((major, FromBigEndian(s[1..2]), s[2..]))
      else if info == 25 && |s| >= 3 then Some((major, FromBigEndian(s[1..3]), s[3..]))
      else if info == 26 && |s| >= 5 then Some((major, FromBigEndian(s[1..5]), s[5..]))
      else if info == 27 && |s| >= 9 then Some((major, FromBigEndian(s[1..9]), s[9..]))
      else None
  }

  /** Reads one data item of the subset from the front of s: (item, rest). */
  function Decode(s: seq<Byte>): (r: Option<(Item, seq<Byte>)>)
    ensures r.Some? ==> |r.value.1| < |s|
    decreases |s|, 0
  {
    if |s| == 0 then None
    else if s[0] == INDEF_MAP then
      match DecodeEntries(s[1..])
      case None => None
      case Some((es, rest)) => Some((IndefMap(es), rest))
    else if s[0] == FLOAT32 then
      if |s| >= 5 then Some((Float32(FromBigEndian(s[1..5])), s[5..])) else None
    else if s[0] == SIMPLE_FALSE then Some((Bool(false), s[1..]))
    else if s[0] == SIMPLE_TRUE then Some((Bool(true), s[1..]))
    else if s[0] == SIMPLE_NULL then Some((Null, s[1..]))
    else
      match DecodeHead(s)
      case None => None
      case Some((major, arg, rest)) => DecodeBody(major, arg, rest)
  }

  /** What follows the head of an item of major type 0, 1, 3 or 4. */
  function DecodeBody(major: nat, arg: nat, rest: seq<Byte>): (r: Option<(Item, seq<Byte>)>)
    ensures r.Some? ==> |r.value.1| <= |rest|
    decreases |rest|, 2
  {
    if major == MAJOR_UNSIGNED then Some((UInt(arg), rest))
    else if major == MAJOR_NEGATIVE then Some((NegInt(arg), rest))
    else if major == MAJOR_TEXT then
      if arg <= |rest| then Some((Text(rest[..arg]), rest[arg..])) else None
    else if major == MAJOR_ARRAY then
      match DecodeItems(rest, arg)
      case None => None
      case Some((items, rest')) => Some((Array(items), rest'))
    else None
  }

  /** Reads n consecutive data items (the elements of a definite-length array). */
  function DecodeItems(s: seq<Byte>, n: nat): (r: Option<(seq<Item>, seq<Byte>)>)
    ensures r.Some? ==> |r.value.1| <= |s|
    decreases |s|, 1, n
  {
    if n == 0 then Some(([], s))
    else
      match Decode(s)
      case None => None
      case Some((x, s1)) =>
        match DecodeItems(s1, n - 1)
        case None => None
        case Some((xs, s2)) => Some(([x] + xs, s2))
  }

  /** Reads key/value pairs up to and including the break code. */
  function DecodeEntries(s: seq<Byte>): (r: Option<(seq<Entry>, seq<Byte>)>)
    ensures r.Some? ==> |r.value.1| < |s|
    decreases |s|, 1
  {
    if |s| == 0 then None
    else if s[0] == BREAK then Some(([], s[1..]))
    else
      match Decode(s)
      case None => None
      case Some((k, s1)) =>
        match Decode(s1)
        case None => None
        case Some((v, s2)) =>
          match DecodeEntries(s2)
          case None => None
          case Some((es, s3)) => Some(([Entry(k, v)] + es, s3))
  }

  /** The initial byte carries the major type in its top three bits (RFC 8949 section 3). */
  lemma InitialByte(major: nat, info: nat)
    requires major < 8 && info < 32
    ensures (major * 32 + info) / 32 == major && (major * 32 + info) % 32 == info
  {
  }

  lemma Pow256Values()
    ensures Pow256(1) == 0x100 && Pow256(2) == 0x1_0000
    ensures Pow256(4) == TWO_32 && Pow256(8) == TWO_64
  {
  }

  /** Reading a head back gives its major type, its argument and what followed it. */
  lemma HeadRoundTrip(major: nat, arg: nat, rest: seq<Byte>)
    requires major < 8 && arg < TWO_64
    ensures DecodeHead(Head(major, arg) + rest) == Some((major, arg, rest))
  {
    var info, k := HeadInfo(arg), ArgWidth(arg);
    var s := Head(major, arg) + rest;
    InitialByte(major, info);
    assert s[0] == major * 32 + info;
    assert s[1..1 + k] == ArgumentBytes(arg);
    assert s[1 + k..] == rest;
  }

  /** An item that starts with a head is read by `DecodeBody`. */
  lemma DecodeHeaded(major: nat, arg: nat, rest: seq<Byte>)
    requires major <= MAJOR_ARRAY && arg < TWO_64
    ensures Decode(Head(major, arg) + rest) == DecodeBody(major, arg, rest)
  {
    var s := Head(major, arg) + rest;
    assert s[0] == Head(major, arg)[0] < INDEF_MAP;
    HeadRoundTrip(major, arg, rest);
  }

  /** Concatenation regroups. */
  lemma Regroup(a: seq<Byte>, b: seq<Byte>, c: seq<Byte>)
    ensures a + b + c == a + (b + c)
  {
  }

  /** An indefinite-length map is read by reading its entries. */
  lemma DecodeIndefMapStart(t: seq<Byte>, es: seq<Entry>, r: seq<Byte>)
    requires DecodeEntries(t) == Some((es, r))
    ensures Decode([INDEF_MAP] + t) == Some((IndefMap(es), r))
  {
    assert ([INDEF_MAP] + t)[1..] == t;
  }

  /** A one-byte item: the simple values and every head below 24. */
  lemma DecodeSingle(b: Byte, rest: seq<Byte>)
    ensures ([b] + rest)[0] == b && ([b] + rest)[1..] == rest
  {
  }

  lemma DecodeEncodeText(b: seq<Byte>, rest: seq<Byte>)
    requires |b| < TWO_64
    ensures Decode(Encode(Text(b)) + rest) == Some((Text(b), rest))
  {
    Regroup(Head(MAJOR_TEXT, |b|), b, rest);
    DecodeHeaded(MAJOR_TEXT, |b|, b + rest);
    assert (b + rest)[..|b|] == b && (b + rest)[|b|..] == rest;
  }

  lemma DecodeEncodeFloat(bits: nat, rest: seq<Byte>)
    requires bits < TWO_32
    ensures Decode(Encode(Float32(bits)) + rest) == Some((Float32(bits), rest))
  {
    var s := Encode(Float32(bits)) + rest;
    assert s[0] == FLOAT32 && s[1..5] == Encode(Float32(bits))[1..] && s[5..] == rest;
  }

  /** RFC 8949 round trip: decoding an encoded item gives it back and leaves what followed. */
  lemma {:induction false} DecodeEncode(i: Item, rest: seq<Byte>)
    requires WellFormed(i)
    ensures Decode(Encode(i) + rest) == Some((i, rest))
    decreases i, 1
  {
    match i
    case UInt(n) => DecodeHeaded(MAJOR_UNSIGNED, n, rest);
    case NegInt(n) => DecodeHeaded(MAJOR_NEGATIVE, n, rest);
    case Text(b) => DecodeEncodeText(b, rest);
    case Array(items) =>
      Regroup(Head(MAJOR_ARRAY, |items|), EncodeAll(items), rest);
      DecodeHeaded(MAJOR_ARRAY, |items|, EncodeAll(items) + rest);
      DecodeEncodeAll(items, rest);
    case IndefMap(es) =>
      var t := EncodeEntries(es) + [BREAK] + rest;
      Regroup([INDEF_MAP], EncodeEntries(es) + [BREAK], rest);
      Regroup([INDEF_MAP], EncodeEntries(es), [BREAK]);
      DecodeEncodeEntries(es, rest);
      DecodeIndefMapStart(t, es, rest);
    case Float32(bits) => DecodeEncodeFloat(bits, rest);
    case Bool(b) => DecodeSingle(Encode(i)[0], rest);
    case Null => DecodeSingle(SIMPLE_NULL, rest);
  }

  lemma {:induction false} DecodeEncodeAll(items: seq<Item>, rest: seq<Byte>)
    requires AllWellFormed(items)
    ensures DecodeItems(EncodeAll(items) + rest, |items|) == Some((items, rest))
    decreases items, 0
  {
    if items != [] {
      var tail := EncodeAll(items[1..]) + rest;
      Regroup(Encode(items[0]), EncodeAll(items[1..]), rest);
      DecodeEncode(items[0], tail);
      DecodeEncodeAll(items[1..], rest);
      assert DecodeItems(tail, |items| - 1) == Some((items[1..], rest));
      assert [items[0]] + items[1..] == items;
    } else {
      assert EncodeAll(items) + rest == rest;
    }
  }

  lemma {:induction false} DecodeEncodeEntry(e: Entry, rest: seq<Byte>)
    requires EntryWellFormed(e)
    ensures Decode(EncodeEntry(e) + rest) == Some((e.key, Encode(e.value) + rest))
    ensures Decode(Encode(e.value) + rest) == Some((e.value, rest))
    decreases e, 2
  {
    Regroup(Encode(e.key), Encode(e.value), rest);
    DecodeEncode(e.key, Encode(e.value) + rest);
    DecodeEncode(e.value, rest);
  }

  /** One key/value pair in front of the rest of a map's entries. */
  lemma DecodeEntriesStep(s: seq<Byte>, k: Item, s1: seq<Byte>, v: Item, s2: seq<Byte>, es: seq<Entry>, s3: seq<Byte>)
    requires s != [] && s[0] != BREAK
    requires Decode(s) == Some((k, s1)) && Decode(s1) == Some((v, s2))
    requires DecodeEntries(s2) == Some((es, s3))
    ensures DecodeEntries(s) == Some(([Entry(k, v)] + es, s3))
  {
  }

  lemma {:induction false} DecodeEncodeEntries(es: seq<Entry>, rest: seq<Byte>)
    requires EntriesWellFormed(es)
    ensures DecodeEntries(EncodeEntries(es) + [BREAK] + rest) == Some((es, rest))
    decreases es, 0
  {
    var s := EncodeEntries(es) + [BREAK] + rest;
    if es == [] {
      assert s == [BREAK] + rest;
      DecodeSingle(BREAK, rest);
    } else {
      var e := es[0];
      var tail := EncodeEntries(es[1..]) + [BREAK] + rest;
      Regroup(EncodeEntry(e), EncodeEntries(es[1..]), [BREAK]);
      Regroup(EncodeEntry(e), EncodeEntries(es[1..]) + [BREAK], rest);
      assert s == EncodeEntry(e) + tail;
      Regroup(Encode(e.key), Encode(e.value), tail);
      assert s[0] == Encode(e.key)[0];
      DecodeEncodeEntry(e, tail);
      DecodeEncodeEntries(es[1..], rest);
      DecodeEntriesStep(s, e.key, Encode(e.value) + tail, e.value, tail, es[1..], rest);
      assert [Entry(e.key, e.value)] + es[1..] == es;
    }
  }

  /** A sequence of entries is well-formed when each of its entries is. */
  lemma {:induction false} EntriesWellFormedFromEach(es: seq<Entry>)
    requires forall k :: 0 <= k < |es| ==> EntryWellFormed(es[k])
    ensures EntriesWellFormed(es)
    decreases |es|
  {
    if es != [] {
      assert forall k :: 0 <= k < |es[1..]| ==> es[1..][k] == es[k + 1];
      EntriesWellFormedFromEach(es[1..]);
    }
  }

  /** A sequence of items is well-formed when each of its items is. */
  lemma {:induction false} AllWellFormedFromEach(items: seq<Item>)
    requires forall k :: 0 <= k < |items| ==> WellFormed(items[k])
    ensures AllWellFormed(items)
    decreases |items|
  {
    if items != [] {
      assert forall k :: 0 <= k < |items[1..]| ==> items[1..][k] == items[k + 1];
      AllWellFormedFromEach(items[1..]);
    }
  }

  /** Entries are encoded one after the other: one more entry appends its bytes. */
  lemma {:induction false} EncodeEntriesSnoc(es: seq<Entry>, e: Entry)
    requires EntriesWellFormed(es) && EntryWellFormed(e)
    ensures EntriesWellFormed(es + [e])
    ensures EncodeEntries(es + [e]) == EncodeEntries(es) + EncodeEntry(e)
    decreases |es|
  {
    if es == [] {
      assert es + [e] == [e] && [e][1..] == [];
    } else {
      assert (es + [e])[0] == es[0] && (es + [e])[1..] == es[1..] + [e];
      EncodeEntriesSnoc(es[1..], e);
    }
  }

  lemma {:induction false} AllWellFormedSnoc(items: seq<Item>, i: Item)
    requires AllWellFormed(items) && WellFormed(i)
    ensures AllWellFormed(items + [i])
    decreases |items|
  {
    if items == [] {
      assert items + [i] == [i] && [i][1..] == [];
    } else {
      assert (items + [i])[0] == items[0] && (items + [i])[1..] == items[1..] + [i];
      AllWellFormedSnoc(items[1..], i);
    }
  }

  /** Items are encoded one after the other: one more item appends its bytes. */
  lemma {:induction false} EncodeAllSnoc(items: seq<Item>, i: Item)
    requires AllWellFormed(items) && WellFormed(i)
    ensures AllWellFormed(items + [i])
    ensures EncodeAll(items + [i]) == EncodeAll(items) + Encode(i)
    decreases |items|
  {
    AllWellFormedSnoc(items, i);
    if items == [] {
      assert items + [i] == [i] && [i][1..] == [];
    } else {
      var xs := items + [i];
      assert xs[0] == items[0] && xs[1..] == items[1..] + [i];
      EncodeAllSnoc(items[1..], i);
      Regroup(Encode(items[0]), EncodeAll(items[1..]), Encode(i));
    }
  }

  /** The first entry's bytes come first. */
  lemma EncodeEntriesCons(e: Entry, es: seq<Entry>)
    requires EntryWellFormed(e) && EntriesWellFormed(es)
    ensures EntriesWellFormed([e] + es)
    ensures EncodeEntries([e] + es) == EncodeEntry(e) + EncodeEntries(es)
  {
    assert ([e] + es)[0] == e && ([e] + es)[1..] == es;
  }

  /** A three-entry indefinite-length map: its entries' bytes between 0xBF and the break code. */
  lemma EncodeMap3(a: Entry, b: Entry, c: Entry)
    requires EntryWellFormed(a) && EntryWellFormed(b) && EntryWellFormed(c)
    ensures WellFormed(IndefMap([a, b, c]))
    ensures Encode(IndefMap([a, b, c])) == [INDEF_MAP] + EncodeEntry(a) + EncodeEntry(b) + EncodeEntry(c) + [BREAK]
  {
    EncodeEntriesCons(c, []);
    assert [c] + [] == [c];
    EncodeEntriesCons(b, [c]);
    assert [b] + [c] == [b, c];
    EncodeEntriesCons(a, [b, c]);
    assert [a] + [b, c] == [a, b, c];
    assert EncodeEntries([c]) == EncodeEntry(c);
    Reassociate(EncodeEntry(a), EncodeEntry(b), EncodeEntry(c));
  }

  lemma Reassociate(x: seq<Byte>, y: seq<Byte>, z: seq<Byte>)
    ensures [INDEF_MAP] + (x + (y + z)) + [BREAK] == [INDEF_MAP] + x + y + z + [BREAK]
  {
  }

  /** The bytes of a map, written after some others. */
  lemma EncodeMapAfter(r: seq<Byte>, es: seq<Entry>)
    requires EntriesWellFormed(es)
    ensures r + [INDEF_MAP] + EncodeEntries(es) + [BREAK] == r + Encode(IndefMap(es))
  {
  }

  /** The bytes of a three-entry map, written entry by entry after some others. */
  lemma EncodeMap3After(r: seq<Byte>, a: Entry, b: Entry, c: Entry)
    requires EntryWellFormed(a) && EntryWellFormed(b) && EntryWellFormed(c)
    ensures WellFormed(IndefMap([a, b, c]))
    ensures r + [INDEF_MAP] + EncodeEntry(a) + EncodeEntry(b) + EncodeEntry(c) + [BREAK]
      == r + Encode(IndefMap([a, b, c]))
  {
    EncodeMap3(a, b, c);
    RegroupMap(r, EncodeEntry(a), EncodeEntry(b), EncodeEntry(c));
  }

  lemma RegroupMap(r: seq<Byte>, x: seq<Byte>, y: seq<Byte>, z: seq<Byte>)
    ensures r + [INDEF_MAP] + x + y + z + [BREAK] == r + ([INDEF_MAP] + x + y + z + [BREAK])
  {
  }
}
