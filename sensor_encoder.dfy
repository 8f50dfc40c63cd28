/**
 * The sensor payload record that every sampling task fills in, and the
 * CBOR encoder that writes one payload into the batch being built
 * (`encode_sensor_payload`).
 *
 * A payload is encoded as an indefinite-length map
 *   { "sensor": <name>, "timestamp": <uint>, "fields": { <field name>: <value>, ... } }
 * where the inner map is indefinite-length too and holds the first
 * `field_count` fields in order.
 *
 * The C value union (`float f; int64_t i; uint64_t u; bool b;`) is held as
 * its raw 64-bit storage; the four members are views of it on a
 * little-endian machine: `u` is the storage, `i` its two's complement
 * reading, `f` the bit pattern of the low four bytes and `b` the low byte.
 * Character arrays are held as the bytes before their terminating NUL.
 */
module SensorEncoder {
  import opened Wrappers
  import opened Cbor
  import opened CborWriter
  import Esp

  const SENSOR_NAME_MAX_LEN: nat := 16
  const SENSOR_FIELD_NAME_LEN: nat := 16
  const SENSOR_MAX_FIELDS: nat := 5

  /** `sensor_field_datatype_t`. */
  const DATATYPE_INVALID: int := 0
  const DATATYPE_FLOAT: int := 1
  const DATATYPE_INT: int := 2
  const DATATYPE_LONG_INT: int := 3
  const DATATYPE_UINT: int := 4
  const DATATYPE_LONG_UINT: int := 5
  const DATATYPE_BOOL: int := 6

  /** The keys of a payload map, as ASCII bytes. */
  const KEY_SENSOR: seq<Byte> := [0x73, 0x65, 0x6E, 0x73, 0x6F, 0x72]                   // "sensor"
  const KEY_TIMESTAMP: seq<Byte> := [0x74, 0x69, 0x6D, 0x65, 0x73, 0x74, 0x61, 0x6D, 0x70] // "timestamp"
  const KEY_FIELDS: seq<Byte> := [0x66, 0x69, 0x65, 0x6C, 0x64, 0x73]                   // "fields"

  /** The contents of a `char[capacity]` array that holds a NUL-terminated string. */
  predicate IsCString(s: seq<Byte>, capacity: nat)
  {
    |s| < capacity && forall k :: 0 <= k < |s| ==> s[k] != 0
  }

  /** `sensor_field_t`: a name, a type tag and the raw storage of the value union. */
  datatype SensorField = SensorField(name: seq<Byte>, fieldType: int, raw: Esp.U64)

  /** `sensor_payload_t`: `fields` is the whole array, `fieldCount` how many of it are in use. */
  datatype SensorPayload = SensorPayload(
    sensor: seq<Byte>,
    timestamp: Esp.U64,
    fields: seq<SensorField>,
    fieldCount: nat)

  /**
   * What the encoder needs of a payload: NUL-terminated names that fit their
   * arrays, and a field count within the array (the loop reads
   * `fields[0..field_count)`).
   */
  predicate Encodable(p: SensorPayload)
  {
    && IsCString(p.sensor, SENSOR_NAME_MAX_LEN)
    && |p.fields| == SENSOR_MAX_FIELDS
    && p.fieldCount <= SENSOR_MAX_FIELDS
    && forall k :: 0 <= k < p.fieldCount ==> IsCString(p.fields[k].name, SENSOR_FIELD_NAME_LEN)
  }

  /** `value.i`: the storage read as a two's complement 64-bit integer. */
  function ValueI(f: SensorField): (r: int)
    ensures INT64_MIN <= r < INT64_LIMIT
    ensures (r - f.raw) % Esp.TWO_64 == 0
  {
    if f.raw < INT64_LIMIT then f.raw else f.raw - Esp.TWO_64
  }

  /** `value.f`: the IEEE 754 bits in the low four bytes of the storage. */
  function ValueFloatBits(f: SensorField): (r: nat)
    ensures r < TWO_32
  {
    f.raw % TWO_32
  }

  /** `value.b`: the low byte of the storage. */
  function ValueB(f: SensorField): bool
  {
    f.raw % 256 != 0
  }

  /** The CBOR item the switch on the field's type writes for its value. */
  function ValueItem(f: SensorField): (r: Item)
    ensures WellFormed(r)
  {
    if f.fieldType == DATATYPE_FLOAT then Float32(ValueFloatBits(f))
    else if f.fieldType == DATATYPE_INT || f.fieldType == DATATYPE_LONG_INT then IntItem(ValueI(f))
    else if f.fieldType == DATATYPE_UINT || f.fieldType == DATATYPE_LONG_UINT then UInt(f.raw)
    else if f.fieldType == DATATYPE_BOOL then Bool(ValueB(f))
    else Null
  }

  function FieldEntry(f: SensorField): (r: Entry)
    requires IsCString(f.name, SENSOR_FIELD_NAME_LEN)
    ensures EntryWellFormed(r)
  {
    Entry(Text(f.name), ValueItem(f))
  }

  /** The entries of the "fields" map: one per field in use, in array order. */
  function FieldEntries(p: SensorPayload): (r: seq<Entry>)
    requires Encodable(p)
    ensures |r| == p.fieldCount && EntriesWellFormed(r)
  {
    var r := seq(p.fieldCount, k requires 0 <= k < p.fieldCount => FieldEntry(p.fields[k]));
    EntriesWellFormedFromEach(r);
    r
  }

  /** The three entries of a payload map. */
  function SensorEntry(p: SensorPayload): (r: Entry)
    requires Encodable(p)
    ensures EntryWellFormed(r)
  {
    Entry(Text(KEY_SENSOR), Text(p.sensor))
  }

  function TimestampEntry(p: SensorPayload): (r: Entry)
    ensures EntryWellFormed(r)
  {
    Entry(Text(KEY_TIMESTAMP), UInt(p.timestamp))
  }

  function FieldsEntry(p: SensorPayload): (r: Entry)
    requires Encodable(p)
    ensures EntryWellFormed(r)
  {
    Entry(Text(KEY_FIELDS), IndefMap(FieldEntries(p)))
  }

  /** The data item `encode_sensor_payload` writes for a payload. */
  function PayloadItem(p: SensorPayload): (r: Item)
    requires Encodable(p)
    ensures WellFormed(r)
  {
    EncodeMap3(SensorEntry(p), TimestampEntry(p), FieldsEntry(p));
    IndefMap([SensorEntry(p), TimestampEntry(p), FieldsEntry(p)])
  }

  /** The `switch (field->type)`: the value written after the field's name. */
  method EncodeValue(w: Writer, field: SensorField)
    requires w.Valid()
    modifies w`pos, w`oom, w`Requested, w.buf
    ensures w.Valid() && w.buf == old(w.buf) && (old(w.oom) ==> w.oom)
    ensures w.Requested == old(w.Requested) + Encode(ValueItem(field))
  {
    var e;
    if field.fieldType == DATATYPE_FLOAT {
      e := w.EncodeFloat(ValueFloatBits(field));
    } else if field.fieldType == DATATYPE_INT || field.fieldType == DATATYPE_LONG_INT {
      e := w.EncodeInt(ValueI(field));
    } else if field.fieldType == DATATYPE_UINT || field.fieldType == DATATYPE_LONG_UINT {
      e := w.EncodeUint(field.raw);
    } else if field.fieldType == DATATYPE_BOOL {
      e := w.EncodeBoolean(ValueB(field));
    } else {
      e := w.EncodeNull();
    }
  }

  /** One field of the "fields" map: its name, then its value. */
  method EncodeField(w: Writer, field: SensorField)
    requires w.Valid() && IsCString(field.name, SENSOR_FIELD_NAME_LEN)
    modifies w`pos, w`oom, w`Requested, w.buf
    ensures w.Valid() && w.buf == old(w.buf) && (old(w.oom) ==> w.oom)
    ensures w.Requested == old(w.Requested) + EncodeEntry(FieldEntry(field))
  {
    ghost var r0 := w.Requested;
    var e := w.EncodeTextStringz(field.name);
    EncodeValue(w, field);
    Regroup(r0, Encode(Text(field.name)), Encode(ValueItem(field)));
  }

  /** The loop over `fields[0..field_count)`: each field's name, then its value. */
  method EncodeFields(w: Writer, p: SensorPayload)
    requires w.Valid() && Encodable(p)
    modifies w`pos, w`oom, w`Requested, w.buf
    ensures w.Valid() && w.buf == old(w.buf) && (old(w.oom) ==> w.oom)
    ensures w.Requested == old(w.Requested) + EncodeEntries(FieldEntries(p))
  {
    ghost var entries := FieldEntries(p);
    var i := 0;
    while i < p.fieldCount
      invariant i <= p.fieldCount
      invariant w.Valid() && w.buf == old(w.buf) && (old(w.oom) ==> w.oom)
      invariant EntriesWellFormed(entries[..i])
      invariant w.Requested == old(w.Requested) + EncodeEntries(entries[..i])
    {
      ghost var before := entries[..i];
      EncodeField(w, p.fields[i]);
      EncodeEntriesSnoc(before, entries[i]);
      Regroup(old(w.Requested), EncodeEntries(before), EncodeEntry(entries[i]));
      assert entries[..i + 1] == before + [entries[i]];
      i := i + 1;
    }
    assert entries[..i] == entries;
  }

  /**
   * `encode_sensor_payload(payload, sensors_array)`. Only a failure to open
   * the payload's map is reported (as ESP_FAIL, with nothing written); every
   * later call's error is ignored, so once the buffer overflows the rest of
   * the payload is simply not written.
   */
  method EncodeSensorPayload(w: Writer, p: SensorPayload) returns (err: Esp.Err)
    requires w.Valid() && Encodable(p)
    modifies w`pos, w`oom, w`Requested, w.buf
    ensures w.Valid() && w.buf == old(w.buf) && (old(w.oom) ==> w.oom)
    ensures err == Esp.OK || err == Esp.FAIL
    ensures err == Esp.OK <==> !old(w.oom) && old(w.pos) < w.buf.Length
    ensures err == Esp.OK ==> w.Requested == old(w.Requested) + Encode(PayloadItem(p))
    ensures err == Esp.FAIL ==> w.oom && w.pos == old(w.pos) && w.Requested == old(w.Requested) + [INDEF_MAP]
  {
    ghost var r0 := w.Requested;
    var e := w.CreateIndefiniteMap();
    if e != NoError {
      return Esp.FAIL;
    }
    ghost var r1 := w.Requested;
    e := w.EncodeTextStringz(KEY_SENSOR);
    e := w.EncodeTextStringz(p.sensor);
    Regroup(r1, Encode(Text(KEY_SENSOR)), Encode(Text(p.sensor)));
    ghost var r2 := w.Requested;
    e := w.EncodeTextStringz(KEY_TIMESTAMP);
    e := w.EncodeUint(p.timestamp);
    Regroup(r2, Encode(Text(KEY_TIMESTAMP)), Encode(UInt(p.timestamp)));
    ghost var r3 := w.Requested;
    e := w.EncodeTextStringz(KEY_FIELDS);
    ghost var r4 := w.Requested;
    e := w.CreateIndefiniteMap();
    EncodeFields(w, p);
    e := w.CloseIndefinite();
    EncodeMapAfter(r4, FieldEntries(p));
    Regroup(r3, Encode(Text(KEY_FIELDS)), Encode(IndefMap(FieldEntries(p))));
    e := w.CloseIndefinite();
    EncodeMap3After(r0, SensorEntry(p), TimestampEntry(p), FieldsEntry(p));
    err := Esp.OK;
  }

  // ---------------------------------------------------------------------
  // What the payload means, and what a consumer reads back from the wire.
  // ---------------------------------------------------------------------

  /** The value a field carries, as its producer means it. */
  datatype Reading =
    | FloatReading(bits: nat)   // an IEEE 754 single, by its bits
    | IntegerReading(v: int)
    | BoolReading(b: bool)
    | NoReading                 // a field of invalid type

  /** A payload as the server sees it: the sensor, the timestamp and the readings by name. */
  datatype Report = Report(sensor: seq<Byte>, timestamp: nat, readings: seq<(seq<Byte>, Reading)>)

  /** The value stored in a field, as selected by its type tag. */
  function FieldReading(f: SensorField): Reading
  {
    match f.fieldType
    case 1 => FloatReading(f.raw % TWO_32)
    case 2 => IntegerReading(if f.raw >= INT64_LIMIT then f.raw - Esp.TWO_64 else f.raw)
    case 3 => IntegerReading(if f.raw >= INT64_LIMIT then f.raw - Esp.TWO_64 else f.raw)
    case 4 => IntegerReading(f.raw)
    case 5 => IntegerReading(f.raw)
    case 6 => BoolReading(f.raw % 256 != 0)
    case _ => NoReading
  }

  /** The report a payload stands for. */
  function PayloadReport(p: SensorPayload): Report
    requires Encodable(p)
  {
    Report(p.sensor, p.timestamp,
      seq(p.fieldCount, k requires 0 <= k < p.fieldCount => (p.fields[k].name, FieldReading(p.fields[k]))))
  }

  /** A consumer's reading of a CBOR value. */
  function ValueReading(i: Item): Option<Reading>
  {
    match i
    case Float32(bits) => Some(FloatReading(bits))
    case UInt(n) => Some(IntegerReading(n))
    case NegInt(n) => Some(IntegerReading(-1 - n))
    case Bool(b) => Some(BoolReading(b))
    case Null => Some(NoReading)
    case _ => None
  }

  /** A consumer's reading of the "fields" map: text keys with readable values. */
  function ReadFields(es: seq<Entry>): Option<seq<(seq<Byte>, Reading)>>
  {
    if es == [] then Some([])
    else if !es[0].key.Text? then None
    else
      match ValueReading(es[0].value)
      case None => None
      case Some(r) =>
        match ReadFields(es[1..])
        case None => None
        case Some(rest) => Some([(es[0].key.bytes, r)] + rest)
  }

  /** A consumer's reading of one payload map, keyed exactly as the encoder writes it. */
  function ReadReport(i: Item): Option<Report>
  {
    if !i.IndefMap? || |i.entries| != 3 then None
    else
      var es := i.entries;
      if es[0].key != Text(KEY_SENSOR) || !es[0].value.Text? then None
      else if es[1].key != Text(KEY_TIMESTAMP) || !es[1].value.UInt? then None
      else if es[2].key != Text(KEY_FIELDS) || !es[2].value.IndefMap? then None
      else
        match ReadFields(es[2].value.entries)
        case None => None
        case Some(readings) => Some(Report(es[0].value.bytes, es[1].value.n, readings))
  }

  /** Reading a value back gives what the field's type tag selects. */
  lemma ValueReadingOfField(f: SensorField)
    ensures ValueReading(ValueItem(f)) == Some(FieldReading(f))
  {
  }

  lemma {:induction false} ReadFieldsOfPayload(p: SensorPayload, n: nat)
    requires Encodable(p) && n <= p.fieldCount
    ensures ReadFields(FieldEntries(p)[p.fieldCount - n..]) == Some(PayloadReport(p).readings[p.fieldCount - n..])
    decreases n
  {
    var es, rs := FieldEntries(p), PayloadReport(p).readings;
    var j := p.fieldCount - n;
    if n == 0 {
      assert es[j..] == [] && rs[j..] == [];
    } else {
      ReadFieldsOfPayload(p, n - 1);
      assert es[j..][0] == es[j] == FieldEntry(p.fields[j]);
      assert es[j..][1..] == es[j + 1..];
      ValueReadingOfField(p.fields[j]);
      assert rs[j] == (p.fields[j].name, FieldReading(p.fields[j]));
      assert rs[j..] == [rs[j]] + rs[j + 1..];
    }
  }

  /** The consumer reads back exactly the report the payload stands for. */
  lemma ReadPayloadItem(p: SensorPayload)
    requires Encodable(p)
    ensures ReadReport(PayloadItem(p)) == Some(PayloadReport(p))
  {
    ReadFieldsOfPayload(p, p.fieldCount);
    assert FieldEntries(p)[0..] == FieldEntries(p);
    assert PayloadReport(p).readings[0..] == PayloadReport(p).readings;
  }

  /**
   * From the wire: decoding the bytes of an encoded payload, whatever follows
   * them, gives an item whose reading is the payload's report, and leaves the
   * bytes that follow.
   */
  lemma DecodePayload(p: SensorPayload, rest: seq<Byte>)
    requires Encodable(p)
    ensures Decode(Encode(PayloadItem(p)) + rest) == Some((PayloadItem(p), rest))
    ensures ReadReport(PayloadItem(p)) == Some(PayloadReport(p))
  {
    DecodeEncode(PayloadItem(p), rest);
    ReadPayloadItem(p);
  }

  // ---------------------------------------------------------------------
  // How many bytes a payload takes.
  // ---------------------------------------------------------------------

  /** The bytes a field's value takes, from its type tag and storage. */
  function ValueSize(f: SensorField): nat
  {
    if f.fieldType == DATATYPE_FLOAT then 5
    else if f.fieldType == DATATYPE_INT || f.fieldType == DATATYPE_LONG_INT then
      HeadSize(if f.raw < INT64_LIMIT then f.raw else Esp.TWO_64 - 1 - f.raw)
    else if f.fieldType == DATATYPE_UINT || f.fieldType == DATATYPE_LONG_UINT then HeadSize(f.raw)
    else 1
  }

  /** The bytes of the first n fields: each a text key followed by its value. */
  function FieldsSize(fields: seq<SensorField>, n: nat): nat
    requires n <= |fields|
  {
    if n == 0 then 0
    else FieldsSize(fields, n - 1) + HeadSize(|fields[n - 1].name|) + |fields[n - 1].name| + ValueSize(fields[n - 1])
  }

  /**
   * The bytes of a whole payload: two map markers, two break codes, the
   * three keys (7 + 10 + 7 bytes), the sensor name, the timestamp and the fields.
   */
  function PayloadSize(p: SensorPayload): nat
    requires Encodable(p)
  {
    28 + HeadSize(|p.sensor|) + |p.sensor| + HeadSize(p.timestamp) + FieldsSize(p.fields, p.fieldCount)
  }

  /** The most any encodable payload takes. */
  const PAYLOAD_MAX_SIZE: nat := 178

  lemma ValueEncodingSize(f: SensorField)
    ensures |Encode(ValueItem(f))| == ValueSize(f)
  {
  }

  lemma {:induction false} FieldEntriesSize(p: SensorPayload, n: nat)
    requires Encodable(p) && n <= p.fieldCount
    ensures EntriesWellFormed(FieldEntries(p)[..n])
    ensures |EncodeEntries(FieldEntries(p)[..n])| == FieldsSize(p.fields, n)
    decreases n
  {
    var es := FieldEntries(p);
    if n == 0 {
      assert es[..0] == [];
    } else {
      FieldEntriesSize(p, n - 1);
      EncodeEntriesSnoc(es[..n - 1], es[n - 1]);
      assert es[..n] == es[..n - 1] + [es[n - 1]];
      ValueEncodingSize(p.fields[n - 1]);
    }
  }

  /** The size of a payload's encoding, computed from its parts. */
  lemma PayloadEncodingSize(p: SensorPayload)
    requires Encodable(p)
    ensures |Encode(PayloadItem(p))| == PayloadSize(p)
  {
    EncodeMap3(SensorEntry(p), TimestampEntry(p), FieldsEntry(p));
    FieldEntriesSize(p, p.fieldCount);
    assert FieldEntries(p)[..p.fieldCount] == FieldEntries(p);
    assert |KEY_SENSOR| == 6 && |KEY_TIMESTAMP| == 9 && |KEY_FIELDS| == 6;
  }

  lemma {:induction false} FieldsSizeBound(fields: seq<SensorField>, n: nat)
    requires n <= |fields|
    requires forall k :: 0 <= k < n ==> IsCString(fields[k].name, SENSOR_FIELD_NAME_LEN)
    ensures FieldsSize(fields, n) <= 25 * n
    decreases n
  {
    if n > 0 {
      FieldsSizeBound(fields, n - 1);
      assert ValueSize(fields[n - 1]) <= 9;
    }
  }

  /** No encodable payload takes more than PAYLOAD_MAX_SIZE bytes. */
  lemma PayloadSizeBound(p: SensorPayload)
    requires Encodable(p)
    ensures |Encode(PayloadItem(p))| <= PAYLOAD_MAX_SIZE
  {
    PayloadEncodingSize(p);
    FieldsSizeBound(p.fields, p.fieldCount);
  }
}
