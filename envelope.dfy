/**
 * The MQTT message the aggregation task builds around a batch of sensor
 * payloads:
 *   { "data": { "deviceId": "clock1", "sensor_data": [ <15 payload maps> ] } }
 * with both maps indefinite-length and the array of definite length 15.
 */
module Envelope {
  import opened Wrappers
  import opened Cbor
  import opened SensorEncoder

  const KEY_DATA: seq<Byte> := [0x64, 0x61, 0x74, 0x61]                                     // "data"
  const KEY_DEVICE_ID: seq<Byte> := [0x64, 0x65, 0x76, 0x69, 0x63, 0x65, 0x49, 0x64]        // "deviceId"
  const SENSOR_ID: seq<Byte> := [0x63, 0x6C, 0x6F, 0x63, 0x6B, 0x31]                        // "clock1"
  const KEY_SENSOR_DATA: seq<Byte> := [0x73, 0x65, 0x6E, 0x73, 0x6F, 0x72, 0x5F, 0x64, 0x61, 0x74, 0x61] // "sensor_data"

  /** `DATA_AGGREGATION_MAX_PAYLOADS`: the payloads in one message. */
  const MAX_PAYLOADS: nat := 15

  predicate AllEncodable(batch: seq<SensorPayload>)
  {
    forall k :: 0 <= k < |batch| ==> Encodable(batch[k])
  }

  /** The payload maps of a batch, in order. */
  function Items(batch: seq<SensorPayload>): (r: seq<Item>)
    requires AllEncodable(batch)
    ensures |r| == |batch| && AllWellFormed(r)
  {
    var r := seq(|batch|, k requires 0 <= k < |batch| => PayloadItem(batch[k]));
    AllWellFormedFromEach(r);
    r
  }

  /** The inner map, `{"deviceId": "clock1", "sensor_data": [...]}`. */
  function DataItem(batch: seq<SensorPayload>): (r: Item)
    requires AllEncodable(batch) && |batch| <= MAX_PAYLOADS
    ensures WellFormed(r)
  {
    var r := IndefMap([Entry(Text(KEY_DEVICE_ID), Text(SENSOR_ID)), Entry(Text(KEY_SENSOR_DATA), Array(Items(batch)))]);
    EntriesWellFormedFromEach(r.entries);
    r
  }

  /** The whole message for a batch. */
  function EnvelopeItem(batch: seq<SensorPayload>): (r: Item)
    requires AllEncodable(batch) && |batch| <= MAX_PAYLOADS
    ensures WellFormed(r)
  {
    var r := IndefMap([Entry(Text(KEY_DATA), DataItem(batch))]);
    EntriesWellFormedFromEach(r.entries);
    r
  }

  /**
   * The bytes the aggregation task writes before the first payload: the
   * outer map, "data", the inner map, "deviceId", "clock1", "sensor_data"
   * and the head of an array of 15.
   */
  const ENVELOPE_HEAD: seq<Byte> :=
    [INDEF_MAP] + ([0x64] + KEY_DATA) + [INDEF_MAP] + ([0x68] + KEY_DEVICE_ID)
    + ([0x66] + SENSOR_ID) + ([0x6B] + KEY_SENSOR_DATA) + [0x8F]

  /**
   * The head is 36 bytes, the items' encodings one after the other: every
   * text and the array of 15 have a one-byte head (0x64, 0x68, 0x66, 0x6B
   * for texts of 4, 8, 6 and 11 bytes, 0x8F for the array).
   */
  lemma EnvelopeHeadEncoding()
    ensures |ENVELOPE_HEAD| == 36
    ensures ENVELOPE_HEAD == [INDEF_MAP] + Encode(Text(KEY_DATA)) + [INDEF_MAP] + Encode(Text(KEY_DEVICE_ID))
                             + Encode(Text(SENSOR_ID)) + Encode(Text(KEY_SENSOR_DATA)) + Head(MAJOR_ARRAY, MAX_PAYLOADS)
  {
    ShortText(KEY_DATA);
    ShortText(KEY_DEVICE_ID);
    ShortText(SENSOR_ID);
    ShortText(KEY_SENSOR_DATA);
    ShortHead(MAJOR_ARRAY, MAX_PAYLOADS);
  }

  /** An argument below 24 is carried in the initial byte itself. */
  lemma ShortHead(major: nat, arg: nat)
    requires major < 8 && arg < 24
    ensures Head(major, arg) == [major * 32 + arg]
  {
    assert ArgumentBytes(arg) == [];
  }

  /** A text shorter than 24 bytes is one initial byte and then the bytes. */
  lemma ShortText(b: seq<Byte>)
    requires |b| < 24
    ensures Encode(Text(b)) == [0x60 + |b|] + b
  {
    ShortHead(MAJOR_TEXT, |b|);
  }

  /** A one-entry indefinite-length map. */
  lemma EncodeMap1(a: Entry)
    requires EntryWellFormed(a)
    ensures WellFormed(IndefMap([a]))
    ensures Encode(IndefMap([a])) == [INDEF_MAP] + EncodeEntry(a) + [BREAK]
  {
    EncodeEntriesCons(a, []);
    assert [a] + [] == [a];
  }

  /** A two-entry indefinite-length map. */
  lemma EncodeMap2(a: Entry, b: Entry)
    requires EntryWellFormed(a) && EntryWellFormed(b)
    ensures WellFormed(IndefMap([a, b]))
    ensures Encode(IndefMap([a, b])) == [INDEF_MAP] + EncodeEntry(a) + EncodeEntry(b) + [BREAK]
  {
    EncodeEntries2(a, b);
    Regroup([INDEF_MAP], EncodeEntry(a), EncodeEntry(b));
  }

  /** Two entries are encoded one after the other. */
  lemma EncodeEntries2(a: Entry, b: Entry)
    requires EntryWellFormed(a) && EntryWellFormed(b)
    ensures EntriesWellFormed([a, b])
    ensures EncodeEntries([a, b]) == EncodeEntry(a) + EncodeEntry(b)
  {
    EncodeEntriesCons(b, []);
    assert [b] + [] == [b];
    EncodeEntriesCons(a, [b]);
    assert [a] + [b] == [a, b];
  }

  lemma FlattenEnvelope(a: seq<Byte>, b: seq<Byte>, c: seq<Byte>, d: seq<Byte>, h: seq<Byte>, x: seq<Byte>)
    ensures [INDEF_MAP] + (a + ([INDEF_MAP] + (b + c) + (d + (h + x)) + [BREAK])) + [BREAK]
         == [INDEF_MAP] + a + [INDEF_MAP] + b + c + d + h + (x + [BREAK, BREAK])
  {
  }

  /**
   * A full batch is written as the head, the payloads one after the other and
   * the two break codes closing the maps; closing the definite-length array
   * writes nothing.
   */
  lemma EnvelopeEncoding(batch: seq<SensorPayload>)
    requires AllEncodable(batch) && |batch| == MAX_PAYLOADS
    ensures Encode(EnvelopeItem(batch)) == ENVELOPE_HEAD + (EncodeAll(Items(batch)) + [BREAK, BREAK])
  {
    EnvelopeHeadEncoding();
    var items := Items(batch);
    var dev := Entry(Text(KEY_DEVICE_ID), Text(SENSOR_ID));
    var sd := Entry(Text(KEY_SENSOR_DATA), Array(items));
    EncodeMap2(dev, sd);
    EncodeMap1(Entry(Text(KEY_DATA), DataItem(batch)));
    FlattenEnvelope(Encode(Text(KEY_DATA)), Encode(Text(KEY_DEVICE_ID)), Encode(Text(SENSOR_ID)),
                    Encode(Text(KEY_SENSOR_DATA)), Head(MAJOR_ARRAY, MAX_PAYLOADS), EncodeAll(items));
  }

  /** Appending one payload to a batch appends its encoding to the batch's bytes. */
  lemma ItemsSnoc(batch: seq<SensorPayload>, p: SensorPayload)
    requires AllEncodable(batch) && Encodable(p)
    ensures AllEncodable(batch + [p])
    ensures EncodeAll(Items(batch + [p])) == EncodeAll(Items(batch)) + Encode(PayloadItem(p))
  {
    assert AllEncodable(batch + [p]) by {
      forall k | 0 <= k < |batch + [p]|
        ensures Encodable((batch + [p])[k])
      {
        if k < |batch| {
          assert (batch + [p])[k] == batch[k];
        }
      }
    }
    assert Items(batch + [p]) == Items(batch) + [PayloadItem(p)];
    EncodeAllSnoc(Items(batch), PayloadItem(p));
  }

  /**
   * The payload maps of a batch written one after the other, built up one
   * payload at a time as the aggregation task writes them.
   */
  function BatchBytes(batch: seq<SensorPayload>): seq<Byte>
    requires AllEncodable(batch)
  {
    if batch == [] then [] else BatchBytes(batch[..|batch| - 1]) + Encode(PayloadItem(batch[|batch| - 1]))
  }

  lemma BatchBytesSnoc(batch: seq<SensorPayload>, p: SensorPayload)
    requires AllEncodable(batch) && Encodable(p)
    ensures AllEncodable(batch + [p])
    ensures BatchBytes(batch + [p]) == BatchBytes(batch) + Encode(PayloadItem(p))
  {
    ItemsSnoc(batch, p);
    assert (batch + [p])[..|batch|] == batch;
  }

  /** Written payload by payload, a batch gives the bytes of its array's items. */
  lemma {:induction false} BatchBytesItems(batch: seq<SensorPayload>)
    requires AllEncodable(batch)
    ensures BatchBytes(batch) == EncodeAll(Items(batch))
    decreases |batch|
  {
    if batch != [] {
      var pre := batch[..|batch| - 1];
      var last := batch[|batch| - 1];
      assert pre + [last] == batch;
      BatchBytesItems(pre);
      ItemsSnoc(pre, last);
    }
  }

  /**
   * `bytes` are the payload bytes of `batch`. The trigger keeps the
   * definition of `BatchBytes` out of a proof until the proof names the
   * bytes of that batch.
   */
  ghost predicate Carries(batch: seq<SensorPayload>, bytes: seq<Byte>)
  {
    && AllEncodable(batch)
    && forall b {:trigger BatchBytes(b)} :: b == batch ==> BatchBytes(b) == bytes
  }

  lemma CarriesNone()
    ensures Carries([], [])
  {
    assert BatchBytes([]) == [];
  }

  lemma CarriesSnoc(batch: seq<SensorPayload>, bytes: seq<Byte>, p: SensorPayload)
    requires Carries(batch, bytes) && Encodable(p)
    ensures Carries(batch + [p], bytes + Encode(PayloadItem(p)))
  {
    BatchBytesSnoc(batch, p);
  }

  /**
   * `wire` is the encoding of the envelope of `batch`, a full batch. The
   * trigger keeps the encoding out of a proof until the proof names the
   * envelope of that batch.
   */
  ghost predicate IsEnvelope(batch: seq<SensorPayload>, wire: seq<Byte>)
  {
    && AllEncodable(batch) && |batch| == MAX_PAYLOADS
    && forall b {:trigger EnvelopeItem(b)} :: b == batch ==> Encode(EnvelopeItem(b)) == wire
  }

  /** Closing the array and the two maps after the payload bytes of a full batch gives the envelope. */
  lemma CarriesEnvelope(batch: seq<SensorPayload>, bytes: seq<Byte>)
    requires Carries(batch, bytes) && |batch| == MAX_PAYLOADS
    ensures IsEnvelope(batch, ENVELOPE_HEAD + bytes + [BREAK, BREAK])
  {
    BatchBytesItems(batch);
    EnvelopeEncoding(batch);
    assert ENVELOPE_HEAD + bytes + [BREAK, BREAK] == ENVELOPE_HEAD + (bytes + [BREAK, BREAK]);
  }

  // What a consumer reads back.
  // ---------------------------------------------------------------------

  /** A consumer's reading of the payload maps of the array. */
  function ReadReports(items: seq<Item>): Option<seq<Report>>
  {
    if items == [] then Some([])
    else
      match ReadReport(items[0])
      case None => None
      case Some(r) =>
        match ReadReports(items[1..])
        case None => None
        case Some(rest) => Some([r] + rest)
  }

  /** A consumer's reading of a message: the device it names and its reports. */
  function ReadEnvelope(i: Item): Option<(seq<Byte>, seq<Report>)>
  {
    if !i.IndefMap? || |i.entries| != 1 || i.entries[0].key != Text(KEY_DATA) then None
    else
      var d := i.entries[0].value;
      if !d.IndefMap? || |d.entries| != 2 then None
      else if d.entries[0].key != Text(KEY_DEVICE_ID) || !d.entries[0].value.Text? then None
      else if d.entries[1].key != Text(KEY_SENSOR_DATA) || !d.entries[1].value.Array? then None
      else
        match ReadReports(d.entries[1].value.items)
        case None => None
        case Some(rs) => Some((d.entries[0].value.bytes, rs))
  }

  /** The reports of a batch, in order. */
  function Reports(batch: seq<SensorPayload>): (r: seq<Report>)
    requires AllEncodable(batch)
    ensures |r| == |batch|
  {
    seq(|batch|, k requires 0 <= k < |batch| => PayloadReport(batch[k]))
  }

  lemma {:induction false} ReadReportsOfBatch(batch: seq<SensorPayload>, n: nat)
    requires AllEncodable(batch) && n <= |batch|
    ensures ReadReports(Items(batch)[|batch| - n..]) == Some(Reports(batch)[|batch| - n..])
    decreases n
  {
    var items, rs := Items(batch), Reports(batch);
    var j := |batch| - n;
    if n == 0 {
      assert items[j..] == [] && rs[j..] == [];
    } else {
      ReadReportsOfBatch(batch, n - 1);
      assert items[j..][0] == PayloadItem(batch[j]);
      assert items[j..][1..] == items[j + 1..];
      ReadPayloadItem(batch[j]);
      assert rs[j..] == [rs[j]] + rs[j + 1..];
    }
  }

  /**
   * End to end: decoding a sealed message's bytes gives the message item, and
   * reading it yields device "clock1" and the reports of the batch in order.
   */
  lemma DecodeEnvelope(batch: seq<SensorPayload>)
    requires AllEncodable(batch) && |batch| <= MAX_PAYLOADS
    ensures Decode(Encode(EnvelopeItem(batch))) == Some((EnvelopeItem(batch), []))
    ensures ReadEnvelope(EnvelopeItem(batch)) == Some((SENSOR_ID, Reports(batch)))
  {
    DecodeEncode(EnvelopeItem(batch), []);
    assert Encode(EnvelopeItem(batch)) + [] == Encode(EnvelopeItem(batch));
    ReadReportsOfBatch(batch, |batch|);
    assert Items(batch)[0..] == Items(batch);
    assert Reports(batch)[0..] == Reports(batch);
  }

  // How many bytes a message takes.
  // ---------------------------------------------------------------------

  lemma {:induction false} EncodeAllBound(items: seq<Item>, bound: nat)
    requires AllWellFormed(items)
    requires forall k :: 0 <= k < |items| ==> WellFormed(items[k]) && |Encode(items[k])| <= bound
    ensures |EncodeAll(items)| <= bound * |items|
    decreases |items|
  {
    if items != [] {
      var tail := items[1..];
      forall k | 0 <= k < |tail|
        ensures WellFormed(tail[k]) && |Encode(tail[k])| <= bound
      {
        assert tail[k] == items[k + 1];
      }
      EncodeAllBound(tail, bound);
      assert EncodeAll(items) == Encode(items[0]) + EncodeAll(tail);
      MulStep(bound, |tail|);
    }
  }

  lemma MulStep(b: nat, n: nat)
    ensures b * (n + 1) == b + b * n
  {
  }

  lemma ItemsSizeBound(batch: seq<SensorPayload>, bound: nat)
    requires AllEncodable(batch)
    requires forall k :: 0 <= k < |batch| ==> PayloadSize(batch[k]) <= bound
    ensures |EncodeAll(Items(batch))| <= bound * |batch|
  {
    var items := Items(batch);
    forall k | 0 <= k < |items|
      ensures WellFormed(items[k]) && |Encode(items[k])| <= bound
    {
      PayloadEncodingSize(batch[k]);
    }
    EncodeAllBound(items, bound);
  }

  /**
   * A full batch of payloads of at most `bound` bytes each takes at most
   * 38 + 15 * bound bytes.
   */
  lemma EnvelopeSizeBound(batch: seq<SensorPayload>, bound: nat)
    requires AllEncodable(batch) && |batch| == MAX_PAYLOADS
    requires forall k :: 0 <= k < |batch| ==> PayloadSize(batch[k]) <= bound
    ensures |Encode(EnvelopeItem(batch))| <= 38 + MAX_PAYLOADS * bound
  {
    ItemsSizeBound(batch, bound);
    EnvelopeEncoding(batch);
  }
}
