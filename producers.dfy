/**
 * The integer side of the four sampling tasks that feed the aggregation
 * queue (sound level, TSL2591 light, BME690 air quality and SNTP time).
 *
 * Each task keeps one `sensor_payload_t` on its stack for its whole life:
 * the sensor name is written once, and whenever a report is due the
 * timestamp, the fields it uses and the field count are overwritten, so a
 * field slot the producer does not use keeps whatever it held before. Float
 * readings (RMS, lux, BSEC signals) are produced by code outside the model
 * and enter as IEEE 754 bit patterns.
 */
module Producers {
  import opened Wrappers
  import opened Cbor
  import opened SensorEncoder
  import Esp

  // Names, as ASCII bytes.
  const SOUND_NAME: seq<Byte> := [0x73, 0x6F, 0x75, 0x6E, 0x64, 0x5F, 0x73, 0x65, 0x6E, 0x73]  // "sound_sens"
  const TSL_NAME: seq<Byte> := [0x74, 0x73, 0x6C, 0x32, 0x35, 0x39, 0x31]                     // "tsl2591"
  const BME_NAME: seq<Byte> := [0x62, 0x6D, 0x65, 0x36, 0x39, 0x30]                           // "bme690"
  const SNTP_NAME: seq<Byte> := [0x73, 0x6E, 0x74, 0x70]                                      // "sntp"

  const RMS_MAX_SOUND: seq<Byte> := [0x72, 0x6D, 0x73, 0x5F, 0x6D, 0x61, 0x78, 0x5F, 0x73, 0x6F, 0x75, 0x6E, 0x64] // "rms_max_sound"
  const RMS_MIN_SOUND: seq<Byte> := [0x72, 0x6D, 0x73, 0x5F, 0x6D, 0x69, 0x6E, 0x5F, 0x73, 0x6F, 0x75, 0x6E, 0x64] // "rms_min_sound"
  const RMS_SOUND: seq<Byte> := [0x72, 0x6D, 0x73, 0x5F, 0x73, 0x6F, 0x75, 0x6E, 0x64]                           // "rms_sound"
  const WIN_S: seq<Byte> := [0x77, 0x69, 0x6E, 0x5F, 0x73]                                                       // "win_s"
  const MAX_LUX: seq<Byte> := [0x6D, 0x61, 0x78, 0x5F, 0x6C, 0x75, 0x78]                                         // "max_lux"
  const MIN_LUX: seq<Byte> := [0x6D, 0x69, 0x6E, 0x5F, 0x6C, 0x75, 0x78]                                         // "min_lux"
  const LUX: seq<Byte> := [0x6C, 0x75, 0x78]                                                                     // "lux"
  const TEMP: seq<Byte> := [0x74, 0x65, 0x6D, 0x70]                                                              // "temp"
  const HUMID: seq<Byte> := [0x68, 0x75, 0x6D, 0x69, 0x64]                                                       // "humid"
  const PRESS: seq<Byte> := [0x70, 0x72, 0x65, 0x73, 0x73]                                                       // "press"
  const IAQ: seq<Byte> := [0x69, 0x61, 0x71]                                                                     // "iaq"
  const SNTP_TIME: seq<Byte> := [0x73, 0x6E, 0x74, 0x70, 0x5F, 0x74, 0x69, 0x6D, 0x65]                           // "sntp_time"

  /** Report periods in microseconds (`*_REPORT_PERIOD_MS * 1000`). */
  const SOUND_REPORT_PERIOD_US: Esp.U64 := 4000 * 1000
  const TSL_REPORT_PERIOD_US: Esp.U64 := 2800 * 1000
  const SNTP_REPORT_PERIOD_US: Esp.U64 := 30000 * 1000

  /**
   * The "win_s" values: `4000 / 1000` for the sound task, and for the light
   * task `3600U * 1000U * 12U / 1000ULL`, which is what the unparenthesised
   * calculation-period macro divided by 1000 expands to.
   */
  const SOUND_WINDOW_S: Esp.U64 := 4000 / 1000
  const TSL_WINDOW_S: Esp.U64 := 3600 * 1000 * 12 / 1000

  /** The largest payload any of the four tasks sends. */
  const PRODUCER_PAYLOAD_MAX: nat := 108

  // Report gating.
  // ---------------------------------------------------------------------

  /** `(curr_timestamp_us - prev_report_timestamp_us) >= report_period_us` in `uint64_t`. */
  predicate ReportDue(curr: Esp.U64, prev: Esp.U64, period: Esp.U64)
  {
    Esp.SubU64(curr, prev) >= period
  }

  /**
   * Without a wrap of the microsecond clock, a report is due exactly when a
   * full period has passed since the previous one; after a wrap the
   * difference is taken modulo 2^64.
   */
  lemma ReportDueElapsed(curr: Esp.U64, prev: Esp.U64, period: Esp.U64)
    ensures prev <= curr ==> (ReportDue(curr, prev, period) <==> curr - prev >= period)
    ensures curr < prev ==> (ReportDue(curr, prev, period) <==> curr + Esp.TWO_64 - prev >= period)
  {
  }

  /** Right after a report, with a non-zero period, the next one is not yet due. */
  lemma NoReportTwiceAtOnce(t: Esp.U64, period: Esp.U64)
    requires period > 0
    ensures !ReportDue(t, t, period)
  {
  }

  // Integer formulas.
  // ---------------------------------------------------------------------

  /** `ir = lum >> 16`, `full = lum & 0xFFFF`: the two halves of the TSL2591 reading. */
  function LumSplit(lum: Esp.U32): (r: (Esp.U16, Esp.U16))
    ensures r.0 * 0x1_0000 + r.1 == lum
  {
    (lum / 0x1_0000, lum % 0x1_0000)
  }

  /** The halves are unique: any (high, low) pair of 16-bit values that makes up lum is the split. */
  lemma LumSplitUnique(lum: Esp.U32, ir: Esp.U16, full: Esp.U16)
    requires ir * 0x1_0000 + full == lum
    ensures LumSplit(lum) == (ir, full)
  {
  }

  /** The UTC timestamp of a report: boot-relative microseconds plus the offset, in `uint64_t`. */
  function ReportTimestamp(curr: Esp.U64, offset: Esp.U64): Esp.U64
  {
    Esp.AddU64(curr, offset)
  }

  /** The sntp field: the UTC timestamp in whole seconds. */
  function SntpSeconds(curr: Esp.U64, offset: Esp.U64): (r: Esp.U64)
    ensures r * 1000000 <= ReportTimestamp(curr, offset) < (r + 1) * 1000000
  {
    ReportTimestamp(curr, offset) / 1000000
  }

  /** Writing `value.f` replaces the low four bytes of the union and keeps the rest. */
  function StoreFloat(raw: Esp.U64, bits: nat): (r: Esp.U64)
    requires bits < TWO_32
    ensures r % TWO_32 == bits && r / TWO_32 == raw / TWO_32
  {
    raw - raw % TWO_32 + bits
  }

  function FloatField(prior: SensorField, name: seq<Byte>, bits: nat): SensorField
    requires bits < TWO_32
  {
    SensorField(name, DATATYPE_FLOAT, StoreFloat(prior.raw, bits))
  }

  // The payloads the tasks fill in.
  // ---------------------------------------------------------------------

  /** The sound task's report: three RMS values and the window in seconds. */
  function SoundPayload(prior: SensorPayload, timestamp: Esp.U64, rmsMax: nat, rmsMin: nat, rms: nat): (r: SensorPayload)
    requires |prior.fields| == SENSOR_MAX_FIELDS && rmsMax < TWO_32 && rmsMin < TWO_32 && rms < TWO_32
    ensures r.sensor == prior.sensor && r.timestamp == timestamp && r.fieldCount == 4
    ensures |r.fields| == SENSOR_MAX_FIELDS && r.fields[4] == prior.fields[4]
  {
    var fs := prior.fields;
    prior.(timestamp := timestamp,
           fields := fs[0 := FloatField(fs[0], RMS_MAX_SOUND, rmsMax)]
                       [1 := FloatField(fs[1], RMS_MIN_SOUND, rmsMin)]
                       [2 := FloatField(fs[2], RMS_SOUND, rms)]
                       [3 := SensorField(WIN_S, DATATYPE_UINT, SOUND_WINDOW_S)],
           fieldCount := 4)
  }

  /** The light task's report: the lux extremes, the current lux and the window. */
  function TslPayload(prior: SensorPayload, timestamp: Esp.U64, maxLux: nat, minLux: nat, lux: nat): (r: SensorPayload)
    requires |prior.fields| == SENSOR_MAX_FIELDS && maxLux < TWO_32 && minLux < TWO_32 && lux < TWO_32
    ensures r.sensor == prior.sensor && r.timestamp == timestamp && r.fieldCount == 4
    ensures |r.fields| == SENSOR_MAX_FIELDS && r.fields[4] == prior.fields[4]
  {
    var fs := prior.fields;
    prior.(timestamp := timestamp,
           fields := fs[0 := FloatField(fs[0], MAX_LUX, maxLux)]
                       [1 := FloatField(fs[1], MIN_LUX, minLux)]
                       [2 := FloatField(fs[2], LUX, lux)]
                       [3 := SensorField(WIN_S, DATATYPE_UINT, TSL_WINDOW_S)],
           fieldCount := 4)
  }

  /** The time task's report: one field with the UTC time in seconds. */
  function SntpPayload(prior: SensorPayload, curr: Esp.U64, offset: Esp.U64): (r: SensorPayload)
    requires |prior.fields| == SENSOR_MAX_FIELDS
    ensures r.sensor == prior.sensor && r.fieldCount == 1
    ensures |r.fields| == SENSOR_MAX_FIELDS && r.fields[1..] == prior.fields[1..]
    ensures r.fields[0].raw * 1000000 <= r.timestamp < (r.fields[0].raw + 1) * 1000000
  {
    prior.(timestamp := ReportTimestamp(curr, offset),
           fields := prior.fields[0 := SensorField(SNTP_TIME, DATATYPE_LONG_UINT, SntpSeconds(curr, offset))],
           fieldCount := 1)
  }

  lemma SoundPayloadReport(prior: SensorPayload, timestamp: Esp.U64, rmsMax: nat, rmsMin: nat, rms: nat)
    requires prior.sensor == SOUND_NAME && |prior.fields| == SENSOR_MAX_FIELDS
    requires rmsMax < TWO_32 && rmsMin < TWO_32 && rms < TWO_32
    ensures Encodable(SoundPayload(prior, timestamp, rmsMax, rmsMin, rms))
    ensures PayloadReport(SoundPayload(prior, timestamp, rmsMax, rmsMin, rms))
         == Report(SOUND_NAME, timestamp, [(RMS_MAX_SOUND, FloatReading(rmsMax)), (RMS_MIN_SOUND, FloatReading(rmsMin)),
                                           (RMS_SOUND, FloatReading(rms)), (WIN_S, IntegerReading(4))])
    ensures PayloadSize(SoundPayload(prior, timestamp, rmsMax, rmsMin, rms)) <= PRODUCER_PAYLOAD_MAX
    ensures SoundPayload(prior, timestamp, rmsMax, rmsMin, rms).fields[4] == prior.fields[4]
  {
    var p := SoundPayload(prior, timestamp, rmsMax, rmsMin, rms);
    var expected := [(RMS_MAX_SOUND, FloatReading(rmsMax)), (RMS_MIN_SOUND, FloatReading(rmsMin)),
                     (RMS_SOUND, FloatReading(rms)), (WIN_S, IntegerReading(4))];
    assert Encodable(p);
    assert PayloadReport(p).readings == expected;
    assert HeadSize(p.timestamp) <= 9;
    assert FieldsSize(p.fields, 1) == 19;
    assert FieldsSize(p.fields, 2) == 38;
    assert FieldsSize(p.fields, 3) == 53;
    assert FieldsSize(p.fields, 4) == 60;
  }

  lemma TslPayloadReport(prior: SensorPayload, timestamp: Esp.U64, maxLux: nat, minLux: nat, lux: nat)
    requires prior.sensor == TSL_NAME && |prior.fields| == SENSOR_MAX_FIELDS
    requires maxLux < TWO_32 && minLux < TWO_32 && lux < TWO_32
    ensures Encodable(TslPayload(prior, timestamp, maxLux, minLux, lux))
    ensures PayloadReport(TslPayload(prior, timestamp, maxLux, minLux, lux))
         == Report(TSL_NAME, timestamp, [(MAX_LUX, FloatReading(maxLux)), (MIN_LUX, FloatReading(minLux)),
                                         (LUX, FloatReading(lux)), (WIN_S, IntegerReading(43200))])
    ensures PayloadSize(TslPayload(prior, timestamp, maxLux, minLux, lux)) <= PRODUCER_PAYLOAD_MAX
    ensures TslPayload(prior, timestamp, maxLux, minLux, lux).fields[4] == prior.fields[4]
  {
    var p := TslPayload(prior, timestamp, maxLux, minLux, lux);
    var expected := [(MAX_LUX, FloatReading(maxLux)), (MIN_LUX, FloatReading(minLux)),
                     (LUX, FloatReading(lux)), (WIN_S, IntegerReading(43200))];
    assert Encodable(p);
    assert PayloadReport(p).readings == expected;
    assert HeadSize(p.timestamp) <= 9;
    assert FieldsSize(p.fields, 1) == 13;
    assert FieldsSize(p.fields, 2) == 26;
    assert FieldsSize(p.fields, 3) == 35;
    assert FieldsSize(p.fields, 4) == 44;
  }

  lemma SntpPayloadReport(prior: SensorPayload, curr: Esp.U64, offset: Esp.U64)
    requires prior.sensor == SNTP_NAME && |prior.fields| == SENSOR_MAX_FIELDS
    ensures Encodable(SntpPayload(prior, curr, offset))
    ensures PayloadReport(SntpPayload(prior, curr, offset))
         == Report(SNTP_NAME, ReportTimestamp(curr, offset), [(SNTP_TIME, IntegerReading(SntpSeconds(curr, offset)))])
    ensures PayloadSize(SntpPayload(prior, curr, offset)) <= PRODUCER_PAYLOAD_MAX
    ensures SntpPayload(prior, curr, offset).fields[1..] == prior.fields[1..]
  {
    var p := SntpPayload(prior, curr, offset);
    assert Encodable(p);
    assert PayloadReport(p).readings == [(SNTP_TIME, IntegerReading(SntpSeconds(curr, offset)))];
    assert HeadSize(p.timestamp) <= 9;
    assert FieldsSize(p.fields, 1) <= 19;
  }

  // The BME690 task: the loop over the BSEC outputs.
  // ---------------------------------------------------------------------

  /** The BSEC virtual sensors the BME690 producer reports; every other output id is skipped. */
  datatype BsecOutputId = HeatCompTemperature | HeatCompHumidity | RawPressure | Iaq | OtherOutput(id: nat)

  /** One BSEC output channel: which signal, and its float value by its bits. */
  datatype BsecOutput = BsecOutput(sensorId: BsecOutputId, signalBits: nat)

  predicate Reported(o: BsecOutput)
  {
    !o.sensorId.OtherOutput?
  }

  function BsecFieldName(id: BsecOutputId): seq<Byte>
  {
    match id
    case HeatCompTemperature => TEMP
    case HeatCompHumidity => HUMID
    case RawPressure => PRESS
    case Iaq => IAQ
    case OtherOutput(_) => []
  }

  /** The outputs the BME690 producer reports, in channel order. */
  function ReportedOutputs(outs: seq<BsecOutput>): (r: seq<BsecOutput>)
    ensures |r| <= |outs|
    ensures forall k :: 0 <= k < |r| ==> Reported(r[k]) && r[k] in outs
  {
    if outs == [] then []
    else
      var init := ReportedOutputs(outs[..|outs| - 1]);
      if Reported(outs[|outs| - 1]) then init + [outs[|outs| - 1]] else init
  }

  lemma {:induction false} ReportedOutputsPrefix(outs: seq<BsecOutput>, i: nat)
    requires i <= |outs|
    ensures ReportedOutputs(outs[..i]) <= ReportedOutputs(outs)
    decreases |outs| - i
  {
    if i < |outs| {
      ReportedOutputsPrefix(outs, i + 1);
      assert outs[..i + 1][..i] == outs[..i];
    } else {
      assert outs[..i] == outs;
    }
  }

  function Min(a: nat, b: nat): nat
  {
    if a < b then a else b
  }

  /** The slot the BME690 producer fills for one reported output. */
  function BsecField(prior: SensorField, o: BsecOutput): SensorField
    requires o.signalBits < TWO_32
  {
    FloatField(prior, BsecFieldName(o.sensorId), o.signalBits)
  }

  predicate SignalsAreSingles(outs: seq<BsecOutput>)
  {
    forall k :: 0 <= k < |outs| ==> outs[k].signalBits < TWO_32
  }

  /**
   * What the loop leaves in the field array: the first five reported
   * outputs, in order, in slots 0.., and the remaining slots as they were.
   */
  function BsecFields(prior: seq<SensorField>, outs: seq<BsecOutput>): (r: seq<SensorField>)
    requires |prior| == SENSOR_MAX_FIELDS && SignalsAreSingles(outs)
    ensures |r| == SENSOR_MAX_FIELDS
  {
    var rep := ReportedOutputs(outs);
    var n := Min(SENSOR_MAX_FIELDS, |rep|);
    seq(SENSOR_MAX_FIELDS, k requires 0 <= k < SENSOR_MAX_FIELDS =>
      if k < n then BsecField(prior[k], rep[k]) else prior[k])
  }

  /**
   * The `for` loop over `nOutputChnls` outputs: stop once five fields are
   * set, skip unknown output ids, otherwise fill slot `field_index` and
   * advance it.
   */
  method CollectBsecFields(prior: seq<SensorField>, outs: seq<BsecOutput>) returns (fields: seq<SensorField>, fieldIndex: nat)
    requires |prior| == SENSOR_MAX_FIELDS && |outs| < 256 && SignalsAreSingles(outs)
    ensures fieldIndex == Min(SENSOR_MAX_FIELDS, |ReportedOutputs(outs)|)
    ensures fields == BsecFields(prior, outs)
  {
    fields, fieldIndex := prior, 0;
    var i := 0;
    while i < |outs|
      invariant i <= |outs| && |fields| == SENSOR_MAX_FIELDS
      invariant fieldIndex == Min(SENSOR_MAX_FIELDS, |ReportedOutputs(outs[..i])|)
      invariant forall k :: 0 <= k < fieldIndex ==> fields[k] == BsecField(prior[k], ReportedOutputs(outs[..i])[k])
      invariant forall k :: fieldIndex <= k < SENSOR_MAX_FIELDS ==> fields[k] == prior[k]
    {
      if fieldIndex >= SENSOR_MAX_FIELDS {
        break;
      }
      assert outs[..i + 1][..i] == outs[..i];
      assert outs[..i + 1][i] == outs[i];
      if !Reported(outs[i]) {
        i := i + 1;
        continue;
      }
      fields := fields[fieldIndex := BsecField(fields[fieldIndex], outs[i])];
      fieldIndex := fieldIndex + 1;
      i := i + 1;
    }
    ReportedOutputsPrefix(outs, i);
    if i == |outs| {
      assert outs[..i] == outs;
    }
    ghost var rep := ReportedOutputs(outs);
    assert forall k :: 0 <= k < fieldIndex ==> ReportedOutputs(outs[..i])[k] == rep[k];
    assert fields == BsecFields(prior, outs);
  }

  /** The BME690 payload after one pass of the loop. */
  function BmePayload(prior: SensorPayload, outs: seq<BsecOutput>): (r: SensorPayload)
    requires |prior.fields| == SENSOR_MAX_FIELDS && SignalsAreSingles(outs)
    ensures r.sensor == prior.sensor && r.timestamp == prior.timestamp && |r.fields| == SENSOR_MAX_FIELDS
    ensures r.fieldCount <= SENSOR_MAX_FIELDS && r.fieldCount <= |outs|
    ensures forall k :: r.fieldCount <= k < SENSOR_MAX_FIELDS ==> r.fields[k] == prior.fields[k]
  {
    prior.(fields := BsecFields(prior.fields, outs), fieldCount := Min(SENSOR_MAX_FIELDS, |ReportedOutputs(outs)|))
  }

  lemma {:induction false} FloatFieldsSize(fields: seq<SensorField>, n: nat)
    requires n <= |fields|
    requires forall k :: 0 <= k < n ==> fields[k].fieldType == DATATYPE_FLOAT && |fields[k].name| <= 5
    ensures FieldsSize(fields, n) <= 11 * n
    decreases n
  {
    if n > 0 {
      FloatFieldsSize(fields, n - 1);
    }
  }

  /**
   * A BME690 report carries the first five reported outputs, in channel
   * order, under their names, and fits the producer bound.
   */
  lemma BmePayloadReport(prior: SensorPayload, outs: seq<BsecOutput>, timestamp: Esp.U64)
    requires prior.sensor == BME_NAME && |prior.fields| == SENSOR_MAX_FIELDS && SignalsAreSingles(outs)
    ensures Encodable(BmePayload(prior, outs).(timestamp := timestamp))
    ensures var rep := ReportedOutputs(outs);
            var n := Min(SENSOR_MAX_FIELDS, |rep|);
            PayloadReport(BmePayload(prior, outs).(timestamp := timestamp))
              == Report(BME_NAME, timestamp,
                        seq(n, k requires 0 <= k < n => (BsecFieldName(rep[k].sensorId), FloatReading(rep[k].signalBits))))
    ensures PayloadSize(BmePayload(prior, outs).(timestamp := timestamp)) <= PRODUCER_PAYLOAD_MAX
  {
    var p := BmePayload(prior, outs).(timestamp := timestamp);
    var rep := ReportedOutputs(outs);
    forall k | 0 <= k < p.fieldCount
      ensures p.fields[k] == BsecField(prior.fields[k], rep[k])
      ensures |p.fields[k].name| <= 5 && p.fields[k].fieldType == DATATYPE_FLOAT
      ensures IsCString(p.fields[k].name, SENSOR_FIELD_NAME_LEN)
    {
      assert Reported(rep[k]);
    }
    assert Encodable(p);
    FloatFieldsSize(p.fields, p.fieldCount);
  }

  // The tasks, one loop iteration at a time.
  // ---------------------------------------------------------------------

  /** `task_sound_sampling`: the payload it reuses and the time of its last report. */
  class SoundTask {
    var payload: SensorPayload
    var prevReport: Esp.U64

    predicate Valid()
      reads this
    {
      payload.sensor == SOUND_NAME && |payload.fields| == SENSOR_MAX_FIELDS
    }

    /** The stack payload starts as whatever `stale` holds, with the sensor name written. */
    constructor (stale: SensorPayload)
      requires |stale.fields| == SENSOR_MAX_FIELDS
      ensures Valid() && payload == stale.(sensor := SOUND_NAME) && prevReport == 0
    {
      payload := stale.(sensor := SOUND_NAME);
      prevReport := 0;
    }

    /** One pass: at `curr` microseconds, report if due; `sent` is what goes to the queue. */
    method Step(curr: Esp.U64, offset: Esp.U64, rmsMax: nat, rmsMin: nat, rms: nat) returns (sent: Option<SensorPayload>)
      requires Valid() && rmsMax < TWO_32 && rmsMin < TWO_32 && rms < TWO_32
      modifies this
      ensures Valid()
      ensures ReportDue(curr, old(prevReport), SOUND_REPORT_PERIOD_US) ==>
                prevReport == curr && sent == Some(payload) &&
                payload == SoundPayload(old(payload), ReportTimestamp(curr, offset), rmsMax, rmsMin, rms)
      ensures !ReportDue(curr, old(prevReport), SOUND_REPORT_PERIOD_US) ==>
                sent == None && prevReport == old(prevReport) && payload == old(payload)
    {
      sent := None;
      if Esp.SubU64(curr, prevReport) >= SOUND_REPORT_PERIOD_US {
        prevReport := curr;
        payload := SoundPayload(payload, ReportTimestamp(curr, offset), rmsMax, rmsMin, rms);
        sent := Some(payload);
      }
    }
  }

  /** `task_tsl2591_sampling`. */
  class TslTask {
    var payload: SensorPayload
    var prevReport: Esp.U64

    predicate Valid()
      reads this
    {
      payload.sensor == TSL_NAME && |payload.fields| == SENSOR_MAX_FIELDS
    }

    constructor (stale: SensorPayload)
      requires |stale.fields| == SENSOR_MAX_FIELDS
      ensures Valid() && payload == stale.(sensor := TSL_NAME) && prevReport == 0
    {
      payload := stale.(sensor := TSL_NAME);
      prevReport := 0;
    }

    method Step(curr: Esp.U64, offset: Esp.U64, maxLux: nat, minLux: nat, lux: nat) returns (sent: Option<SensorPayload>)
      requires Valid() && maxLux < TWO_32 && minLux < TWO_32 && lux < TWO_32
      modifies this
      ensures Valid()
      ensures ReportDue(curr, old(prevReport), TSL_REPORT_PERIOD_US) ==>
                prevReport == curr && sent == Some(payload) &&
                payload == TslPayload(old(payload), ReportTimestamp(curr, offset), maxLux, minLux, lux)
      ensures !ReportDue(curr, old(prevReport), TSL_REPORT_PERIOD_US) ==>
                sent == None && prevReport == old(prevReport) && payload == old(payload)
    {
      sent := None;
      if Esp.SubU64(curr, prevReport) >= TSL_REPORT_PERIOD_US {
        prevReport := curr;
        payload := TslPayload(payload, ReportTimestamp(curr, offset), maxLux, minLux, lux);
        sent := Some(payload);
      }
    }
  }

  /** `task_bme690_sampling`; its report period comes from the BSEC sample rate. */
  class BmeTask {
    var payload: SensorPayload
    var prevReport: Esp.U64
    const period: Esp.U64

    predicate Valid()
      reads this
    {
      payload.sensor == BME_NAME && |payload.fields| == SENSOR_MAX_FIELDS
    }

    constructor (stale: SensorPayload, reportPeriodUs: Esp.U64)
      requires |stale.fields| == SENSOR_MAX_FIELDS
      ensures Valid() && payload == stale.(sensor := BME_NAME) && prevReport == 0 && period == reportPeriodUs
    {
      payload := stale.(sensor := BME_NAME);
      prevReport := 0;
      period := reportPeriodUs;
    }

    /**
     * One pass. `outputs` is None when the BSEC run fails or yields no output
     * structure; then, as for zero channels, the pass changes nothing. A due
     * report is sent only if at least one field was set.
     */
    method Step(curr: Esp.U64, offset: Esp.U64, outputs: Option<seq<BsecOutput>>) returns (sent: Option<SensorPayload>)
      requires Valid()
      requires outputs.Some? ==> |outputs.value| < 256 && SignalsAreSingles(outputs.value)
      modifies this
      ensures Valid()
      ensures outputs.None? || outputs.value == [] ==> sent == None && unchanged(this)
      ensures outputs.Some? && outputs.value != [] ==>
                var collected := BmePayload(old(payload), outputs.value);
                (ReportDue(curr, old(prevReport), period) ==>
                   prevReport == curr && payload == collected.(timestamp := ReportTimestamp(curr, offset)) &&
                   sent == (if payload.fieldCount > 0 then Some(payload) else None)) &&
                (!ReportDue(curr, old(prevReport), period) ==>
                   prevReport == old(prevReport) && payload == collected && sent == None)
    {
      sent := None;
      if outputs.None? || outputs.value == [] {
        return;
      }
      var fields, fieldIndex := CollectBsecFields(payload.fields, outputs.value);
      payload := payload.(fields := fields, fieldCount := fieldIndex);
      if Esp.SubU64(curr, prevReport) >= period {
        prevReport := curr;
        payload := payload.(timestamp := ReportTimestamp(curr, offset));
        if fieldIndex > 0 {
          sent := Some(payload);
        }
      }
    }
  }

  /** `task_sntp_sampling`. */
  class SntpTask {
    var payload: SensorPayload
    var prevReport: Esp.U64

    predicate Valid()
      reads this
    {
      payload.sensor == SNTP_NAME && |payload.fields| == SENSOR_MAX_FIELDS
    }

    constructor (stale: SensorPayload)
      requires |stale.fields| == SENSOR_MAX_FIELDS
      ensures Valid() && payload == stale.(sensor := SNTP_NAME) && prevReport == 0
    {
      payload := stale.(sensor := SNTP_NAME);
      prevReport := 0;
    }

    method Step(curr: Esp.U64, offset: Esp.U64) returns (sent: Option<SensorPayload>)
      requires Valid()
      modifies this
      ensures Valid()
      ensures ReportDue(curr, old(prevReport), SNTP_REPORT_PERIOD_US) ==>
                prevReport == curr && sent == Some(payload) && payload == SntpPayload(old(payload), curr, offset)
      ensures !ReportDue(curr, old(prevReport), SNTP_REPORT_PERIOD_US) ==>
                sent == None && prevReport == old(prevReport) && payload == old(payload)
    {
      sent := None;
      if Esp.SubU64(curr, prevReport) >= SNTP_REPORT_PERIOD_US {
        prevReport := curr;
        payload := SntpPayload(payload, curr, offset);
        sent := Some(payload);
      }
    }
  }
}
