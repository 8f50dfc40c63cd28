/**
 * The Arduino wrapper around Bosch's BME69x driver (`bme69xLibrary.cpp`):
 * the object that remembers the last operating mode, the fields fetched
 * from the sensor and a read cursor over them, the status of the last
 * driver call, and the I2C transport the driver is given.
 *
 * The driver itself (`bme69x.c`) is not part of this model: what it
 * returns is an input of the operation that calls it.
 */
module Bme69x {
  import opened Wrappers
  import Esp

  /** Driver result codes (`BME69X_OK`, `BME69X_E_*`, `BME69X_W_*`, mirrored by `BME6xxStatus`). */
  const OK: int := 0
  const E_NULL_PTR: int := -1
  const E_COM_FAIL: int := -2
  const E_DEV_NOT_FOUND: int := -3
  const E_INVALID_LENGTH: int := -4
  const E_SELF_TEST: int := -5
  const W_DEFINE_OP_MODE: int := 1
  const W_NO_NEW_DATA: int := 2
  const W_DEFINE_SHD_HEATR_DUR: int := 3

  /** `BME69X_ERROR` and `BME69X_WARNING`, what `checkStatus` classifies into. */
  const ERROR: Esp.I8 := -1
  const WARNING: Esp.I8 := 1

  /** Operating modes. */
  const SLEEP_MODE: Esp.U8 := 0
  const FORCED_MODE: Esp.U8 := 1
  const PARALLEL_MODE: Esp.U8 := 2
  const SEQUENTIAL_MODE: Esp.U8 := 3

  /** The number of fields `sensorData` holds. */
  const FIELDS: nat := 3

  /** The integer part of `bme69x_data` (the measured values are floating point and left out). */
  datatype Field = Field(status: Esp.U8, gasIndex: Esp.U8, measIndex: Esp.U8, resHeat: Esp.U8, idac: Esp.U8, gasWait: Esp.U8)

  const ZERO_FIELD := Field(0, 0, 0, 0, 0, 0)

  /** `bme69x_conf`. */
  datatype Conf = Conf(osHum: Esp.U8, osTemp: Esp.U8, osPres: Esp.U8, filter: Esp.U8, odr: Esp.U8)

  const ZERO_CONF := Conf(0, 0, 0, 0, 0)

  /** The scalar part of `bme69x_heatr_conf` (its profile pointers are left out). */
  datatype HeatrConf = HeatrConf(enable: Esp.U8, heatrTemp: Esp.U16, heatrDur: Esp.U16, profileLen: Esp.U8, sharedHeatrDur: Esp.U16)

  const ZERO_HEATR := HeatrConf(0, 0, 0, 0, 0)

  /**
   * One `getData` outside forced mode, on `n` fields with the cursor at `i`:
   * the index read, the count it returns and the next cursor.
   */
  function Step(n: nat, i: nat): (nat, nat, nat)
    requires i < n
  {
    if i + 1 >= n then (i, 0, n - 1) else (i, n - (i + 1), i + 1)
  }

  /** The (index read, count returned) of `k` successive reads from cursor `i`. */
  function Run(n: nat, i: nat, k: nat): (out: seq<(nat, nat)>)
    requires i < n
    ensures |out| == k
    decreases k
  {
    if k == 0 then [] else
      var s := Step(n, i);
      [(s.0, s.1)] + Run(n, s.2, k - 1)
  }

  function Min(a: int, b: int): int { if a <= b then a else b }

  /**
   * Reads from cursor `i` walk the fields in order, each returning how many
   * are left after it, and once the last is reached they keep returning it
   * with a count of zero.
   */
  lemma {:induction false} RunWalks(n: nat, i: nat, k: nat)
    requires i < n
    ensures forall j :: 0 <= j < k ==>
              Run(n, i, k)[j] == (Min(i + j, n - 1), if i + j < n - 1 then n - 1 - (i + j) else 0)
    decreases k
  {
    if k > 0 {
      var s := Step(n, i);
      RunWalks(n, s.2, k - 1);
      forall j | 0 <= j < k
        ensures Run(n, i, k)[j] == (Min(i + j, n - 1), if i + j < n - 1 then n - 1 - (i + j) else 0)
      {
        if j > 0 {
          assert Run(n, i, k)[j] == Run(n, s.2, k - 1)[j - 1];
        }
      }
    }
  }

  /** After a fetch of `n` fields, the first `n` reads return every field once, in order. */
  lemma ReadsAfterFetch(n: nat)
    requires 0 < n
    ensures forall j :: 0 <= j < n ==> Run(n, 0, n)[j] == (j, n - 1 - j)
  {
    RunWalks(n, 0, n);
  }

  /** `checkStatus`: the sign of a status. */
  function Classify(status: int): (r: Esp.I8)
    ensures r == ERROR <==> status < OK
    ensures r == WARNING <==> status > OK
    ensures r == 0 <==> status == OK
  {
    if status < OK then ERROR else if status > OK then WARNING else 0
  }

  /** The codes `statusString` has a text for. */
  predicate Described(code: int)
  {
    code == OK || code == E_NULL_PTR || code == E_COM_FAIL || code == E_DEV_NOT_FOUND
    || code == E_INVALID_LENGTH || code == W_DEFINE_OP_MODE || code == W_NO_NEW_DATA
    || code == W_DEFINE_SHD_HEATR_DUR
  }

  const UNDEFINED: string := "Undefined error code"

  /** `statusString`: no text for OK, a text per known code, one catch-all text otherwise. */
  function Describe(code: int): (text: string)
    ensures text == "" <==> code == OK
    ensures text == UNDEFINED <==> !Described(code)
  {
    if code == OK then ""
    else if code == E_NULL_PTR then "Null pointer"
    else if code == E_COM_FAIL then "Communication failure"
    else if code == E_DEV_NOT_FOUND then "Sensor not found"
    else if code == E_INVALID_LENGTH then "Invalid length"
    else if code == W_DEFINE_OP_MODE then "Set the operation mode"
    else if code == W_NO_NEW_DATA then "No new data"
    else if code == W_DEFINE_SHD_HEATR_DUR then "Set the shared heater duration"
    else UNDEFINED
  }

  /** Two known codes never share a text, so the text identifies the code. */
  lemma DescribeDistinct(a: int, b: int)
    requires Described(a) && Described(b) && a != b
    ensures Describe(a) != Describe(b)
  {
  }

  /** The self-test failure code has no text of its own. */
  lemma SelfTestUndescribed()
    ensures Describe(E_SELF_TEST) == UNDEFINED
  {
  }

  /**
   * `getUniqueId`'s packing of the four unique-ID registers: the low two
   * bytes are registers 0 and 1, the high half registers 2 and 3 as a
   * big-endian word with its top bit masked off. In C no step overflows
   * 32 bits, so the arithmetic below is exact; the mask `& 0x7fff` of a
   * value below 2^16 is `% 0x8000`.
   */
  function UniqueId(regs: seq<Esp.U8>): (uid: Esp.U32)
    requires |regs| == 4
    ensures uid < 0x8000_0000
    ensures uid % 0x100 == regs[0]
    ensures uid / 0x100 % 0x100 == regs[1]
    ensures uid / 0x1_0000 == (regs[2] as int * 0x100 + regs[3]) % 0x8000
  {
    var id1 := (regs[3] as int + regs[2] as int * 0x100) % 0x8000;
    id1 * 0x1_0000 + regs[1] as int * 0x100 + regs[0]
  }

  /** Two register sets give the same ID exactly when they differ at most in the top bit of register 2. */
  lemma UniqueIdSame(a: seq<Esp.U8>, b: seq<Esp.U8>)
    requires |a| == 4 && |b| == 4
    ensures UniqueId(a) == UniqueId(b) <==>
              a[0] == b[0] && a[1] == b[1] && a[3] == b[3] && a[2] % 0x80 == b[2] % 0x80
  {
    var wa, wb := a[2] as int * 0x100 + a[3], b[2] as int * 0x100 + b[3];
    assert wa % 0x8000 == (a[2] as int % 0x80) * 0x100 + a[3];
    assert wb % 0x8000 == (b[2] as int % 0x80) * 0x100 + b[3];
    if UniqueId(a) == UniqueId(b) {
      assert (a[2] as int % 0x80) * 0x100 + a[3] == (b[2] as int % 0x80) * 0x100 + b[3];
    }
  }

  /** The mode `setOpMode` leaves recorded: a new mode other than sleep, once the driver accepted it. */
  function Recorded(last: Esp.U8, mode: Esp.U8, driverStatus: int): (r: Esp.U8)
    ensures r != last ==> r == mode && mode != SLEEP_MODE && driverStatus == OK
    ensures driverStatus == OK && mode != SLEEP_MODE ==> r == mode
  {
    if driverStatus == OK && mode != SLEEP_MODE then mode else last
  }

  /** The mode `getMeasDur` asks the driver about: sleep stands for the last recorded mode. */
  function MeasuredMode(opMode: Esp.U8, last: Esp.U8): (m: Esp.U8)
    ensures opMode != SLEEP_MODE ==> m == opMode
    ensures opMode == SLEEP_MODE ==> m == last
  {
    if opMode == SLEEP_MODE then last else opMode
  }

  /** After a successful switch to a mode, asking for the sleep mode's duration asks about that mode. */
  lemma MeasureAfterSwitch(last: Esp.U8, mode: Esp.U8)
    requires mode != SLEEP_MODE
    ensures MeasuredMode(SLEEP_MODE, Recorded(last, mode, OK)) == mode
  {
  }

  /** A switch to sleep, or one the driver refused, leaves the recorded mode as it was. */
  lemma RecordedKeptUnlessSwitched(last: Esp.U8, mode: Esp.U8, driverStatus: int)
    requires mode == SLEEP_MODE || driverStatus != OK
    ensures Recorded(last, mode, driverStatus) == last
  {
  }

  /** `bme69xScommT` in its I2C form. */
  datatype I2cComm = I2cComm(wire: Ptr, addr: Esp.U8)

  predicate UsableBus(intf: Option<I2cComm>)
  {
    intf.Some? && intf.value.wire != NULL
  }

  /** `length + 1` in `uint32_t`. */
  function WritePlusOne(length: Esp.U32): (r: Esp.U32)
    ensures length < 0xFFFF_FFFF ==> r == length + 1
    ensures length == 0xFFFF_FFFF ==> r == 0
  {
    (length + 1) % 0x1_0000_0000
  }

  /**
   * `bme69xI2cWrite`: a transfer longer than the Wire buffer, counting the
   * register address, fails before anything is sent; a missing interface
   * fails; otherwise the register address and then the data are queued for
   * the device and a failed end of transmission fails the call. `sent` is
   * what was queued; `endResult` is what `endTransmission` returns.
   */
  method I2cWrite(regAddr: Esp.U8, regData: array<Esp.U8>, length: Esp.U32, intf: Option<I2cComm>,
                  bufferSize: nat, endResult: Esp.U8)
    returns (rslt: int, sent: seq<Esp.U8>)
    requires length <= regData.Length
    ensures WritePlusOne(length) > bufferSize ==> rslt == E_COM_FAIL && sent == []
    ensures WritePlusOne(length) <= bufferSize && !UsableBus(intf) ==> rslt == E_NULL_PTR && sent == []
    ensures WritePlusOne(length) <= bufferSize && UsableBus(intf) ==>
              && sent == [regAddr] + regData[..length]
              && (rslt == OK <==> endResult == 0)
              && (rslt != OK ==> rslt == E_COM_FAIL)
  {
    if WritePlusOne(length) > bufferSize {
      return E_COM_FAIL, [];
    }
    if !UsableBus(intf) {
      return E_NULL_PTR, [];
    }
    sent := [regAddr];
    var i := 0;
    while i < length
      invariant 0 <= i <= length
      invariant sent == [regAddr] + regData[..i]
    {
      sent := sent + [regData[i]];
      i := i + 1;
    }
    rslt := if endResult != 0 then E_COM_FAIL else OK;
  }

  /** The writes a read transfer needs never exceed the buffer of a size it may ask for. */
  lemma WriteLimitTighter(length: Esp.U32, bufferSize: nat)
    requires length < bufferSize
    ensures WritePlusOne(length) <= bufferSize
  {
  }

  /** The largest length wraps around in `length + 1` and slips past the buffer check. */
  lemma WriteLengthWraps(bufferSize: nat)
    ensures WritePlusOne(0xFFFF_FFFF) <= bufferSize
  {
  }

  /**
   * `bme69xI2cRead`: a read longer than the Wire buffer fails before
   * anything is sent; a missing interface fails; otherwise the register
   * address is sent, a failed end of transmission fails the call, and
   * then `length` bytes are requested and copied while the bus has any.
   * `incoming` is what the bus delivers.
   */
  method I2cRead(regAddr: Esp.U8, regData: array<Esp.U8>, length: Esp.U32, intf: Option<I2cComm>,
                 bufferSize: nat, endResult: Esp.U8, incoming: seq<Esp.U8>)
    returns (rslt: int, sent: seq<Esp.U8>, requested: nat)
    requires length <= regData.Length
    modifies regData
    ensures length > bufferSize || !UsableBus(intf) || endResult != 0 ==> unchanged(regData) && requested == 0
    ensures length > bufferSize ==> rslt == E_COM_FAIL && sent == []
    ensures length <= bufferSize && !UsableBus(intf) ==> rslt == E_NULL_PTR && sent == []
    ensures length <= bufferSize && UsableBus(intf) ==>
              && sent == [regAddr]
              && (rslt == OK <==> endResult == 0)
              && (rslt != OK ==> rslt == E_COM_FAIL)
    ensures rslt == OK ==>
              && requested == length
              && (forall j :: 0 <= j < Min(length, |incoming|) ==> regData[j] == incoming[j])
              && (forall j :: Min(length, |incoming|) <= j < regData.Length ==> regData[j] == old(regData[j]))
  {
    if length > bufferSize {
      return E_COM_FAIL, [], 0;
    }
    if !UsableBus(intf) {
      return E_NULL_PTR, [], 0;
    }
    sent := [regAddr];
    if endResult != 0 {
      return E_COM_FAIL, sent, 0;
    }
    requested := length;
    var i := 0;
    while i < length && i < |incoming|
      invariant 0 <= i <= Min(length, |incoming|)
      invariant forall j :: 0 <= j < i ==> regData[j] == incoming[j]
      invariant forall j :: i <= j < regData.Length ==> regData[j] == old(regData[j])
    {
      regData[i] := incoming[i];
      i := i + 1;
    }
    rslt := OK;
  }

  class Sensor {
    var status: Esp.I8
    var nFields: Esp.U8
    var iFields: Esp.U8
    var lastOpMode: Esp.U8
    var ambTemp: Esp.I8
    var conf: Conf
    var heatrConf: HeatrConf
    const sensorData: array<Field>

    /** Three fields; the cursor is on a fetched field, or at 0 when none was fetched. */
    ghost predicate Valid()
      reads this
    {
      sensorData.Length == FIELDS && nFields <= FIELDS && (iFields < nFields || iFields == 0)
    }

    /** `BME69x()`: everything zero, ambient temperature 25, sleep mode. */
    constructor ()
      ensures Valid() && fresh(sensorData)
      ensures status == OK && nFields == 0 && iFields == 0 && lastOpMode == SLEEP_MODE && ambTemp == 25
      ensures conf == ZERO_CONF && heatrConf == ZERO_HEATR
      ensures sensorData[..] == [ZERO_FIELD, ZERO_FIELD, ZERO_FIELD]
    {
      status, nFields, iFields, lastOpMode, ambTemp := OK, 0, 0, SLEEP_MODE, 25;
      conf, heatrConf := ZERO_CONF, ZERO_HEATR;
      sensorData := new Field[FIELDS](_ => ZERO_FIELD);
    }

    /** `checkStatus`. */
    function CheckStatus(): (r: Esp.I8)
      reads this
      ensures r == Classify(status)
    {
      Classify(status)
    }

    /** `statusString`. */
    function StatusString(): (text: string)
      reads this
      ensures text == Describe(status)
    {
      Describe(status)
    }

    /**
     * `softReset`: re-initialise through the driver (whose result becomes
     * the status) and forget configuration, fields, cursor and mode.
     */
    method SoftReset(initStatus: Esp.I8)
      requires Valid()
      modifies this, sensorData
      ensures Valid()
      ensures status == initStatus && conf == ZERO_CONF && heatrConf == ZERO_HEATR && ambTemp == 25
      ensures nFields == 0 && iFields == 0 && lastOpMode == SLEEP_MODE
      ensures sensorData[..] == [ZERO_FIELD, ZERO_FIELD, ZERO_FIELD]
    {
      status := initStatus;
      conf, heatrConf := ZERO_CONF, ZERO_HEATR;
      sensorData[0], sensorData[1], sensorData[2] := ZERO_FIELD, ZERO_FIELD, ZERO_FIELD;
      ambTemp, nFields, iFields, lastOpMode := 25, 0, 0, SLEEP_MODE;
    }

    /** `setOpMode`: the driver's result becomes the status, and the mode is recorded as `Recorded` says. */
    method SetOpMode(mode: Esp.U8, driverStatus: Esp.I8)
      modifies this`status, this`lastOpMode
      ensures status == driverStatus
      ensures lastOpMode == Recorded(old(lastOpMode), mode, driverStatus)
    {
      status := driverStatus;
      if status == OK && mode != SLEEP_MODE {
        lastOpMode := mode;
      }
    }

    /** `getMeasDur`: the driver's duration for `MeasuredMode` and the current configuration. */
    method GetMeasDur(opMode: Esp.U8, measDur: (Esp.U8, Conf) -> Esp.U32) returns (dur: Esp.U32)
      ensures dur == measDur(MeasuredMode(opMode, lastOpMode), conf)
    {
      var mode := opMode;
      if mode == SLEEP_MODE {
        mode := lastOpMode;
      }
      dur := measDur(mode, conf);
    }

    /**
     * `fetchData`: the whole field array is handed to the driver, which may
     * write any of its entries, and reports how many fields it produced; the
     * cursor goes back to the first. `written` is the array as the driver
     * leaves it and `count` the number it reports, at most three.
     */
    method FetchData(driverStatus: Esp.I8, written: seq<Field>, count: Esp.U8) returns (n: Esp.U8)
      requires Valid() && |written| == FIELDS && count as int <= FIELDS
      modifies this`status, this`nFields, this`iFields, sensorData
      ensures Valid()
      ensures n == nFields == count && iFields == 0 && status == driverStatus
      ensures sensorData[..] == written
    {
      nFields := 0;
      status := driverStatus;
      sensorData[0], sensorData[1], sensorData[2] := written[0], written[1], written[2];
      nFields := count;
      iFields := 0;
      return nFields;
    }

    /**
     * `getData`: in forced mode the first field, without moving the
     * cursor; otherwise, when fields were fetched, the field under the
     * cursor and one step of the cursor as `Step` describes; with none
     * fetched, nothing. `data` is `None` when the caller's record is left
     * untouched.
     */
    method GetData() returns (data: Option<Field>, left: Esp.U8)
      requires Valid()
      modifies this`iFields
      ensures Valid()
      ensures lastOpMode == FORCED_MODE ==> data == Some(sensorData[0]) && left == 0 && iFields == old(iFields)
      ensures lastOpMode != FORCED_MODE && nFields == 0 ==> data.None? && left == 0 && iFields == old(iFields)
      ensures lastOpMode != FORCED_MODE && nFields > 0 ==>
                var s := Step(nFields, old(iFields));
                data == Some(sensorData[s.0]) && left == s.1 && iFields == s.2
    {
      if lastOpMode == FORCED_MODE {
        return Some(sensorData[0]), 0;
      }
      if nFields > 0 {
        data := Some(sensorData[iFields]);
        iFields := iFields + 1;
        if iFields >= nFields {
          iFields := nFields - 1;
          return data, 0;
        }
        return data, nFields - iFields;
      }
      return None, 0;
    }

    /** `getUniqueId`: read the four ID registers (the driver's result becomes the status) and pack them. */
    method GetUniqueId(regs: seq<Esp.U8>, readStatus: Esp.I8) returns (uid: Esp.U32)
      requires |regs| == 4
      modifies this`status
      ensures status == readStatus
      ensures uid == UniqueId(regs)
    {
      status := readStatus;
      uid := UniqueId(regs);
    }
  }
}
