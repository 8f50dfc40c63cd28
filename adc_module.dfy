/**
 * The ADC module (`adc_module.c`): a static table of ADC units, each with
 * its channels, from which devices are carved one channel at a time. A
 * device is found by its GPIO pin, brings up its unit in oneshot or
 * continuous mode, is enabled (and optionally calibrated), is read, is
 * disabled and is deleted.
 *
 * The ESP-IDF ADC, calibration and GPIO drivers are not modelled: what
 * each call returns is an input. The SoC constants (`SOC_ADC_PERIPH_NUM`,
 * `SOC_ADC_CHANNEL_NUM`, `SOC_ADC_MAX_CHANNEL_NUM` and the
 * `adc_channel_io_map` behind `ADC_GET_IO_NUM`) are parameters of the
 * table; the target is the ESP32-S3, where ADC2 is skipped.
 */
module AdcModule {
  import opened Wrappers
  import Esp

  /** `enum adc_module_mode`. */
  datatype Mode = ModeDefault | ModeOneshot | ModeContinuous

  /** `ADC_UNIT_2`, which the ESP32-S3 build never hands out. */
  const ADC_UNIT_2: nat := 1

  /** `sizeof(adc_digi_output_data_t)`. */
  const DIGI_SIZE: nat := 4

  /** `esp_adc_channel_t`. */
  datatype Channel = Channel(enabled: bool, id: int)

  /** `esp_adc_unit_t` without its driver handle. */
  datatype Unit = Unit(configured: bool, id: nat, mode: Mode, channels: seq<Channel>)

  /** `struct adc_base_dev_config_t`. */
  datatype BaseCfg = BaseCfg(pin: Esp.U8, bitWidth: Esp.U8, calibrate: bool)

  /** `struct adc_dev_cont_config_t`. */
  datatype ContCfg = ContCfg(sampleFreqHz: Esp.U32)

  /**
   * What converting one raw sample gives: the calibration call's result and
   * millivolts, and the millivolts of the uncalibrated floating-point
   * scaling (left opaque).
   */
  datatype Conversion = Conversion(caliErr: Esp.Err, caliMv: Esp.U32, scaledMv: Esp.U32)

  /** The millivolts of a sample, or `None` when its calibration failed. */
  function Voltage(c: Conversion, calibrated: bool): (v: Option<Esp.U32>)
    ensures calibrated ==> (v.Some? <==> c.caliErr == Esp.OK) && (v.Some? ==> v.value == c.caliMv)
    ensures !calibrated ==> v == Some(c.scaledMv)
  {
    if !calibrated then Some(c.scaledMv)
    else if c.caliErr == Esp.OK then Some(c.caliMv)
    else None
  }

  /** One oneshot read: the driver's result and the conversion of its raw value. */
  datatype OneshotSample = OneshotSample(readErr: Esp.Err, conv: Conversion)

  /** One type-2 DMA result: its unit, its channel and the conversion of its data. */
  datatype Frame = Frame(unit: nat, channel: nat, conv: Conversion)

  /** A oneshot sample that is stored: read and converted. */
  predicate Stored(s: OneshotSample, calibrated: bool)
  {
    s.readErr == Esp.OK && Voltage(s.conv, calibrated).Some?
  }

  /** The continuous-mode filter: a frame of the device's unit and channel (with the channel range check as written). */
  predicate Keep(f: Frame, unitId: nat, channel: nat, channelNum: nat, calibrated: bool)
  {
    !(f.channel > channelNum) && f.unit == unitId && f.channel == channel && Voltage(f.conv, calibrated).Some?
  }

  /** The range check is subsumed by the channel match for a channel of the unit. */
  lemma RangeCheckRedundant(f: Frame, unitId: nat, channel: nat, channelNum: nat, calibrated: bool)
    requires channel < channelNum
    ensures Keep(f, unitId, channel, channelNum, calibrated) <==>
              f.unit == unitId && f.channel == channel && Voltage(f.conv, calibrated).Some?
  {
  }

  /** The millivolts of the frames the filter keeps, in order. */
  function Kept(frames: seq<Frame>, unitId: nat, channel: nat, channelNum: nat, calibrated: bool): (out: seq<Esp.U32>)
    ensures |out| <= |frames|
  {
    if frames == [] then []
    else
      var last := frames[|frames| - 1];
      Kept(frames[..|frames| - 1], unitId, channel, channelNum, calibrated)
      + (if Keep(last, unitId, channel, channelNum, calibrated) then [Voltage(last.conv, calibrated).value] else [])
  }

  /** What the filter keeps from a prefix is a prefix of what it keeps from the whole. */
  lemma {:induction false} KeptPrefix(frames: seq<Frame>, i: nat, unitId: nat, channel: nat, channelNum: nat, calibrated: bool)
    requires i <= |frames|
    ensures var k := Kept(frames[..i], unitId, channel, channelNum, calibrated);
            k <= Kept(frames, unitId, channel, channelNum, calibrated)
    decreases |frames| - i
  {
    if i < |frames| {
      KeptPrefix(frames, i + 1, unitId, channel, channelNum, calibrated);
      assert frames[..i + 1][..i] == frames[..i];
    } else {
      assert frames[..i] == frames;
    }
  }

  /** Every kept value comes from a frame of the device's unit and channel. */
  lemma {:induction false} KeptFromDevice(frames: seq<Frame>, unitId: nat, channel: nat, channelNum: nat, calibrated: bool)
    ensures forall v :: v in Kept(frames, unitId, channel, channelNum, calibrated) ==>
              exists f :: f in frames && f.unit == unitId && f.channel == channel && Voltage(f.conv, calibrated) == Some(v)
  {
    if frames != [] {
      var init := frames[..|frames| - 1];
      KeptFromDevice(init, unitId, channel, channelNum, calibrated);
      forall v | v in Kept(frames, unitId, channel, channelNum, calibrated)
        ensures exists f :: f in frames && f.unit == unitId && f.channel == channel && Voltage(f.conv, calibrated) == Some(v)
      {
        if v in Kept(init, unitId, channel, channelNum, calibrated) {
          var f :| f in init && f.unit == unitId && f.channel == channel && Voltage(f.conv, calibrated) == Some(v);
          assert f in frames;
        } else {
          assert frames[|frames| - 1] in frames;
        }
      }
    }
  }

  /** Row-major order on (unit, channel). */
  predicate Before(u1: int, c1: int, u2: int, c2: int)
  {
    u1 < u2 || (u1 == u2 && c1 < c2)
  }

  /** `struct adc_dev`: its configuration, calibration flag, and the unit and channel it holds. */
  class Dev {
    var cfg: BaseCfg
    var sampleFreqHz: Esp.U32
    var calibrated: bool
    const unit: nat
    const channel: nat

    constructor (cfg: BaseCfg, sampleFreqHz: Esp.U32, unit: nat, channel: nat)
      ensures this.cfg == cfg && this.sampleFreqHz == sampleFreqHz && !calibrated
      ensures this.unit == unit && this.channel == channel
    {
      this.cfg := cfg;
      this.sampleFreqHz := sampleFreqHz;
      this.calibrated := false;
      this.unit := unit;
      this.channel := channel;
    }
  }

  /** The module's static state: `adc_units` and the SoC's channel map. */
  class Adc {
    const units: array<Unit>
    const channelNum: seq<nat>
    const ioNum: seq<seq<int>>
    const maxChannels: nat

    /** The shape of the channel map, and the unit table's consistency. */
    ghost predicate Valid()
      reads this, units
    {
      && |channelNum| == units.Length && |ioNum| == units.Length
      && (forall u :: 0 <= u < units.Length ==> channelNum[u] <= maxChannels && |ioNum[u]| == channelNum[u])
      && (forall u :: 0 <= u < units.Length ==> UnitOk(units[u], u))
    }

    /** A unit holds every channel, is configured exactly when it has a mode, and then carries its own id. */
    ghost predicate UnitOk(t: Unit, u: nat)
    {
      |t.channels| == maxChannels && (t.configured <==> t.mode != ModeDefault) && (t.configured ==> t.id == u)
    }

    /** A device this module handed out. */
    ghost predicate Holds(dev: Dev)
    {
      dev.unit < units.Length && dev.unit < |channelNum| && dev.channel < channelNum[dev.unit] && dev.channel < maxChannels
    }

    /** The zero-initialised `adc_units`. */
    constructor (channelNum: seq<nat>, ioNum: seq<seq<int>>, maxChannels: nat)
      requires |ioNum| == |channelNum|
      requires forall u :: 0 <= u < |channelNum| ==> channelNum[u] <= maxChannels && |ioNum[u]| == channelNum[u]
      ensures Valid() && fresh(units)
      ensures this.channelNum == channelNum && this.ioNum == ioNum && this.maxChannels == maxChannels
      ensures forall u :: 0 <= u < units.Length ==> units[u] == Unit(false, 0, ModeDefault, seq(maxChannels, _ => Channel(false, 0)))
    {
      this.channelNum := channelNum;
      this.ioNum := ioNum;
      this.maxChannels := maxChannels;
      units := new Unit[|channelNum|](_ => Unit(false, 0, ModeDefault, seq(maxChannels, _ => Channel(false, 0))));
    }

    /** A channel the device lookup may take for `pin`: not on ADC2, not enabled, wired to the pin. */
    ghost predicate Candidate(t: seq<Unit>, u: int, c: int, pin: int)
    {
      && 0 <= u < |t| && u < |channelNum| && u != ADC_UNIT_2
      && u < |ioNum| && 0 <= c < channelNum[u] && c < |t[u].channels| && c < |ioNum[u]|
      && !t[u].channels[c].enabled && ioNum[u][c] == pin
    }

    /** The candidate the lookup takes: the first in unit order, then channel order. */
    ghost predicate FirstCandidate(t: seq<Unit>, u: int, c: int, pin: int)
    {
      Candidate(t, u, c, pin) && forall u', c' :: Candidate(t, u', c', pin) ==> !Before(u', c', u, c)
    }

    /** Some unit is configured in continuous mode. */
    ghost predicate ContConfigured(t: seq<Unit>)
    {
      exists i :: 0 <= i < |t| && t[i].mode == ModeContinuous && t[i].configured
    }

    /** The channel search of `adc_module_init_dev_oneshot` and `adc_module_init_dev_continuous`. */
    method FindChannel(pin: Esp.U8) returns (found: bool, unit: nat, channel: nat)
      requires Valid()
      ensures found ==> FirstCandidate(units[..], unit, channel, pin)
      ensures !found ==> forall u, c :: !Candidate(units[..], u, c, pin)
    {
      var u := 0;
      while u < units.Length
        invariant 0 <= u <= units.Length
        invariant forall u', c' :: u' < u ==> !Candidate(units[..], u', c', pin)
      {
        if u != ADC_UNIT_2 {
          var c := 0;
          while c < channelNum[u]
            invariant 0 <= c <= channelNum[u]
            invariant forall c' :: c' < c ==> !Candidate(units[..], u, c', pin)
          {
            if !units[u].channels[c].enabled && ioNum[u][c] == pin {
              return true, u, c;
            }
            c := c + 1;
          }
        }
        u := u + 1;
      }
      return false, 0, 0;
    }

    /** `is_cont_adc_configured`. */
    method IsContConfigured() returns (r: bool)
      ensures r <==> ContConfigured(units[..])
    {
      var i := 0;
      while i < units.Length
        invariant 0 <= i <= units.Length
        invariant forall j :: 0 <= j < i ==> !(units[j].mode == ModeContinuous && units[j].configured)
      {
        if units[i].mode == ModeContinuous && units[i].configured {
          return true;
        }
        i := i + 1;
      }
      return false;
    }

    /** Whether `init_unit` refuses its arguments before calling the driver. */
    predicate InitRefused(unitId: nat, mode: Mode)
    {
      unitId >= units.Length || mode == ModeDefault || (mode == ModeContinuous && unitId == ADC_UNIT_2)
    }

    /**
     * `init_unit`: refuse an unknown unit or mode (and DMA on ADC2), create
     * the driver's unit, then mark the unit configured in the mode.
     */
    method InitUnit(unitId: nat, mode: Mode, driverResult: Esp.Err) returns (err: Esp.Err)
      requires Valid()
      modifies units
      ensures Valid()
      ensures InitRefused(unitId, mode) ==> err == Esp.ERR_INVALID_ARG
      ensures !InitRefused(unitId, mode) ==> err == driverResult
      ensures err != Esp.OK ==> units[..] == old(units[..])
      ensures err == Esp.OK ==>
                units[..] == old(units[..])[unitId := old(units[unitId]).(configured := true, id := unitId, mode := mode)]
    {
      if unitId >= units.Length || mode == ModeDefault {
        return Esp.ERR_INVALID_ARG;
      }
      if mode == ModeContinuous && unitId == ADC_UNIT_2 {
        return Esp.ERR_INVALID_ARG;
      }
      if driverResult != Esp.OK {
        return driverResult;
      }
      units[unitId] := units[unitId].(configured := true, id := unitId, mode := mode);
      return Esp.OK;
    }

    /** `del_unit`: refuse an unknown unit or mode, delete the driver's unit, then mark the unit free. */
    method DelUnit(unitId: nat, mode: Mode, driverResult: Esp.Err) returns (err: Esp.Err)
      requires Valid()
      modifies units
      ensures Valid()
      ensures unitId >= units.Length || mode == ModeDefault ==> err == Esp.ERR_INVALID_ARG
      ensures unitId < units.Length && mode != ModeDefault ==> err == driverResult
      ensures err != Esp.OK ==> units[..] == old(units[..])
      ensures err == Esp.OK ==>
                units[..] == old(units[..])[unitId := old(units[unitId]).(configured := false, mode := ModeDefault)]
    {
      if unitId >= units.Length || mode == ModeDefault {
        return Esp.ERR_INVALID_ARG;
      }
      if driverResult != Esp.OK {
        return driverResult;
      }
      units[unitId] := units[unitId].(configured := false, mode := ModeDefault);
      return Esp.OK;
    }

    /** The tail of both `init_dev_*`: record the channel's id and the unit's mode, hand out the device. */
    method Attach(unit: nat, channel: nat, mode: Mode, cfg: BaseCfg, sampleFreqHz: Esp.U32) returns (dev: Dev)
      requires Valid() && unit < units.Length && unit < |channelNum| && channel < channelNum[unit]
      requires units[unit].configured && mode != ModeDefault
      modifies units
      ensures Valid() && Holds(dev) && fresh(dev)
      ensures dev.unit == unit && dev.channel == channel && dev.cfg == cfg && dev.sampleFreqHz == sampleFreqHz
      ensures !dev.calibrated
      ensures var t := old(units[unit]);
              units[..] == old(units[..])[unit := t.(mode := mode, channels := t.channels[channel := t.channels[channel].(id := channel)])]
    {
      var t := units[unit];
      units[unit] := t.(mode := mode, channels := t.channels[channel := t.channels[channel].(id := channel)]);
      dev := new Dev(cfg, sampleFreqHz, unit, channel);
    }

    /**
     * `adc_module_init_dev_oneshot`: check the arguments and that no unit is
     * in continuous mode, find the channel, bring up its unit in oneshot
     * mode, allocate the device (on failure, releasing a configured unit
     * and returning NO_MEM) and attach it.
     */
    method InitDevOneshot(base: Option<BaseCfg>, devCfgGiven: bool, retGiven: bool,
                          unitResult: Esp.Err, obtained: bool, delResult: Esp.Err)
      returns (err: Esp.Err, dev: Option<Dev>, unit: nat, channel: nat)
      requires Valid()
      modifies units
      ensures Valid()
      ensures dev.Some? <==> err == Esp.OK
      ensures !(devCfgGiven && base.Some? && retGiven) ==> err == Esp.ERR_INVALID_ARG && units[..] == old(units[..])
      ensures devCfgGiven && base.Some? && retGiven && ContConfigured(old(units[..])) ==>
                err == Esp.ERR_INVALID_STATE && units[..] == old(units[..])
      ensures devCfgGiven && base.Some? && retGiven && !ContConfigured(old(units[..]))
              && (forall u, c :: !Candidate(old(units[..]), u, c, base.value.pin)) ==>
                err == Esp.ERR_NOT_FOUND && units[..] == old(units[..])
      ensures err == Esp.OK ==>
                && FirstCandidate(old(units[..]), unit, channel, base.value.pin)
                && Holds(dev.value) && fresh(dev.value)
                && dev.value.unit == unit && dev.value.channel == channel
                && dev.value.cfg == base.value && !dev.value.calibrated
                && units[unit].configured && units[unit].mode == ModeOneshot
                && units[unit].channels[channel] == Channel(false, channel)
                && (forall u :: 0 <= u < units.Length && u != unit ==> units[u] == old(units[u]))
      ensures err == Esp.OK ==> obtained && unitResult == Esp.OK
      ensures devCfgGiven && base.Some? && retGiven && !ContConfigured(old(units[..]))
              && (exists u, c :: Candidate(old(units[..]), u, c, base.value.pin)) ==>
                && FirstCandidate(old(units[..]), unit, channel, base.value.pin)
                && var t := old(units[unit]);
                   var up := t.(configured := true, id := unit, mode := ModeOneshot);
                   && (unitResult != Esp.OK ==> err == unitResult && units[..] == old(units[..]))
                   && (unitResult == Esp.OK && !obtained ==>
                         err == Esp.ERR_NO_MEM
                         && units[..] == old(units[..])[unit := if delResult == Esp.OK then up.(configured := false, mode := ModeDefault) else up])
                   && (unitResult == Esp.OK && obtained ==>
                         err == Esp.OK && units[..] == old(units[..])[unit := up.(channels := t.channels[channel := Channel(false, channel)])])
    {
      unit, channel := 0, 0;
      if !(devCfgGiven && base.Some? && retGiven) {
        return Esp.ERR_INVALID_ARG, None, unit, channel;
      }
      var cont := IsContConfigured();
      if cont {
        return Esp.ERR_INVALID_STATE, None, unit, channel;
      }
      var found;
      found, unit, channel := FindChannel(base.value.pin);
      if !found {
        return Esp.ERR_NOT_FOUND, None, unit, channel;
      }
      assert Candidate(old(units[..]), unit, channel, base.value.pin);
      err := InitUnit(unit, ModeOneshot, unitResult);
      if err != Esp.OK {
        return err, None, unit, channel;
      }
      if !obtained {
        if units[unit].configured {
          var _ := DelUnit(unit, ModeOneshot, delResult);
        }
        return Esp.ERR_NO_MEM, None, unit, channel;
      }
      var d := Attach(unit, channel, ModeOneshot, base.value, 0);
      return Esp.OK, Some(d), unit, channel;
    }

    /**
     * `adc_module_init_dev_continuous` with the two corrections: a missing
     * base configuration is refused with the other arguments, and a
     * failed `adc_continuous_config` releases the unit it brought up.
     */
    method InitDevContinuous(base: Option<BaseCfg>, devCfg: Option<ContCfg>, retGiven: bool,
                             unitResult: Esp.Err, configResult: Esp.Err, obtained: bool, delResult: Esp.Err)
      returns (err: Esp.Err, dev: Option<Dev>, unit: nat, channel: nat)
      requires Valid()
      modifies units
      ensures Valid()
      ensures dev.Some? <==> err == Esp.OK
      ensures !(devCfg.Some? && base.Some? && retGiven) ==> err == Esp.ERR_INVALID_ARG && units[..] == old(units[..])
      ensures devCfg.Some? && base.Some? && retGiven && ContConfigured(old(units[..])) ==>
                err == Esp.ERR_INVALID_STATE && units[..] == old(units[..])
      ensures devCfg.Some? && base.Some? && retGiven && !ContConfigured(old(units[..]))
              && (forall u, c :: !Candidate(old(units[..]), u, c, base.value.pin)) ==>
                err == Esp.ERR_NOT_FOUND && units[..] == old(units[..])
      ensures err == Esp.OK ==> obtained && unitResult == Esp.OK && configResult == Esp.OK
      ensures err == Esp.OK ==>
                && FirstCandidate(old(units[..]), unit, channel, base.value.pin)
                && Holds(dev.value) && fresh(dev.value)
                && dev.value.unit == unit && dev.value.channel == channel
                && dev.value.cfg == base.value && dev.value.sampleFreqHz == devCfg.value.sampleFreqHz
                && units[unit].configured && units[unit].mode == ModeContinuous
                && units[unit].channels[channel] == Channel(false, channel)
                && (forall u :: 0 <= u < units.Length && u != unit ==> units[u] == old(units[u]))
      ensures err != Esp.OK && !ContConfigured(old(units[..])) && delResult == Esp.OK ==> !ContConfigured(units[..])
      ensures devCfg.Some? && base.Some? && retGiven && !ContConfigured(old(units[..]))
              && (exists u, c :: Candidate(old(units[..]), u, c, base.value.pin)) ==>
                && FirstCandidate(old(units[..]), unit, channel, base.value.pin)
                && var t := old(units[unit]);
                   var up := t.(configured := true, id := unit, mode := ModeContinuous);
                   && (unitResult != Esp.OK ==> err == unitResult && units[..] == old(units[..]))
                   && (unitResult == Esp.OK && (configResult != Esp.OK || !obtained) ==>
                         err == (if configResult != Esp.OK then configResult else Esp.ERR_NO_MEM)
                         && units[..] == old(units[..])[unit := if delResult == Esp.OK then up.(configured := false, mode := ModeDefault) else up])
                   && (unitResult == Esp.OK && configResult == Esp.OK && obtained ==>
                         err == Esp.OK && units[..] == old(units[..])[unit := up.(channels := t.channels[channel := Channel(false, channel)])])
    {
      unit, channel := 0, 0;
      if !(devCfg.Some? && base.Some? && retGiven) {
        return Esp.ERR_INVALID_ARG, None, unit, channel;
      }
      var cont := IsContConfigured();
      if cont {
        return Esp.ERR_INVALID_STATE, None, unit, channel;
      }
      var found;
      found, unit, channel := FindChannel(base.value.pin);
      if !found {
        return Esp.ERR_NOT_FOUND, None, unit, channel;
      }
      assert Candidate(old(units[..]), unit, channel, base.value.pin);
      err := InitUnit(unit, ModeContinuous, unitResult);
      if err != Esp.OK {
        return err, None, unit, channel;
      }
      if configResult != Esp.OK || !obtained {
        var _ := DelUnit(unit, ModeContinuous, delResult);
        if delResult == Esp.OK {
          ContReleased(old(units[..]), unit, delResult);
        }
        return if configResult != Esp.OK then configResult else Esp.ERR_NO_MEM, None, unit, channel;
      }
      var d := Attach(unit, channel, ModeContinuous, base.value, devCfg.value.sampleFreqHz);
      return Esp.OK, Some(d), unit, channel;
    }

    /** Releasing the only unit in continuous mode leaves none in it. */
    lemma ContReleased(before: seq<Unit>, unit: nat, delResult: Esp.Err)
      requires |before| == units.Length && unit < units.Length && !ContConfigured(before)
      requires units[unit].configured ==> units[unit].mode != ModeContinuous
      requires forall u :: 0 <= u < units.Length && u != unit ==> units[u] == before[u]
      ensures !ContConfigured(units[..])
    {
    }

    /**
     * `adc_module_init_dev_continuous` as written: a failed
     * `adc_continuous_config` returns its error and leaves the unit
     * configured in continuous mode.
     */
    method InitDevContinuousAsWritten(base: BaseCfg, devCfg: Option<ContCfg>, retGiven: bool,
                                      unitResult: Esp.Err, configResult: Esp.Err, obtained: bool, delResult: Esp.Err)
      returns (err: Esp.Err, dev: Option<Dev>)
      requires Valid()
      modifies units
      ensures Valid()
      ensures dev.Some? <==> err == Esp.OK
      ensures devCfg.Some? && retGiven && !ContConfigured(old(units[..]))
              && (exists u, c :: Candidate(old(units[..]), u, c, base.pin))
              && unitResult == Esp.OK && configResult != Esp.OK ==>
                err == configResult && ContConfigured(units[..])
    {
      if !(devCfg.Some? && retGiven) {
        return Esp.ERR_INVALID_ARG, None;
      }
      var cont := IsContConfigured();
      if cont {
        return Esp.ERR_INVALID_STATE, None;
      }
      var found, unit, channel := FindChannel(base.pin);
      if !found {
        assert units[..] == old(units[..]);
        assert forall u, c :: !Candidate(old(units[..]), u, c, base.pin);
        return Esp.ERR_NOT_FOUND, None;
      }
      err := InitUnit(unit, ModeContinuous, unitResult);
      if err != Esp.OK {
        return err, None;
      }
      if configResult != Esp.OK {
        assert units[unit].mode == ModeContinuous && units[unit].configured;
        return configResult, None;
      }
      if !obtained {
        if units[unit].configured {
          var _ := DelUnit(unit, ModeContinuous, delResult);
        }
        return Esp.ERR_NO_MEM, None;
      }
      var d := Attach(unit, channel, ModeContinuous, base, devCfg.value.sampleFreqHz);
      return Esp.OK, Some(d);
    }

    /** `enable_dev`: the mode's driver call, then the channel is marked enabled. */
    method EnableChannel(dev: Dev, driverResult: Esp.Err) returns (err: Esp.Err)
      requires Valid() && Holds(dev)
      modifies units
      ensures Valid()
      ensures old(units[dev.unit].mode) == ModeDefault ==> err == Esp.ERR_INVALID_ARG
      ensures old(units[dev.unit].mode) != ModeDefault ==> err == driverResult
      ensures err != Esp.OK ==> units[..] == old(units[..])
      ensures err == Esp.OK ==> units[..] == old(units[..])[dev.unit := SetEnabled(old(units[dev.unit]), dev.channel, true)]
    {
      if units[dev.unit].mode == ModeDefault {
        return Esp.ERR_INVALID_ARG;
      }
      if driverResult != Esp.OK {
        return driverResult;
      }
      units[dev.unit] := SetEnabled(units[dev.unit], dev.channel, true);
      return Esp.OK;
    }

    /** `disable_dev`: the mode's driver call, then the channel is marked disabled. */
    method DisableChannel(dev: Dev, driverResult: Esp.Err) returns (err: Esp.Err)
      requires Valid() && Holds(dev)
      modifies units
      ensures Valid()
      ensures old(units[dev.unit].mode) == ModeDefault ==> err == Esp.ERR_INVALID_ARG
      ensures old(units[dev.unit].mode) != ModeDefault ==> err == driverResult
      ensures err != Esp.OK ==> units[..] == old(units[..])
      ensures err == Esp.OK ==> units[..] == old(units[..])[dev.unit := SetEnabled(old(units[dev.unit]), dev.channel, false)]
    {
      if units[dev.unit].mode == ModeDefault {
        return Esp.ERR_INVALID_ARG;
      }
      if driverResult != Esp.OK {
        return driverResult;
      }
      units[dev.unit] := SetEnabled(units[dev.unit], dev.channel, false);
      return Esp.OK;
    }

    /**
     * `adc_module_enable_dev`, corrected: refuse a missing device, an
     * unconfigured unit and an enabled channel, enable the channel and
     * return the driver's error if that fails, then create the
     * calibration scheme when asked.
     */
    method EnableDev(dev: Option<Dev>, enableResult: Esp.Err, caliResult: Esp.Err) returns (err: Esp.Err)
      requires Valid() && (dev.Some? ==> Holds(dev.value))
      modifies units, if dev.Some? then {dev.value} else {}
      ensures Valid()
      ensures dev.None? ==> err == Esp.ERR_INVALID_ARG
      ensures dev.Some? && (!old(units[dev.value.unit].configured) || old(units[dev.value.unit].channels[dev.value.channel].enabled)) ==>
                err == Esp.ERR_INVALID_STATE && units[..] == old(units[..])
      ensures err == Esp.OK ==> units[dev.value.unit].channels[dev.value.channel].enabled
      ensures err == Esp.OK ==> dev.value.calibrated == (old(dev.value.calibrated) || dev.value.cfg.calibrate)
      ensures dev.Some? && old(units[dev.value.unit].configured) && !old(units[dev.value.unit].channels[dev.value.channel].enabled) ==>
                (err == Esp.OK <==> enableResult == Esp.OK && (dev.value.cfg.calibrate ==> caliResult == Esp.OK))
      ensures dev.None? ==> units[..] == old(units[..])
      ensures dev.Some? ==> dev.value.cfg == old(dev.value.cfg) && dev.value.sampleFreqHz == old(dev.value.sampleFreqHz)
      ensures dev.Some? && (!old(units[dev.value.unit].configured) || old(units[dev.value.unit].channels[dev.value.channel].enabled)) ==>
                dev.value.calibrated == old(dev.value.calibrated)
      ensures dev.Some? && old(units[dev.value.unit].configured) && !old(units[dev.value.unit].channels[dev.value.channel].enabled) ==>
                && units[..] == (if enableResult == Esp.OK
                                 then old(units[..])[dev.value.unit := SetEnabled(old(units[dev.value.unit]), dev.value.channel, true)]
                                 else old(units[..]))
                && dev.value.calibrated == (old(dev.value.calibrated) || (enableResult == Esp.OK && dev.value.cfg.calibrate && caliResult == Esp.OK))
                && (enableResult != Esp.OK ==> err == enableResult)
                && (enableResult == Esp.OK && dev.value.cfg.calibrate && caliResult != Esp.OK ==> err == caliResult)
    {
      if dev.None? {
        return Esp.ERR_INVALID_ARG;
      }
      var d := dev.value;
      if !units[d.unit].configured || units[d.unit].channels[d.channel].enabled {
        return Esp.ERR_INVALID_STATE;
      }
      err := EnableChannel(d, enableResult);
      if err != Esp.OK {
        return err;
      }
      if d.cfg.calibrate {
        if caliResult != Esp.OK {
          return caliResult;
        }
        d.calibrated := true;
      }
      return Esp.OK;
    }

    /** `adc_module_enable_dev` as written: the result of enabling the channel is dropped. */
    method EnableDevAsWritten(dev: Option<Dev>, enableResult: Esp.Err, caliResult: Esp.Err) returns (err: Esp.Err)
      requires Valid() && (dev.Some? ==> Holds(dev.value))
      modifies units, if dev.Some? then {dev.value} else {}
      ensures Valid()
      ensures dev.Some? && old(units[dev.value.unit].configured) && !old(units[dev.value.unit].channels[dev.value.channel].enabled)
              && enableResult != Esp.OK && !dev.value.cfg.calibrate ==>
                err == Esp.OK && !units[dev.value.unit].channels[dev.value.channel].enabled
    {
      if dev.None? {
        return Esp.ERR_INVALID_ARG;
      }
      var d := dev.value;
      if !units[d.unit].configured || units[d.unit].channels[d.channel].enabled {
        return Esp.ERR_INVALID_STATE;
      }
      var _ := EnableChannel(d, enableResult);
      if d.cfg.calibrate {
        if caliResult != Esp.OK {
          return caliResult;
        }
        d.calibrated := true;
      }
      return Esp.OK;
    }

    /**
     * `adc_module_disable_dev`, corrected: refuse a missing device, an
     * unconfigured unit and a disabled channel, disable the channel and
     * return the driver's error if that fails, then delete the calibration
     * scheme if there is one.
     */
    method DisableDev(dev: Option<Dev>, disableResult: Esp.Err, caliResult: Esp.Err) returns (err: Esp.Err)
      requires Valid() && (dev.Some? ==> Holds(dev.value))
      modifies units, if dev.Some? then {dev.value} else {}
      ensures Valid()
      ensures dev.None? ==> err == Esp.ERR_INVALID_ARG
      ensures dev.Some? && (!old(units[dev.value.unit].configured) || !old(units[dev.value.unit].channels[dev.value.channel].enabled)) ==>
                err == Esp.ERR_INVALID_STATE && units[..] == old(units[..])
      ensures err == Esp.OK ==> !units[dev.value.unit].channels[dev.value.channel].enabled && !dev.value.calibrated
      ensures dev.Some? && old(units[dev.value.unit].configured) && old(units[dev.value.unit].channels[dev.value.channel].enabled) ==>
                (err == Esp.OK <==> disableResult == Esp.OK && (old(dev.value.calibrated) ==> caliResult == Esp.OK))
      ensures dev.None? ==> units[..] == old(units[..])
      ensures dev.Some? ==> dev.value.cfg == old(dev.value.cfg) && dev.value.sampleFreqHz == old(dev.value.sampleFreqHz)
      ensures dev.Some? && (!old(units[dev.value.unit].configured) || !old(units[dev.value.unit].channels[dev.value.channel].enabled)) ==>
                dev.value.calibrated == old(dev.value.calibrated)
      ensures dev.Some? && old(units[dev.value.unit].configured) && old(units[dev.value.unit].channels[dev.value.channel].enabled) ==>
                && units[..] == (if disableResult == Esp.OK
                                 then old(units[..])[dev.value.unit := SetEnabled(old(units[dev.value.unit]), dev.value.channel, false)]
                                 else old(units[..]))
                && dev.value.calibrated == (old(dev.value.calibrated) && !(disableResult == Esp.OK && caliResult == Esp.OK))
                && (disableResult != Esp.OK ==> err == disableResult)
                && (disableResult == Esp.OK && old(dev.value.calibrated) && caliResult != Esp.OK ==> err == caliResult)
    {
      if dev.None? {
        return Esp.ERR_INVALID_ARG;
      }
      var d := dev.value;
      if !units[d.unit].configured || !units[d.unit].channels[d.channel].enabled {
        return Esp.ERR_INVALID_STATE;
      }
      err := DisableChannel(d, disableResult);
      if err != Esp.OK {
        return err;
      }
      if d.calibrated {
        if caliResult != Esp.OK {
          return caliResult;
        }
        d.calibrated := false;
      }
      return Esp.OK;
    }

    /** `adc_module_disable_dev` as written: the result of disabling the channel is dropped. */
    method DisableDevAsWritten(dev: Option<Dev>, disableResult: Esp.Err, caliResult: Esp.Err) returns (err: Esp.Err)
      requires Valid() && (dev.Some? ==> Holds(dev.value))
      modifies units, if dev.Some? then {dev.value} else {}
      ensures Valid()
      ensures dev.Some? && old(units[dev.value.unit].configured) && old(units[dev.value.unit].channels[dev.value.channel].enabled)
              && disableResult != Esp.OK && !old(dev.value.calibrated) ==>
                err == Esp.OK && units[dev.value.unit].channels[dev.value.channel].enabled
    {
      if dev.None? {
        return Esp.ERR_INVALID_ARG;
      }
      var d := dev.value;
      if !units[d.unit].configured || !units[d.unit].channels[d.channel].enabled {
        return Esp.ERR_INVALID_STATE;
      }
      var _ := DisableChannel(d, disableResult);
      if d.calibrated {
        if caliResult != Esp.OK {
          return caliResult;
        }
        d.calibrated := false;
      }
      return Esp.OK;
    }

    /** `adc_module_del_dev`: refuse while the channel is enabled or calibrated. */
    method DelDev(dev: Option<Dev>) returns (err: Esp.Err)
      requires Valid() && (dev.Some? ==> Holds(dev.value))
      ensures dev.None? ==> err == Esp.ERR_INVALID_ARG
      ensures dev.Some? ==>
                (err == Esp.OK <==> !units[dev.value.unit].channels[dev.value.channel].enabled && !dev.value.calibrated)
      ensures err != Esp.OK ==> err == Esp.ERR_INVALID_ARG || err == Esp.ERR_INVALID_STATE
    {
      if dev.None? {
        return Esp.ERR_INVALID_ARG;
      }
      var d := dev.value;
      if units[d.unit].channels[d.channel].enabled {
        return Esp.ERR_INVALID_STATE;
      }
      if d.calibrated {
        return Esp.ERR_INVALID_STATE;
      }
      return Esp.OK;
    }

    /**
     * `adc_module_del`: delete every configured unit in order, stopping at
     * the first the driver fails to delete. `delResults[i]` is what deleting
     * unit i returns.
     */
    method Del(delResults: seq<Esp.Err>) returns (err: Esp.Err)
      requires Valid() && |delResults| == units.Length
      modifies units
      ensures Valid()
      ensures err == Esp.OK <==> forall i :: 0 <= i < units.Length && old(units[i].configured) ==> delResults[i] == Esp.OK
      ensures err == Esp.OK ==> forall i :: 0 <= i < units.Length ==> !units[i].configured
      ensures err == Esp.OK ==> forall i :: 0 <= i < units.Length ==> units[i] == Freed(old(units[i]))
      ensures err != Esp.OK ==>
                exists k :: 0 <= k < units.Length && old(units[k].configured) && err == delResults[k]
                  && (forall i :: 0 <= i < k && old(units[i].configured) ==> delResults[i] == Esp.OK)
                  && (forall i :: 0 <= i < k ==> units[i] == Freed(old(units[i])))
                  && (forall i :: k <= i < units.Length ==> units[i] == old(units[i]))
    {
      var id := 0;
      while id < units.Length
        invariant 0 <= id <= units.Length && Valid()
        invariant forall i :: 0 <= i < id ==> !units[i].configured
        invariant forall i :: 0 <= i < id ==> units[i] == Freed(old(units[i]))
        invariant forall i :: 0 <= i < id && old(units[i].configured) ==> delResults[i] == Esp.OK
        invariant forall i :: id <= i < units.Length ==> units[i] == old(units[i])
      {
        if units[id].configured {
          err := DelUnit(id, units[id].mode, delResults[id]);
          if err != Esp.OK {
            assert old(units[id].configured) && err == delResults[id];
            return err;
          }
        }
        id := id + 1;
      }
      return Esp.OK;
    }

    /**
     * The oneshot branch of `adc_module_get_data`: read and convert
     * sample after sample into `out`, stopping at the first read or
     * calibration failure; `samples[i]` is what the i-th attempt gives.
     */
    method ReadOneshot(samples: seq<OneshotSample>, calibrated: bool, out: array<Esp.U32>) returns (count: nat)
      requires |samples| <= out.Length
      modifies out
      ensures count <= |samples|
      ensures forall i :: 0 <= i < count ==> Stored(samples[i], calibrated)
      ensures count < |samples| ==> !Stored(samples[count], calibrated)
      ensures forall i :: 0 <= i < count ==> Some(out[i]) == Voltage(samples[i].conv, calibrated)
      ensures out[count..] == old(out[count..])
    {
      count := 0;
      var i := 0;
      while i < |samples|
        invariant 0 <= i <= |samples| && count == i
        invariant forall j :: 0 <= j < i ==> Stored(samples[j], calibrated)
        invariant forall j :: 0 <= j < i ==> Some(out[j]) == Voltage(samples[j].conv, calibrated)
        invariant forall j :: i <= j < out.Length ==> out[j] == old(out[j])
      {
        if samples[i].readErr != Esp.OK {
          break;
        }
        var v := Voltage(samples[i].conv, calibrated);
        if v.None? {
          break;
        }
        out[i] := v.value;
        count := count + 1;
        i := i + 1;
      }
    }

    /**
     * The continuous branch of `adc_module_get_data` after a successful DMA
     * read: filter the frames by unit and channel and store their values,
     * at most `wanted` of them.
     */
    method ReadFrames(frames: seq<Frame>, unitId: nat, channel: nat, channelNum: nat, calibrated: bool,
                      wanted: nat, out: array<Esp.U32>)
      returns (count: nat)
      requires wanted <= out.Length
      modifies out
      ensures var kept := Kept(frames, unitId, channel, channelNum, calibrated);
              count == Min(|kept|, wanted) && out[..count] == kept[..count]
      ensures out[count..] == old(out[count..])
    {
      count := 0;
      var i := 0;
      while i < |frames| && count < wanted
        invariant 0 <= i <= |frames| && count <= wanted
        invariant out[..count] == Kept(frames[..i], unitId, channel, channelNum, calibrated)
        invariant forall j :: count <= j < out.Length ==> out[j] == old(out[j])
      {
        var f := frames[i];
        assert frames[..i + 1][..i] == frames[..i];
        if Keep(f, unitId, channel, channelNum, calibrated) {
          out[count] := Voltage(f.conv, calibrated).value;
          count := count + 1;
        }
        i := i + 1;
      }
      KeptPrefix(frames, i, unitId, channel, channelNum, calibrated);
      if i == |frames| {
        assert frames[..i] == frames;
      }
    }

    /**
     * `adc_module_get_data`: refuse missing pointers and zero samples;
     * in oneshot mode store up to `samplesToRead` converted samples,
     * stopping at the first failure and still returning OK; in continuous
     * mode refuse a failed DMA allocation, time out when nothing was read,
     * and store the device's samples among the frames read; refuse any
     * other mode.
     */
    method GetData(dev: Option<Dev>, samplesToRead: Esp.U32, out: array?<Esp.U32>, countGiven: bool,
                   oneshot: seq<OneshotSample>, obtained: bool, readErr: Esp.Err, rawBytes: nat, frames: seq<Frame>)
      returns (err: Esp.Err, samplesRead: Option<nat>)
      requires Valid() && (dev.Some? ==> Holds(dev.value))
      requires out != null ==> samplesToRead <= out.Length
      requires |oneshot| == samplesToRead && |frames| == rawBytes / DIGI_SIZE
      modifies out
      ensures dev.None? || out == null || !countGiven || samplesToRead == 0 ==>
                err == Esp.ERR_INVALID_ARG && samplesRead.None?
      ensures samplesRead.Some? <==> err == Esp.OK
      ensures err == Esp.OK ==> samplesRead.value <= samplesToRead
      ensures err == Esp.OK && units[dev.value.unit].mode == ModeOneshot ==>
                var n := samplesRead.value;
                && (forall i :: 0 <= i < n ==> Stored(oneshot[i], dev.value.calibrated)
                                               && Some(out[i]) == Voltage(oneshot[i].conv, dev.value.calibrated))
                && (n < samplesToRead ==> !Stored(oneshot[n], dev.value.calibrated))
      ensures err == Esp.OK && units[dev.value.unit].mode == ModeContinuous ==>
                var kept := Kept(frames, dev.value.unit, dev.value.channel, channelNum[dev.value.unit], dev.value.calibrated);
                samplesRead.value == Min(|kept|, samplesToRead) && out[..samplesRead.value] == kept[..samplesRead.value]
      ensures err == Esp.OK ==> out[samplesRead.value..] == old(out[samplesRead.value..])
      ensures dev.Some? && out != null && countGiven && samplesToRead > 0 && units[dev.value.unit].mode == ModeContinuous ==>
                (err == Esp.OK <==> obtained && readErr == Esp.OK && rawBytes > 0)
                && (!obtained ==> err == Esp.ERR_NO_MEM)
                && (obtained && err != Esp.OK ==> err == Esp.ERR_TIMEOUT)
      ensures dev.Some? && out != null && countGiven && samplesToRead > 0 && units[dev.value.unit].mode == ModeDefault ==>
                err == Esp.ERR_INVALID_ARG
      ensures dev.Some? && out != null && countGiven && samplesToRead > 0 && units[dev.value.unit].mode == ModeOneshot ==>
                err == Esp.OK
    {
      if dev.None? || out == null || !countGiven {
        return Esp.ERR_INVALID_ARG, None;
      }
      if samplesToRead == 0 {
        return Esp.ERR_INVALID_ARG, None;
      }
      var d := dev.value;
      var count: nat;
      if units[d.unit].mode == ModeOneshot {
        count := ReadOneshot(oneshot, d.calibrated, out);
      } else if units[d.unit].mode == ModeContinuous {
        if !obtained {
          return Esp.ERR_NO_MEM, None;
        }
        if readErr != Esp.OK || rawBytes == 0 {
          return Esp.ERR_TIMEOUT, None;
        }
        count := ReadFrames(frames, units[d.unit].id, d.channel, channelNum[units[d.unit].id], d.calibrated, samplesToRead, out);
      } else {
        return Esp.ERR_INVALID_ARG, None;
      }
      return Esp.OK, Some(count);
    }
  }

  /** The unit with one channel's enabled flag set. */
  function SetEnabled(t: Unit, channel: nat, on: bool): (r: Unit)
    requires channel < |t.channels|
    ensures r.configured == t.configured && r.id == t.id && r.mode == t.mode && |r.channels| == |t.channels|
    ensures r.channels[channel].enabled == on && r.channels[channel].id == t.channels[channel].id
    ensures forall c :: 0 <= c < |t.channels| && c != channel ==> r.channels[c] == t.channels[c]
  {
    t.(channels := t.channels[channel := t.channels[channel].(enabled := on)])
  }

  /** The unit `adc_module_del` leaves: a configured unit is released, a free one is left alone. */
  function Freed(t: Unit): Unit
  {
    if t.configured then t.(configured := false, mode := ModeDefault) else t
  }

  function Min(a: int, b: int): int { if a <= b then a else b }

  /** Disabling a channel that was enabled from the disabled state gives the unit back. */
  lemma EnableDisableRestores(t: Unit, channel: nat)
    requires channel < |t.channels| && !t.channels[channel].enabled
    ensures SetEnabled(SetEnabled(t, channel, true), channel, false) == t
  {
    var r := SetEnabled(SetEnabled(t, channel, true), channel, false);
    assert r.channels == t.channels;
  }

  /** Enabling a disabled channel of a table's unit and then disabling it gives the table back. */
  lemma TableEnableDisableRestores(t: seq<Unit>, u: nat, channel: nat)
    requires u < |t| && channel < |t[u].channels| && !t[u].channels[channel].enabled
    ensures var on := t[u := SetEnabled(t[u], channel, true)];
            on[u := SetEnabled(on[u], channel, false)] == t
  {
    EnableDisableRestores(t[u], channel);
  }

  /** The guard of `adc_module_init_dev_continuous` as written: the base configuration is not checked. */
  predicate ContinuousArgsAsWritten(baseGiven: bool, devCfgGiven: bool, retGiven: bool)
  {
    devCfgGiven && retGiven
  }

  /** A missing base configuration passes the guard and is then dereferenced for its pin. */
  lemma MissingBaseAccepted()
    ensures ContinuousArgsAsWritten(false, true, true)
  {
  }

  /** The guard the oneshot path uses and the continuous path evidently intends: every pointer is checked. */
  predicate ContinuousArgs(baseGiven: bool, devCfgGiven: bool, retGiven: bool)
  {
    devCfgGiven && baseGiven && retGiven
  }

  /** The intended guard is the written one plus the base configuration check. */
  lemma ContinuousArgsStrengthen(baseGiven: bool, devCfgGiven: bool, retGiven: bool)
    ensures ContinuousArgs(baseGiven, devCfgGiven, retGiven) <==> ContinuousArgsAsWritten(baseGiven, devCfgGiven, retGiven) && baseGiven
  {
  }
}
