/**
 * The Wi-Fi module (`wifi_module.c`): one static instance with a module
 * state, an access-point and a station context, and an event group whose
 * "connected" and "error" bits the station's event handlers set.
 *
 * ESP-IDF is abstract: each call into it (`xEventGroupCreate`,
 * `esp_netif_init`, the handler registrations, `esp_wifi_init`,
 * `wifi_init_sta`, `esp_wifi_set_mode`) becomes an input carrying what it
 * returned. The event handlers are methods the event loop calls.
 */
module WifiModule {
  import opened Wrappers
  import Esp

  /** `enum wifi_module_state`. */
  datatype ModuleState = StateError | StateInitial | StateStopped | StateRunning

  /** `enum wifi_module_ap_state`. */
  datatype ApState = ApError | ApInitial | ApStopped | ApRunning

  /** `enum wifi_module_sta_state`. */
  datatype StaState = StaError | StaInitial | StaDisconnected | StaConnected

  /** `enum wifi_module_mode`. */
  const MODE_STA: int := 0
  const MODE_AP: int := 1

  /** The mode handed to `esp_wifi_set_mode`. */
  datatype DriverMode = DriverSta | DriverAp | DriverApSta

  /** The bit of the event group an event handler raises while `wifi_module_start` waits. */
  datatype StaBit = ConnectedBit | ErrorBit

  /** `struct sta_config`; its `max_retries` reaches the driver only, as `failure_retry_cnt`. */
  datatype StaConfig = StaConfig(ssid: string, password: string, authMode: int, maxRetries: Esp.U8, retryDelayMs: Esp.U32)

  /**
   * What the calls of `wifi_module_init` return, in call order. The five
   * handler registrations are summed up by the first result that is not OK.
   */
  datatype InitResults = InitResults(groupCreated: bool, netifInit: Esp.Err, registration: Esp.Err, wifiInit: Esp.Err)

  /** The code `wifi_module_init` fails with once past the state check: the first failing call's. */
  function InitError(r: InitResults): (err: Esp.Err)
    ensures err == Esp.OK <==> r.groupCreated && r.netifInit == Esp.OK && r.registration == Esp.OK && r.wifiInit == Esp.OK
    ensures !r.groupCreated ==> err == Esp.ERR_NO_MEM
  {
    if !r.groupCreated then Esp.ERR_NO_MEM
    else if r.netifInit != Esp.OK then r.netifInit
    else if r.registration != Esp.OK then r.registration
    else r.wifiInit
  }

  class Module {
    var state: ModuleState
    var apEnabled: bool
    var apState: ApState
    var staEnabled: bool
    var staState: StaState
    var currentRetries: Esp.U32
    /** Set by the static initialiser and never assigned afterwards. */
    var maxRetries: Esp.U32
    /** Whether the event group exists, and its two bits. */
    var eventGroup: bool
    var connectedBit: bool
    var errorBit: bool
    /** Whether the five event handlers are registered and the Wi-Fi driver is initialised. */
    var handlersRegistered: bool
    var driverInitialized: bool
    /** The last mode the driver accepted. */
    var driverMode: DriverMode
    /** How many times the disconnect handler asked the driver to reconnect. */
    ghost var Reconnects: nat

    /**
     * The retry counter never passes its limit; a stopped or running module
     * has its event group, its handlers and its driver; the access point is
     * never enabled, because `wifi_init_softap` always fails.
     */
    predicate Valid()
      reads this
    {
      && currentRetries <= maxRetries
      && (state == StateStopped || state == StateRunning ==> eventGroup && handlersRegistered && driverInitialized)
      && !apEnabled && apState == ApInitial
      && state != StateError
    }

    /** The static initialiser of `wifi_module_global`. */
    constructor ()
      ensures Valid()
      ensures state == StateInitial && !apEnabled && !staEnabled && staState == StaInitial
      ensures currentRetries == 0 && maxRetries == 0 && !eventGroup && Reconnects == 0
    {
      state := StateInitial;
      apEnabled := false;
      apState := ApInitial;
      staEnabled := false;
      staState := StaInitial;
      currentRetries := 0;
      maxRetries := 0;
      eventGroup := false;
      connectedBit := false;
      errorBit := false;
      handlersRegistered := false;
      driverInitialized := false;
      driverMode := DriverSta;
      Reconnects := 0;
    }

    /** The `err:` path of `wifi_module_init`, also run by `wifi_module_del`: undo everything. */
    method TearDown()
      requires Valid()
      modifies this`state, this`eventGroup, this`connectedBit, this`errorBit, this`handlersRegistered, this`driverInitialized
      ensures Valid()
      ensures state == StateInitial && !eventGroup && !handlersRegistered && !driverInitialized
      ensures !connectedBit && !errorBit
    {
      eventGroup, connectedBit, errorBit := false, false, false;
      handlersRegistered, driverInitialized := false, false;
      state := StateInitial;
    }

    /** `wifi_module_del`: refused in INITIAL; otherwise tear down and return to INITIAL. */
    method Del() returns (err: Esp.Err)
      requires Valid()
      modifies this`state, this`eventGroup, this`connectedBit, this`errorBit, this`handlersRegistered, this`driverInitialized
      ensures Valid()
      ensures old(state) == StateInitial ==> err == Esp.ERR_INVALID_STATE && unchanged(this)
      ensures old(state) != StateInitial ==>
                err == Esp.OK && state == StateInitial && !eventGroup && !handlersRegistered && !driverInitialized
    {
      if state == StateInitial {
        return Esp.ERR_INVALID_STATE;
      }
      TearDown();
      return Esp.OK;
    }

    /**
     * `wifi_module_init` as written: a failed state check jumps to the same
     * `err:` label as a failed ESP-IDF call, so calling it on an initialised
     * module tears that module down and leaves it INITIAL.
     */
    method InitAsWritten(r: InitResults) returns (err: Esp.Err)
      requires Valid()
      modifies this`state, this`eventGroup, this`connectedBit, this`errorBit, this`handlersRegistered, this`driverInitialized
      ensures Valid()
      ensures old(state) != StateInitial ==> err == Esp.ERR_INVALID_STATE && state == StateInitial && !eventGroup
      ensures old(state) == StateInitial ==> err == InitError(r)
      ensures err == Esp.OK <==> old(state) == StateInitial && InitError(r) == Esp.OK
      ensures err == Esp.OK ==> state == StateStopped && !connectedBit && !errorBit
      ensures err != Esp.OK ==> state == StateInitial && !eventGroup && !handlersRegistered && !driverInitialized
    {
      if state != StateInitial {
        TearDown();
        return Esp.ERR_INVALID_STATE;
      }
      err := Bringup(r);
    }

    /**
     * `wifi_module_init` with the state check returning directly, as the
     * other entry points do: a second call is refused and changes nothing.
     */
    method Init(r: InitResults) returns (err: Esp.Err)
      requires Valid()
      modifies this`state, this`eventGroup, this`connectedBit, this`errorBit, this`handlersRegistered, this`driverInitialized
      ensures Valid()
      ensures old(state) != StateInitial ==> err == Esp.ERR_INVALID_STATE && unchanged(this)
      ensures old(state) == StateInitial ==> err == InitError(r)
      ensures err == Esp.OK ==> state == StateStopped && !connectedBit && !errorBit
      ensures old(state) == StateInitial && err != Esp.OK ==>
                state == StateInitial && !eventGroup && !handlersRegistered && !driverInitialized
    {
      if state != StateInitial {
        return Esp.ERR_INVALID_STATE;
      }
      err := Bringup(r);
    }

    /** The body of `wifi_module_init` after its state check. */
    method Bringup(r: InitResults) returns (err: Esp.Err)
      requires Valid() && state == StateInitial
      modifies this`state, this`eventGroup, this`connectedBit, this`errorBit, this`handlersRegistered, this`driverInitialized
      ensures Valid()
      ensures err == InitError(r)
      ensures err == Esp.OK ==> state == StateStopped && !connectedBit && !errorBit
      ensures err != Esp.OK ==> state == StateInitial && !eventGroup && !handlersRegistered && !driverInitialized
    {
      err := InitError(r);
      if err != Esp.OK {
        TearDown();
        return;
      }
      eventGroup, connectedBit, errorBit := true, false, false;
      handlersRegistered, driverInitialized := true, true;
      state := StateStopped;
    }

    /**
     * `wifi_module_start`: only from STOPPED with a mode enabled. It waits
     * without a time limit for one of the two bits, so it returns at once
     * when one is already set and otherwise once an event handler raises
     * `raised`; the bits are not cleared. The module ends RUNNING whatever
     * the outcome, and the call fails unless the station connected.
     */
    method Start(raised: StaBit) returns (err: Esp.Err)
      requires Valid()
      modifies this`state, this`staState, this`connectedBit, this`errorBit
      ensures Valid()
      ensures !(old(state) == StateStopped && (apEnabled || staEnabled)) ==> err == Esp.ERR_INVALID_STATE && unchanged(this)
      ensures old(state) == StateStopped && (apEnabled || staEnabled) ==>
                && state == StateRunning
                && (connectedBit || errorBit)
                && connectedBit == (old(connectedBit) || (!old(errorBit) && raised == ConnectedBit))
                && errorBit == (old(errorBit) || (!old(connectedBit) && raised == ErrorBit))
                && (err == Esp.OK <==> connectedBit)
                && (err != Esp.OK ==> err == Esp.FAIL)
                && staState == (if connectedBit then StaConnected else StaDisconnected)
    {
      if !(state == StateStopped && (apEnabled || staEnabled)) {
        return Esp.ERR_INVALID_STATE;
      }
      if !connectedBit && !errorBit {
        if raised == ConnectedBit {
          connectedBit := true;
        } else {
          errorBit := true;
        }
      }
      if connectedBit {
        staState := StaConnected;
        err := Esp.OK;
      } else {
        staState := StaDisconnected;
        err := Esp.FAIL;
      }
      state := StateRunning;
    }

    /** `wifi_module_stop`: not supported. */
    method Stop() returns (err: Esp.Err)
      ensures err == Esp.ERR_NOT_SUPPORTED
    {
      return Esp.ERR_NOT_SUPPORTED;
    }

    /** `wifi_module_disable_mode`: not supported for any mode. */
    method DisableMode(mode: int) returns (err: Esp.Err)
      ensures err == Esp.ERR_NOT_SUPPORTED
    {
      return Esp.ERR_NOT_SUPPORTED;
    }

    /**
     * `wifi_module_enable_mode`. STA sets up the station interface, marks the
     * station enabled and selects STA, or AP+STA when the access point is
     * enabled; AP fails because `wifi_init_softap` is not implemented; any
     * other mode is not supported.
     */
    method EnableMode(mode: int, cfg: Option<StaConfig>, staInit: Esp.Err, setMode: Esp.Err) returns (err: Esp.Err)
      requires Valid()
      modifies this`staEnabled, this`staState, this`driverMode
      ensures Valid()
      ensures cfg.None? ==> err == Esp.ERR_INVALID_ARG && unchanged(this)
      ensures cfg.Some? && mode == MODE_STA && old(staEnabled) ==> err == Esp.ERR_INVALID_STATE && unchanged(this)
      ensures cfg.Some? && mode == MODE_STA && !old(staEnabled) && staInit != Esp.OK ==> err == staInit && unchanged(this)
      ensures cfg.Some? && mode == MODE_STA && !old(staEnabled) && staInit == Esp.OK ==>
                staEnabled && (err == Esp.OK <==> setMode == Esp.OK)
      ensures cfg.Some? && mode == MODE_STA && !old(staEnabled) && staInit == Esp.OK && setMode != Esp.OK ==>
                err == setMode && staState == old(staState) && driverMode == old(driverMode)
      ensures cfg.Some? && mode == MODE_STA && !old(staEnabled) && staInit == Esp.OK && setMode == Esp.OK ==>
                staState == StaDisconnected && driverMode == (if apEnabled then DriverApSta else DriverSta)
      ensures cfg.Some? && mode == MODE_AP ==> err == Esp.ERR_NOT_SUPPORTED && unchanged(this)
      ensures cfg.Some? && mode != MODE_STA && mode != MODE_AP ==> err == Esp.ERR_NOT_SUPPORTED && unchanged(this)
    {
      if cfg.None? {
        return Esp.ERR_INVALID_ARG;
      }
      if mode == MODE_STA {
        if staEnabled {
          return Esp.ERR_INVALID_STATE;
        }
        if staInit != Esp.OK {
          return staInit;
        }
        staEnabled := true;
        if setMode != Esp.OK {
          return setMode;
        }
        driverMode := if apEnabled then DriverApSta else DriverSta;
        staState := StaDisconnected;
        return Esp.OK;
      } else if mode == MODE_AP {
        if apEnabled {
          return Esp.ERR_INVALID_STATE;
        }
        // `wifi_init_softap` returns ESP_ERR_NOT_SUPPORTED unconditionally.
        return Esp.ERR_NOT_SUPPORTED;
      }
      return Esp.ERR_NOT_SUPPORTED;
    }

    /**
     * `WIFI_EVENT_STA_DISCONNECTED`: reconnect while retries remain, counting
     * the retry; otherwise raise the error bit.
     */
    method OnStaDisconnected() returns (reconnect: bool)
      requires Valid()
      modifies this`currentRetries, this`errorBit, this`Reconnects
      ensures Valid()
      ensures reconnect <==> old(currentRetries) < maxRetries
      ensures reconnect ==> currentRetries == old(currentRetries) + 1 && Reconnects == old(Reconnects) + 1 && errorBit == old(errorBit)
      ensures !reconnect ==> errorBit && currentRetries == old(currentRetries) && Reconnects == old(Reconnects)
    {
      reconnect := currentRetries < maxRetries;
      if reconnect {
        currentRetries := currentRetries + 1;
        Reconnects := Reconnects + 1;
      } else {
        errorBit := true;
      }
    }

    /** `IP_EVENT_STA_GOT_IP`: ignored without event data; otherwise reset the retries and raise the connected bit. */
    method OnStaIpAcquired(hasEvent: bool)
      requires Valid()
      modifies this`currentRetries, this`connectedBit
      ensures Valid()
      ensures !hasEvent ==> unchanged(this)
      ensures hasEvent ==> currentRetries == 0 && connectedBit
    {
      if !hasEvent {
        return;
      }
      currentRetries := 0;
      connectedBit := true;
    }
  }

  /**
   * A second `wifi_module_init` as written, after a first that succeeded,
   * reports INVALID_STATE yet leaves the module INITIAL, without its event
   * group and driver.
   */
  method InitTwiceAsWritten(r: InitResults) returns (first: Esp.Err, second: Esp.Err, s: ModuleState, group: bool)
    requires InitError(r) == Esp.OK
    ensures first == Esp.OK && second == Esp.ERR_INVALID_STATE
    ensures s == StateInitial && !group
  {
    var m := new Module();
    first := m.InitAsWritten(r);
    second := m.InitAsWritten(r);
    s, group := m.state, m.eventGroup;
  }

  /** With the direct return, the second call is refused and the module stays STOPPED with its event group. */
  method InitTwice(r: InitResults) returns (first: Esp.Err, second: Esp.Err, s: ModuleState, group: bool)
    requires InitError(r) == Esp.OK
    ensures first == Esp.OK && second == Esp.ERR_INVALID_STATE
    ensures s == StateStopped && group
  {
    var m := new Module();
    first := m.Init(r);
    second := m.Init(r);
    s, group := m.state, m.eventGroup;
  }

  /**
   * With the limit the static initialiser leaves (zero), a disconnect never
   * makes the module reconnect by itself: it raises the error bit.
   */
  method DisconnectWithoutRetries() returns (reconnect: bool, errorRaised: bool)
    ensures !reconnect && errorRaised
  {
    var m := new Module();
    reconnect := m.OnStaDisconnected();
    errorRaised := m.errorBit;
  }
}
