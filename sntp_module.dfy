/**
 * The SNTP module (`sntp_module.c`): one static instance with a
 * synchronisation state and a bounded stack of server names, on top of
 * ESP-IDF's `esp_netif_sntp`.
 *
 * The `esp_netif_sntp_*` and `esp_netif_tcpip_exec` calls are abstract: each
 * becomes an input carrying what it returned. The stack's capacity,
 * `CONFIG_LWIP_SNTP_MAX_SERVERS`, is a parameter of the instance.
 */
module SntpModule {
  import opened Wrappers
  import Esp

  /** `enum sntp_module_sync_state`. */
  datatype SyncState = Invalid | Initialized | InProgress | Synchronized

  /** The server stack: `last_add_server_idx` and the slots of `sntp_servers`. */
  datatype Servers = Servers(index: nat, slots: seq<Ptr>)

  /**
   * `push_server`: a NULL server is refused, then a full stack; otherwise the
   * server goes into the slot at the index, and the index moves up by one.
   */
  function Push(s: Servers, server: Ptr): (r: (Esp.Err, Servers))
    ensures server == NULL ==> r == (Esp.ERR_INVALID_ARG, s)
    ensures server != NULL && s.index >= |s.slots| ==> r == (Esp.FAIL, s)
    ensures server != NULL && s.index < |s.slots| ==>
              && r.0 == Esp.OK && r.1.index == s.index + 1 && |r.1.slots| == |s.slots|
              && r.1.slots[s.index] == server
              && forall k :: 0 <= k < |s.slots| && k != s.index ==> r.1.slots[k] == s.slots[k]
  {
    if server == NULL then (Esp.ERR_INVALID_ARG, s)
    else if s.index >= |s.slots| then (Esp.FAIL, s)
    else (Esp.OK, Servers(s.index + 1, s.slots[s.index := server]))
  }

  /**
   * `pop_server`: an empty stack is refused; otherwise the index moves down
   * by one and the slot it now names is cleared.
   */
  function Pop(s: Servers): (r: (Esp.Err, Servers))
    requires s.index <= |s.slots|
    ensures s.index == 0 ==> r == (Esp.FAIL, s)
    ensures s.index > 0 ==>
              && r.0 == Esp.OK && r.1.index == s.index - 1 && |r.1.slots| == |s.slots|
              && r.1.slots[s.index - 1] == NULL
              && forall k :: 0 <= k < |s.slots| && k != s.index - 1 ==> r.1.slots[k] == s.slots[k]
  {
    if s.index == 0 then (Esp.FAIL, s)
    else (Esp.OK, Servers(s.index - 1, s.slots[s.index - 1 := NULL]))
  }

  /**
   * A push that succeeds followed by a pop restores the index and every
   * slot but the one pushed into, which is left NULL; a stack whose free
   * slots are NULL comes back unchanged.
   */
  lemma PopAfterPush(s: Servers, server: Ptr)
    requires s.index <= |s.slots| && Push(s, server).0 == Esp.OK
    ensures Pop(Push(s, server).1) == (Esp.OK, Servers(s.index, s.slots[s.index := NULL]))
    ensures s.slots[s.index] == NULL ==> Pop(Push(s, server).1) == (Esp.OK, s)
  {
    var t := Push(s, server).1;
    assert t.slots[s.index := NULL] == s.slots[s.index := NULL];
    if s.slots[s.index] == NULL {
      assert s.slots[s.index := NULL] == s.slots;
    }
  }

  /** Pushing back the server a pop removed restores the stack. */
  lemma PushAfterPop(s: Servers)
    requires 0 < s.index <= |s.slots| && s.slots[s.index - 1] != NULL
    ensures Push(Pop(s).1, s.slots[s.index - 1]) == (Esp.OK, s)
  {
    var t := Pop(s).1;
    assert t.slots[s.index - 1 := s.slots[s.index - 1]] == s.slots;
  }

  class Instance {
    var state: SyncState
    var index: nat
    const servers: array<Ptr>
    /** Whether `esp_netif_sntp` is initialised. */
    var netifSntp: bool

    ghost function Stack(): Servers
      reads this, servers
    {
      Servers(index, servers[..])
    }

    predicate Valid()
      reads this
    {
      index <= servers.Length
    }

    /** The zero-initialised static instance, with room for `maxServers` servers. */
    constructor (maxServers: nat)
      ensures Valid()
      ensures state == Invalid && index == 0 && !netifSntp
      ensures servers.Length == maxServers && forall k :: 0 <= k < maxServers ==> servers[k] == NULL
    {
      state := Invalid;
      index := 0;
      servers := new Ptr[maxServers](_ => NULL);
      netifSntp := false;
    }

    /** `sntp_module_get_state`. */
    function GetState(): (s: SyncState)
      reads this
      ensures s == state
    {
      state
    }

    /** `sntp_module_push_server`. */
    method PushServer(server: Ptr) returns (err: Esp.Err)
      requires Valid()
      modifies this`index, servers
      ensures Valid()
      ensures (err, Stack()) == Push(old(Stack()), server)
    {
      if server == NULL {
        return Esp.ERR_INVALID_ARG;
      }
      if index >= servers.Length {
        return Esp.FAIL;
      }
      servers[index] := server;
      index := index + 1;
      return Esp.OK;
    }

    /** `sntp_module_pop_server`. */
    method PopServer() returns (err: Esp.Err)
      requires Valid()
      modifies this`index, servers
      ensures Valid()
      ensures (err, Stack()) == Pop(old(Stack()))
    {
      if index == 0 {
        return Esp.FAIL;
      }
      index := index - 1;
      servers[index] := NULL;
      return Esp.OK;
    }

    /**
     * `sntp_module_init`. A NULL configuration jumps to the clean-up, which
     * deinitialises `esp_netif_sntp` whatever the state; a module that is not
     * INVALID is refused; otherwise the stack restarts with the configured
     * server as its only entry and the module is INITIALIZED.
     */
    method Init(cfg: Option<Ptr>, netifInit: Esp.Err) returns (err: Esp.Err)
      requires Valid()
      modifies this`state, this`index, this`netifSntp, servers
      ensures Valid()
      ensures cfg.None? ==> err == Esp.ERR_INVALID_ARG && !netifSntp && state == old(state) && Stack() == old(Stack())
      ensures cfg.Some? && old(state) != Invalid ==> err == Esp.ERR_INVALID_STATE && unchanged(this, servers)
      ensures cfg.Some? && old(state) == Invalid && netifInit != Esp.OK ==>
                err == netifInit && !netifSntp && state == Invalid && Stack() == old(Stack())
      ensures cfg.Some? && old(state) == Invalid && netifInit == Esp.OK ==>
                err == Push(Servers(0, old(servers[..])), cfg.value).0 &&
                Stack() == Push(Servers(0, old(servers[..])), cfg.value).1
      ensures err == Esp.OK <==> cfg.Some? && old(state) == Invalid && netifInit == Esp.OK && cfg.value != NULL && servers.Length > 0
      ensures err == Esp.OK ==> state == Initialized && netifSntp && index == 1 && servers[0] == cfg.value
      ensures err != Esp.OK && cfg.Some? && old(state) == Invalid ==> state == Invalid && !netifSntp
    {
      if cfg.None? {
        netifSntp := false;
        return Esp.ERR_INVALID_ARG;
      }
      if state != Invalid {
        return Esp.ERR_INVALID_STATE;
      }
      if netifInit != Esp.OK {
        netifSntp := false;
        return netifInit;
      }
      netifSntp := true;
      index := 0;
      err := PushServer(cfg.value);
      if err != Esp.OK {
        netifSntp := false;
        return err;
      }
      state := Initialized;
    }

    /** `sntp_module_del`: refused while INVALID; otherwise deinitialise and return to INVALID. */
    method Del() returns (err: Esp.Err)
      modifies this`state, this`netifSntp
      ensures old(state) == Invalid ==> err == Esp.ERR_INVALID_STATE && unchanged(this)
      ensures old(state) != Invalid ==> err == Esp.OK && state == Invalid && !netifSntp
    {
      if state == Invalid {
        return Esp.ERR_INVALID_STATE;
      }
      netifSntp := false;
      state := Invalid;
      return Esp.OK;
    }

    /** `sntp_module_start`: only from INITIALIZED, to IN_PROGRESS once the client has started. */
    method Start(startResult: Esp.Err) returns (err: Esp.Err)
      modifies this`state
      ensures old(state) != Initialized ==> err == Esp.ERR_INVALID_STATE && state == old(state)
      ensures old(state) == Initialized ==> err == startResult
      ensures err == Esp.OK <==> old(state) == Initialized && startResult == Esp.OK
      ensures state == (if err == Esp.OK then InProgress else old(state))
    {
      if state != Initialized {
        return Esp.ERR_INVALID_STATE;
      }
      if startResult != Esp.OK {
        return startResult;
      }
      state := InProgress;
      return Esp.OK;
    }

    /** `sntp_module_stop`: no state guard; INITIALIZED whenever the stop ran on the TCP/IP task. */
    method Stop(execResult: Esp.Err) returns (err: Esp.Err)
      modifies this`state
      ensures err == execResult
      ensures state == (if execResult == Esp.OK then Initialized else old(state))
    {
      if execResult != Esp.OK {
        return execResult;
      }
      state := Initialized;
      return Esp.OK;
    }

    /** `sntp_module_sync_wait`: no state guard; SYNCHRONIZED once the wait succeeds. */
    method SyncWait(waitResult: Esp.Err) returns (err: Esp.Err)
      modifies this`state
      ensures err == waitResult
      ensures state == (if waitResult == Esp.OK then Synchronized else old(state))
    {
      if waitResult != Esp.OK {
        return waitResult;
      }
      state := Synchronized;
      return Esp.OK;
    }
  }
}
