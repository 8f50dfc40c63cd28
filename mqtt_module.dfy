/**
 * The MQTT connection module (`mqtt_module.c`): a wrapper around the esp-mqtt
 * client that tracks a connection state, a "connected" event-group bit, a table
 * of per-event handlers and the client configuration it hands to the client.
 *
 * The esp-mqtt client itself is abstract: every call into it
 * (`esp_mqtt_client_start`, `esp_mqtt_set_config`, `esp_mqtt_client_publish`, …)
 * becomes an input carrying the value it returned, and the wait on the
 * connected bit becomes an input saying whether the CONNECTED event arrived
 * before the timeout.
 */
module MqttModule {
  import opened Wrappers
  import Esp
  import Cbor

  /* Component error codes (`mqtt_module_defs.h`, base 0x7B00). */
  const ERR_MQTT_MODULE_BASE: Esp.Err := 0x7B00
  const ERR_MQTT_MODULE_INIT_FAIL: Esp.Err := ERR_MQTT_MODULE_BASE + 1
  const ERR_MQTT_MODULE_NOT_INIT: Esp.Err := ERR_MQTT_MODULE_BASE + 2
  const ERR_INVALID_EVENT_HANDLER: Esp.Err := ERR_MQTT_MODULE_BASE + 3
  const ERR_MQTT_PUBLISH_FAILED: Esp.Err := ERR_MQTT_MODULE_BASE + 4
  const ERR_MQTT_ENQUEUE_FAILED: Esp.Err := ERR_MQTT_MODULE_BASE + 5
  const ERR_MQTT_SUBSCRIBE_FAILED: Esp.Err := ERR_MQTT_MODULE_BASE + 6
  const ERR_MQTT_UNSUBSCRIBE_FAILED: Esp.Err := ERR_MQTT_MODULE_BASE + 7
  const ERR_MQTT_MODULE_INVALID_STATE: Esp.Err := ERR_MQTT_MODULE_BASE + 8
  const ERR_MQTT_MODULE_CONNECT_FAILED: Esp.Err := ERR_MQTT_MODULE_BASE + 9

  /** `enum mqtt_module_state`, numbered from -4 (timeout) to 6 (transport error). */
  datatype State =
    | ConnectionTimeout | ConnectionLost | ConnectFailed | Disconnected | Connected
    | BadProtocol | BadClientId | Unavailable | BadCredentials | Unauthorized | TransportError

  /** The enumerator's numeric value. */
  function StateValue(s: State): (v: int)
    ensures -4 <= v <= 6
  {
    match s
    case ConnectionTimeout => -4
    case ConnectionLost => -3
    case ConnectFailed => -2
    case Disconnected => -1
    case Connected => 0
    case BadProtocol => 1
    case BadClientId => 2
    case Unavailable => 3
    case BadCredentials => 4
    case Unauthorized => 5
    case TransportError => 6
  }

  /** The C cast `(enum mqtt_module_state)v`: the enumerator with value v, if any. */
  function StateOfValue(v: int): (r: Option<State>)
    ensures r.Some? <==> -4 <= v <= 6
    ensures r.Some? ==> StateValue(r.value) == v
  {
    if v == -4 then Some(ConnectionTimeout)
    else if v == -3 then Some(ConnectionLost)
    else if v == -2 then Some(ConnectFailed)
    else if v == -1 then Some(Disconnected)
    else if v == 0 then Some(Connected)
    else if v == 1 then Some(BadProtocol)
    else if v == 2 then Some(BadClientId)
    else if v == 3 then Some(Unavailable)
    else if v == 4 then Some(BadCredentials)
    else if v == 5 then Some(Unauthorized)
    else if v == 6 then Some(TransportError)
    else None
  }

  /** Every state survives the round trip through its numeric value. */
  lemma StateValueRoundTrip(s: State)
    ensures StateOfValue(StateValue(s)) == Some(s)
  {
  }

  /**
   * The CONNACK return codes of MQTT 3.1.1 (section 3.2.2.3, table 3.1), as the
   * client reports them in `connect_return_code`.
   */
  datatype ConnackCode =
    | Accepted | UnacceptableProtocolVersion | IdentifierRejected
    | ServerUnavailable | BadUserNameOrPassword | NotAuthorized

  function ConnackValue(c: ConnackCode): (v: int)
    ensures 0 <= v <= 5
  {
    match c
    case Accepted => 0
    case UnacceptableProtocolVersion => 1
    case IdentifierRejected => 2
    case ServerUnavailable => 3
    case BadUserNameOrPassword => 4
    case NotAuthorized => 5
  }

  /** The state the module should report for each refusal reason. */
  function RefusalState(c: ConnackCode): State
  {
    match c
    case Accepted => Connected
    case UnacceptableProtocolVersion => BadProtocol
    case IdentifierRejected => BadClientId
    case ServerUnavailable => Unavailable
    case BadUserNameOrPassword => BadCredentials
    case NotAuthorized => Unauthorized
  }

  /**
   * Casting the numeric CONNACK code to the state enum, as the error handler
   * does, lands exactly on the state named after that refusal reason.
   */
  lemma ConnackCastNamesReason(c: ConnackCode)
    ensures StateOfValue(ConnackValue(c)) == Some(RefusalState(c))
    ensures c != Accepted ==> RefusalState(c) != Connected && StateValue(RefusalState(c)) > 0
  {
  }

  /** The events the esp-mqtt client posts (`esp_mqtt_event_id_t`). */
  datatype EventId =
    | EventError | EventConnected | EventDisconnected | EventSubscribed | EventUnsubscribed
    | EventPublished | EventData | EventBeforeConnect | EventDeleted | EventUser(id: int)

  /** `esp_mqtt_error_type_t` of the event's error handle. */
  datatype ErrorType = ErrorNone | TcpTransport | ConnectionRefused | SubscribeFailed

  datatype ClientEvent = ClientEvent(id: EventId, errorType: ErrorType, connectCode: ConnackCode)

  /** `enum mqtt_event_type`: the keys callers use to (un)register a handler. */
  const EVENT_TYPE_ERROR: int := 0
  const EVENT_TYPE_DATA: int := 1
  const EVENT_TYPE_CONNECTION: int := 2
  const EVENT_TYPE_PUBLISH: int := 3
  const EVENT_TYPE_SUBSCRIBE: int := 4
  const EVENT_TYPE_DELETED: int := 5
  const EVENT_TYPE_CUSTOM: int := 6

  /**
   * A handler pointer: NULL, the module's own static handler for that slot, or
   * a caller-supplied function (identified by an opaque id).
   */
  datatype Handler = NoHandler | Builtin | UserHandler(id: nat)

  /** The slots of `struct event_handlers_t`. */
  datatype Slot = ConnectionSlot | SubscriptionSlot | PublishedSlot | DataSlot
                | DeletedSlot | ErrorSlot | CustomSlot | StatusSlot

  datatype HandlerTable = HandlerTable(
    connection: Handler, subscription: Handler, published: Handler, data: Handler,
    deleted: Handler, error: Handler, custom: Handler, status: Handler)

  function Lookup(t: HandlerTable, s: Slot): Handler
  {
    match s
    case ConnectionSlot => t.connection
    case SubscriptionSlot => t.subscription
    case PublishedSlot => t.published
    case DataSlot => t.data
    case DeletedSlot => t.deleted
    case ErrorSlot => t.error
    case CustomSlot => t.custom
    case StatusSlot => t.status
  }

  /** The table with slot `s` replaced by `h`. */
  function Update(t: HandlerTable, s: Slot, h: Handler): (r: HandlerTable)
    ensures Lookup(r, s) == h
    ensures forall o: Slot :: o != s ==> Lookup(r, o) == Lookup(t, o)
  {
    match s
    case ConnectionSlot => t.(connection := h)
    case SubscriptionSlot => t.(subscription := h)
    case PublishedSlot => t.(published := h)
    case DataSlot => t.(data := h)
    case DeletedSlot => t.(deleted := h)
    case ErrorSlot => t.(error := h)
    case CustomSlot => t.(custom := h)
    case StatusSlot => t.(status := h)
  }

  /** The table `mqtt_module_init` installs: its own handler everywhere but the status slot. */
  function DefaultHandlers(): (t: HandlerTable)
    ensures forall s: Slot :: Lookup(t, s) == (if s == StatusSlot then NoHandler else Builtin)
  {
    HandlerTable(Builtin, Builtin, Builtin, Builtin, Builtin, Builtin, Builtin, NoHandler)
  }

  /**
   * The slot an event type may be (un)registered in: only DATA, PUBLISH,
   * SUBSCRIBE, DELETED and CUSTOM; CONNECTION, ERROR and unknown values have none.
   */
  function RegistrableSlot(eventType: int): (r: Option<Slot>)
    ensures r.Some? <==> eventType in {EVENT_TYPE_DATA, EVENT_TYPE_PUBLISH, EVENT_TYPE_SUBSCRIBE,
                                       EVENT_TYPE_DELETED, EVENT_TYPE_CUSTOM}
    ensures r.Some? ==> r.value !in {ConnectionSlot, ErrorSlot, StatusSlot}
  {
    if eventType == EVENT_TYPE_DATA then Some(DataSlot)
    else if eventType == EVENT_TYPE_PUBLISH then Some(PublishedSlot)
    else if eventType == EVENT_TYPE_SUBSCRIBE then Some(SubscriptionSlot)
    else if eventType == EVENT_TYPE_DELETED then Some(DeletedSlot)
    else if eventType == EVENT_TYPE_CUSTOM then Some(CustomSlot)
    else None
  }

  /** The slot `generic_event_handler` dispatches a client event to. */
  function SlotOf(id: EventId): (s: Slot)
    ensures s == ConnectionSlot <==> id in {EventConnected, EventDisconnected, EventBeforeConnect}
    ensures s == ErrorSlot <==> id == EventError
    ensures s == CustomSlot <==> id.EventUser?
    ensures s != StatusSlot
  {
    match id
    case EventDisconnected => ConnectionSlot
    case EventConnected => ConnectionSlot
    case EventBeforeConnect => ConnectionSlot
    case EventSubscribed => SubscriptionSlot
    case EventUnsubscribed => SubscriptionSlot
    case EventPublished => PublishedSlot
    case EventData => DataSlot
    case EventError => ErrorSlot
    case EventDeleted => DeletedSlot
    case EventUser(_) => CustomSlot
  }

  /* The client configuration. */

  datatype AddressConfig = AddressConfig(uri: Ptr, hostname: Ptr, transport: int, path: Ptr, port: Esp.U32)
  datatype VerificationConfig = VerificationConfig(
    useGlobalCaStore: bool, crtBundleAttach: Ptr, certificate: Ptr, certificateLen: nat,
    pskHintKey: Ptr, skipCertCommonNameCheck: bool, alpnProtos: Ptr, commonName: Ptr)
  datatype CredentialsConfig = CredentialsConfig(username: Ptr, clientId: Ptr, setNullClientId: bool)
  datatype AuthConfig = AuthConfig(
    password: Ptr, certificate: Ptr, certificateLen: nat, key: Ptr, keyLen: nat,
    keyPassword: Ptr, keyPasswordLen: int, useSecureElement: bool, dsData: Ptr)
  datatype SessionConfig = SessionConfig(
    disableCleanSession: bool, keepalive: int, disableKeepalive: bool, protocolVer: int,
    messageRetransmitTimeout: int)
  datatype LastWillConfig = LastWillConfig(topic: Ptr, msg: Ptr, msgLen: int, qos: int, retain: int)
  datatype NetworkConfig = NetworkConfig(
    reconnectTimeoutMs: int, timeoutMs: int, refreshConnectionAfterMs: int,
    disableAutoReconnect: bool, transport: Ptr, ifName: Ptr)
  datatype TaskConfig = TaskConfig(priority: int, stackSize: int)
  datatype BufferConfig = BufferConfig(size: int, outSize: int)
  datatype OutboxConfig = OutboxConfig(limit: Esp.U64)

  /** `esp_mqtt_client_config_t`, grouped as the module's setters address it. */
  datatype ClientConfig = ClientConfig(
    address: AddressConfig, verification: VerificationConfig, credentials: CredentialsConfig,
    auth: AuthConfig, session: SessionConfig, lastWill: LastWillConfig, network: NetworkConfig,
    task: TaskConfig, buffer: BufferConfig, outbox: OutboxConfig)

  /** The all-zero configuration `calloc` leaves in a fresh module. */
  function ZeroConfig(): ClientConfig
  {
    ClientConfig(
      AddressConfig(NULL, NULL, 0, NULL, 0),
      VerificationConfig(false, NULL, NULL, 0, NULL, false, NULL, NULL),
      CredentialsConfig(NULL, NULL, false),
      AuthConfig(NULL, NULL, 0, NULL, 0, NULL, 0, false, NULL),
      SessionConfig(false, 0, false, 0, 0),
      LastWillConfig(NULL, NULL, 0, 0, 0),
      NetworkConfig(0, 0, 0, false, NULL, NULL),
      TaskConfig(0, 0),
      BufferConfig(0, 0),
      OutboxConfig(0))
  }

  /**
   * The verification settings as `mqtt_module_set_verification_cfg` copies
   * them: every field is copied except `skip_cert_common_name_check`, which
   * receives the `alpn_protos` pointer converted to bool.
   */
  function StoredVerificationAsWritten(v: VerificationConfig): (r: VerificationConfig)
    ensures r.skipCertCommonNameCheck <==> v.alpnProtos != NULL
    ensures r.(skipCertCommonNameCheck := v.skipCertCommonNameCheck) == v
  {
    VerificationConfig(v.useGlobalCaStore, v.crtBundleAttach, v.certificate, v.certificateLen,
                       v.pskHintKey, v.alpnProtos != NULL, v.alpnProtos, v.commonName)
  }

  /**
   * A caller asking to skip the common-name check without ALPN protocols gets
   * the check performed, and one passing ALPN protocols gets it skipped.
   */
  lemma VerificationFlagLost()
    ensures var v := VerificationConfig(false, NULL, NULL, 0, NULL, true, NULL, NULL);
            !StoredVerificationAsWritten(v).skipCertCommonNameCheck
    ensures var v := VerificationConfig(false, NULL, NULL, 0, NULL, false, 7, NULL);
            StoredVerificationAsWritten(v).skipCertCommonNameCheck
  {
  }

  /** The copy with each field taken from its namesake: the caller's settings unchanged. */
  function StoredVerification(v: VerificationConfig): (r: VerificationConfig)
    ensures r == v
  {
    VerificationConfig(v.useGlobalCaStore, v.crtBundleAttach, v.certificate, v.certificateLen,
                       v.pskHintKey, v.skipCertCommonNameCheck, v.alpnProtos, v.commonName)
  }

  /**
   * The bytes the client takes from a payload given with length 0: it
   * measures the payload with `strlen`, so everything from the first zero
   * byte on is dropped.
   */
  function CStringOf(b: seq<Cbor.Byte>): (r: seq<Cbor.Byte>)
    ensures r <= b && 0 !in r
    ensures |r| < |b| ==> b[|r|] == 0
  {
    if b == [] || b[0] == 0 then [] else [b[0]] + CStringOf(b[1..])
  }

  /** A payload without a zero byte is taken whole. */
  lemma {:induction false} CStringOfWhole(b: seq<Cbor.Byte>)
    requires 0 !in b
    ensures CStringOf(b) == b
  {
    if b != [] {
      CStringOfWhole(b[1..]);
    }
  }

  /** A zero byte inside the payload cuts it: of `A`, 0, `B` only `A` is taken. */
  lemma EnqueueCutsAtZero()
    ensures CStringOf([0x41, 0x00, 0x42]) == [0x41]
  {
    assert [0x41, 0x00, 0x42][1..] == [0x00, 0x42];
  }

  /**
   * The bytes the client takes for a payload of length `len`: that many,
   * or, when `len` is 0, everything before the first zero byte.
   */
  function Taken(b: seq<Cbor.Byte>, len: nat): (r: seq<Cbor.Byte>)
    requires len <= |b|
    ensures r <= b
    ensures len > 0 ==> |r| == len
    ensures len == 0 ==> r == CStringOf(b)
  {
    if len == 0 then CStringOf(b) else b[..len]
  }

  /** Of `A`, 0, `B` a length of 3 takes all three bytes and a length of 0 only `A`. */
  lemma PublishLengthRule()
    ensures Taken([0x41, 0x00, 0x42], 3) == [0x41, 0x00, 0x42]
    ensures Taken([0x41, 0x00, 0x42], 0) == [0x41]
  {
    EnqueueCutsAtZero();
  }

  /** A message handed to the client by `publish` or `enqueue`. */
  datatype Outgoing = Outgoing(topic: string, payload: seq<Cbor.Byte>)

  class Module {
    var state: State
    /** `MQTT_MODULE_CONNECTED_BIT` of the module's event group. */
    var connectedBit: bool
    /** Whether `esp_mqtt_client_start` succeeded and no stop followed. */
    var clientStarted: bool
    var handlers: HandlerTable
    var config: ClientConfig
    /** Everything handed to the client for sending, oldest first. */
    ghost var Handed: seq<Outgoing>

    /**
     * The connection and error slots keep the module's own handlers, because
     * (un)registering refuses them, and nothing ever fills the status slot.
     */
    predicate Valid()
      reads this`handlers
    {
      handlers.connection == Builtin && handlers.error == Builtin && handlers.status == NoHandler
    }

    /** The instance `mqtt_module_init` fills in after `calloc`. */
    constructor ()
      ensures Valid()
      ensures state == Disconnected && !connectedBit && !clientStarted
      ensures handlers == DefaultHandlers() && config == ZeroConfig() && Handed == []
    {
      state := Disconnected;
      connectedBit := false;
      clientStarted := false;
      handlers := DefaultHandlers();
      config := ZeroConfig();
      Handed := [];
    }

    /** `mqtt_module_get_status`. */
    function GetStatus(): (s: State)
      reads this
      ensures s == Connected <==> state == Connected
      ensures StateValue(s) == StateValue(state)
    {
      state
    }

    /**
     * The wait shared by the connect calls: it returns at once when the bit is
     * already set; otherwise the CONNECTED event either arrives in time (and
     * the connection handler runs) or the client is stopped.
     */
    method AwaitConnected(connectedInTime: bool) returns (err: Esp.Err)
      requires Valid()
      modifies this`state, this`connectedBit, this`clientStarted
      ensures Valid()
      ensures err == Esp.OK <==> old(connectedBit) || connectedInTime
      ensures err != Esp.OK ==> err == ERR_MQTT_MODULE_CONNECT_FAILED
      ensures err == Esp.OK ==> connectedBit && clientStarted == old(clientStarted)
      ensures err == Esp.OK && !old(connectedBit) ==> state == Connected
      ensures old(connectedBit) ==> state == old(state)
      ensures err != Esp.OK ==> !clientStarted && !connectedBit && state == old(state)
    {
      if !connectedBit && connectedInTime {
        OnConnectionEvent(EventConnected);
      }
      if !connectedBit {
        clientStarted := false;
        return ERR_MQTT_MODULE_CONNECT_FAILED;
      }
      return Esp.OK;
    }

    /** `mqtt_module_connect`: start the client with the stored configuration and wait. */
    method Connect(startResult: Esp.Err, connectedInTime: bool) returns (err: Esp.Err)
      requires Valid()
      modifies this`state, this`connectedBit, this`clientStarted
      ensures Valid()
      ensures old(state) == Connected ==> err == Esp.ERR_INVALID_STATE && unchanged(this)
      ensures old(state) != Connected && startResult != Esp.OK ==> err == startResult && unchanged(this)
      ensures old(state) != Connected && startResult == Esp.OK ==>
                (err == Esp.OK <==> old(connectedBit) || connectedInTime)
      ensures err == Esp.OK ==> connectedBit && clientStarted
      ensures err == Esp.OK && !old(connectedBit) ==> state == Connected
      ensures old(state) != Connected && startResult == Esp.OK && !old(connectedBit) && !connectedInTime ==>
                err == ERR_MQTT_MODULE_CONNECT_FAILED && !clientStarted && state == old(state)
    {
      if state == Connected {
        return Esp.ERR_INVALID_STATE;
      }
      if startResult != Esp.OK {
        return startResult;
      }
      clientStarted := true;
      err := AwaitConnected(connectedInTime);
    }

    /**
     * `mqtt_module_connect_with_cred`: store the username and password, push the
     * configuration to the client, start it and wait.
     */
    method ConnectWithCred(username: Ptr, password: Ptr, setResult: Esp.Err, startResult: Esp.Err,
                           connectedInTime: bool) returns (err: Esp.Err)
      requires Valid()
      modifies this`state, this`connectedBit, this`clientStarted, this`config
      ensures Valid()
      ensures username == NULL || password == NULL ==> err == Esp.ERR_INVALID_ARG && unchanged(this)
      ensures username != NULL && password != NULL && old(state) == Connected ==>
                err == Esp.ERR_INVALID_STATE && unchanged(this)
      ensures username != NULL && password != NULL && old(state) != Connected ==>
                config == old(config).(credentials := old(config).credentials.(username := username),
                                       auth := old(config).auth.(password := password))
      ensures username != NULL && password != NULL && old(state) != Connected && setResult != Esp.OK ==>
                err == setResult && state == old(state) && clientStarted == old(clientStarted)
      ensures username != NULL && password != NULL && old(state) != Connected && setResult == Esp.OK &&
              startResult != Esp.OK ==>
                err == startResult && state == old(state)
      ensures username != NULL && password != NULL && old(state) != Connected && setResult == Esp.OK &&
              startResult == Esp.OK ==>
                (err == Esp.OK <==> old(connectedBit) || connectedInTime)
      ensures err == Esp.OK ==> connectedBit && clientStarted
      ensures username != NULL && password != NULL && old(state) != Connected && setResult == Esp.OK
              && startResult == Esp.OK && !old(connectedBit) && !connectedInTime ==>
                err == ERR_MQTT_MODULE_CONNECT_FAILED && !clientStarted && state == old(state)
    {
      if username == NULL || password == NULL {
        return Esp.ERR_INVALID_ARG;
      }
      if state == Connected {
        return Esp.ERR_INVALID_STATE;
      }
      config := config.(credentials := config.credentials.(username := username),
                        auth := config.auth.(password := password));
      if setResult != Esp.OK {
        return setResult;
      }
      if startResult != Esp.OK {
        return startResult;
      }
      clientStarted := true;
      err := AwaitConnected(connectedInTime);
    }

    /** `mqtt_module_connect_with_uri`: store the broker URI, push the configuration, start and wait. */
    method ConnectWithUri(uri: Ptr, setResult: Esp.Err, startResult: Esp.Err, connectedInTime: bool)
      returns (err: Esp.Err)
      requires Valid()
      modifies this`state, this`connectedBit, this`clientStarted, this`config
      ensures Valid()
      ensures uri == NULL ==> err == Esp.ERR_INVALID_ARG && unchanged(this)
      ensures uri != NULL && old(state) == Connected ==> err == Esp.ERR_INVALID_STATE && unchanged(this)
      ensures uri != NULL && old(state) != Connected ==>
                config == old(config).(address := old(config).address.(uri := uri))
      ensures uri != NULL && old(state) != Connected && setResult != Esp.OK ==>
                err == setResult && state == old(state) && clientStarted == old(clientStarted)
      ensures uri != NULL && old(state) != Connected && setResult == Esp.OK && startResult != Esp.OK ==>
                err == startResult && state == old(state)
      ensures uri != NULL && old(state) != Connected && setResult == Esp.OK && startResult == Esp.OK ==>
                (err == Esp.OK <==> old(connectedBit) || connectedInTime)
      ensures err == Esp.OK ==> connectedBit && clientStarted
      ensures uri != NULL && old(state) != Connected && setResult == Esp.OK && startResult == Esp.OK
              && !old(connectedBit) && !connectedInTime ==>
                err == ERR_MQTT_MODULE_CONNECT_FAILED && !clientStarted && state == old(state)
    {
      if uri == NULL {
        return Esp.ERR_INVALID_ARG;
      }
      if state == Connected {
        return Esp.ERR_INVALID_STATE;
      }
      config := config.(address := config.address.(uri := uri));
      if setResult != Esp.OK {
        return setResult;
      }
      if startResult != Esp.OK {
        return startResult;
      }
      clientStarted := true;
      err := AwaitConnected(connectedInTime);
    }

    /** `mqtt_module_reconnect`: no state guard; ask the client to reconnect and wait. */
    method Reconnect(reconnectResult: Esp.Err, connectedInTime: bool) returns (err: Esp.Err)
      requires Valid()
      modifies this`state, this`connectedBit, this`clientStarted
      ensures Valid()
      ensures reconnectResult != Esp.OK ==> err == reconnectResult && unchanged(this)
      ensures reconnectResult == Esp.OK ==> (err == Esp.OK <==> old(connectedBit) || connectedInTime)
      ensures reconnectResult == Esp.OK && !old(connectedBit) && !connectedInTime ==>
                err == ERR_MQTT_MODULE_CONNECT_FAILED && !clientStarted && state == old(state)
    {
      if reconnectResult != Esp.OK {
        return reconnectResult;
      }
      err := AwaitConnected(connectedInTime);
    }

    /** `mqtt_module_disconnect`: only from CONNECTED; DISCONNECTED once the client agrees. */
    method Disconnect(disconnectResult: Esp.Err) returns (err: Esp.Err)
      modifies this`state
      ensures old(state) != Connected ==> err == Esp.ERR_INVALID_STATE && state == old(state)
      ensures old(state) == Connected && disconnectResult != Esp.OK ==> err == disconnectResult && state == Connected
      ensures old(state) == Connected && disconnectResult == Esp.OK ==> err == Esp.OK && state == Disconnected
    {
      if state != Connected {
        return Esp.ERR_INVALID_STATE;
      }
      if disconnectResult != Esp.OK {
        return disconnectResult;
      }
      state := Disconnected;
      return Esp.OK;
    }

    /**
     * `mqtt_module_publish`: a NULL topic or payload is refused, then anything
     * but CONNECTED, then a negative message id from the client. The client
     * takes `payloadLen` bytes of the payload, which the caller's buffer must
     * hold, or, for a length of 0, the bytes before the first zero byte.
     */
    method Publish(topic: Option<string>, payload: Option<seq<Cbor.Byte>>, payloadLen: Esp.U32, clientMsgId: int)
      returns (err: Esp.Err)
      requires payload.Some? ==> payloadLen <= |payload.value|
      modifies this`Handed
      ensures err == Esp.OK <==> topic.Some? && payload.Some? && state == Connected && clientMsgId >= 0
      ensures topic.None? || payload.None? ==> err == Esp.ERR_INVALID_ARG
      ensures topic.Some? && payload.Some? && state != Connected ==> err == Esp.ERR_INVALID_STATE
      ensures topic.Some? && payload.Some? && state == Connected && clientMsgId < 0 ==>
                err == ERR_MQTT_PUBLISH_FAILED
      ensures err == Esp.OK ==> Handed == old(Handed) + [Outgoing(topic.value, Taken(payload.value, payloadLen))]
      ensures err != Esp.OK ==> Handed == old(Handed)
    {
      if topic.None? || payload.None? {
        return Esp.ERR_INVALID_ARG;
      }
      if state != Connected {
        return Esp.ERR_INVALID_STATE;
      }
      if clientMsgId < 0 {
        return ERR_MQTT_PUBLISH_FAILED;
      }
      Handed := Handed + [Outgoing(topic.value, Taken(payload.value, payloadLen))];
      return Esp.OK;
    }

    /**
     * `mqtt_module_enqueue`: the same guards, the client's outbox instead of
     * sending now; the length given to the client is 0, so it takes the
     * payload up to its first zero byte.
     */
    method Enqueue(topic: Option<string>, payload: Option<seq<Cbor.Byte>>, clientMsgId: int)
      returns (err: Esp.Err)
      modifies this`Handed
      ensures err == Esp.OK <==> topic.Some? && payload.Some? && state == Connected && clientMsgId >= 0
      ensures topic.None? || payload.None? ==> err == Esp.ERR_INVALID_ARG
      ensures topic.Some? && payload.Some? && state != Connected ==> err == Esp.ERR_INVALID_STATE
      ensures topic.Some? && payload.Some? && state == Connected && clientMsgId < 0 ==>
                err == ERR_MQTT_ENQUEUE_FAILED
      ensures err == Esp.OK ==> Handed == old(Handed) + [Outgoing(topic.value, CStringOf(payload.value))]
      ensures err != Esp.OK ==> Handed == old(Handed)
    {
      if topic.None? || payload.None? {
        return Esp.ERR_INVALID_ARG;
      }
      if state != Connected {
        return Esp.ERR_INVALID_STATE;
      }
      if clientMsgId < 0 {
        return ERR_MQTT_ENQUEUE_FAILED;
      }
      Handed := Handed + [Outgoing(topic.value, CStringOf(payload.value))];
      return Esp.OK;
    }

    /** `mqtt_module_subscribe`. */
    method Subscribe(topic: Option<string>, clientMsgId: int) returns (err: Esp.Err)
      ensures err == Esp.OK <==> topic.Some? && state == Connected && clientMsgId >= 0
      ensures topic.None? ==> err == Esp.ERR_INVALID_ARG
      ensures topic.Some? && state != Connected ==> err == Esp.ERR_INVALID_STATE
      ensures topic.Some? && state == Connected && clientMsgId < 0 ==> err == ERR_MQTT_SUBSCRIBE_FAILED
    {
      if topic.None? {
        return Esp.ERR_INVALID_ARG;
      }
      if state != Connected {
        return Esp.ERR_INVALID_STATE;
      }
      if clientMsgId < 0 {
        return ERR_MQTT_SUBSCRIBE_FAILED;
      }
      return Esp.OK;
    }

    /** `mqtt_module_unsubscribe`. */
    method Unsubscribe(topic: Option<string>, clientMsgId: int) returns (err: Esp.Err)
      ensures err == Esp.OK <==> topic.Some? && state == Connected && clientMsgId >= 0
      ensures topic.None? ==> err == Esp.ERR_INVALID_ARG
      ensures topic.Some? && state != Connected ==> err == Esp.ERR_INVALID_STATE
      ensures topic.Some? && state == Connected && clientMsgId < 0 ==> err == ERR_MQTT_UNSUBSCRIBE_FAILED
    {
      if topic.None? {
        return Esp.ERR_INVALID_ARG;
      }
      if state != Connected {
        return Esp.ERR_INVALID_STATE;
      }
      if clientMsgId < 0 {
        return ERR_MQTT_UNSUBSCRIBE_FAILED;
      }
      return Esp.OK;
    }

    /**
     * The guard every configuration setter starts with: a NULL argument, then a
     * connected module, are refused before anything is stored.
     */
    function SetterGuard(present: bool): (err: Esp.Err)
      reads this
      ensures err == Esp.OK <==> present && state != Connected
      ensures !present ==> err == Esp.ERR_INVALID_ARG
      ensures present && state == Connected ==> err == Esp.ERR_INVALID_STATE
    {
      if !present then Esp.ERR_INVALID_ARG
      else if state == Connected then Esp.ERR_INVALID_STATE
      else Esp.OK
    }

    /** `mqtt_module_set_config`: replace the whole configuration. */
    method SetConfig(cfg: Option<ClientConfig>, setResult: Esp.Err) returns (err: Esp.Err)
      modifies this`config
      ensures SetterGuard(cfg.Some?) != Esp.OK ==> err == SetterGuard(cfg.Some?) && config == old(config)
      ensures SetterGuard(cfg.Some?) == Esp.OK ==> err == setResult && config == cfg.value
    {
      err := SetterGuard(cfg.Some?);
      if err != Esp.OK {
        return;
      }
      config := cfg.value;
      err := setResult;
    }

    /** `mqtt_module_set_address_cfg`. */
    method SetAddressCfg(cfg: Option<AddressConfig>, setResult: Esp.Err) returns (err: Esp.Err)
      modifies this`config
      ensures SetterGuard(cfg.Some?) != Esp.OK ==> err == SetterGuard(cfg.Some?) && config == old(config)
      ensures SetterGuard(cfg.Some?) == Esp.OK ==> err == setResult && config == old(config).(address := cfg.value)
    {
      err := SetterGuard(cfg.Some?);
      if err != Esp.OK {
        return;
      }
      var a := cfg.value;
      config := config.(address := AddressConfig(a.uri, a.hostname, a.transport, a.path, a.port));
      err := setResult;
    }

    /**
     * `mqtt_module_set_verification_cfg`, with the common-name flag copied
     * from its namesake (`StoredVerification`); the source stores the ALPN
     * pointer there (`StoredVerificationAsWritten`).
     */
    method SetVerificationCfg(cfg: Option<VerificationConfig>, setResult: Esp.Err) returns (err: Esp.Err)
      modifies this`config
      ensures SetterGuard(cfg.Some?) != Esp.OK ==> err == SetterGuard(cfg.Some?) && config == old(config)
      ensures SetterGuard(cfg.Some?) == Esp.OK ==>
                err == setResult && config == old(config).(verification := cfg.value)
    {
      err := SetterGuard(cfg.Some?);
      if err != Esp.OK {
        return;
      }
      config := config.(verification := StoredVerification(cfg.value));
      err := setResult;
    }

    /** `mqtt_module_set_credentials_cfg`. */
    method SetCredentialsCfg(cfg: Option<CredentialsConfig>, setResult: Esp.Err) returns (err: Esp.Err)
      modifies this`config
      ensures SetterGuard(cfg.Some?) != Esp.OK ==> err == SetterGuard(cfg.Some?) && config == old(config)
      ensures SetterGuard(cfg.Some?) == Esp.OK ==>
                err == setResult && config == old(config).(credentials := cfg.value)
    {
      err := SetterGuard(cfg.Some?);
      if err != Esp.OK {
        return;
      }
      var c := cfg.value;
      config := config.(credentials := CredentialsConfig(c.username, c.clientId, c.setNullClientId));
      err := setResult;
    }

    /** `mqtt_module_set_authentication_cfg`. */
    method SetAuthenticationCfg(cfg: Option<AuthConfig>, setResult: Esp.Err) returns (err: Esp.Err)
      modifies this`config
      ensures SetterGuard(cfg.Some?) != Esp.OK ==> err == SetterGuard(cfg.Some?) && config == old(config)
      ensures SetterGuard(cfg.Some?) == Esp.OK ==> err == setResult && config == old(config).(auth := cfg.value)
    {
      err := SetterGuard(cfg.Some?);
      if err != Esp.OK {
        return;
      }
      var a := cfg.value;
      config := config.(auth := AuthConfig(a.password, a.certificate, a.certificateLen, a.key, a.keyLen,
                                           a.keyPassword, a.keyPasswordLen, a.useSecureElement, a.dsData));
      err := setResult;
    }

    /** `mqtt_module_set_session_cfg`: the session settings; the last will is left alone. */
    method SetSessionCfg(cfg: Option<SessionConfig>, setResult: Esp.Err) returns (err: Esp.Err)
      modifies this`config
      ensures SetterGuard(cfg.Some?) != Esp.OK ==> err == SetterGuard(cfg.Some?) && config == old(config)
      ensures SetterGuard(cfg.Some?) == Esp.OK ==> err == setResult && config == old(config).(session := cfg.value)
    {
      err := SetterGuard(cfg.Some?);
      if err != Esp.OK {
        return;
      }
      var s := cfg.value;
      config := config.(session := SessionConfig(s.disableCleanSession, s.keepalive, s.disableKeepalive,
                                                 s.protocolVer, s.messageRetransmitTimeout));
      err := setResult;
    }

    /** `mqtt_module_set_last_will_cfg`. */
    method SetLastWillCfg(cfg: Option<LastWillConfig>, setResult: Esp.Err) returns (err: Esp.Err)
      modifies this`config
      ensures SetterGuard(cfg.Some?) != Esp.OK ==> err == SetterGuard(cfg.Some?) && config == old(config)
      ensures SetterGuard(cfg.Some?) == Esp.OK ==> err == setResult && config == old(config).(lastWill := cfg.value)
    {
      err := SetterGuard(cfg.Some?);
      if err != Esp.OK {
        return;
      }
      var l := cfg.value;
      config := config.(lastWill := LastWillConfig(l.topic, l.msg, l.msgLen, l.qos, l.retain));
      err := setResult;
    }

    /** `mqtt_module_set_network_cfg`. */
    method SetNetworkCfg(cfg: Option<NetworkConfig>, setResult: Esp.Err) returns (err: Esp.Err)
      modifies this`config
      ensures SetterGuard(cfg.Some?) != Esp.OK ==> err == SetterGuard(cfg.Some?) && config == old(config)
      ensures SetterGuard(cfg.Some?) == Esp.OK ==> err == setResult && config == old(config).(network := cfg.value)
    {
      err := SetterGuard(cfg.Some?);
      if err != Esp.OK {
        return;
      }
      var n := cfg.value;
      config := config.(network := NetworkConfig(n.reconnectTimeoutMs, n.timeoutMs, n.refreshConnectionAfterMs,
                                                 n.disableAutoReconnect, n.transport, n.ifName));
      err := setResult;
    }

    /** `mqtt_module_set_task_cfg`. */
    method SetTaskCfg(cfg: Option<TaskConfig>, setResult: Esp.Err) returns (err: Esp.Err)
      modifies this`config
      ensures SetterGuard(cfg.Some?) != Esp.OK ==> err == SetterGuard(cfg.Some?) && config == old(config)
      ensures SetterGuard(cfg.Some?) == Esp.OK ==> err == setResult && config == old(config).(task := cfg.value)
    {
      err := SetterGuard(cfg.Some?);
      if err != Esp.OK {
        return;
      }
      config := config.(task := TaskConfig(cfg.value.priority, cfg.value.stackSize));
      err := setResult;
    }

    /** `mqtt_module_set_buffer_cfg`. */
    method SetBufferCfg(cfg: Option<BufferConfig>, setResult: Esp.Err) returns (err: Esp.Err)
      modifies this`config
      ensures SetterGuard(cfg.Some?) != Esp.OK ==> err == SetterGuard(cfg.Some?) && config == old(config)
      ensures SetterGuard(cfg.Some?) == Esp.OK ==> err == setResult && config == old(config).(buffer := cfg.value)
    {
      err := SetterGuard(cfg.Some?);
      if err != Esp.OK {
        return;
      }
      config := config.(buffer := BufferConfig(cfg.value.size, cfg.value.outSize));
      err := setResult;
    }

    /** `mqtt_module_set_outbox_cfg`. */
    method SetOutboxCfg(cfg: Option<OutboxConfig>, setResult: Esp.Err) returns (err: Esp.Err)
      modifies this`config
      ensures SetterGuard(cfg.Some?) != Esp.OK ==> err == SetterGuard(cfg.Some?) && config == old(config)
      ensures SetterGuard(cfg.Some?) == Esp.OK ==> err == setResult && config == old(config).(outbox := cfg.value)
    {
      err := SetterGuard(cfg.Some?);
      if err != Esp.OK {
        return;
      }
      config := config.(outbox := OutboxConfig(cfg.value.limit));
      err := setResult;
    }

    /** `mqtt_module_register_event_handler`. */
    method RegisterEventHandler(eventType: int, h: Handler) returns (err: Esp.Err)
      requires Valid()
      modifies this`handlers
      ensures Valid()
      ensures RegistrableSlot(eventType).None? ==> err == Esp.ERR_INVALID_ARG && handlers == old(handlers)
      ensures RegistrableSlot(eventType).Some? ==>
                err == Esp.OK && handlers == Update(old(handlers), RegistrableSlot(eventType).value, h)
    {
      var slot := RegistrableSlot(eventType);
      if slot.None? {
        return Esp.ERR_INVALID_ARG;
      }
      handlers := Update(handlers, slot.value, h);
      return Esp.OK;
    }

    /** `mqtt_module_unregister_event_handler`: the slot becomes NULL. */
    method UnregisterEventHandler(eventType: int) returns (err: Esp.Err)
      requires Valid()
      modifies this`handlers
      ensures Valid()
      ensures RegistrableSlot(eventType).None? ==> err == Esp.ERR_INVALID_ARG && handlers == old(handlers)
      ensures RegistrableSlot(eventType).Some? ==>
                err == Esp.OK && handlers == Update(old(handlers), RegistrableSlot(eventType).value, NoHandler)
    {
      var slot := RegistrableSlot(eventType);
      if slot.None? {
        return Esp.ERR_INVALID_ARG;
      }
      handlers := Update(handlers, slot.value, NoHandler);
      return Esp.OK;
    }

    /** `on_connection_event_handler`. */
    method OnConnectionEvent(id: EventId)
      modifies this`state, this`connectedBit
      ensures id == EventDisconnected ==> state == Disconnected && connectedBit == old(connectedBit)
      ensures id == EventConnected ==> state == Connected && connectedBit
      ensures id != EventDisconnected && id != EventConnected ==> unchanged(this)
    {
      match id
      case EventDisconnected =>
        state := Disconnected;
      case EventConnected =>
        state := Connected;
        connectedBit := true;
      case _ =>
    }

    /** `on_error_event_handler`. */
    method OnErrorEvent(ev: ClientEvent)
      modifies this`state
      ensures ev.errorType == ConnectionRefused ==> StateValue(state) == ConnackValue(ev.connectCode)
      ensures ev.errorType == TcpTransport ==> state == TransportError
      ensures ev.errorType in {ErrorNone, SubscribeFailed} ==> state == old(state)
    {
      match ev.errorType
      case ConnectionRefused =>
        ConnackCastNamesReason(ev.connectCode);
        state := StateOfValue(ConnackValue(ev.connectCode)).value;
      case TcpTransport =>
        state := TransportError;
      case _ =>
    }

    /**
     * `generic_event_handler`: run the handler in the event's slot, or report
     * `ESP_ERR_INVALID_EVENT_HANDLER` when the slot is NULL. A caller's handler
     * is opaque and reports `userResult`; the module's own handlers report OK.
     */
    method HandleEvent(argPresent: bool, ev: ClientEvent, userResult: Esp.Err) returns (ret: Esp.Err)
      requires Valid()
      modifies this`state, this`connectedBit
      ensures Valid()
      ensures !argPresent ==> ret == Esp.ERR_INVALID_ARG && unchanged(this)
      ensures argPresent && Lookup(handlers, SlotOf(ev.id)) == NoHandler ==>
                ret == ERR_INVALID_EVENT_HANDLER && unchanged(this)
      ensures argPresent && Lookup(handlers, SlotOf(ev.id)).UserHandler? ==> ret == userResult && unchanged(this)
      ensures argPresent && Lookup(handlers, SlotOf(ev.id)) == Builtin ==> ret == Esp.OK
      ensures argPresent && SlotOf(ev.id) !in {ConnectionSlot, ErrorSlot} ==> unchanged(this)
      ensures argPresent && ev.id == EventConnected ==> state == Connected && connectedBit
      ensures argPresent && ev.id == EventDisconnected ==> state == Disconnected && connectedBit == old(connectedBit)
      ensures argPresent && ev.id == EventError && ev.errorType == ConnectionRefused ==>
                StateValue(state) == ConnackValue(ev.connectCode)
    {
      if !argPresent {
        return Esp.ERR_INVALID_ARG;
      }
      var slot := SlotOf(ev.id);
      var h := Lookup(handlers, slot);
      match h
      case NoHandler =>
        ret := ERR_INVALID_EVENT_HANDLER;
      case UserHandler(_) =>
        ret := userResult;
      case Builtin =>
        if slot == ConnectionSlot {
          OnConnectionEvent(ev.id);
        } else if slot == ErrorSlot {
          OnErrorEvent(ev);
        }
        ret := Esp.OK;
    }
  }

  /**
   * `mqtt_module_init`: a NULL out-pointer, a failed allocation, a failed
   * client init and a failed handler registration each return their error and
   * no module; otherwise a fresh DISCONNECTED module with the default handlers.
   */
  method Init(outPresent: bool, allocOk: bool, clientInitOk: bool, registerResult: Esp.Err)
    returns (err: Esp.Err, m: Module?)
    ensures err == Esp.OK <==> m != null
    ensures !outPresent ==> err == Esp.ERR_INVALID_ARG
    ensures outPresent && !allocOk ==> err == Esp.ERR_NO_MEM
    ensures outPresent && allocOk && !clientInitOk ==> err == ERR_MQTT_MODULE_INIT_FAIL
    ensures outPresent && allocOk && clientInitOk ==> err == registerResult
    ensures m != null ==> fresh(m) && m.Valid() && m.state == Disconnected && !m.connectedBit
                          && !m.clientStarted && m.handlers == DefaultHandlers() && m.config == ZeroConfig()
  {
    m := null;
    if !outPresent {
      return Esp.ERR_INVALID_ARG, null;
    }
    if !allocOk {
      return Esp.ERR_NO_MEM, null;
    }
    var inst := new Module();
    if !clientInitOk {
      return ERR_MQTT_MODULE_INIT_FAIL, null;
    }
    if registerResult != Esp.OK {
      return registerResult, null;
    }
    return Esp.OK, inst;
  }

  /** `mqtt_module_del`: a NULL handle is refused; otherwise the client is torn down and OK returned. */
  method Del(m: Module?) returns (err: Esp.Err)
    modifies m
    ensures m == null <==> err == Esp.ERR_INVALID_ARG
    ensures m != null ==> err == Esp.OK && !m.clientStarted
  {
    if m == null {
      return Esp.ERR_INVALID_ARG;
    }
    m.clientStarted := false;
    return Esp.OK;
  }
}
