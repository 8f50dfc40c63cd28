/**
 * The telemetry pipeline of the firmware: the sampling tasks put sensor
 * payloads into a queue of 20, the aggregation task packs 15 of them into
 * one of three message buffers, and the sending task publishes a filled
 * buffer over MQTT and recycles it.
 *
 * The buffers circulate as pointers through two queues of capacity 3: the
 * free queue and the filled queue. Each task is modelled as the steps it
 * takes between blocking points; a step that would block on an empty queue
 * does nothing.
 */
module Telemetry {
  import opened Wrappers
  import opened Cbor
  import opened CborWriter
  import opened SensorEncoder
  import opened Envelope
  import Producers
  import MqttModule
  import Esp

  const MQTT_BUFFER_COUNT: nat := 3
  /** `(uint32_t)(MQTT_MAX_MESSAGE_SIZE * DATA_AGGREGATION_CBOR_OVERHEAD_COEF)`: 2048 * 1.2f truncated. */
  const BUFFER_SIZE: nat := 2457
  /** The capacity of the aggregation queue. */
  const PAYLOAD_QUEUE_LENGTH: nat := 20
  const DATA_OUT_TOPIC: string := "/IoT-Clock-RoomMonitor/DEVICE_OUT/DATA"

  /** `mqtt_message`: a byte buffer and the length of the message in it. */
  class Message {
    const buffer: array<Byte>
    var length: nat

    /** A statically allocated buffer: all zero. */
    constructor ()
      ensures fresh(buffer) && buffer.Length == BUFFER_SIZE && length == 0
      ensures forall k :: 0 <= k < buffer.Length ==> buffer[k] == 0
    {
      buffer := new Byte[BUFFER_SIZE](_ => 0);
      length := 0;
    }
  }

  /**
   * A pointer into `mqtt_buffers`, which is what the two buffer queues and
   * the tasks pass around: the index of the entry it points to.
   */
  type SlotId = i: int | 0 <= i < 3

  /**
   * Where the aggregation task is: waiting for a free buffer, holding one it
   * has not started to write, filling one, holding one it has closed, or
   * returned.
   */
  datatype AggPhase = AggIdle | Opening(slot: SlotId) | Collecting(slot: SlotId) | Closed(slot: SlotId) | Stopped(slot: SlotId)

  /** Where the sending task is: waiting for a filled buffer, or holding one. */
  datatype SendPhase = SendIdle | Holding(slot: SlotId)

  /**
   * Every payload of the sequence can be encoded: `AllEncodable` in a
   * recursive form, which the queue invariants use.
   */
  predicate Encodables(q: seq<SensorPayload>)
    decreases |q|
  {
    q == [] || (Encodable(q[0]) && Encodables(q[1..]))
  }

  lemma {:induction false} EncodablesAll(q: seq<SensorPayload>)
    ensures Encodables(q) <==> AllEncodable(q)
    decreases |q|
  {
    if q != [] {
      EncodablesAll(q[1..]);
      assert forall k :: 0 < k < |q| ==> q[1..][k - 1] == q[k];
      if AllEncodable(q) {
        assert forall k :: 0 <= k < |q| - 1 ==> q[1..][k] == q[k + 1];
      }
    }
  }

  lemma EncodablesSnoc(q: seq<SensorPayload>, p: SensorPayload)
    requires Encodables(q) && Encodable(p)
    ensures Encodables(q + [p])
  {
    EncodablesAll(q);
    EncodablesAll(q + [p]);
    assert forall k :: 0 <= k < |q| ==> (q + [p])[k] == q[k];
  }

  /** All payloads of the batch are within the producer bound. */
  predicate ProducerSized(batch: seq<SensorPayload>)
  {
    forall k :: 0 <= k < |batch| ==> Encodable(batch[k]) && PayloadSize(batch[k]) <= Producers.PRODUCER_PAYLOAD_MAX
  }

  /**
   * While the batch is not complete and every payload in it is one a
   * producer could send, the bytes written so far leave room for more.
   */
  lemma PartialBatchFits(batch: seq<SensorPayload>, bytes: seq<Byte>)
    requires ProducerSized(batch) && |batch| < MAX_PAYLOADS && Carries(batch, bytes)
    ensures |ENVELOPE_HEAD + bytes| < BUFFER_SIZE
  {
    ItemsSizeBound(batch, Producers.PRODUCER_PAYLOAD_MAX);
    BatchBytesItems(batch);
    assert BatchBytes(batch) == bytes;
  }

  /** A complete batch of producer payloads fits its buffer (1658 of 2457 bytes at most). */
  lemma ProducerBatchFits(batch: seq<SensorPayload>)
    requires ProducerSized(batch) && |batch| == MAX_PAYLOADS
    ensures AllEncodable(batch)
    ensures |Encode(EnvelopeItem(batch))| <= 38 + MAX_PAYLOADS * Producers.PRODUCER_PAYLOAD_MAX < BUFFER_SIZE
  {
    EnvelopeSizeBound(batch, Producers.PRODUCER_PAYLOAD_MAX);
  }

  /** The buffers the two tasks hold, the aggregation task's first. */
  function Held(agg: AggPhase, send: SendPhase): seq<SlotId>
  {
    (if agg.AggIdle? then [] else [agg.slot]) + (if send.Holding? then [send.slot] else [])
  }

  /**
   * The buffers circulate: the two queues and the two tasks' hands hold
   * three pointers between them, one to each entry of `mqtt_buffers`.
   */
  predicate Circulates(freeQ: seq<SlotId>, filledQ: seq<SlotId>, agg: AggPhase, send: SendPhase)
  {
    var c := freeQ + filledQ + Held(agg, send);
    |c| == MQTT_BUFFER_COUNT && 0 in c && 1 in c && 2 in c
  }

  /** Three pointers that reach all three entries are three different pointers. */
  lemma ThreeDistinct(c: seq<SlotId>)
    requires |c| == 3 && 0 in c && 1 in c && 2 in c
    ensures forall i, j :: 0 <= i < j < |c| ==> c[i] != c[j]
  {
  }

  /**
   * Where the buffers are: a buffer a task holds is in neither queue nor in
   * the other task's hands, and a queue cannot be full while a task holds a
   * buffer.
   */
  lemma Placement(freeQ: seq<SlotId>, filledQ: seq<SlotId>, agg: AggPhase, send: SendPhase)
    requires Circulates(freeQ, filledQ, agg, send)
    ensures !agg.AggIdle? ==>
              agg.slot !in freeQ && agg.slot !in filledQ && send != Holding(agg.slot) && |filledQ| < MQTT_BUFFER_COUNT
    ensures send.Holding? ==>
              send.slot !in freeQ && send.slot !in filledQ && |freeQ| < MQTT_BUFFER_COUNT
  {
    var c := freeQ + filledQ + Held(agg, send);
    ThreeDistinct(c);
    var n := |freeQ| + |filledQ|;
    forall i | 0 <= i < |freeQ|
      ensures !agg.AggIdle? ==> freeQ[i] != agg.slot
      ensures send.Holding? ==> freeQ[i] != send.slot
    {
      assert c[i] == freeQ[i];
      if !agg.AggIdle? {
        assert c[n] == agg.slot;
      }
      if send.Holding? {
        assert c[|c| - 1] == send.slot;
      }
    }
    forall i | 0 <= i < |filledQ|
      ensures !agg.AggIdle? ==> filledQ[i] != agg.slot
      ensures send.Holding? ==> filledQ[i] != send.slot
    {
      assert c[|freeQ| + i] == filledQ[i];
      if !agg.AggIdle? {
        assert c[n] == agg.slot;
      }
      if send.Holding? {
        assert c[|c| - 1] == send.slot;
      }
    }
    if !agg.AggIdle? && send.Holding? {
      assert c[n] == agg.slot && c[n + 1] == send.slot;
    }
  }

  /** The aggregation task takes the first free buffer. */
  lemma TakeFree(freeQ: seq<SlotId>, filledQ: seq<SlotId>, send: SendPhase)
    requires Circulates(freeQ, filledQ, AggIdle, send) && freeQ != []
    ensures Circulates(freeQ[1..], filledQ, Opening(freeQ[0]), send)
  {
    assert freeQ == [freeQ[0]] + freeQ[1..];
  }

  /** The aggregation task pushes the buffer it holds to the filled queue. */
  lemma PushFilled(freeQ: seq<SlotId>, filledQ: seq<SlotId>, send: SendPhase, slot: SlotId)
    requires Circulates(freeQ, filledQ, Closed(slot), send)
    ensures Circulates(freeQ, filledQ + [slot], AggIdle, send)
  {
  }

  /** The sending task takes the first filled buffer. */
  lemma TakeFilled(freeQ: seq<SlotId>, filledQ: seq<SlotId>, agg: AggPhase)
    requires Circulates(freeQ, filledQ, agg, SendIdle) && filledQ != []
    ensures Circulates(freeQ, filledQ[1..], agg, Holding(filledQ[0]))
  {
    assert filledQ == [filledQ[0]] + filledQ[1..];
  }

  /** The sending task returns the buffer it holds to the free queue. */
  lemma PushFree(freeQ: seq<SlotId>, filledQ: seq<SlotId>, agg: AggPhase, slot: SlotId)
    requires Circulates(freeQ, filledQ, agg, Holding(slot))
    ensures Circulates(freeQ + [slot], filledQ, agg, SendIdle)
  {
  }

  /** The bytes recorded for each sealed message are the envelope of its batch of 15. */
  ghost predicate Recorded(batchOf: map<SlotId, seq<SensorPayload>>, wireOf: map<SlotId, seq<Byte>>)
  {
    forall i :: i in wireOf ==> i in batchOf && IsEnvelope(batchOf[i], wireOf[i])
  }

  class Pipeline {
    /** The three entries of `mqtt_buffers`. */
    const b0: Message
    const b1: Message
    const b2: Message
    /** The encoder the aggregation task writes with. */
    const enc: Writer
    var freeQ: seq<SlotId>
    var filledQ: seq<SlotId>
    /** The aggregation queue. */
    var payloadQ: seq<SensorPayload>
    var agg: AggPhase
    /** `payloads_received` of the message being filled. */
    var aggCount: nat
    /** The payloads encoded into that message so far, and their bytes. */
    ghost var aggBatch: seq<SensorPayload>
    ghost var aggBytes: seq<Byte>
    var send: SendPhase
    /** The batch each sealed message holds, and the bytes of its envelope. */
    ghost var batchOf: map<SlotId, seq<SensorPayload>>
    ghost var wireOf: map<SlotId, seq<Byte>>

    /** `&mqtt_buffers[i]`. */
    function Slot(i: SlotId): Message
    {
      if i == 0 then b0 else if i == 1 then b1 else b2
    }

    ghost function Messages(): set<Message>
    {
      {b0, b1, b2}
    }

    ghost function Arrays(): set<array<Byte>>
    {
      {b0.buffer, b1.buffer, b2.buffer}
    }

    ghost predicate Zeroed(m: Message)
      reads m.buffer
    {
      forall k :: 0 <= k < m.buffer.Length ==> m.buffer[k] == 0
    }

    /**
     * A sealed message: its bytes are a prefix of the given envelope bytes,
     * and all of them when they fit the buffer.
     */
    ghost predicate Sealed(m: Message, wire: seq<Byte>)
      reads m, m.buffer
    {
      && m.length <= m.buffer.Length
      && m.buffer[..m.length] <= wire
      && (|wire| <= m.buffer.Length ==> m.buffer[..m.length] == wire)
    }

    /** Three distinct buffers circulating; the payload queue within its capacity. */
    ghost predicate Pool()
      reads this`freeQ, this`filledQ, this`agg, this`send, this`payloadQ
    {
      && b0 != b1 && b0 != b2 && b1 != b2
      && b0.buffer != b1.buffer && b0.buffer != b2.buffer && b1.buffer != b2.buffer
      && b0.buffer.Length == BUFFER_SIZE && b1.buffer.Length == BUFFER_SIZE && b2.buffer.Length == BUFFER_SIZE
      && Circulates(freeQ, filledQ, agg, send)
      && |payloadQ| <= PAYLOAD_QUEUE_LENGTH
      && Encodables(payloadQ)
    }

    /** The buffer holds a message that has been closed: it is filled, being sent, or closed and not yet pushed. */
    predicate Closes(i: SlotId)
      reads this`filledQ, this`send, this`agg
    {
      i in filledQ || send == Holding(i) || agg == Closed(i)
    }

    /** A closed buffer holds a sealed message. */
    ghost predicate Placed(i: SlotId)
      reads this`filledQ, this`send, this`agg, this`wireOf, Slot(i), Slot(i).buffer
    {
      Closes(i) ==> i in wireOf && Sealed(Slot(i), wireOf[i])
    }

    ghost predicate Contents()
      reads this`filledQ, this`send, this`agg, this`batchOf, this`wireOf, b0, b1, b2, b0.buffer, b1.buffer, b2.buffer
    {
      Recorded(batchOf, wireOf) && Placed(0) && Placed(1) && Placed(2)
    }

    /**
     * The message being filled holds the envelope's head and the payloads
     * so far; the aggregator only returns after meeting a payload larger than any
     * producer sends.
     */
    ghost predicate Aggregating()
      reads this`agg, this`aggCount, this`aggBatch, this`aggBytes, enc
      reads if agg.Collecting? then {Slot(agg.slot), enc.buf} else {}
    {
      && (agg.Collecting? ==>
            && enc.Valid()
            && enc.buf == Slot(agg.slot).buffer
            && aggCount == |aggBatch| <= MAX_PAYLOADS
            && Carries(aggBatch, aggBytes)
            && enc.Requested == ENVELOPE_HEAD + aggBytes)
      && (agg.Stopped? ==> !ProducerSized(aggBatch))
    }

    ghost predicate Valid()
      reads this, enc, enc.buf, b0, b1, b2, b0.buffer, b1.buffer, b2.buffer
    {
      Pool() && Contents() && Aggregating()
    }

    /** Start-up: all buffers in the free queue, both other queues empty. */
    constructor ()
      ensures Valid()
      ensures freeQ == [0, 1, 2] && filledQ == [] && payloadQ == []
      ensures agg == AggIdle && send == SendIdle
    {
      b0 := new Message();
      b1 := new Message();
      b2 := new Message();
      var scratch := new Byte[0];
      enc := new Writer(scratch);
      freeQ := [0, 1, 2];
      filledQ := [];
      payloadQ := [];
      agg := AggIdle;
      aggCount := 0;
      aggBatch := [];
      aggBytes := [];
      send := SendIdle;
      batchOf := map[];
      wireOf := map[];
    }

    /** A buffer closed now was closed before, and is untouched. */
    twostate predicate Kept(i: SlotId)
      reads this`filledQ, this`send, this`agg, Slot(i), Slot(i).buffer
    {
      Closes(i) ==> old(Closes(i)) && unchanged(Slot(i), Slot(i).buffer)
    }

    /**
     * Moving closed buffers between the aggregation task, the filled queue
     * and the sending task, or writing into buffers that are not closed,
     * keeps the sealed messages.
     */
    twostate lemma ContentsKept()
      requires old(Contents()) && unchanged(this`batchOf, this`wireOf)
      requires Kept(0) && Kept(1) && Kept(2)
      ensures Contents()
    {
    }

    /**
     * Writing into the buffer the aggregation task fills leaves the sealed
     * messages as they were.
     */
    twostate lemma SealedKept(slot: SlotId)
      requires old(Contents())
      requires slot !in old(filledQ) && old(send) != Holding(slot)
      requires unchanged(this`filledQ, this`send, this`batchOf, this`wireOf)
      requires !old(agg).Closed? && !agg.Closed?
      requires slot == 0 || unchanged(b0, b0.buffer)
      requires slot == 1 || unchanged(b1, b1.buffer)
      requires slot == 2 || unchanged(b2, b2.buffer)
      ensures Contents()
    {
    }

    /** Closing a buffer, with its batch recorded, keeps the other sealed messages. */
    twostate lemma SealedAdded(slot: SlotId)
      requires old(Contents()) && Recorded(batchOf, wireOf)
      requires forall i :: i in old(wireOf) && i != slot ==> i in wireOf && wireOf[i] == old(wireOf)[i]
      requires slot in wireOf && Sealed(Slot(slot), wireOf[slot])
      requires slot == 0 || Kept(0)
      requires slot == 1 || Kept(1)
      requires slot == 2 || Kept(2)
      ensures Contents()
    {
    }

    /** A step that leaves the aggregation task and its buffer alone keeps its invariant. */
    twostate lemma AggregatingKept()
      requires old(Aggregating())
      requires unchanged(this`agg, this`aggCount, this`aggBatch, this`aggBytes, enc)
      requires agg.Collecting? ==> unchanged(enc.buf)
      ensures Aggregating()
    {
    }

    /** Encoding one more payload into the message being filled keeps its invariant. */
    twostate lemma Appended(p: SensorPayload)
      requires old(Aggregating()) && old(agg).Collecting? && unchanged(this`agg)
      requires Encodable(p) && old(aggCount) < MAX_PAYLOADS
      requires enc.Valid() && enc.buf == old(enc.buf) && enc.Requested == old(enc.Requested) + Encode(PayloadItem(p))
      requires aggBatch == old(aggBatch) + [p] && aggBytes == old(aggBytes) + Encode(PayloadItem(p))
      requires aggCount == old(aggCount) + 1
      ensures Aggregating()
    {
      CarriesSnoc(old(aggBatch), old(aggBytes), p);
      Regroup(ENVELOPE_HEAD, old(aggBytes), Encode(PayloadItem(p)));
    }

    /** Closing the message being filled, with its batch and bytes recorded, keeps the invariant. */
    twostate lemma Closing(slot: SlotId)
      requires old(Valid()) && old(agg) == Collecting(slot) && old(aggCount) == MAX_PAYLOADS
      requires agg == Closed(slot)
      requires unchanged(this`freeQ, this`filledQ, this`send, this`payloadQ, this`aggCount, this`aggBatch, this`aggBytes)
      requires batchOf == old(batchOf)[slot := old(aggBatch)]
      requires wireOf == old(wireOf)[slot := ENVELOPE_HEAD + old(aggBytes) + [BREAK, BREAK]]
      requires Sealed(Slot(slot), wireOf[slot])
      requires slot == 0 || unchanged(b0, b0.buffer)
      requires slot == 1 || unchanged(b1, b1.buffer)
      requires slot == 2 || unchanged(b2, b2.buffer)
      ensures Valid() && IsEnvelope(old(aggBatch), wireOf[slot])
    {
      CarriesEnvelope(old(aggBatch), old(aggBytes));
      SealedAdded(slot);
    }

    /** Writing the envelope's head into the buffer the aggregation task took keeps the invariant. */
    twostate lemma Opened(slot: SlotId)
      requires old(Valid()) && old(agg) == Opening(slot)
      requires agg == Collecting(slot) && aggCount == 0 && aggBatch == [] && aggBytes == []
      requires enc.Valid() && enc.buf == Slot(slot).buffer && enc.Requested == ENVELOPE_HEAD
      requires unchanged(this`freeQ, this`filledQ, this`send, this`payloadQ, this`batchOf, this`wireOf)
      requires unchanged(b0, b1, b2)
      requires slot == 0 || unchanged(b0.buffer)
      requires slot == 1 || unchanged(b1.buffer)
      requires slot == 2 || unchanged(b2.buffer)
      ensures Valid()
    {
      Placement(old(freeQ), old(filledQ), old(agg), old(send));
      CarriesNone();
      SealedKept(slot);
    }

    /** Returning the held buffer, zeroed, to the free queue keeps the invariant. */
    twostate lemma Recycled(slot: SlotId)
      requires old(Valid()) && old(send) == Holding(slot)
      requires send == SendIdle && freeQ == old(freeQ) + [slot]
      requires unchanged(this`filledQ, this`agg, this`payloadQ, this`aggCount, this`aggBatch, this`aggBytes)
      requires unchanged(this`batchOf, this`wireOf, enc, b0, b1, b2)
      requires slot == 0 || unchanged(b0.buffer)
      requires slot == 1 || unchanged(b1.buffer)
      requires slot == 2 || unchanged(b2.buffer)
      ensures Valid()
    {
      Placement(old(freeQ), old(filledQ), old(agg), old(send));
      PushFree(old(freeQ), old(filledQ), old(agg), slot);
      ContentsKept();
      AggregatingKept();
    }

    /**
     * Writing into the message being filled keeps the invariant, the aggregator
     * still filling it or stopped, as long as its own invariant holds.
     */
    twostate lemma Advanced(slot: SlotId)
      requires old(Valid()) && old(agg) == Collecting(slot) && (agg == Collecting(slot) || agg == Stopped(slot))
      requires unchanged(this`freeQ, this`filledQ, this`send, this`payloadQ, this`batchOf, this`wireOf)
      requires unchanged(b0, b1, b2)
      requires slot == 0 || unchanged(b0.buffer)
      requires slot == 1 || unchanged(b1.buffer)
      requires slot == 2 || unchanged(b2.buffer)
      requires Aggregating()
      ensures Valid()
    {
      Placement(old(freeQ), old(filledQ), old(agg), old(send));
      SealedKept(slot);
    }

    /** A producer's `xQueueSend`: the payload is queued unless the queue is full. */
    method Produce(p: SensorPayload) returns (queued: bool)
      requires Valid() && Encodable(p)
      modifies this`payloadQ
      ensures Valid()
      ensures queued <==> |old(payloadQ)| < PAYLOAD_QUEUE_LENGTH
      ensures payloadQ == if queued then old(payloadQ) + [p] else old(payloadQ)
    {
      queued := |payloadQ| < PAYLOAD_QUEUE_LENGTH;
      if queued {
        EncodablesSnoc(payloadQ, p);
        payloadQ := payloadQ + [p];
      }
      ContentsKept();
      AggregatingKept();
    }

    /** `cbor_encoder_init` on the buffer, then the envelope's opening items. */
    method WriteHeader(msg: Message)
      requires msg.buffer.Length == BUFFER_SIZE
      modifies enc, msg.buffer
      ensures enc.Valid() && enc.buf == msg.buffer && enc.Requested == ENVELOPE_HEAD
      ensures enc.Written() == ENVELOPE_HEAD
    {
      enc.Init(msg.buffer);
      var e := enc.CreateIndefiniteMap();
      e := enc.EncodeTextStringz(KEY_DATA);
      e := enc.CreateIndefiniteMap();
      e := enc.EncodeTextStringz(KEY_DEVICE_ID);
      e := enc.EncodeTextStringz(SENSOR_ID);
      e := enc.EncodeTextStringz(KEY_SENSOR_DATA);
      e := enc.CreateArray(MAX_PAYLOADS);
      assert [] + [INDEF_MAP] == [INDEF_MAP];
      EnvelopeHeadEncoding();
    }

    /** The aggregation task's `xQueueReceive` on the free queue. */
    method AggregatorTake() returns (took: bool)
      requires Valid() && agg.AggIdle?
      modifies this`freeQ, this`agg
      ensures Valid()
      ensures took <==> old(freeQ) != []
      ensures took ==> freeQ == old(freeQ)[1..] && agg == Opening(old(freeQ)[0])
      ensures !took ==> freeQ == old(freeQ) && agg == old(agg)
      ensures filledQ == old(filledQ) && send == old(send) && payloadQ == old(payloadQ)
    {
      if freeQ == [] {
        return false;
      }
      var slot := freeQ[0];
      TakeFree(freeQ, filledQ, send);
      freeQ, agg := freeQ[1..], Opening(slot);
      ContentsKept();
      return true;
    }

    /**
     * The aggregation task writes the envelope into the buffer it took, up to
     * the opening of the "sensor_data" array of 15.
     */
    method Open(slot: SlotId)
      requires Valid() && agg == Opening(slot)
      modifies this`agg, this`aggCount, this`aggBatch, this`aggBytes, enc, Slot(slot).buffer
      ensures Valid()
      ensures agg == Collecting(slot) && aggCount == 0 && enc.Written() == ENVELOPE_HEAD
      ensures freeQ == old(freeQ) && filledQ == old(filledQ) && send == old(send) && payloadQ == old(payloadQ)
    {
      WriteHeader(Slot(slot));
      agg, aggCount, aggBatch, aggBytes := Collecting(slot), 0, [], [];
      Opened(slot);
    }

    /** `xQueueReceive` on the aggregation queue: the oldest payload. */
    method Dequeue() returns (p: SensorPayload)
      requires Valid() && payloadQ != []
      modifies this`payloadQ
      ensures Valid() && Encodable(p)
      ensures p == old(payloadQ)[0] && payloadQ == old(payloadQ)[1..]
    {
      p := payloadQ[0];
      payloadQ := payloadQ[1..];
      ContentsKept();
      AggregatingKept();
    }

    /**
     * Encode one payload into the message being filled. Opening its map fails
     * only when the message has no room left, which a payload of a producer
     * cannot cause before the 15th; the aggregator then returns.
     */
    method Append(slot: SlotId, p: SensorPayload) returns (err: Esp.Err)
      requires Valid() && agg == Collecting(slot) && aggCount < MAX_PAYLOADS && Encodable(p)
      modifies this`aggCount, this`aggBatch, this`aggBytes, this`agg, enc`pos, enc`oom, enc`Requested, Slot(slot).buffer
      ensures Valid()
      ensures err == Esp.OK ==> agg == old(agg) && aggCount == old(aggCount) + 1 && aggBatch == old(aggBatch) + [p]
      ensures err != Esp.OK ==> agg == Stopped(slot) && aggBatch == old(aggBatch)
    {
      assert enc.Valid() && enc.buf == Slot(slot).buffer;
      assert |enc.Requested| >= enc.pos by {
        assert enc.buf[..enc.pos] <= enc.Requested;
      }
      err := EncodeSensorPayload(enc, p);
      if err != Esp.OK {
        if ProducerSized(aggBatch) {
          PartialBatchFits(aggBatch, aggBytes);
          assert false;
        }
        agg := Stopped(slot);
        Advanced(slot);
      } else {
        aggBatch, aggBytes, aggCount := aggBatch + [p], aggBytes + Encode(PayloadItem(p)), aggCount + 1;
        Appended(p);
        Advanced(slot);
      }
    }

    /** One turn of the receive loop: take the oldest queued payload and encode it into the message. */
    method Receive(slot: SlotId) returns (err: Esp.Err)
      requires Valid() && agg == Collecting(slot) && aggCount < MAX_PAYLOADS && payloadQ != []
      modifies this`payloadQ, this`aggCount, this`aggBatch, this`aggBytes, this`agg, enc, Slot(slot).buffer
      ensures Valid()
      ensures payloadQ == old(payloadQ)[1..]
      ensures err == Esp.OK ==> agg == old(agg) && aggCount == old(aggCount) + 1 && aggBatch == old(aggBatch) + [old(payloadQ)[0]]
      ensures err != Esp.OK ==> agg == Stopped(slot) && aggBatch == old(aggBatch)
      ensures freeQ == old(freeQ) && filledQ == old(filledQ) && send == old(send)
      ensures batchOf == old(batchOf) && wireOf == old(wireOf)
    {
      var p := Dequeue();
      err := Append(slot, p);
    }

    /**
     * Close the array (no bytes: it has a definite length) and the two maps,
     * and record the length `cbor_encoder_get_buffer_size` gives.
     */
    method Close(slot: SlotId)
      requires Valid() && agg == Collecting(slot) && aggCount == MAX_PAYLOADS
      modifies this`agg, this`batchOf, this`wireOf, enc`pos, enc`oom, enc`Requested, Slot(slot)`length, Slot(slot).buffer
      ensures Valid()
      ensures agg == Closed(slot) && aggBatch == old(aggBatch)
      ensures batchOf == old(batchOf)[slot := old(aggBatch)]
      ensures slot in wireOf && wireOf == old(wireOf)[slot := wireOf[slot]]
      ensures IsEnvelope(old(aggBatch), wireOf[slot])
      ensures freeQ == old(freeQ) && filledQ == old(filledQ) && send == old(send) && payloadQ == old(payloadQ)
    {
      Placement(freeQ, filledQ, agg, send);
      CloseEnvelope(enc, Slot(slot));
      agg, batchOf, wireOf := Closed(slot), batchOf[slot := aggBatch], wireOf[slot := ENVELOPE_HEAD + aggBytes + [BREAK, BREAK]];
      Closing(slot);
    }

    /**
     * `xQueueSend` of the closed message to the filled queue. The queue has
     * room, so the branch that drops the message is never taken.
     */
    method Seal(slot: SlotId)
      requires Valid() && agg == Closed(slot)
      modifies this`filledQ, this`agg
      ensures Valid()
      ensures agg == AggIdle && filledQ == old(filledQ) + [slot]
      ensures freeQ == old(freeQ) && send == old(send) && payloadQ == old(payloadQ)
    {
      Placement(freeQ, filledQ, agg, send);
      PushFilled(freeQ, filledQ, send, slot);
      if |filledQ| < MQTT_BUFFER_COUNT {
        filledQ := filledQ + [slot];
      } else {
        assert false;
      }
      agg := AggIdle;
      ContentsKept();
    }

    /**
     * The aggregation task's receive loop, run until it would block: encode
     * queued payloads into the message until 15 are in, then close it and
     * push it to the filled queue. If opening a payload's map fails, the aggregator
     * returns still holding the message.
     */
    method AggregatorRun() returns (received: nat)
      requires Valid() && agg.Collecting?
      modifies this`payloadQ, this`agg, this`aggCount, this`aggBatch, this`aggBytes, this`filledQ, this`batchOf, this`wireOf
      modifies enc, Messages(), Arrays()
      ensures Valid()
      ensures received <= |old(payloadQ)| && payloadQ == old(payloadQ)[received..]
      ensures old(aggCount) + received <= MAX_PAYLOADS
      ensures freeQ == old(freeQ) && send == old(send)
      ensures agg.Collecting? ==>
                agg == old(agg) && received == |old(payloadQ)| && filledQ == old(filledQ) &&
                aggBatch == old(aggBatch) + old(payloadQ)[..received]
      ensures agg.Stopped? ==> agg.slot == old(agg.slot) && received >= 1 && filledQ == old(filledQ)
      ensures !agg.AggIdle? ==> agg.Collecting? || agg.Stopped?
      ensures !agg.AggIdle? ==> batchOf == old(batchOf) && wireOf == old(wireOf)
      ensures agg.AggIdle? ==>
                old(aggCount) + received == MAX_PAYLOADS &&
                filledQ == old(filledQ) + [old(agg.slot)] &&
                batchOf == old(batchOf)[old(agg.slot) := old(aggBatch) + old(payloadQ)[..received]]
    {
      var slot := agg.slot;
      received := 0;
      while aggCount < MAX_PAYLOADS && payloadQ != []
        invariant Valid() && agg == Collecting(slot)
        invariant received <= |old(payloadQ)| && payloadQ == old(payloadQ)[received..]
        invariant aggCount == old(aggCount) + received
        invariant aggBatch == old(aggBatch) + old(payloadQ)[..received]
        invariant freeQ == old(freeQ) && filledQ == old(filledQ) && send == old(send)
        invariant batchOf == old(batchOf) && wireOf == old(wireOf)
        decreases |payloadQ|
      {
        assert old(payloadQ)[..received + 1] == old(payloadQ)[..received] + [payloadQ[0]];
        received := received + 1;
        var err := Receive(slot);
        if err != Esp.OK {
          return;
        }
      }
      if aggCount == MAX_PAYLOADS {
        Close(slot);
        Seal(slot);
      }
    }

    /** The sending task takes the oldest filled buffer. */
    method SenderTake() returns (took: bool)
      requires Valid() && send.SendIdle?
      modifies this`filledQ, this`send
      ensures Valid()
      ensures took <==> old(filledQ) != []
      ensures took ==> filledQ == old(filledQ)[1..] && send == Holding(old(filledQ)[0])
      ensures !took ==> filledQ == old(filledQ) && send == old(send)
      ensures freeQ == old(freeQ) && agg == old(agg) && payloadQ == old(payloadQ)
    {
      if filledQ == [] {
        return false;
      }
      var slot := filledQ[0];
      TakeFilled(freeQ, filledQ, agg);
      assert filledQ == [slot] + filledQ[1..];
      filledQ, send := filledQ[1..], Holding(slot);
      ContentsKept();
      AggregatingKept();
      return true;
    }

    /**
     * The sending task publishes the held message's bytes and returns the
     * buffer, zeroed, to the free queue, whatever the outcome.
     */
    method SenderPublish(mqtt: MqttModule.Module, clientMsgId: int, startResult: Esp.Err, connectedInTime: bool)
      returns (ret: Esp.Err)
      requires Valid() && send.Holding? && mqtt.Valid()
      modifies this`freeQ, this`send, Arrays()
      modifies mqtt`Handed, mqtt`state, mqtt`connectedBit, mqtt`clientStarted
      ensures Valid() && mqtt.Valid()
      ensures send == SendIdle && freeQ == old(freeQ) + [old(send.slot)] && Zeroed(Slot(old(send.slot)))
      ensures filledQ == old(filledQ) && agg == old(agg) && payloadQ == old(payloadQ)
      ensures Transmitted(old(mqtt.state), old(mqtt.connectedBit), old(mqtt.Handed),
                          MqttModule.Taken(old(Slot(send.slot).buffer[..]), old(Slot(send.slot).length)),
                          clientMsgId, startResult, connectedInTime, ret, mqtt.state, mqtt.connectedBit, mqtt.clientStarted, mqtt.Handed)
    {
      var msg := Slot(send.slot);
      ret := Transmit(mqtt, msg.buffer[..], msg.length, clientMsgId, startResult, connectedInTime);
      Recycle();
    }

    /** `memset` of the held buffer to zero, then `xQueueSend` to the free queue. */
    method Recycle()
      requires Valid() && send.Holding?
      modifies this`freeQ, this`send, Slot(send.slot).buffer
      ensures Valid()
      ensures send == SendIdle && freeQ == old(freeQ) + [old(send.slot)] && Zeroed(Slot(old(send.slot)))
      ensures filledQ == old(filledQ) && agg == old(agg) && payloadQ == old(payloadQ)
    {
      var slot := send.slot;
      Placement(freeQ, filledQ, agg, send);
      Clear(Slot(slot).buffer);
      if |freeQ| < MQTT_BUFFER_COUNT {
        freeQ, send := freeQ + [slot], SendIdle;
      } else {
        assert false;
      }
      Recycled(slot);
    }
  }

  /**
   * The three `cbor_encoder_close_container` calls (the array has a definite
   * length and closes with no bytes, each map with a break code), then the
   * message length from `cbor_encoder_get_buffer_size`.
   */
  method CloseEnvelope(w: Writer, msg: Message)
    requires w.Valid() && w.buf == msg.buffer
    modifies w`pos, w`oom, w`Requested, msg`length, msg.buffer
    ensures msg.length <= msg.buffer.Length && msg.buffer[..msg.length] <= old(w.Requested) + [BREAK, BREAK]
    ensures |old(w.Requested)| + 2 <= msg.buffer.Length ==> msg.buffer[..msg.length] == old(w.Requested) + [BREAK, BREAK]
  {
    var e := w.CloseIndefinite();
    e := w.CloseIndefinite();
    msg.length := w.pos;
  }

  /** `memset(buffer, 0, size)`. */
  method Clear(a: array<Byte>)
    modifies a
    ensures forall k :: 0 <= k < a.Length ==> a[k] == 0
  {
    forall k | 0 <= k < a.Length {
      a[k] := 0;
    }
  }

  /**
   * What one publish attempt of the sending task does to the MQTT module:
   * the message is handed over exactly when the module is connected and the
   * message id is valid; when it is not connected, connect is called once
   * and the message is not published again.
   */
  ghost predicate Transmitted(state0: MqttModule.State, bit0: bool, handed0: seq<MqttModule.Outgoing>, bytes: seq<Byte>,
                              clientMsgId: int, startResult: Esp.Err, connectedInTime: bool,
                              ret: Esp.Err, state: MqttModule.State, bit: bool, started: bool, handed: seq<MqttModule.Outgoing>)
  {
    && (ret == Esp.OK <==> state0 == MqttModule.Connected && clientMsgId >= 0)
    && (ret == Esp.OK ==> handed == handed0 + [MqttModule.Outgoing(DATA_OUT_TOPIC, bytes)])
    && (ret != Esp.OK ==> handed == handed0)
    && (ret == Esp.ERR_INVALID_STATE <==> state0 != MqttModule.Connected)
    && (ret != Esp.ERR_INVALID_STATE ==> state == state0 && bit == bit0)
    && (ret == Esp.ERR_INVALID_STATE && startResult == Esp.OK && (bit0 || connectedInTime) ==> bit && started)
  }

  /**
   * The publish-then-reconnect step of the sending task's loop: the buffer
   * is published with the message length.
   */
  method Transmit(mqtt: MqttModule.Module, buffer: seq<Byte>, length: nat, clientMsgId: int, startResult: Esp.Err,
                  connectedInTime: bool)
    returns (ret: Esp.Err)
    requires mqtt.Valid() && length <= |buffer| <= BUFFER_SIZE
    modifies mqtt`Handed, mqtt`state, mqtt`connectedBit, mqtt`clientStarted
    ensures mqtt.Valid()
    ensures Transmitted(old(mqtt.state), old(mqtt.connectedBit), old(mqtt.Handed), MqttModule.Taken(buffer, length),
                        clientMsgId, startResult, connectedInTime, ret, mqtt.state, mqtt.connectedBit, mqtt.clientStarted, mqtt.Handed)
  {
    ret := mqtt.Publish(Some(DATA_OUT_TOPIC), Some(buffer), length, clientMsgId);
    if ret == Esp.ERR_INVALID_STATE {
      var _ := mqtt.Connect(startResult, connectedInTime);
    }
  }
}
