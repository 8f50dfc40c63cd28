/**
 * The CBOR encoder state that the firmware drives through TinyCBOR's API
 * (`cbor_encoder_init`, `cbor_encode_*`, `cbor_encoder_create_*`,
 * `cbor_encoder_close_container`, `cbor_encoder_get_buffer_size`).
 *
 * TinyCBOR's nested `CborEncoder` values (one per open container) all write
 * through the same cursor into the same caller buffer, and closing a container
 * hands the cursor back to the parent; the model keeps that one cursor.
 * Each call writes all of its bytes or none: when the bytes do not fit, the
 * call reports out-of-memory and so does every later call.
 *
 * The ghost field `Requested` is everything the calls asked to write since
 * `Init`. `Valid()` ties the buffer to it: the written bytes are always a
 * prefix of it, all of it unless out of memory, and out of memory is only
 * ever reported once the requests exceed the buffer.
 */
module CborWriter {
  import opened Cbor

  datatype CborError = NoError | OutOfMemory

  /** The range of `int64_t`. */
  const INT64_MIN: int := -0x8000_0000_0000_0000
  const INT64_LIMIT: int := 0x8000_0000_0000_0000

  class Writer {
    var buf: array<Byte>
    var pos: nat
    var oom: bool
    ghost var Requested: seq<Byte>

    ghost predicate Valid()
      reads this, buf
    {
      && pos <= buf.Length
      && buf[..pos] <= Requested
      && (!oom ==> buf[..pos] == Requested)
      && (oom ==> |Requested| > buf.Length)
    }

    /** The bytes written so far (`cbor_encoder_get_buffer_size` of them). */
    function Written(): (r: seq<Byte>)
      reads this, buf
      requires Valid()
      ensures |r| == pos && r <= Requested
    {
      buf[..pos]
    }

    constructor (buffer: array<Byte>)
      ensures Valid() && buf == buffer && pos == 0 && !oom && Requested == []
    {
      buf, pos, oom := buffer, 0, false;
      Requested := [];
    }

    /** `cbor_encoder_init(&encoder, buffer, size, 0)`. */
    method Init(buffer: array<Byte>)
      modifies this
      ensures Valid() && buf == buffer && pos == 0 && !oom && Requested == []
    {
      buf, pos, oom := buffer, 0, false;
      Requested := [];
    }

    /** Writes `bytes` at the cursor when they fit, else records out-of-memory. */
    method Append(bytes: seq<Byte>) returns (err: CborError)
      requires Valid()
      modifies this`pos, this`oom, this`Requested, buf
      ensures Valid() && buf == old(buf)
      ensures Requested == old(Requested) + bytes
      ensures err == NoError <==> !old(oom) && old(pos) + |bytes| <= buf.Length
      ensures err == NoError ==> Written() == old(Written()) + bytes
      ensures err == OutOfMemory ==> oom && pos == old(pos) && buf[..] == old(buf[..])
      ensures old(oom) ==> oom
      ensures forall k :: pos <= k < buf.Length ==> buf[k] == old(buf[k])
    {
      Requested := Requested + bytes;
      if !oom && pos + |bytes| <= buf.Length {
        forall k | 0 <= k < |bytes| {
          buf[pos + k] := bytes[k];
        }
        assert buf[..pos + |bytes|] == old(buf[..pos]) + bytes;
        pos := pos + |bytes|;
        err := NoError;
      } else {
        if !oom {
          assert pos == |old(Requested)|;
        }
        oom := true;
        err := OutOfMemory;
      }
    }

    /** `cbor_encode_uint`: major type 0. */
    method EncodeUint(n: nat) returns (err: CborError)
      requires Valid() && n < TWO_64
      modifies this`pos, this`oom, this`Requested, buf
      ensures Valid() && buf == old(buf) && (old(oom) ==> oom)
      ensures Requested == old(Requested) + Encode(UInt(n))
      ensures err == NoError <==> !old(oom) && old(pos) + |Encode(UInt(n))| <= buf.Length
    {
      err := Append(Encode(UInt(n)));
    }

    /** `cbor_encode_int`: major type 0 for a non-negative value, 1 for a negative one. */
    method EncodeInt(v: int) returns (err: CborError)
      requires Valid() && INT64_MIN <= v < INT64_LIMIT
      modifies this`pos, this`oom, this`Requested, buf
      ensures Valid() && buf == old(buf) && (old(oom) ==> oom)
      ensures Requested == old(Requested) + Encode(IntItem(v))
    {
      err := Append(Encode(IntItem(v)));
    }

    /** `cbor_encode_text_stringz`: major type 3 with the string's bytes up to its NUL. */
    method EncodeTextStringz(s: seq<Byte>) returns (err: CborError)
      requires Valid() && |s| < TWO_64
      modifies this`pos, this`oom, this`Requested, buf
      ensures Valid() && buf == old(buf) && (old(oom) ==> oom)
      ensures Requested == old(Requested) + Encode(Text(s))
    {
      err := Append(Encode(Text(s)));
    }

    /** `cbor_encode_float`: 0xFA followed by the four bytes of the IEEE 754 single. */
    method EncodeFloat(bits: nat) returns (err: CborError)
      requires Valid() && bits < TWO_32
      modifies this`pos, this`oom, this`Requested, buf
      ensures Valid() && buf == old(buf) && (old(oom) ==> oom)
      ensures Requested == old(Requested) + Encode(Float32(bits))
    {
      err := Append(Encode(Float32(bits)));
    }

    /** `cbor_encode_boolean`: the simple value true or false. */
    method EncodeBoolean(b: bool) returns (err: CborError)
      requires Valid()
      modifies this`pos, this`oom, this`Requested, buf
      ensures Valid() && buf == old(buf) && (old(oom) ==> oom)
      ensures Requested == old(Requested) + Encode(Bool(b))
    {
      err := Append(Encode(Bool(b)));
    }

    /** `cbor_encode_null`: the simple value null. */
    method EncodeNull() returns (err: CborError)
      requires Valid()
      modifies this`pos, this`oom, this`Requested, buf
      ensures Valid() && buf == old(buf) && (old(oom) ==> oom)
      ensures Requested == old(Requested) + Encode(Null)
    {
      err := Append(Encode(Null));
    }

    /** `cbor_encoder_create_map(…, CborIndefiniteLength)`: the initial byte 0xBF. */
    method CreateIndefiniteMap() returns (err: CborError)
      requires Valid()
      modifies this`pos, this`oom, this`Requested, buf
      ensures Valid() && buf == old(buf) && (old(oom) ==> oom)
      ensures Requested == old(Requested) + [INDEF_MAP]
      ensures err == NoError <==> !old(oom) && old(pos) < buf.Length
      ensures err == OutOfMemory ==> oom && pos == old(pos)
    {
      err := Append([INDEF_MAP]);
    }

    /** `cbor_encoder_create_array(…, n)`: the head of a definite-length array of n items. */
    method CreateArray(n: nat) returns (err: CborError)
      requires Valid() && n < TWO_64
      modifies this`pos, this`oom, this`Requested, buf
      ensures Valid() && buf == old(buf) && (old(oom) ==> oom)
      ensures Requested == old(Requested) + Head(MAJOR_ARRAY, n)
    {
      err := Append(Head(MAJOR_ARRAY, n));
    }

    /** `cbor_encoder_close_container` on an indefinite-length container: the break code. */
    method CloseIndefinite() returns (err: CborError)
      requires Valid()
      modifies this`pos, this`oom, this`Requested, buf
      ensures Valid() && buf == old(buf) && (old(oom) ==> oom)
      ensures Requested == old(Requested) + [BREAK]
    {
      err := Append([BREAK]);
    }
  }

  /** The item `cbor_encode_int` writes for a signed 64-bit value. */
  function IntItem(v: int): (r: Item)
    requires INT64_MIN <= v < INT64_LIMIT
    ensures (r.UInt? || r.NegInt?) && WellFormed(r) && IntValue(r) == v
  {
    if v >= 0 then UInt(v) else NegInt(-1 - v)
  }
}
