/**
 The delivery-service WebSocket envelope (ios/SinchPushSocket/FrameCodec.swift). A generated frame message is
 the single length-delimited field it serialises to: `key || length || payload`. The direction, which only
 labels errors, is left out.
 */
module FrameCodec {
  import opened Common
  import opened Varint

  const MAX_PAYLOAD := 65_536
  const CANONICAL_LENGTH_MAX := 3
  const MAX_TOTAL := MAX_PAYLOAD + 1 + Varint.MAX_BYTES
  const MAX_EMITTED := MAX_PAYLOAD + 1 + CANONICAL_LENGTH_MAX

  datatype FrameError =
    | TooShort
    | LengthVarint(varint: VarintError)
    | PayloadTooLarge(declared: nat)
    | FrameTooLarge(length: nat)
    | TruncatedPayload(declared: nat, available: nat)
    | UnknownTag(tag: Byte)
    | NoEnvelope

  /** `bodyStart` and `bodyEnd` are offsets of the payload in the received frame. */
  datatype Envelope = Envelope(tag: Byte, bodyStart: nat, bodyEnd: nat)

  datatype Split = Split(tag: Byte, payload: seq<Byte>)

  /** Both bounds are applied before anything is sliced. */
  method ReadEnvelope(data: seq<Byte>) returns (r: Result<Envelope, FrameError>)
    ensures r == EnvelopeOf(data)
  {
    if |data| < 2 {
      return Err(TooShort);
    }
    if |data| > MAX_TOTAL {
      return Err(FrameTooLarge(|data|));
    }
    var tag := data[0];
    var length := ReadVarint(data, 1);
    if length.Err? {
      return Err(LengthVarint(length.error));
    }
    if length.value.value > MAX_PAYLOAD {
      return Err(PayloadTooLarge(length.value.value));
    }
    var bodyStart := 1 + length.value.width;
    var bodyEnd := bodyStart + length.value.value;
    if bodyEnd > |data| {
      return Err(TruncatedPayload(length.value.value, Max(0, |data| - bodyStart)));
    }
    r := Ok(Envelope(tag, bodyStart, bodyEnd));
  }

  function EnvelopeOf(data: seq<Byte>): Result<Envelope, FrameError> {
    if |data| < 2 then Err(TooShort)
    else if |data| > MAX_TOTAL then Err(FrameTooLarge(|data|))
    else
      var length := Read(data[1..]);
      if length.Err? then Err(LengthVarint(length.error))
      else if length.value.value > MAX_PAYLOAD then Err(PayloadTooLarge(length.value.value))
      else
        var bodyStart := 1 + length.value.width;
        if bodyStart + length.value.value > |data|
        then Err(TruncatedPayload(length.value.value, Max(0, |data| - bodyStart)))
        else Ok(Envelope(data[0], bodyStart, bodyStart + length.value.value))
  }

  /** The protobuf key of a length-delimited field. */
  function KeyOf(field: nat): nat { field * 8 + 2 }

  /** The frame message's own encoding: the tag byte turned back into its key, the rest verbatim. */
  function ProtobufBody(envelope: Envelope, data: seq<Byte>): Result<seq<Byte>, FrameError>
    requires 1 <= envelope.bodyEnd <= |data|
  {
    if envelope.tag == 0 then Err(UnknownTag(envelope.tag))
    else Ok(Canonical(KeyOf(envelope.tag)) + data[1..envelope.bodyEnd])
  }

  /** Tag and payload of a frame message's own serialisation. */
  function SplitEnvelope(wire: seq<Byte>): Result<Split, FrameError> {
    if |wire| < 2 then Err(NoEnvelope)
    else
      var key := Read(wire);
      if key.Err? then Err(LengthVarint(key.error))
      else if key.value.value % 8 != 2 then Err(NoEnvelope)
      else if !(1 <= key.value.value / 8 <= 255) then Err(NoEnvelope)
      else
        var length := Read(wire[key.value.width..]);
        if length.Err? then Err(LengthVarint(length.error))
        else
          var bodyStart := key.value.width + length.value.width;
          if length.value.value > |wire| - bodyStart then Err(NoEnvelope)
          else Ok(Split(key.value.value / 8, wire[bodyStart..bodyStart + length.value.value]))
  }

  function Prefixed(payload: seq<Byte>): seq<Byte> {
    Canonical(|payload|) + payload
  }

  /** A frame as this SDK emits it. */
  function Emitted(tag: Byte, payload: seq<Byte>): seq<Byte> {
    [tag] + Prefixed(payload)
  }

  /** The frame as emitted, or the reason it may not be. */
  method WriteEnvelope(tag: Byte, payload: seq<Byte>) returns (r: Result<seq<Byte>, FrameError>)
    ensures r == if |payload| <= 65_536 then Ok(Emitted(tag, payload))
                 else Err(PayloadTooLarge(|payload|))
    ensures r.Ok? ==> |r.value| <= MAX_EMITTED
  {
    if |payload| > MAX_PAYLOAD {
      return Err(PayloadTooLarge(|payload|));
    }
    var frame := AppendCanonicalVarint(|payload|, [tag]);
    frame := frame + payload;
    assert frame == Emitted(tag, payload);
    LengthPrefixIsShort(|payload|);
    if |frame| > MAX_TOTAL {
      // Unreachable while the payload cap holds.
      assert false;
    }
    r := Ok(frame);
  }

  /** A legal payload length takes at most three bytes. */
  lemma LengthPrefixIsShort(length: nat)
    requires length <= MAX_PAYLOAD
    ensures |Canonical(length)| <= CANONICAL_LENGTH_MAX
  {
    if length >= 0x80 {
      assert |Canonical(length)| == 1 + |Canonical(length / 0x80)|;
      if length / 0x80 >= 0x80 {
        assert |Canonical(length / 0x80)| == 1 + |Canonical(length / 0x80 / 0x80)|;
        assert length / 0x80 / 0x80 < 0x80;
      }
    }
  }

  // ----- What the codec promises -----

  /** The serialisation of a frame message with field `field` set to `payload`. */
  function Serialised(field: Byte, payload: seq<Byte>): seq<Byte> {
    Canonical(KeyOf(field)) + Prefixed(payload)
  }

  lemma KeyNamesField(field: Byte)
    ensures KeyOf(field) % 8 == 2 && KeyOf(field) / 8 == field && KeyOf(field) < TWO_64
  {
  }

  /** A key for a field, then any readable length and its payload, splits into that field and payload. */
  lemma SplitOfKeyed(field: Byte, body: seq<Byte>)
    requires field != 0 && Read(body).Ok?
    requires Read(body).value.width + Read(body).value.value == |body|
    ensures SplitEnvelope(Canonical(KeyOf(field)) + body) == Ok(Split(field, body[Read(body).value.width..]))
  {
    var key := Canonical(KeyOf(field));
    KeyNamesField(field);
    ReadOfCanonical(KeyOf(field), body);
    SplitOfRead(field, key, body, Read(body).value);
  }

  lemma SplitOfRead(field: Byte, key: seq<Byte>, body: seq<Byte>, length: Reading)
    requires field != 0 && key != [] && body != []
    requires Read(key + body) == Ok(Reading(KeyOf(field), |key|))
    requires Read(body) == Ok(length) && length.width + length.value == |body|
    ensures SplitEnvelope(key + body) == Ok(Split(field, body[length.width..]))
  {
    var wire := key + body;
    assert wire[|key|..] == body;
    assert wire[|key| + length.width..|key| + |body|] == body[length.width..];
  }

  lemma SplitOfSerialised(field: Byte, payload: seq<Byte>)
    requires field != 0 && |payload| <= 65_536
    ensures SplitEnvelope(Serialised(field, payload)) == Ok(Split(field, payload))
  {
    ReadOfCanonical(|payload|, payload);
    SplitOfKeyed(field, Prefixed(payload));
    assert Prefixed(payload)[|Canonical(|payload|)|..] == payload;
  }

  lemma EnvelopeOfEmitted(field: Byte, payload: seq<Byte>)
    requires |payload| <= MAX_PAYLOAD
    ensures EnvelopeOf(Emitted(field, payload)) ==
            Ok(Envelope(field, 1 + |Canonical(|payload|)|, |Emitted(field, payload)|))
  {
    LengthPrefixIsShort(|payload|);
    ReadOfCanonical(|payload|, payload);
    assert Emitted(field, payload)[1..] == Prefixed(payload);
  }

  /**
   Sending and receiving: the message's serialisation splits into its field number and payload, the emitted
   frame reads back as an envelope, and rebuilding from that envelope gives the serialisation again.
   */
  lemma EnvelopeRoundTrip(field: Byte, payload: seq<Byte>)
    requires field != 0 && |payload| <= 65_536
    ensures SplitEnvelope(Serialised(field, payload)) == Ok(Split(field, payload))
    ensures var frame := Emitted(field, payload);
            && |frame| <= MAX_EMITTED
            && EnvelopeOf(frame).Ok?
            && ProtobufBody(EnvelopeOf(frame).value, frame) == Ok(Serialised(field, payload))
  {
    SplitOfSerialised(field, payload);
    EnvelopeOfEmitted(field, payload);
    LengthPrefixIsShort(|payload|);
    var frame := Emitted(field, payload);
    assert frame[1..|frame|] == Prefixed(payload);
  }

  lemma ReadOfCut(bytes: seq<Byte>, n: nat)
    requires Read(bytes).Ok? && Read(bytes).value.width <= n <= |bytes|
    ensures Read(bytes[..n]) == Read(bytes)
  {
    var w := Read(bytes).value.width;
    ReadAt(bytes[..n], w - 1);
    assert bytes[..n][..w] == bytes[..w];
  }

  /**
   Receiving, whatever prefix the peer wrote: any accepted envelope with a non-zero tag, canonical or not,
   rebuilds to a message that splits into exactly its tag and its payload.
   */
  lemma AcceptedEnvelopeSplits(data: seq<Byte>)
    requires EnvelopeOf(data).Ok? && data[0] != 0
    ensures var e := EnvelopeOf(data).value;
            && ProtobufBody(e, data).Ok?
            && SplitEnvelope(ProtobufBody(e, data).value) == Ok(Split(data[0], data[e.bodyStart..e.bodyEnd]))
  {
    var e := EnvelopeOf(data).value;
    var body := data[1..e.bodyEnd];
    assert body == data[1..][..e.bodyEnd - 1];
    ReadOfCut(data[1..], e.bodyEnd - 1);
    SplitOfKeyed(data[0], body);
    assert body[Read(body).value.width..] == data[e.bodyStart..e.bodyEnd];
  }

  /** Nothing accepted is longer than 65547 bytes, carries more than 65536, or reaches past its end. */
  lemma AcceptedIsBounded(data: seq<Byte>)
    requires EnvelopeOf(data).Ok?
    ensures var e := EnvelopeOf(data).value;
            && 2 <= e.bodyStart <= 11
            && e.bodyStart <= e.bodyEnd <= |data| <= 65_547
            && e.bodyEnd - e.bodyStart <= 65_536
            && (e.bodyEnd - e.bodyStart) == Base128(data[1..e.bodyStart])
  {
    ReadSucceedsIff(data[1..]);
    assert data[1..][..Read(data[1..]).value.width] == data[1..EnvelopeOf(data).value.bodyStart];
  }

  lemma ReceivedOfRead(tag: Byte, m: seq<Byte>, n: nat, rest: seq<Byte>, frame: seq<Byte>)
    requires m != [] && Read(m + rest) == Ok(Reading(n, |m|)) && frame == [tag] + (m + rest)
    ensures EnvelopeOf(frame) ==
              if |frame| > 65_547 then Err(FrameTooLarge(|frame|))
              else if n > 65_536 then Err(PayloadTooLarge(n))
              else if |rest| < n then Err(TruncatedPayload(n, |rest|))
              else Ok(Envelope(tag, 1 + |m|, 1 + |m| + n))
  {
    assert frame[1..] == m + rest;
  }

  /**
   How a frame is received that declares `n` bytes and carries `rest`: refused as too long on its own size, then on the
   declared one, then as cut short with what was there; otherwise its first `n` bytes are the payload.
   */
  lemma ReceivedFrameIs(tag: Byte, n: nat, rest: seq<Byte>, frame: seq<Byte>)
    requires n < Varint.TWO_64 && frame == [tag] + (Canonical(n) + rest)
    ensures EnvelopeOf(frame) ==
              if |frame| > 65_547 then Err(FrameTooLarge(|frame|))
              else if n > 65_536 then Err(PayloadTooLarge(n))
              else if |rest| < n then Err(TruncatedPayload(n, |rest|))
              else Ok(Envelope(tag, 1 + |Canonical(n)|, 1 + |Canonical(n)| + n))
  {
    ReadOfCanonical(n, rest);
    ReceivedOfRead(tag, Canonical(n), n, rest, frame);
  }

  /** Fewer than two bytes are too short; a frame whose tag is zero is accepted, and then stands for no message. */
  lemma ShortOrUntagged(data: seq<Byte>)
    ensures EnvelopeOf(data) == Err(TooShort) <==> |data| < 2
    ensures EnvelopeOf(data).Ok? ==>
              var e := EnvelopeOf(data).value;
              && (ProtobufBody(e, data) == Err(UnknownTag(0)) <==> data[0] == 0)
              && (ProtobufBody(e, data).Ok? <==> data[0] != 0)
  {
  }

  lemma SplitOfReads(k: seq<Byte>, key: nat, m: seq<Byte>, n: nat, rest: seq<Byte>, wire: seq<Byte>)
    requires k != [] && m != [] && wire == k + (m + rest)
    requires Read(wire) == Ok(Reading(key, |k|)) && Read(m + rest) == Ok(Reading(n, |m|))
    ensures SplitEnvelope(wire) ==
            if key % 8 == 2 && 1 <= key / 8 <= 255
                && n <= |rest| then Ok(Split(key / 8, rest[..n])) else Err(NoEnvelope)
  {
    assert wire[|k|..] == m + rest;
    if n <= |rest| {
      assert wire[|k| + |m|..|k| + |m| + n] == rest[..n];
    }
  }

  /** Which serialisations can be sent: one length-delimited field, numbered 1 to 255, whose bytes are all there. */
  lemma SplitIff(key: nat, n: nat, rest: seq<Byte>, wire: seq<Byte>)
    requires key < Varint.TWO_64 && n < Varint.TWO_64 && wire == Canonical(key) + (Canonical(n) + rest)
    ensures SplitEnvelope(wire) ==
            if key % 8 == 2 && 1 <= key / 8 <= 255
                && n <= |rest| then Ok(Split(key / 8, rest[..n])) else Err(NoEnvelope)
  {
    ReadOfCanonical(key, Canonical(n) + rest);
    ReadOfCanonical(n, rest);
    SplitOfReads(Canonical(key), key, Canonical(n), n, rest, wire);
  }

  /**
   Both bounds are reached: a maximum payload behind a length padded to ten bytes is accepted and 65547 bytes
   long, while the same payload is emitted in 65540.
   */
  lemma BoundsAreTight(field: Byte, payload: seq<Byte>)
    requires |payload| == 65_536
    ensures |Emitted(field, payload)| == MAX_EMITTED == 65_540
    ensures |Canonical(MAX_PAYLOAD)| < Varint.MAX_BYTES && Canonical(MAX_PAYLOAD)[|Canonical(MAX_PAYLOAD)| - 1] < 0x80
    ensures var frame := [field] + Padded(MAX_PAYLOAD, Varint.MAX_BYTES) + payload;
            |frame| == 65_547 && EnvelopeOf(frame) == Ok(Envelope(field, 11, 65_547))
  {
    assert Canonical(MAX_PAYLOAD) == [0x80, 0x80, 0x04];
    PaddedShape(MAX_PAYLOAD, Varint.MAX_BYTES);
    PaddingKeepsValue(MAX_PAYLOAD, Varint.MAX_BYTES, payload);
    var prefix := Padded(MAX_PAYLOAD, Varint.MAX_BYTES);
    assert ([field] + prefix + payload)[1..] == prefix + payload;
  }

  lemma ShiftedValue(n: nat, last: Byte)
    requires last < 0x80
    ensures Base128(Zeros(n) + [last]) == Pow128(n) * last
  {
    ZerosAreZero(n);
    Base128OfAppend(Zeros(n), [0]);
    Base128OfAppend(Zeros(n), [last]);
    assert Base128([last]) == last && Base128([0]) == 0;
  }

  lemma ReadOfShifted(n: nat, last: Byte, rest: seq<Byte>)
    requires last < 0x80
    ensures Read(Zeros(n) + [last] + rest) ==
            if n >= Varint.MAX_BYTES || (n == Varint.MAX_BYTES - 1 && last > 1) then Err(Overflow)
            else Ok(Reading(Pow128(n) * last, n + 1))
  {
    var bytes := Zeros(n) + [last] + rest;
    ZerosAreZero(n);
    assert bytes[n] == last && forall k :: 0 <= k < n ==> bytes[k] == 0x80;
    if n >= Varint.MAX_BYTES {
      ContinuationsByIndex(bytes, n);
    } else {
      ReadAt(bytes, n);
      ShiftedValue(n, last);
      assert bytes[..n + 1] == Zeros(n) + [last];
    }
  }

  /**
   The trap the other way: `n` leading 0x80 bytes multiply the value behind them by 128^n instead of padding it. The
   frame is refused as too large as soon as the product exceeds the bound, never narrowed to a small payload: 2^32 is
   Zeros(4) + [0x10].
   */
  lemma LeadingZerosShift(field: Byte, n: nat, last: Byte, rest: seq<Byte>)
    requires last < 0x80
    ensures var data := [field] + (Zeros(n) + [last] + rest);
            |data| <= MAX_TOTAL ==>
              if n >= Varint.MAX_BYTES || (n == Varint.MAX_BYTES - 1 && last > 1)
              then EnvelopeOf(data) == Err(LengthVarint(Overflow))
              else EnvelopeOf(data) == Err(PayloadTooLarge(Pow128(n) * last)) <==> Pow128(n) * last > MAX_PAYLOAD
  {
    ReadOfShifted(n, last, rest);
    var tail := Zeros(n) + [last] + rest;
    assert ([field] + tail)[1..] == tail;
  }
}
