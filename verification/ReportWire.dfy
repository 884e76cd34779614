/**
 The hand-encoded `ReportEvents` request (ios/NotificationExtension/Core/ReportWire.swift) against an
 independent reader of the protobuf wire format. Strings are their UTF-8 bytes.
 */
module ReportWire {
  import opened Common
  import opened GrpcWeb
  import opened Varint

  const DELIVERED_EVENT_TYPE := 300

  datatype ReportKey = ReportKey(messageId: seq<Byte>, subscriberId: seq<Byte>)

  /** `UInt32(message.count)` traps on a message it cannot measure. */
  datatype Trap = LengthOverflow

  // ----- The bytes of a request -----

  /** A length-delimited field of a number below 16. */
  function Delimited(field: nat, payload: seq<Byte>): seq<Byte>
    requires field < 0x10
  {
    [field * 8 + 2] + (Canonical(|payload|) + payload)
  }

  function EventBytes(key: ReportKey): seq<Byte> {
    Delimited(1, key.messageId) + (Delimited(2, key.subscriberId) + ([0x20] + Canonical(DELIVERED_EVENT_TYPE)))
  }

  function MessageBytes(keys: seq<ReportKey>): seq<Byte> {
    if keys == [] then [] else MessageBytes(keys[..|keys| - 1]) + Delimited(1, EventBytes(keys[|keys| - 1]))
  }

  method AppendString(field: nat, value: seq<Byte>, data: seq<Byte>) returns (r: seq<Byte>)
    requires field < 0x10
    ensures r == data + Delimited(field, value)
  {
    r := AppendCanonicalVarint(|value|, data + [field * 8 + 2]);
    r := r + value;
  }

  method EncodeEvent(key: ReportKey) returns (event: seq<Byte>)
    ensures event == EventBytes(key)
  {
    event := AppendString(1, key.messageId, []);
    event := AppendString(2, key.subscriberId, event);
    event := event + [0x20];
    event := AppendCanonicalVarint(DELIVERED_EVENT_TYPE, event);
    EventInOrder(key, event);
  }

  lemma EventInOrder(key: ReportKey, event: seq<Byte>)
    requires event == [] + Delimited(1, key.messageId) + Delimited(2, key.subscriberId) + [0x20]
                      + Canonical(DELIVERED_EVENT_TYPE)
    ensures event == EventBytes(key)
  {
  }

  method AppendEvent(event: seq<Byte>, message: seq<Byte>) returns (r: seq<Byte>)
    ensures r == message + Delimited(1, event)
  {
    r := AppendCanonicalVarint(|event|, message + [0x0A]);
    r := r + event;
  }

  /** A gRPC-web data frame: `0x00`, big-endian length, protobuf. */
  method RequestBody(keys: seq<ReportKey>) returns (r: Result<seq<Byte>, Trap>)
    ensures r == if |MessageBytes(keys)| < TWO_32 then Ok(FramedBody(0, MessageBytes(keys))) else Err(LengthOverflow)
  {
    var message: seq<Byte> := [];
    for i := 0 to |keys|
      invariant message == MessageBytes(keys[..i])
    {
      var event := EncodeEvent(keys[i]);
      message := AppendEvent(event, message);
      assert keys[..i + 1][..i] == keys[..i];
    }
    assert keys[..|keys|] == keys;
    if |message| >= TWO_32 {
      return Err(LengthOverflow);
    }
    r := Ok([0] + BigEndian32(|message|) + message);
  }

  // ----- The protobuf wire format -----

  datatype Field =
    | VarintField(number: nat, value: nat)
    | BytesField(number: nat, payload: seq<Byte>)

  datatype FieldRead = FieldRead(field: Field, width: nat)

  /** The first field; None when it is malformed or of a wire type the message does not use. */
  function ReadField(bytes: seq<Byte>): (r: Option<FieldRead>)
    ensures r.Some? ==> 0 < r.value.width <= |bytes|
  {
    var key := Read(bytes);
    if key.Err? then None
    else
      var operand := Read(bytes[key.value.width..]);
      if operand.Err? then None
      else
        var width := key.value.width + operand.value.width;
        var number := key.value.value / 8;
        if key.value.value % 8 == 0 then Some(FieldRead(VarintField(number, operand.value.value), width))
        else if key.value.value % 8 == 2 && width + operand.value.value <= |bytes|
        then Some(FieldRead(BytesField(number, bytes[width..width + operand.value.value]),
                            width + operand.value.value))
        else None
  }

  function ReadFields(bytes: seq<Byte>): Option<seq<Field>> {
    if bytes == [] then Some([])
    else
      var first := ReadField(bytes);
      if first.None? then None
      else
        var rest := ReadFields(bytes[first.value.width..]);
        if rest.None? then None else Some([first.value.field] + rest.value)
  }

  /** The event's fields: the last of a number counts, a missing one has its default, others are skipped. */
  datatype Event = Event(messageId: seq<Byte>, subscriberId: seq<Byte>, eventType: nat)

  function EventOf(fields: seq<Field>): Event {
    if fields == [] then Event([], [], 0)
    else
      var event := EventOf(fields[..|fields| - 1]);
      match fields[|fields| - 1]
      case BytesField(1, payload) => event.(messageId := payload)
      case BytesField(2, payload) => event.(subscriberId := payload)
      case VarintField(4, value) => event.(eventType := value)
      case _ => event
  }

  /** The events of a request's fields; None when one does not parse. */
  function EventsOf(fields: seq<Field>): Option<seq<Event>> {
    if fields == [] then Some([])
    else
      var rest := EventsOf(fields[1..]);
      if rest.None? then None
      else if fields[0].BytesField? && fields[0].number == 1 then
        var inner := ReadFields(fields[0].payload);
        if inner.None? then None else Some([EventOf(inner.value)] + rest.value)
      else rest
  }

  /** A request body: exactly one data frame holding the message. */
  function ParseRequest(body: seq<Byte>): Option<seq<Event>> {
    var frames := Walk(body);
    if |frames| == 1 && frames[0].flag == Some(0) && |body| == 5 + |frames[0].data| then
      var fields := ReadFields(frames[0].data);
      if fields.None? then None else EventsOf(fields.value)
    else None
  }

  // ----- What the encoding promises -----

  lemma ReadKeyByte(key: Byte, rest: seq<Byte>)
    requires key < 0x80
    ensures Read([key] + rest) == Ok(Reading(key, 1))
    ensures ([key] + rest)[1..] == rest
  {
    assert Canonical(key) == [key];
    ReadOfCanonical(key, rest);
  }

  lemma DelimitedReads(number: nat, payload: seq<Byte>, rest: seq<Byte>)
    requires number < 0x10 && |payload| < TWO_64
    ensures var all := Delimited(number, payload) + rest;
            ReadField(all) == Some(FieldRead(BytesField(number, payload), |Delimited(number, payload)|))
  {
    var all := Delimited(number, payload) + rest;
    var length := Canonical(|payload|);
    assert all == [number * 8 + 2] + (length + (payload + rest));
    ReadKeyByte(number * 8 + 2, length + (payload + rest));
    ReadOfCanonical(|payload|, payload + rest);
    assert all[1 + |length|..1 + |length| + |payload|] == payload;
  }

  lemma FieldsStep(bytes: seq<Byte>, field: Field, width: nat, rest: seq<Byte>, tail: seq<Field>)
    requires ReadField(bytes) == Some(FieldRead(field, width)) && bytes[width..] == rest
    requires ReadFields(rest) == Some(tail)
    ensures ReadFields(bytes) == Some([field] + tail)
  {
  }

  lemma DelimitedFirst(number: nat, payload: seq<Byte>, rest: seq<Byte>, tail: seq<Field>)
    requires number < 0x10 && |payload| < TWO_64 && ReadFields(rest) == Some(tail)
    ensures ReadFields(Delimited(number, payload) + rest) == Some([BytesField(number, payload)] + tail)
  {
    DelimitedReads(number, payload, rest);
    FieldsStep(Delimited(number, payload) + rest, BytesField(number, payload), |Delimited(number, payload)|, rest,
        tail);
  }

  lemma TypeFieldReads()
    ensures ReadFields([0x20] + Canonical(DELIVERED_EVENT_TYPE)) == Some([VarintField(4, DELIVERED_EVENT_TYPE)])
  {
    var operand := Canonical(DELIVERED_EVENT_TYPE);
    var all := [0x20] + operand;
    ReadKeyByte(0x20, operand);
    ReadOfCanonical(DELIVERED_EVENT_TYPE, []);
    assert operand + [] == operand;
    FieldsStep(all, VarintField(4, DELIVERED_EVENT_TYPE), |all|, [], []);
    assert [VarintField(4, DELIVERED_EVENT_TYPE)] + [] == [VarintField(4, DELIVERED_EVENT_TYPE)];
  }

  function Reported(key: ReportKey): Event {
    Event(key.messageId, key.subscriberId, 300)
  }

  function AllReported(keys: seq<ReportKey>): seq<Event> {
    seq(|keys|, i requires 0 <= i < |keys| => Reported(keys[i]))
  }

  function FieldsOf(key: ReportKey): seq<Field> {
    [BytesField(1, key.messageId), BytesField(2, key.subscriberId), VarintField(4, DELIVERED_EVENT_TYPE)]
  }

  lemma EventFieldsRead(key: ReportKey)
    requires |key.messageId| < TWO_64 && |key.subscriberId| < TWO_64
    ensures ReadFields(EventBytes(key)) == Some(FieldsOf(key))
  {
    var kind := [VarintField(4, DELIVERED_EVENT_TYPE)];
    var kindBytes := [0x20] + Canonical(DELIVERED_EVENT_TYPE);
    TypeFieldReads();
    DelimitedFirst(2, key.subscriberId, kindBytes, kind);
    var subscriber := [BytesField(2, key.subscriberId)] + kind;
    DelimitedFirst(1, key.messageId, Delimited(2, key.subscriberId) + kindBytes, subscriber);
    assert [BytesField(1, key.messageId)] + subscriber == FieldsOf(key);
  }

  lemma EventOfFields(key: ReportKey)
    ensures EventOf(FieldsOf(key)) == Reported(key)
  {
    var fields := FieldsOf(key);
    assert fields[..2] == [fields[0], fields[1]] && fields[..2][..1] == [fields[0]] && [fields[0]][..0] == [];
    assert EventOf([fields[0]]) == Event(key.messageId, [], 0);
    assert EventOf(fields[..2]) == Event(key.messageId, key.subscriberId, 0);
  }

  lemma EventsStep(key: ReportKey, tail: seq<Field>)
    requires |key.messageId| < TWO_64 && |key.subscriberId| < TWO_64 && EventsOf(tail).Some?
    ensures EventsOf([BytesField(1, EventBytes(key))] + tail) == Some([Reported(key)] + EventsOf(tail).value)
  {
    EventFieldsRead(key);
    EventOfFields(key);
    assert ([BytesField(1, EventBytes(key))] + tail)[1..] == tail;
  }

  lemma Associate<T>(a: seq<T>, b: seq<T>, c: seq<T>)
    ensures (a + b) + c == a + (b + c)
  {
  }

  lemma MessageSplit(keys: seq<ReportKey>)
    requires keys != []
    ensures var before, last := keys[..|keys| - 1], keys[|keys| - 1];
            && MessageBytes(keys) == MessageBytes(before) + Delimited(1, EventBytes(last))
            && |last.messageId| <= |MessageBytes(keys)| && |last.subscriberId| <= |MessageBytes(keys)|
            && |EventBytes(last)| <= |MessageBytes(keys)|
            && AllReported(keys) == AllReported(before) + [Reported(last)]
  {
  }

  lemma {:induction false} MessageReadsOnto(keys: seq<ReportKey>, rest: seq<Byte>, tail: seq<Field>)
    returns (fields: seq<Field>)
    requires |MessageBytes(keys)| < TWO_64
    requires ReadFields(rest) == Some(tail) && EventsOf(tail).Some?
    ensures ReadFields(MessageBytes(keys) + rest) == Some(fields)
    ensures EventsOf(fields) == Some(AllReported(keys) + EventsOf(tail).value)
    decreases |keys|
  {
    if keys == [] {
      fields := tail;
      assert MessageBytes(keys) + rest == rest;
      assert AllReported(keys) + EventsOf(tail).value == EventsOf(tail).value;
    } else {
      var before, last := keys[..|keys| - 1], keys[|keys| - 1];
      var event := Delimited(1, EventBytes(last));
      var here := [BytesField(1, EventBytes(last))] + tail;
      MessageSplit(keys);
      EventsStep(last, tail);
      DelimitedFirst(1, EventBytes(last), rest, tail);
      fields := MessageReadsOnto(before, event + rest, here);
      Associate(MessageBytes(before), event, rest);
      Associate(AllReported(before), [Reported(last)], EventsOf(tail).value);
    }
  }

  /** Parsing a request's bytes recovers exactly its keys, in order, each reported as delivered. */
  lemma RequestRoundTrip(keys: seq<ReportKey>)
    requires |MessageBytes(keys)| < TWO_32
    ensures ParseRequest(FramedBody(0, MessageBytes(keys))) == Some(AllReported(keys))
  {
    var message := MessageBytes(keys);
    var fields := MessageReadsOnto(keys, [], []);
    assert message + [] == message && AllReported(keys) + [] == AllReported(keys);
    WalkTakesFrame(0, message, []);
    assert FramedBody(0, message) + [] == FramedBody(0, message);
  }

  /** So no two key lists share a request. */
  lemma RequestIsInjective(a: seq<ReportKey>, b: seq<ReportKey>)
    requires |MessageBytes(a)| < TWO_32 && MessageBytes(a) == MessageBytes(b)
    ensures a == b
  {
    RequestRoundTrip(a);
    RequestRoundTrip(b);
    assert AllReported(a) == AllReported(b);
    forall i | 0 <= i < |a|
      ensures a[i] == b[i]
    {
      assert AllReported(a)[i] == AllReported(b)[i];
    }
  }
}
