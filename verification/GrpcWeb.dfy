/** gRPC-web framing (src/api/transport.ts and ios/NotificationExtension/Core/ReportWire.swift). */
module GrpcWeb {
  import opened Common

  const TWO_31: int := 0x8000_0000
  const TWO_32: int := 0x1_0000_0000

  /** `flag` is None only when the TypeScript loop reads before the start of the buffer. */
  datatype Frame = Frame(flag: Option<Byte>, data: seq<Byte>)

  // ----- One frame -----

  /** A big-endian 32-bit length; a longer one wraps, as `>>>` does. */
  function BigEndian32(n: nat): seq<Byte> {
    [n / 0x100_0000 % 0x100, n / 0x1_0000 % 0x100, n / 0x100 % 0x100, n % 0x100]
  }

  /** The number a big-endian byte string spells. */
  function ValueOf(s: seq<Byte>): nat {
    if s == [] then 0 else ValueOf(s[..|s| - 1]) * 0x100 + s[|s| - 1]
  }

  lemma ValueOfFour(a: Byte, b: Byte, c: Byte, d: Byte)
    ensures ValueOf([a, b, c, d]) == ((a as int * 0x100 + b as int) * 0x100 + c as int) * 0x100 + d as int
  {
    assert [a, b, c, d][..3] == [a, b, c] && [a, b, c][..2] == [a, b] && [a, b][..1] == [a] && [a][..0] == [];
    assert ValueOf([a]) == a;
    assert ValueOf([a, b]) == a as int * 0x100 + b as int;
  }

  /** Reading undoes writing, for every length a header can carry. */
  lemma BigEndianRoundTrip(n: nat)
    ensures |BigEndian32(n)| == 4 && ValueOf(BigEndian32(n)) == n % TWO_32
  {
    var s := BigEndian32(n);
    ValueOfFour(s[0], s[1], s[2], s[3]);
    DigitsOf(n);
  }

  lemma DivideAgain(n: nat, m: nat)
    requires m in {0x100, 0x1_0000, 0x100_0000}
    ensures n / m / 0x100 == n / (m * 0x100)
    ensures n == n / m * m + n % m
  {
  }

  lemma Remainder(n: nat, q: nat, r: nat)
    requires n == q * TWO_32 + r && r < TWO_32
    ensures n % TWO_32 == r
  {
  }

  lemma DigitsOf(n: nat)
    ensures ((n / 0x100_0000 % 0x100 * 0x100 + n / 0x1_0000 % 0x100) * 0x100 + n / 0x100 % 0x100) * 0x100 + n % 0x100
         == n % TWO_32
  {
    var a, b, c, d := n / 0x100, n / 0x1_0000, n / 0x100_0000, n / TWO_32;
    DivideAgain(n, 0x100);
    DivideAgain(n, 0x1_0000);
    DivideAgain(n, 0x100_0000);
    assert a == b * 0x100 + a % 0x100 && b == c * 0x100 + b % 0x100 && c == d * 0x100 + c % 0x100;
    Remainder(n, d, ((c % 0x100 * 0x100 + b % 0x100) * 0x100 + a % 0x100) * 0x100 + n % 0x100);
  }

  /** `frameGrpcWeb`: a data frame, filled in place. */
  method FrameGrpcWeb(bytes: seq<Byte>) returns (framed: seq<Byte>)
    ensures framed == FramedBody(0, bytes)
  {
    var buffer := new Byte[5 + |bytes|];
    var len := |bytes|;
    buffer[0] := 0;
    buffer[1] := len / 0x100_0000 % 0x100;
    buffer[2] := len / 0x1_0000 % 0x100;
    buffer[3] := len / 0x100 % 0x100;
    buffer[4] := len % 0x100;
    for i := 0 to |bytes|
      invariant buffer[..5] == [0] + BigEndian32(len)
      invariant buffer[5..5 + i] == bytes[..i]
    {
      buffer[5 + i] := bytes[i];
      assert buffer[5..5 + i + 1] == buffer[5..5 + i] + [bytes[i]];
    }
    assert buffer[..] == buffer[..5] + buffer[5..5 + |bytes|];
    framed := buffer[..];
  }

  function FramedBody(flag: Byte, body: seq<Byte>): seq<Byte> {
    [flag] + BigEndian32(|body|) + body
  }

  function FramedAll(frames: seq<Frame>): seq<Byte> {
    if frames == [] then []
    else FramedBody(if frames[0].flag.Some? then frames[0].flag.value else 0, frames[0].data) + FramedAll(frames[1..])
  }

  // ----- The walk -----

  function HeaderLength(bytes: seq<Byte>): nat
    requires |bytes| >= 5
  {
    ValueOf(bytes[1..5])
  }

  /** The frames of a body; a truncated header or payload ends the walk. */
  function Walk(bytes: seq<Byte>): seq<Frame> {
    if |bytes| < 5 || 5 + HeaderLength(bytes) > |bytes| then []
    else
      var end := 5 + HeaderLength(bytes);
      [Frame(Some(bytes[0]), bytes[5..end])] + Walk(bytes[end..])
  }

  /** The four length bytes after the flag, most significant first. */
  method ReadLength(body: seq<Byte>, offset: nat) returns (length: nat)
    requires offset + 5 <= |body|
    ensures length == HeaderLength(body[offset..])
    ensures offset + 5 + length > |body| ==> Walk(body[offset..]) == []
    ensures offset + 5 + length <= |body| ==>
      Walk(body[offset..])
      == [Frame(Some(body[offset]), body[offset + 5..offset + 5 + length])] + Walk(body[offset + 5 + length..])
  {
    length := 0;
    ghost var header := body[offset..];
    for i := 1 to 5
      invariant length == ValueOf(header[1..i])
    {
      length := length * 0x100 + body[offset + i];
      assert header[1..i + 1] == header[1..i] + [body[offset + i]];
      assert header[1..i + 1][..i - 1] == header[1..i];
    }
    WalkStep(body, offset, offset + 5 + length);
  }

  ghost predicate Walked(body: seq<Byte>, offset: nat, frames: seq<Frame>) {
    offset <= |body| && Walk(body) == frames + Walk(body[offset..])
  }

  lemma WalkAdvances(body: seq<Byte>, offset: nat, frames: seq<Frame>, frame: Frame, end: nat)
    requires Walked(body, offset, frames) && end <= |body|
    requires Walk(body[offset..]) == [frame] + Walk(body[end..])
    ensures Walked(body, end, frames + [frame])
  {
    assert frames + ([frame] + Walk(body[end..])) == (frames + [frame]) + Walk(body[end..]);
  }

  lemma WalkEnds(body: seq<Byte>, offset: nat, frames: seq<Frame>)
    requires Walked(body, offset, frames) && Walk(body[offset..]) == []
    ensures frames == Walk(body)
  {
  }

  /** One turn of the walk; `end` is None when the frame is cut off. */
  method WalkTurn(body: seq<Byte>, offset: nat, ghost frames: seq<Frame>) returns (frame: Frame, end: Option<nat>)
    requires offset + 5 <= |body| && Walked(body, offset, frames)
    ensures end.Some? ==> offset < end.value && Walked(body, end.value, frames + [frame])
    ensures end.None? ==> frames == Walk(body)
  {
    var flag := body[offset];
    var length := ReadLength(body, offset);
    var start: nat, stop: nat := offset + 5, offset + 5 + length;
    if stop > |body| {
      WalkEnds(body, offset, frames);
      return Frame(Some(flag), []), None;
    }
    frame, end := Frame(Some(flag), body[start..stop]), Some(stop);
    WalkAdvances(body, offset, frames, frame, stop);
  }

  /** The Swift walk over a response body: 64-bit lengths, so it ends on every input. */
  method WalkFrames(body: seq<Byte>) returns (frames: seq<Frame>)
    ensures frames == Walk(body)
  {
    frames := [];
    var offset := 0;
    assert body[offset..] == body;
    while |body| - offset >= 5
      invariant Walked(body, offset, frames)
      decreases |body| - offset
    {
      var frame, end := WalkTurn(body, offset, frames);
      if end.None? {
        return;
      }
      frames := frames + [frame];
      offset := end.value;
    }
    WalkEnds(body, offset, frames);
  }

  /** The walk of a suffix, in positions of the whole. */
  lemma WalkStep(body: seq<Byte>, offset: nat, end: nat)
    requires offset + 5 <= |body| && end == offset + 5 + HeaderLength(body[offset..])
    ensures end > |body| ==> Walk(body[offset..]) == []
    ensures end <= |body| ==>
      Walk(body[offset..]) == [Frame(Some(body[offset]), body[offset + 5..end])] + Walk(body[end..])
  {
    var rest := body[offset..];
    if end <= |body| {
      assert rest[5..end - offset] == body[offset + 5..end];
      assert rest[end - offset..] == body[end..];
    }
  }

  lemma HeaderOfFramed(flag: Byte, body: seq<Byte>, rest: seq<Byte>)
    requires |body| < TWO_32
    ensures var all := FramedBody(flag, body) + rest;
            |all| >= 5 && all[0] == flag && all[1] == |body| / 0x100_0000 % 0x100 && HeaderLength(all) == |body|
  {
    LengthRoundTrip(|body|);
    FramedHead(flag, body, rest, BigEndian32(|body|));
  }

  lemma LengthRoundTrip(n: nat)
    requires n < TWO_32
    ensures ValueOf(BigEndian32(n)) == n && BigEndian32(n)[0] == n / 0x100_0000 % 0x100
  {
    BigEndianRoundTrip(n);
    assert n % TWO_32 == n;
  }

  lemma FramedHead(flag: Byte, body: seq<Byte>, rest: seq<Byte>, header: seq<Byte>)
    requires |header| == 4
    ensures var all := [flag] + header + body + rest;
            all[0] == flag && all[1] == header[0] && all[1..5] == header
  {
  }

  /** A whole frame in front of anything is taken whole. */
  lemma WalkTakesFrame(flag: Byte, body: seq<Byte>, rest: seq<Byte>)
    requires |body| < TWO_32
    ensures Walk(FramedBody(flag, body) + rest) == [Frame(Some(flag), body)] + Walk(rest)
  {
    HeaderOfFramed(flag, body, rest);
    var all := FramedBody(flag, body) + rest;
    assert all[5..5 + |body|] == body && all[5 + |body|..] == rest;
  }

  predicate Framable(frames: seq<Frame>, limit: nat) {
    forall f :: f in frames ==> f.flag.Some? && |f.data| < limit
  }

  lemma FramedAllStep(frames: seq<Frame>, tail: seq<Byte>)
    requires frames != [] && frames[0].flag.Some?
    ensures FramedAll(frames) + tail
         == FramedBody(frames[0].flag.value, frames[0].data) + (FramedAll(frames[1..]) + tail)
  {
  }

  /** Concatenated frames come back in order, and whatever follows them is walked by itself. */
  lemma {:induction false} WalkOfFramed(frames: seq<Frame>, tail: seq<Byte>)
    requires Framable(frames, TWO_32)
    ensures Walk(FramedAll(frames) + tail) == frames + Walk(tail)
    decreases |frames|
  {
    if frames == [] {
      assert FramedAll(frames) + tail == tail;
    } else {
      var first, rest := frames[0], FramedAll(frames[1..]) + tail;
      calc {
        Walk(FramedAll(frames) + tail);
        { FramedAllStep(frames, tail); }
        Walk(FramedBody(first.flag.value, first.data) + rest);
        { WalkTakesFrame(first.flag.value, first.data, rest); }
        [first] + Walk(rest);
        { WalkOfFramed(frames[1..], tail); }
        [first] + (frames[1..] + Walk(tail));
        frames + Walk(tail);
      }
    }
  }

  lemma TruncatedFrameIsDropped(flag: Byte, body: seq<Byte>, cut: nat)
    requires |body| < TWO_32 && cut < |FramedBody(flag, body)|
    ensures Walk(FramedBody(flag, body)[..cut]) == []
  {
    if cut >= 5 {
      HeaderOfFramed(flag, body, []);
      var all := FramedBody(flag, body) + [];
      var tail := FramedBody(flag, body)[..cut];
      assert tail[1..5] == all[1..5];
    }
  }

  /** A truncated frame at the end is dropped. */
  lemma TruncatedTailIsDropped(frames: seq<Frame>, flag: Byte, body: seq<Byte>, cut: nat)
    requires Framable(frames, TWO_32) && |body| < TWO_32 && cut < |FramedBody(flag, body)|
    ensures Walk(FramedAll(frames) + FramedBody(flag, body)[..cut]) == frames
  {
    WalkOfFramed(frames, FramedBody(flag, body)[..cut]);
    TruncatedFrameIsDropped(flag, body, cut);
  }

  // ----- The TypeScript loop -----

  /** The 32-bit result of shifting and or-ing the four bytes is signed. */
  function Signed32(n: nat): int {
    if n >= TWO_32 then Signed32(n - TWO_32) else if n >= TWO_31 then n - TWO_32 else n
  }

  /** An out-of-range element is undefined, which the bit operations read as 0. */
  function At(bytes: seq<Byte>, i: int): Byte {
    if 0 <= i < |bytes| then bytes[i] else 0
  }

  /** `slice` with its rules for negative and oversized positions. */
  function Slice(bytes: seq<Byte>, start: int, end: int): seq<Byte> {
    var a := if start < 0 then Max(|bytes| + start, 0) else Min(start, |bytes|);
    var b := if end < 0 then Max(|bytes| + end, 0) else Min(end, |bytes|);
    if a < b then bytes[a..b] else []
  }

  function LoopLength(bytes: seq<Byte>, offset: int): int {
    Signed32(ValueOf([At(bytes, offset + 1), At(bytes, offset + 2), At(bytes, offset + 3), At(bytes, offset + 4)]))
  }

  datatype LoopStep = Done | Next(frame: Frame, offset: int)

  /** One turn of `decodeEnvelopes`. */
  function DecodeStep(bytes: seq<Byte>, offset: int): LoopStep {
    if offset >= |bytes| || |bytes| - offset < 5 then Done
    else
      var len := LoopLength(bytes, offset);
      if offset + 5 + len > |bytes| then Done
      else
        Next(Frame(if offset >= 0 then Some(bytes[offset]) else None, Slice(bytes, offset + 5, offset + 5 + len)),
             offset + 5 + len)
  }

  /** At most `turns` turns of the loop; None when it has not ended by then. */
  function Decode(bytes: seq<Byte>, offset: int, turns: nat): Option<seq<Frame>>
    decreases turns
  {
    match DecodeStep(bytes, offset)
    case Done => Some([])
    case Next(frame, after) =>
      if turns == 0 then None
      else
        var rest := Decode(bytes, after, turns - 1);
        if rest.None? then None else Some([frame] + rest.value)
  }

  /** Every header the walk meets has its top length bit clear. */
  predicate TopBitsClear(bytes: seq<Byte>) {
    |bytes| < 5
    || (bytes[1] < 0x80
        && (5 + HeaderLength(bytes) > |bytes| || TopBitsClear(bytes[5 + HeaderLength(bytes)..])))
  }

  lemma TopBitDecidesSign(s: seq<Byte>)
    requires |s| == 4
    ensures Signed32(ValueOf(s)) == ValueOf(s) - (if s[0] < 0x80 then 0 else TWO_32)
  {
    ValueOfFour(s[0], s[1], s[2], s[3]);
    assert s == [s[0], s[1], s[2], s[3]];
  }

  // ----- Where the two readers agree -----

  /** A length with its top bit set is read as negative, 2^32 too small. */
  lemma LoopLengthWhenSet(bytes: seq<Byte>, offset: nat, end: int)
    requires offset + 5 <= |bytes| && bytes[offset + 1] >= 0x80
    requires end == offset + 5 + HeaderLength(bytes[offset..])
    ensures LoopLength(bytes, offset) == end - offset - 5 - TWO_32 < 0
    ensures end - offset - 5 >= TWO_31
  {
    var rest := bytes[offset..];
    TopBitDecidesSign(rest[1..5]);
    assert rest[1..5]
        == [At(bytes, offset + 1), At(bytes, offset + 2), At(bytes, offset + 3), At(bytes, offset + 4)];
    ValueOfFour(rest[1], rest[2], rest[3], rest[4]);
    assert rest[1..5] == [rest[1], rest[2], rest[3], rest[4]];
  }

  lemma LoopLengthIsBounded(bytes: seq<Byte>, offset: int)
    ensures -TWO_31 <= LoopLength(bytes, offset) < TWO_31
  {
    var a, b, c, d := At(bytes, offset + 1), At(bytes, offset + 2), At(bytes, offset + 3), At(bytes, offset + 4);
    ValueOfFour(a, b, c, d);
    TopBitDecidesSign([a, b, c, d]);
  }

  /** Such a frame always makes the loop take a turn, and the frame it takes is empty unless it steps before 0. */
  lemma NegativeTurn(bytes: seq<Byte>, offset: nat) returns (frame: Frame, stop: int)
    requires offset + 5 <= |bytes| && bytes[offset + 1] >= 0x80
    ensures DecodeStep(bytes, offset) == Next(frame, stop)
    ensures stop == offset + 5 + HeaderLength(bytes[offset..]) - TWO_32
    ensures stop >= 0 ==> frame.data == []
  {
    LoopLengthWhenSet(bytes, offset, offset + 5 + HeaderLength(bytes[offset..]));
    stop := offset + 5 + LoopLength(bytes, offset);
    frame := Frame(Some(bytes[offset]), Slice(bytes, offset + 5, stop));
  }

  /** Before the start of a body longer than any signed length, the loop takes a frame without a flag. */
  lemma BeforeStart(bytes: seq<Byte>, offset: int) returns (step: LoopStep)
    requires offset < 0 && |bytes| >= TWO_31 + 5
    ensures DecodeStep(bytes, offset) == step && step.Next? && step.frame.flag == None
  {
    LoopLengthIsBounded(bytes, offset);
    step := DecodeStep(bytes, offset);
  }

  lemma {:induction false} WalkFlags(bytes: seq<Byte>)
    ensures forall f :: f in Walk(bytes) ==> f.flag.Some?
    decreases |bytes|
  {
    if |bytes| >= 5 && 5 + HeaderLength(bytes) <= |bytes| {
      WalkFlags(bytes[5 + HeaderLength(bytes)..]);
    }
  }

  function Prepend(frame: Frame, rest: Option<seq<Frame>>): Option<seq<Frame>> {
    if rest.None? then None else Some([frame] + rest.value)
  }

  lemma PrependIsInjective(frame: Frame, rest: Option<seq<Frame>>, walked: seq<Frame>)
    ensures Prepend(frame, rest) == Some([frame] + walked) <==> rest == Some(walked)
  {
    if rest.Some? {
      assert ([frame] + rest.value)[1..] == rest.value && ([frame] + walked)[1..] == walked;
    }
  }

  lemma DecodeUnfolds(bytes: seq<Byte>, offset: int, turns: nat, frame: Frame, after: int)
    requires DecodeStep(bytes, offset) == Next(frame, after)
    ensures Decode(bytes, offset, turns) == if turns == 0 then None else Prepend(frame, Decode(bytes, after, turns - 1))
  {
  }

  lemma DecodeDone(bytes: seq<Byte>, offset: int, turns: nat)
    requires DecodeStep(bytes, offset) == Done
    ensures Decode(bytes, offset, turns) == Some([])
  {
  }

  /** Fewer than five bytes left. */
  lemma ShortTurn(bytes: seq<Byte>, offset: nat, turns: nat)
    requires offset <= |bytes| < offset + 5
    ensures Decode(bytes, offset, turns) == Some([]) && Walk(bytes[offset..]) == [] && TopBitsClear(bytes[offset..])
  {
  }

  /** One header with its top bit clear, whatever comes later: both readers do the same with it. */
  lemma ClearTurn(bytes: seq<Byte>, offset: nat, turns: nat) returns (frame: Frame, end: nat)
    requires offset + 5 <= |bytes| && bytes[offset + 1] < 0x80 && turns > 0
    ensures end > offset
    ensures end > |bytes| ==>
      Decode(bytes, offset, turns) == Some([]) && Walk(bytes[offset..]) == [] && TopBitsClear(bytes[offset..])
    ensures end <= |bytes| ==>
      && Decode(bytes, offset, turns) == Prepend(frame, Decode(bytes, end, turns - 1))
      && Walk(bytes[offset..]) == [frame] + Walk(bytes[end..])
      && (TopBitsClear(bytes[offset..]) <==> TopBitsClear(bytes[end..]))
  {
    end := offset + 5 + HeaderLength(bytes[offset..]);
    LoopLengthWhenClear(bytes, offset, end);
    WalkStep(bytes, offset, end);
    if end <= |bytes| {
      frame := Frame(Some(bytes[offset]), bytes[offset + 5..end]);
      ClearStep(bytes, offset, end);
      DecodeUnfolds(bytes, offset, turns, frame, end);
      assert bytes[offset..][end - offset..] == bytes[end..];
    } else {
      frame := Frame(None, []);
      DecodeDone(bytes, offset, turns);
    }
  }

  /** One turn of the loop where the header at `offset` has its top bit clear. */
  lemma LoopLengthWhenClear(bytes: seq<Byte>, offset: nat, end: nat)
    requires offset + 5 <= |bytes| && bytes[offset + 1] < 0x80
    requires end == offset + 5 + HeaderLength(bytes[offset..])
    ensures LoopLength(bytes, offset) == end - offset - 5
  {
    var rest := bytes[offset..];
    TopBitDecidesSign(rest[1..5]);
    assert rest[1..5]
        == [At(bytes, offset + 1), At(bytes, offset + 2), At(bytes, offset + 3), At(bytes, offset + 4)];
  }

  lemma ClearStep(bytes: seq<Byte>, offset: nat, end: nat)
    requires offset + 5 <= end <= |bytes| && LoopLength(bytes, offset) == end - offset - 5
    ensures DecodeStep(bytes, offset) == Next(Frame(Some(bytes[offset]), bytes[offset + 5..end]), end)
  {
  }

  /** Past a header with its top bit set the two readers never agree, however many turns the loop is given. */
  lemma SetTurn(bytes: seq<Byte>, offset: nat, turns: nat)
    requires offset + 5 <= |bytes| && bytes[offset + 1] >= 0x80
    ensures Decode(bytes, offset, turns) != Some(Walk(bytes[offset..])) && !TopBitsClear(bytes[offset..])
  {
    var frame, stop := NegativeTurn(bytes, offset);
    LoopLengthWhenSet(bytes, offset, stop + TWO_32);
    DecodeUnfolds(bytes, offset, turns, frame, stop);
    WalkStep(bytes, offset, stop + TWO_32);
    if turns > 0 && stop + TWO_32 <= |bytes| {
      LongFrameDisagrees(bytes, offset, turns, frame, stop);
    }
  }

  lemma LongFrameDisagrees(bytes: seq<Byte>, offset: nat, turns: nat, frame: Frame, stop: int)
    requires offset + 5 + TWO_31 <= stop + TWO_32 <= |bytes| && turns > 0
    requires stop >= 0 ==> frame.data == []
    ensures Prepend(frame, Decode(bytes, stop, turns - 1))
         != Some([Frame(Some(bytes[offset]), bytes[offset + 5..stop + TWO_32])] + Walk(bytes[stop + TWO_32..]))
  {
    var longFrame := Frame(Some(bytes[offset]), bytes[offset + 5..stop + TWO_32]);
    assert |longFrame.data| >= TWO_31;
    if frame == longFrame {
      var second := BeforeStart(bytes, stop);
      DecodeUnfolds(bytes, stop, turns - 1, second.frame, second.offset);
      WalkFlags(bytes[stop + TWO_32..]);
      PrependIsInjective(frame, Decode(bytes, stop, turns - 1), Walk(bytes[stop + TWO_32..]));
      FlaglessIsNoWalk(second.frame, Decode(bytes, stop, turns - 1), Walk(bytes[stop + TWO_32..]));
    } else {
      HeadsDiffer(frame, longFrame, Decode(bytes, stop, turns - 1), Walk(bytes[stop + TWO_32..]));
    }
  }

  lemma HeadsDiffer(a: Frame, b: Frame, decoded: Option<seq<Frame>>, walked: seq<Frame>)
    requires a != b
    ensures Prepend(a, decoded) != Some([b] + walked)
  {
    if decoded.Some? {
      assert ([a] + decoded.value)[0] != ([b] + walked)[0];
    }
  }

  lemma FlaglessIsNoWalk(frame: Frame, decoded: Option<seq<Frame>>, walked: seq<Frame>)
    requires frame.flag == None && forall f :: f in walked ==> f.flag.Some?
    requires decoded.Some? ==> decoded.value != [] && decoded.value[0] == frame
    ensures decoded != Some(walked)
  {
  }

  /** The three things the readers give at one position: the loop's result, the walk's, and the bits. */
  datatype Both = Both(decoded: Option<seq<Frame>>, walked: seq<Frame>, clear: bool)

  function BothAt(bytes: seq<Byte>, offset: nat, turns: nat): Both
    requires offset <= |bytes|
  {
    Both(Decode(bytes, offset, turns), Walk(bytes[offset..]), TopBitsClear(bytes[offset..]))
  }

  /** Either this turn decides, or both readers take the same frame and go on at `end`. */
  lemma TurnDecides(bytes: seq<Byte>, offset: nat, turns: nat, here: Both)
    returns (end: Option<nat>, frame: Frame, next: Both)
    requires offset <= |bytes| && turns >= |bytes| - offset && here == BothAt(bytes, offset, turns)
    ensures end.None? ==> (here.decoded == Some(here.walked) <==> here.clear)
    ensures end.Some? ==>
      && offset < end.value <= |bytes| && turns > 0 && next == BothAt(bytes, end.value, turns - 1)
      && here == Both(Prepend(frame, next.decoded), [frame] + next.walked, next.clear)
  {
    end, frame, next := None, Frame(None, []), here;
    if |bytes| - offset < 5 {
      ShortTurn(bytes, offset, turns);
    } else if bytes[offset + 1] >= 0x80 {
      SetTurn(bytes, offset, turns);
    } else {
      var taken, stop := ClearTurn(bytes, offset, turns);
      if stop <= |bytes| {
        end, frame, next := Some(stop), taken, BothAt(bytes, stop, turns - 1);
      }
    }
  }

  lemma {:induction false} AgreesIff(bytes: seq<Byte>, offset: nat, turns: nat, here: Both)
    requires offset <= |bytes| && turns >= |bytes| - offset && here == BothAt(bytes, offset, turns)
    ensures here.decoded == Some(here.walked) <==> here.clear
    decreases |bytes| - offset
  {
    var end, frame, next := TurnDecides(bytes, offset, turns, here);
    if end.Some? {
      AgreesIff(bytes, end.value, turns - 1, next);
      PrependIsInjective(frame, next.decoded, next.walked);
    }
  }

  /**
   The exact condition: given enough turns, `decodeEnvelopes` returns what the unsigned walk finds if and only if
   every header the walk meets has its top length bit clear. On every other body it fails to end or returns
   something else.
   */
  lemma DecodeIsWalkIff(bytes: seq<Byte>, offset: nat, turns: nat)
    requires offset <= |bytes| && turns >= |bytes| - offset
    ensures Decode(bytes, offset, turns) == Some(Walk(bytes[offset..])) <==> TopBitsClear(bytes[offset..])
  {
    AgreesIff(bytes, offset, turns, BothAt(bytes, offset, turns));
  }

  /** On frames written by `frameGrpcWeb` (below 2^31 bytes each) the top bits are clear. */
  lemma {:induction false} FramedHasTopBitsClear(frames: seq<Frame>)
    requires Framable(frames, TWO_31)
    ensures TopBitsClear(FramedAll(frames))
    decreases |frames|
  {
    if frames != [] {
      var flag, body, rest := frames[0].flag.value, frames[0].data, FramedAll(frames[1..]);
      HeaderOfFramed(flag, body, rest);
      assert (FramedBody(flag, body) + rest)[5 + |body|..] == rest;
      FramedHasTopBitsClear(frames[1..]);
    }
  }

  /** `decodeEnvelopes` undoes concatenated `frameGrpcWeb` outputs, in order. */
  lemma DecodeOfFramed(frames: seq<Frame>)
    requires Framable(frames, TWO_31)
    ensures Decode(FramedAll(frames), 0, |FramedAll(frames)|) == Some(frames)
  {
    var all := FramedAll(frames);
    FramedHasTopBitsClear(frames);
    assert all[0..] == all;
    DecodeIsWalkIff(all, 0, |all|);
    WalkOfFramed(frames, []);
    assert all + [] == all && frames + Walk([]) == frames;
  }

  /** Wherever the length at `offset` reads as -5 the loop stays in place: no number of turns ends it. */
  lemma {:induction false} SignedLengthCanStall(bytes: seq<Byte>, offset: int, turns: nat)
    requires offset + 5 <= |bytes| && LoopLength(bytes, offset) == -5
    ensures Decode(bytes, offset, turns) == None
    decreases turns
  {
    assert DecodeStep(bytes, offset).Next? && DecodeStep(bytes, offset).offset == offset;
    if turns > 0 {
      SignedLengthCanStall(bytes, offset, turns - 1);
    }
  }

  /** Five bytes are enough for that. */
  lemma FiveBytesStall(flag: Byte, turns: nat)
    ensures Decode([flag, 0xFF, 0xFF, 0xFF, 0xFB], 0, turns) == None
  {
    var bytes: seq<Byte> := [flag, 0xFF, 0xFF, 0xFF, 0xFB];
    ValueOfFour(0xFF, 0xFF, 0xFF, 0xFB);
    SignedLengthCanStall(bytes, 0, turns);
  }

  /**
   The loop, on every body, for as many turns as the caller cares to wait: None while it has not ended. With the
   top bits clear it ends within |bytes| turns with what the unsigned walk finds.
   */
  method DecodeEnvelopes(bytes: seq<Byte>, turns: nat) returns (out: Option<seq<Frame>>)
    ensures out == Decode(bytes, 0, turns)
    ensures TopBitsClear(bytes) && turns >= |bytes| ==> out == Some(Walk(bytes))
  {
    WholeBodyIsWalk(bytes, turns);
    var frames: seq<Frame> := [];
    var offset, left := 0, turns;
    ghost var whole := Decode(bytes, 0, turns);
    StartsWhole(whole);
    while offset < |bytes|
      invariant Resumes(whole, frames, Decode(bytes, offset, left))
      decreases left
    {
      var step := DecodeTurn(bytes, offset);
      if step.Done? {
        break;
      }
      ResumesNext(whole, frames, bytes, offset, left, step);
      if left == 0 {
        return None;
      }
      frames, offset, left := frames + [step.frame], step.offset, left - 1;
    }
    ResumesEnd(whole, frames, bytes, offset, left);
    out := Some(frames);
  }

  lemma WholeBodyIsWalk(bytes: seq<Byte>, turns: nat)
    ensures TopBitsClear(bytes) && turns >= |bytes| ==> Decode(bytes, 0, turns) == Some(Walk(bytes))
  {
    assert bytes[0..] == bytes;
    if turns >= |bytes| {
      DecodeIsWalkIff(bytes, 0, turns);
    }
  }

  /** The body of the loop, at any offset inside the body or before its start. */
  method DecodeTurn(bytes: seq<Byte>, offset: int) returns (step: LoopStep)
    requires offset < |bytes|
    ensures step == DecodeStep(bytes, offset)
  {
    if |bytes| - offset < 5 {
      return Done;
    }
    var flag := if offset >= 0 then Some(bytes[offset]) else None;
    var len := LoopLength(bytes, offset);
    var start := offset + 5;
    if start + len > |bytes| {
      return Done;
    }
    step := Next(Frame(flag, Slice(bytes, start, start + len)), start + len);
  }

  /** The whole result is the frames taken so far and then whatever the rest of the loop gives. */
  predicate Resumes(whole: Option<seq<Frame>>, frames: seq<Frame>, rest: Option<seq<Frame>>) {
    whole == if rest.None? then None else Some(frames + rest.value)
  }

  lemma StartsWhole(whole: Option<seq<Frame>>)
    ensures Resumes(whole, [], whole)
  {
    if whole.Some? {
      assert [] + whole.value == whole.value;
    }
  }

  lemma ResumesNext(
    whole: Option<seq<Frame>>, frames: seq<Frame>, bytes: seq<Byte>, offset: int, left: nat, step: LoopStep)
    requires Resumes(whole, frames, Decode(bytes, offset, left)) && step == DecodeStep(bytes, offset) && step.Next?
    ensures left == 0 ==> whole == None
    ensures left > 0 ==> Resumes(whole, frames + [step.frame], Decode(bytes, step.offset, left - 1))
  {
    DecodeUnfolds(bytes, offset, left, step.frame, step.offset);
    if left > 0 && Decode(bytes, step.offset, left - 1).Some? {
      var rest := Decode(bytes, step.offset, left - 1).value;
      assert frames + ([step.frame] + rest) == (frames + [step.frame]) + rest;
    }
  }

  lemma ResumesEnd(whole: Option<seq<Frame>>, frames: seq<Frame>, bytes: seq<Byte>, offset: int, left: nat)
    requires Resumes(whole, frames, Decode(bytes, offset, left)) && DecodeStep(bytes, offset) == Done
    ensures whole == Some(frames)
  {
    DecodeDone(bytes, offset, left);
    assert frames + [] == frames;
  }
}
