/** Unsigned 64-bit varints (ios/SinchPushSocket/FrameCodec.swift and ReportWire.swift). */
module Varint {
  import opened Common

  const MAX_BYTES := 10
  const TWO_63: int := 0x8000_0000_0000_0000
  const TWO_64: int := 0x1_0000_0000_0000_0000

  // ----- Meaning -----

  /** The little-endian base-128 number the low seven bits of each byte spell. */
  function Base128(bytes: seq<Byte>): nat {
    if bytes == [] then 0 else bytes[0] % 0x80 + 0x80 * Base128(bytes[1..])
  }

  /** The minimal encoding. */
  function Canonical(v: nat): (s: seq<Byte>)
    ensures |s| >= 1
  {
    if v < 0x80 then [v] else [v % 0x80 + 0x80] + Canonical(v / 0x80)
  }

  /** How many bytes with the continuation bit lead. */
  function Continuations(bytes: seq<Byte>): (n: nat)
    ensures n <= |bytes|
    ensures forall k :: 0 <= k < n ==> bytes[k] >= 0x80
    ensures n < |bytes| ==> bytes[n] < 0x80
  {
    if bytes == [] || bytes[0] < 0x80 then 0 else 1 + Continuations(bytes[1..])
  }

  datatype VarintError = Unterminated(after: nat) | Overflow

  datatype Reading = Reading(value: nat, width: nat)

  /**
   What reading must give: the value up to the terminator, which has to be there, within ten bytes, and
   must not carry more than the one bit left at shift 63.
   */
  function Read(bytes: seq<Byte>): Result<Reading, VarintError> {
    var n := Continuations(bytes);
    if n >= MAX_BYTES then Err(Overflow)
    else if n == |bytes| then Err(Unterminated(n))
    else if n == MAX_BYTES - 1 && bytes[n] > 1 then Err(Overflow)
    else Ok(Reading(Base128(bytes[..n + 1]), n + 1))
  }

  function Pow128(k: nat): nat {
    if k == 0 then 1 else 0x80 * Pow128(k - 1)
  }

  lemma Pow128Constants()
    ensures Pow128(9) == TWO_63 && Pow128(10) == 0x80 * TWO_63
  {
    assert Pow128(3) == 0x20_0000;
    assert Pow128(6) == 0x400_0000_0000;
  }

  lemma {:induction false} Pow128Monotone(i: nat, j: nat)
    requires i <= j
    ensures 1 <= Pow128(i) <= Pow128(j)
    decreases j
  {
    if i < j {
      Pow128Monotone(i, j - 1);
    } else if i > 0 {
      Pow128Monotone(i - 1, j - 1);
    }
  }

  lemma ScaleBound(x: nat, bound: nat, p: nat)
    requires x <= bound
    ensures x * p <= bound * p
  {
  }

  lemma {:induction false} Base128IsBounded(bytes: seq<Byte>)
    ensures Base128(bytes) < Pow128(|bytes|)
    decreases |bytes|
  {
    if bytes != [] {
      Base128IsBounded(bytes[1..]);
    }
  }

  lemma Distribute(p: nat, x: nat, y: nat)
    ensures 0x80 * (y + p * x) == 0x80 * y + (0x80 * p) * x
  {
    assert 0x80 * (p * x) == (0x80 * p) * x;
  }

  lemma {:induction false} Base128OfAppend(a: seq<Byte>, b: seq<Byte>)
    ensures Base128(a + b) == Base128(a) + Pow128(|a|) * Base128(b)
    decreases |a|
  {
    if a == [] {
      assert a + b == b;
    } else {
      Base128OfAppend(a[1..], b);
      assert (a + b)[1..] == a[1..] + b;
      Distribute(Pow128(|a| - 1), Base128(b), Base128(a[1..]));
    }
  }

  /** The value at each point of the loop, one more byte read. */
  lemma Base128Snoc(bytes: seq<Byte>, n: nat)
    requires n < |bytes|
    ensures Base128(bytes[..n + 1]) == Base128(bytes[..n]) + bytes[n] % 0x80 * Pow128(n)
  {
    assert bytes[..n + 1] == bytes[..n] + [bytes[n]];
    Base128OfAppend(bytes[..n], [bytes[n]]);
    assert Base128([bytes[n]]) == bytes[n] % 0x80;
  }

  /** Nothing the loop shifts or adds reaches 2^64. */
  lemma NoBitIsLost(bytes: seq<Byte>, n: nat)
    requires n < |bytes| && n < MAX_BYTES
    requires n == MAX_BYTES - 1 ==> bytes[n] <= 1
    ensures bytes[n] % 0x80 * Pow128(n) < TWO_64
    ensures Base128(bytes[..n + 1]) == Base128(bytes[..n]) + bytes[n] % 0x80 * Pow128(n) < TWO_64
  {
    Base128Snoc(bytes, n);
    Base128IsBounded(bytes[..n + 1]);
    Base128IsBounded(bytes[..n]);
    Pow128Constants();
    if n < 9 {
      Pow128Monotone(n + 1, 9);
    } else {
      ScaleBound(bytes[n] % 0x80, 1, Pow128(9));
    }
  }

  lemma ContinuationsByIndex(bytes: seq<Byte>, n: nat)
    requires n <= |bytes| && forall k :: 0 <= k < n ==> bytes[k] >= 0x80
    ensures Continuations(bytes) >= n
    ensures n < |bytes| && bytes[n] < 0x80 ==> Continuations(bytes) == n
  {
  }

  // ----- The loops -----

  /** `UInt64(group) << (7 * index)`: bits shifted past 63 would be lost. */
  function Shifted(group: nat, index: nat): nat {
    group * Pow128(index) % TWO_64
  }

  /** What the loop decides at byte `index`, all bytes before it continuing. */
  lemma ReadAt(bytes: seq<Byte>, index: nat)
    requires index < MAX_BYTES && index <= |bytes| && forall k :: 0 <= k < index ==> bytes[k] >= 0x80
    ensures index == |bytes| ==> Read(bytes) == Err(Unterminated(index))
    ensures index < |bytes| && index == MAX_BYTES - 1 && bytes[index] > 1 ==> Read(bytes) == Err(Overflow)
    ensures index < |bytes| && bytes[index] < 0x80 && (index == MAX_BYTES - 1 ==> bytes[index] <= 1) ==>
              Read(bytes) == Ok(Reading(Base128(bytes[..index + 1]), index + 1))
  {
    ContinuationsByIndex(bytes, index);
    if index < |bytes| && bytes[index] >= 0x80 {
      ContinuationsByIndex(bytes, index + 1);
    }
  }

  lemma StepIsExact(bytes: seq<Byte>, index: nat, value: nat)
    requires index < |bytes| && index < MAX_BYTES && (index == MAX_BYTES - 1 ==> bytes[index] <= 1)
    requires value == Base128(bytes[..index])
    ensures (value + Shifted(bytes[index] % 0x80, index)) % TWO_64 == Base128(bytes[..index + 1])
  {
    NoBitIsLost(bytes, index);
  }

  /**
   Reads a varint at `offset`. `value |= group << shift` is written as addition modulo 2^64: the groups
   occupy disjoint bits.
   */
  method ReadVarint(bytes: seq<Byte>, offset: nat) returns (r: Result<Reading, VarintError>)
    requires offset <= |bytes|
    ensures r == Read(bytes[offset..])
  {
    ghost var rest := bytes[offset..];
    var value: nat := 0;
    for index := 0 to MAX_BYTES
      invariant index <= |rest| && forall k :: 0 <= k < index ==> rest[k] >= 0x80
      invariant index == MAX_BYTES ==> rest[MAX_BYTES - 1] <= 1
      invariant value == Base128(rest[..index])
    {
      ReadAt(rest, index);
      if offset + index >= |bytes| {
        return Err(Unterminated(index));
      }
      var byte := bytes[offset + index];
      assert byte == rest[index];
      if index == MAX_BYTES - 1 && byte > 0x01 {
        return Err(Overflow);
      }
      StepIsExact(rest, index, value);
      value := (value + Shifted(byte % 0x80, index)) % TWO_64;
      if byte < 0x80 {
        return Ok(Reading(value, index + 1));
      }
    }
    // The tenth byte was at most 1, so it ended the loop: the last throw of the source is unreachable.
    assert false;
  }

  /** Bytes an unsigned varint of `value` occupies. */
  method VarintWidth(value: nat) returns (width: nat)
    ensures width == |Canonical(value)|
  {
    width := 1;
    var rest: nat := value / 0x80;
    while rest != 0
      invariant |Canonical(value)| == if rest == 0 then width else width + |Canonical(rest)|
      decreases rest
    {
      width := width + 1;
      rest := rest / 0x80;
    }
  }

  /** Appends the minimal encoding. */
  method AppendCanonicalVarint(value: nat, data: seq<Byte>) returns (r: seq<Byte>)
    ensures r == data + Canonical(value)
  {
    r := data;
    var rest: nat := value;
    while rest >= 0x80
      invariant r + Canonical(rest) == data + Canonical(value)
    {
      r := r + [rest % 0x80 + 0x80];
      rest := rest / 0x80;
    }
    r := r + [rest];
  }

  // ----- What they promise -----

  /** Reading succeeds exactly when a terminator lies within ten bytes and a tenth byte is at most 1. */
  lemma ReadSucceedsIff(bytes: seq<Byte>)
    ensures Read(bytes).Ok? <==>
              exists n :: 0 <= n < 10 && n < |bytes| && bytes[n] < 0x80
                          && (forall k :: 0 <= k < n ==> bytes[k] >= 0x80)
                          && (n == 9 ==> bytes[n] <= 1)
    ensures Read(bytes).Ok? ==> Read(bytes).value.value < TWO_64
  {
    forall n | 0 <= n < MAX_BYTES && n < |bytes| && bytes[n] < 0x80 && (forall k :: 0 <= k < n ==> bytes[k] >= 0x80)
      ensures Continuations(bytes) == n
    {
      ContinuationsByIndex(bytes, n);
    }
    if Read(bytes).Ok? {
      NoBitIsLost(bytes, Continuations(bytes));
    }
  }

  lemma {:induction false} CanonicalDigits(v: nat)
    ensures var s := Canonical(v);
            && Base128(s) == v
            && (forall k :: 0 <= k < |s| - 1 ==> s[k] >= 0x80)
            && s[|s| - 1] < 0x80
    decreases v
  {
    if v >= 0x80 {
      CanonicalDigits(v / 0x80);
      var t := Canonical(v / 0x80);
      var low: Byte := v % 0x80 + 0x80;
      var s := [low] + t;
      assert s[1..] == t && Canonical(v) == s;
      assert low % 0x80 == v % 0x80;
    }
  }

  lemma {:induction false} CanonicalBounds(v: nat)
    ensures v < Pow128(|Canonical(v)|)
    ensures |Canonical(v)| > 1 ==> Pow128(|Canonical(v)| - 1) <= v
    decreases v
  {
    if v >= 0x80 {
      CanonicalBounds(v / 0x80);
    }
  }

  /** The last byte carries what the bytes before it leave over. */
  lemma CanonicalLast(v: nat)
    ensures var s := Canonical(v); v == Base128(s[..|s| - 1]) + s[|s| - 1] * Pow128(|s| - 1)
  {
    CanonicalDigits(v);
    var s := Canonical(v);
    Base128Snoc(s, |s| - 1);
    assert s[..|s| - 1 + 1] == s;
  }

  lemma CanonicalWidthFits(v: nat)
    requires v < TWO_64
    ensures |Canonical(v)| <= 10
  {
    CanonicalBounds(v);
    Pow128Constants();
    Pow128Monotone(Min(MAX_BYTES, |Canonical(v)| - 1), |Canonical(v)| - 1);
  }

  /** A value below 2^64 needs at most ten bytes, and a tenth is at most 1. */
  lemma CanonicalFits(v: nat)
    requires v < TWO_64
    ensures |Canonical(v)| <= 10
    ensures |Canonical(v)| == MAX_BYTES ==> Canonical(v)[MAX_BYTES - 1] <= 1
  {
    CanonicalWidthFits(v);
    if |Canonical(v)| == MAX_BYTES {
      CanonicalLast(v);
      Pow128Constants();
    }
  }

  /** Reading undoes writing, whatever follows. */
  lemma ReadOfCanonical(v: nat, rest: seq<Byte>)
    requires v < TWO_64
    ensures Read(Canonical(v) + rest) == Ok(Reading(v, |Canonical(v)|))
  {
    CanonicalDigits(v);
    CanonicalFits(v);
    var s := Canonical(v);
    ContinuationsByIndex(s + rest, |s| - 1);
    assert (s + rest)[..|s|] == s;
  }

  /** No accepted encoding of a value is narrower than the canonical one. */
  lemma CanonicalIsMinimal(bytes: seq<Byte>)
    requires Read(bytes).Ok?
    ensures |Canonical(Read(bytes).value.value)| <= Read(bytes).value.width
  {
    var r := Read(bytes).value;
    Base128IsBounded(bytes[..r.width]);
    CanonicalBounds(r.value);
    if |Canonical(r.value)| > r.width {
      Pow128Monotone(r.width, |Canonical(r.value)| - 1);
    }
  }

  function Zeros(n: nat): seq<Byte> {
    if n == 0 then [] else [0x80] + Zeros(n - 1)
  }

  /** The canonical encoding widened to `width` bytes: its last byte continues into zero groups. */
  function Padded(v: nat, width: nat): seq<Byte>
    requires |Canonical(v)| < width && Canonical(v)[|Canonical(v)| - 1] < 0x80
  {
    var s := Canonical(v);
    s[..|s| - 1] + [s[|s| - 1] + 0x80] + Zeros(width - |s| - 1) + [0]
  }

  lemma {:induction false} ZerosAreZero(n: nat)
    ensures |Zeros(n)| == n && Base128(Zeros(n) + [0]) == 0
    ensures forall k :: 0 <= k < n ==> Zeros(n)[k] == 0x80
    decreases n
  {
    if n == 0 {
      assert Zeros(0) + [0] == [0];
    } else {
      ZerosAreZero(n - 1);
      assert (Zeros(n) + [0])[1..] == Zeros(n - 1) + [0];
    }
  }

  lemma PaddedShape(v: nat, width: nat)
    requires |Canonical(v)| < width && Canonical(v)[|Canonical(v)| - 1] < 0x80
    ensures var p := Padded(v, width);
            |p| == width && p[width - 1] == 0 && forall k :: 0 <= k < width - 1 ==> p[k] >= 0x80
  {
    CanonicalDigits(v);
    ZerosAreZero(width - |Canonical(v)| - 1);
  }

  /** Setting the continuation bit of the last byte does not change the value. */
  lemma ContinuedValue(v: nat)
    requires Canonical(v)[|Canonical(v)| - 1] < 0x80
    ensures var s := Canonical(v); Base128(s[..|s| - 1] + [s[|s| - 1] + 0x80]) == v
  {
    var s := Canonical(v);
    CanonicalDigits(v);
    assert s == s[..|s| - 1] + [s[|s| - 1]];
    ContinuationIsNoDigit(s[..|s| - 1], s[|s| - 1]);
  }

  lemma ContinuationIsNoDigit(front: seq<Byte>, last: Byte)
    requires last < 0x80
    ensures Base128(front + [last + 0x80]) == Base128(front + [last])
  {
    Base128OfAppend(front, [last + 0x80]);
    Base128OfAppend(front, [last]);
    assert Base128([last + 0x80]) == last == Base128([last]);
  }

  lemma PaddedValue(v: nat, width: nat)
    requires |Canonical(v)| < width && Canonical(v)[|Canonical(v)| - 1] < 0x80
    ensures Base128(Padded(v, width)) == v
  {
    var s := Canonical(v);
    var head := s[..|s| - 1] + [s[|s| - 1] + 0x80];
    var tail := Zeros(width - |s| - 1) + [0];
    ContinuedValue(v);
    ZerosAreZero(width - |s| - 1);
    calc {
      Base128(Padded(v, width));
      { assert Padded(v, width) == head + tail; }
      Base128(head + tail);
      { Base128OfAppend(head, tail); }
      v + Pow128(|head|) * 0;
      v;
    }
  }

  /** Every zero-group padding up to ten bytes reads as the same value. */
  lemma PaddingKeepsValue(v: nat, width: nat, rest: seq<Byte>)
    requires |Canonical(v)| < width <= MAX_BYTES && Canonical(v)[|Canonical(v)| - 1] < 0x80
    ensures Read(Padded(v, width) + rest) == Ok(Reading(v, width))
  {
    PaddedShape(v, width);
    PaddedValue(v, width);
    var p := Padded(v, width);
    assert (p + rest)[..width] == p;
    ReadAt(p + rest, width - 1);
  }
}
