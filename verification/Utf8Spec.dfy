/**
 UTF-8 by its public definitions: Tables 3-6 and 3-7 and the maximal subpart of section 3.9 of the Unicode
 Standard, and the byte-at-a-time decoder of section 8.1.1 of the WHATWG Encoding Standard.
 */
module Utf8Spec {
  import opened Common

  /** A UTF-16 code unit, as JavaScript strings have them. */
  type Unit = u: int | 0 <= u < 0x10000

  const REPLACEMENT: Unit := 0xFFFD

  predicate IsContinuation(b: Byte) { 0x80 <= b <= 0xBF }

  predicate IsScalar(v: int) {
    0 <= v <= 0x10FFFF && !(0xD800 <= v <= 0xDFFF)
  }

  // ----- Table 3-7: well-formed byte sequences -----

  /** The second byte a lead byte of three or four bytes admits. */
  predicate SecondFits(lead: Byte, second: Byte) {
    (if lead == 0xE0 then 0xA0 else if lead == 0xF0 then 0x90 else 0x80)
    <= second <=
    (if lead == 0xED then 0x9F else if lead == 0xF4 then 0x8F else 0xBF)
  }

  /** `s` is one row of the table. */
  predicate IsSequence(s: seq<Byte>) {
    if |s| == 1 then s[0] <= 0x7F
    else if |s| == 2 then 0xC2 <= s[0] <= 0xDF && IsContinuation(s[1])
    else if |s| == 3 then 0xE0 <= s[0] <= 0xEF && SecondFits(s[0], s[1]) && IsContinuation(s[2])
    else |s| == 4 && 0xF0 <= s[0] <= 0xF4 && SecondFits(s[0], s[1]) && IsContinuation(s[2]) && IsContinuation(s[3])
  }

  /** The length of the sequence `bytes` begins with, or 0. */
  function PrefixLength(bytes: seq<Byte>): (n: nat)
    ensures n <= 4 && n <= |bytes|
    ensures n > 0 ==> IsSequence(bytes[..n])
  {
    if bytes == [] then 0
    else if bytes[0] <= 0x7F then 1
    else if 0xC2 <= bytes[0] <= 0xDF then
      if |bytes| >= 2 && IsContinuation(bytes[1]) then 2 else 0
    else if 0xE0 <= bytes[0] <= 0xEF then
      if |bytes| >= 3 && SecondFits(bytes[0], bytes[1]) && IsContinuation(bytes[2]) then 3 else 0
    else if 0xF0 <= bytes[0] <= 0xF4 then
      if |bytes| >= 4 && SecondFits(bytes[0], bytes[1]) && IsContinuation(bytes[2]) && IsContinuation(bytes[3])
      then 4 else 0
    else 0
  }

  /** No row of the table is the beginning of another, so the length is unique. */
  lemma PrefixLengthIsUnique(bytes: seq<Byte>, n: nat)
    requires 0 < n <= |bytes| && IsSequence(bytes[..n])
    ensures PrefixLength(bytes) == n
  {
    SliceHeads(bytes);
  }

  lemma SliceHeads(bytes: seq<Byte>)
    ensures forall k, j :: 0 <= j < k <= |bytes| && j < 4 ==> bytes[..k][j] == bytes[j]
  {
  }

  /** A concatenation of rows of the table. */
  predicate WellFormed(bytes: seq<Byte>) {
    bytes == [] || (PrefixLength(bytes) > 0 && WellFormed(bytes[PrefixLength(bytes)..]))
  }

  // ----- Table 3-6: bit distribution -----

  function EncodeScalar(v: int): (s: seq<Byte>)
    requires 0 <= v <= 0x10FFFF
  {
    if v < 0x80 then [v]
    else if v < 0x800 then [0xC0 + v / 0x40, 0x80 + v % 0x40]
    else if v < 0x10000 then [0xE0 + v / 0x1000, 0x80 + v / 0x40 % 0x40, 0x80 + v % 0x40]
    else [0xF0 + v / 0x40000, 0x80 + v / 0x1000 % 0x40, 0x80 + v / 0x40 % 0x40, 0x80 + v % 0x40]
  }

  /** The value of the first `n` bytes, which form a sequence. */
  function Value(s: seq<Byte>, n: nat): int
    requires 1 <= n <= 4 && n <= |s|
  {
    var lead: int := s[0];
    if n == 1 then lead
    else if n == 2 then lead % 0x20 * 0x40 + s[1] % 0x40
    else if n == 3 then (lead % 0x10 * 0x40 + s[1] % 0x40) * 0x40 + s[2] % 0x40
    else ((lead % 0x08 * 0x40 + s[1] % 0x40) * 0x40 + s[2] % 0x40) * 0x40 + s[3] % 0x40
  }

  lemma ThreeBytes(v: int)
    requires 0x800 <= v < 0x10000
    ensures var a, b, c := v / 0x1000, v / 0x40 % 0x40, v % 0x40;
            (a * 0x40 + b) * 0x40 + c == v && a < 0x10 && (a == 0 ==> b >= 0x20)
                && (a == 0xD && b >= 0x20 ==> 0xD800 <= v < 0xE000)
  {
  }

  lemma FourBytes(v: int)
    requires 0x10000 <= v <= 0x10FFFF
    ensures var a, b, c, d := v / 0x40000, v / 0x1000 % 0x40, v / 0x40 % 0x40, v % 0x40;
            ((a * 0x40 + b) * 0x40 + c) * 0x40 + d == v && a <= 4 && (a == 0 ==> b >= 0x10) && (a == 4 ==> b < 0x10)
  {
  }

  lemma LeadAndTrail(a: int, b: int)
    requires 0 <= a < 0x10 && 0 <= b < 0x40
    ensures (0xE0 + a) % 0x10 == a && (a < 8 ==> (0xF0 + a) % 8 == a) && (0x80 + b) % 0x40 == b
  {
  }

  /** Every scalar value has exactly one well-formed sequence, and every sequence stands for one. */
  lemma ScalarRoundTrip(v: int)
    requires IsScalar(v)
    ensures IsSequence(EncodeScalar(v)) && Value(EncodeScalar(v), |EncodeScalar(v)|) == v
  {
    if 0x800 <= v < 0x10000 {
      ThreeBytes(v);
      LeadAndTrail(v / 0x1000, v / 0x40 % 0x40);
      LeadAndTrail(0, v % 0x40);
    } else if v >= 0x10000 {
      FourBytes(v);
      LeadAndTrail(v / 0x40000, v / 0x1000 % 0x40);
      LeadAndTrail(0, v / 0x40 % 0x40);
      LeadAndTrail(0, v % 0x40);
    }
  }

  lemma ThreeByteSequence(a: int, b: int, c: int, v: int)
    requires 0 <= a < 0x10 && 0 <= b < 0x40 && 0 <= c < 0x40 && v == (a * 0x40 + b) * 0x40 + c
    ensures v / 0x1000 == a && v / 0x40 % 0x40 == b && v % 0x40 == c
  {
  }

  lemma FourByteSequence(a: int, b: int, c: int, d: int, v: int)
    requires 0 <= a <= 4 && 0 <= b < 0x40 && 0 <= c < 0x40 && 0 <= d < 0x40
        && v == ((a * 0x40 + b) * 0x40 + c) * 0x40 + d
    ensures v / 0x40000 == a && v / 0x1000 % 0x40 == b && v / 0x40 % 0x40 == c && v % 0x40 == d
  {
    ThreeByteSequence(a, b, c, (a * 0x40 + b) * 0x40 + c);
    var w := (a * 0x40 + b) * 0x40 + c;
    assert v / 0x40 == w && v % 0x40 == d;
  }

  lemma ThreeByteRoundTrip(s: seq<Byte>)
    requires IsSequence(s) && |s| == 3
    ensures IsScalar(Value(s, 3)) && EncodeScalar(Value(s, 3)) == s
  {
    var a, b, c := s[0] % 0x10, s[1] % 0x40, s[2] % 0x40;
    var v := Value(s, 3);
    ThreeByteSequence(a, b, c, v);
    assert s[0] == 0xE0 + a && s[1] == 0x80 + b && s[2] == 0x80 + c;
    assert a == 0 ==> b >= 0x20;
    assert a == 0xD ==> b < 0x20;
    assert 0x800 <= v < 0x10000;
  }

  lemma FourByteParts(s: seq<Byte>)
    requires IsSequence(s) && |s| == 4
    ensures var a, b := s[0] % 0x08, s[1] % 0x40;
            && s[0] == 0xF0 + a && s[1] == 0x80 + b && s[2] == 0x80 + s[2] % 0x40 && s[3] == 0x80 + s[3] % 0x40
            && a <= 4 && (a == 0 ==> b >= 0x10) && (a == 4 ==> b < 0x10)
  {
  }

  lemma FourByteRoundTrip(s: seq<Byte>)
    requires IsSequence(s) && |s| == 4
    ensures IsScalar(Value(s, 4)) && EncodeScalar(Value(s, 4)) == s
  {
    var a, b, c, d := s[0] % 0x08, s[1] % 0x40, s[2] % 0x40, s[3] % 0x40;
    var v := Value(s, 4);
    FourByteParts(s);
    FourByteSequence(a, b, c, d, v);
    assert 0x10000 <= v <= 0x10FFFF;
  }

  lemma SequenceRoundTrip(s: seq<Byte>)
    requires IsSequence(s)
    ensures IsScalar(Value(s, |s|)) && EncodeScalar(Value(s, |s|)) == s
  {
    if |s| == 3 {
      ThreeByteRoundTrip(s);
    } else if |s| == 4 {
      FourByteRoundTrip(s);
    }
  }

  /** The three-byte form of a surrogate is no sequence, whatever follows it. */
  lemma SurrogateFormIsIllFormed(v: int, rest: seq<Byte>)
    requires 0xD800 <= v <= 0xDFFF
    ensures PrefixLength(EncodeScalar(v) + rest) == 0
  {
    var bytes := EncodeScalar(v) + rest;
    assert bytes[0] == 0xED && bytes[1] >= 0xA0;
  }

  // ----- Maximal subparts (definition D93b) -----

  /** `s` is a proper beginning of some well-formed sequence. */
  ghost predicate IsInitial(s: seq<Byte>) {
    exists t: seq<Byte> :: |s| < |t| && t[..|s|] == s && IsSequence(t)
  }

  /** The same, decided by looking at the bytes. */
  predicate CanContinue(s: seq<Byte>) {
    if |s| == 1 then 0xC2 <= s[0] <= 0xF4
    else if |s| == 2 then 0xE0 <= s[0] <= 0xF4 && SecondFits(s[0], s[1])
    else |s| == 3 && 0xF0 <= s[0] <= 0xF4 && SecondFits(s[0], s[1]) && IsContinuation(s[2])
  }

  lemma InitialIsDecided(s: seq<Byte>)
    requires s != []
    ensures IsInitial(s) <==> CanContinue(s)
  {
    if CanContinue(s) {
      var second: Byte := if s[0] == 0xE0 then 0xA0 else if s[0] == 0xF0 then 0x90 else 0x80;
      var t := if |s| == 1 then
                 (if s[0] <= 0xDF then s + [0x80] else if s[0] <= 0xEF then s + [second, 0x80]
                     else s + [second, 0x80, 0x80])
               else if |s| == 2 then (if s[0] <= 0xEF then s + [0x80] else s + [0x80, 0x80])
               else s + [0x80];
      assert t[..|s|] == s && IsSequence(t);
    }
    if IsInitial(s) {
      var t: seq<Byte> :| |s| < |t| && t[..|s|] == s && IsSequence(t);
      assert forall i :: 0 <= i < |s| ==> s[i] == t[i];
    }
  }

  /** The length of the maximal subpart at an offset where no sequence begins. */
  function SubpartLength(bytes: seq<Byte>): (n: nat)
    requires bytes != []
    ensures 1 <= n <= 3 && n <= |bytes|
  {
    if 0xF0 <= bytes[0] <= 0xF4 && |bytes| >= 3 && SecondFits(bytes[0], bytes[1]) && IsContinuation(bytes[2]) then 3
    else if 0xE0 <= bytes[0] <= 0xF4 && |bytes| >= 2 && SecondFits(bytes[0], bytes[1]) then 2
    else 1
  }

  /** It is the longest beginning that could still have become a well-formed sequence, or one byte. */
  lemma SubpartIsMaximal(bytes: seq<Byte>, n: nat)
    requires bytes != [] && 1 <= n <= |bytes|
    ensures SubpartLength(bytes) > 1 ==> IsInitial(bytes[..SubpartLength(bytes)])
    ensures IsInitial(bytes[..n]) ==> n <= SubpartLength(bytes)
  {
    SliceHeads(bytes);
    InitialIsDecided(bytes[..SubpartLength(bytes)]);
    InitialIsDecided(bytes[..n]);
  }

  // ----- Decoded items -----

  /** A decoded scalar value or one replacement, each with the bytes it stands for. */
  datatype Item = Scalar(value: int, width: nat) | Bad(width: nat)

  function ItemOf(bytes: seq<Byte>): (i: Item)
    requires bytes != []
    ensures 0 < i.width <= |bytes|
  {
    var n := PrefixLength(bytes);
    if n > 0 then Scalar(Value(bytes, n), n) else Bad(SubpartLength(bytes))
  }

  /** One replacement per maximal subpart. */
  function Items(bytes: seq<Byte>): seq<Item> {
    if bytes == [] then []
    else [ItemOf(bytes)] + Items(bytes[ItemOf(bytes).width..])
  }

  /** One replacement per byte. */
  function PerByteItems(bytes: seq<Byte>): seq<Item> {
    if bytes == [] then []
    else
      var n := PrefixLength(bytes);
      if n > 0 then [Scalar(Value(bytes, n), n)] + PerByteItems(bytes[n..])
      else [Bad(1)] + PerByteItems(bytes[1..])
  }

  predicate AnyBad(items: seq<Item>) {
    items != [] && (items[0].Bad? || AnyBad(items[1..]))
  }

  /** A fatal decoder fails exactly on the ill-formed inputs, under either rule. */
  lemma {:induction false} BadIffIllFormed(bytes: seq<Byte>)
    ensures AnyBad(Items(bytes)) <==> !WellFormed(bytes)
    ensures AnyBad(PerByteItems(bytes)) <==> !WellFormed(bytes)
    decreases |bytes|
  {
    if bytes != [] {
      var n := PrefixLength(bytes);
      if n > 0 {
        BadIffIllFormed(bytes[n..]);
        assert Items(bytes)[1..] == Items(bytes[n..]);
        assert PerByteItems(bytes)[1..] == PerByteItems(bytes[n..]);
      }
    }
  }

  function Repeat(n: nat): seq<Item> {
    if n == 0 then [] else [Bad(1)] + Repeat(n - 1)
  }

  /** Each replaced subpart becomes one replacement per byte; scalars stay where they are. */
  function Expand(items: seq<Item>): seq<Item> {
    if items == [] then []
    else (if items[0].Bad? then Repeat(items[0].width) else [items[0]]) + Expand(items[1..])
  }

  /** After a broken lead byte the rest of its subpart is stray continuation bytes. */
  lemma SubpartTailIsStray(bytes: seq<Byte>, k: nat)
    requires bytes != [] && 1 <= k < SubpartLength(bytes)
    ensures PrefixLength(bytes[k..]) == 0
  {
    assert IsContinuation(bytes[k..][0]);
  }

  lemma {:induction false} StrayBytesRepeat(bytes: seq<Byte>, n: nat)
    requires n <= |bytes| && forall k :: 0 <= k < n ==> PrefixLength(bytes[k..]) == 0
    ensures PerByteItems(bytes) == Repeat(n) + PerByteItems(bytes[n..])
    decreases n
  {
    if n == 0 {
      assert bytes[0..] == bytes;
    } else {
      assert bytes[0..] == bytes;
      var rest := bytes[1..];
      forall k | 0 <= k < n - 1 ensures PrefixLength(rest[k..]) == 0 {
        assert rest[k..] == bytes[k + 1..];
      }
      StrayBytesRepeat(rest, n - 1);
      assert rest[n - 1..] == bytes[n..];
    }
  }

  /**
   The two rules take the same well-formed sequences at the same positions; the per-byte output is the other
   one with every replaced subpart expanded to one replacement per byte.
   */
  lemma {:induction false} PerByteIsExpansion(bytes: seq<Byte>)
    ensures PerByteItems(bytes) == Expand(Items(bytes))
    decreases |bytes|
  {
    if bytes != [] {
      var i := ItemOf(bytes);
      PerByteIsExpansion(bytes[i.width..]);
      assert Items(bytes)[0] == i && Items(bytes)[1..] == Items(bytes[i.width..]);
      if i.Bad? {
        forall k | 0 <= k < i.width ensures PrefixLength(bytes[k..]) == 0 {
          if k == 0 {
            assert bytes[0..] == bytes;
          } else {
            SubpartTailIsStray(bytes, k);
          }
        }
        StrayBytesRepeat(bytes, i.width);
      }
    }
  }

  // ----- The WHATWG decoder -----

  /** The decoder's variables between two bytes. */
  datatype Decoder = Decoder(cp: int, seen: nat, needed: nat, lower: int, upper: int)

  const FRESH := Decoder(0, 0, 0, 0x80, 0xBF)

  datatype Output = CodePoint(value: int) | Error

  /** Step 3 of the handler, for a byte that starts something; None is "continue". */
  function StartByte(b: Byte): (Decoder, seq<Output>) {
    if b <= 0x7F then (FRESH, [CodePoint(b)])
    else if 0xC2 <= b <= 0xDF then (FRESH.(needed := 1, cp := b % 0x20), [])
    else if 0xE0 <= b <= 0xEF then
      (FRESH.(needed := 2, cp := b % 0x10,
              lower := if b == 0xE0 then 0xA0 else 0x80,
              upper := if b == 0xED then 0x9F else 0xBF), [])
    else if 0xF0 <= b <= 0xF4 then
      (FRESH.(needed := 3, cp := b % 0x08,
              lower := if b == 0xF0 then 0x90 else 0x80,
              upper := if b == 0xF4 then 0x8F else 0xBF), [])
    else (FRESH, [Error])
  }

  /** The whole run of the handler; a byte outside the window is put back after the error. */
  function Whatwg(d: Decoder, bytes: seq<Byte>): seq<Output>
    decreases |bytes|, d.needed
  {
    if bytes == [] then (if d.needed != 0 then [Error] else [])
    else if d.needed == 0 then
      var (d', out) := StartByte(bytes[0]);
      out + Whatwg(d', bytes[1..])
    else if !(d.lower <= bytes[0] <= d.upper) then [Error] + Whatwg(FRESH, bytes)
    else
      var d' := d.(lower := 0x80, upper := 0xBF, cp := d.cp * 0x40 + bytes[0] % 0x40, seen := d.seen + 1);
      if d'.seen != d'.needed then Whatwg(d', bytes[1..])
      else [CodePoint(d'.cp)] + Whatwg(FRESH, bytes[1..])
  }

  function OutputOf(i: Item): Output {
    if i.Scalar? then CodePoint(i.value) else Error
  }

  function OutputsOf(items: seq<Item>): seq<Output> {
    if items == [] then [] else [OutputOf(items[0])] + OutputsOf(items[1..])
  }

  predicate InWindow(d: Decoder, bytes: seq<Byte>) {
    bytes != [] && d.lower <= bytes[0] <= d.upper
  }

  function Fed(d: Decoder, b: Byte): Decoder {
    d.(lower := 0x80, upper := 0xBF, cp := d.cp * 0x40 + b % 0x40, seen := d.seen + 1)
  }

  /** One step of a decoder that is inside a sequence. */
  lemma WhatwgStep(d: Decoder, bytes: seq<Byte>)
    requires d.needed != 0
    ensures !InWindow(d, bytes) ==> Whatwg(d, bytes) == [Error] + Whatwg(FRESH, bytes)
    ensures InWindow(d, bytes) && d.seen + 1 != d.needed ==> Whatwg(d, bytes) == Whatwg(Fed(d, bytes[0]), bytes[1..])
    ensures InWindow(d, bytes) && d.seen + 1 == d.needed ==>
              Whatwg(d, bytes) == [CodePoint(d.cp * 0x40 + bytes[0] % 0x40)] + Whatwg(FRESH, bytes[1..])
  {
  }

  lemma TwoByteItem(bytes: seq<Byte>)
    requires bytes != [] && 0xC2 <= bytes[0] <= 0xDF
    ensures Whatwg(FRESH, bytes) == [OutputOf(ItemOf(bytes))] + Whatwg(FRESH, bytes[ItemOf(bytes).width..])
  {
    var (d, out) := StartByte(bytes[0]);
    WhatwgStep(d, bytes[1..]);
    if InWindow(d, bytes[1..]) {
      assert bytes[1..][1..] == bytes[2..];
    }
  }

  lemma ThreeByteItem(bytes: seq<Byte>)
    requires bytes != [] && 0xE0 <= bytes[0] <= 0xEF
    ensures Whatwg(FRESH, bytes) == [OutputOf(ItemOf(bytes))] + Whatwg(FRESH, bytes[ItemOf(bytes).width..])
  {
    var (d, out) := StartByte(bytes[0]);
    WhatwgStep(d, bytes[1..]);
    if InWindow(d, bytes[1..]) {
      assert bytes[1..][1..] == bytes[2..];
      WhatwgStep(Fed(d, bytes[1]), bytes[2..]);
      if InWindow(Fed(d, bytes[1]), bytes[2..]) {
        assert bytes[2..][1..] == bytes[3..];
      }
    }
  }

  /** How many of the next two bytes continue. */
  function Continuing(bytes: seq<Byte>): (n: nat)
    ensures n <= 2 && n <= |bytes|
  {
    if bytes == [] || !IsContinuation(bytes[0]) then 0
    else if |bytes| == 1 || !IsContinuation(bytes[1]) then 1 else 2
  }

  function LastTwoOutput(bytes: seq<Byte>, cp: int): Output {
    if Continuing(bytes) == 2 then CodePoint((cp * 0x40 + bytes[0] % 0x40) * 0x40 + bytes[1] % 0x40) else Error
  }

  /** The last two bytes of a four-byte sequence, once its second byte fitted. */
  lemma LastTwoBytes(d: Decoder, bytes: seq<Byte>, cp: int)
    requires d == Decoder(cp, 1, 3, 0x80, 0xBF)
    ensures Whatwg(d, bytes) == [LastTwoOutput(bytes, cp)] + Whatwg(FRESH, bytes[Continuing(bytes)..])
  {
    WhatwgStep(d, bytes);
    assert bytes[0..] == bytes;
    if InWindow(d, bytes) {
      WhatwgStep(Fed(d, bytes[0]), bytes[1..]);
      if InWindow(Fed(d, bytes[0]), bytes[1..]) {
        assert bytes[1..][1..] == bytes[2..];
      }
    }
  }

  lemma FourByteItemOf(bytes: seq<Byte>)
    requires |bytes| >= 2 && 0xF0 <= bytes[0] <= 0xF4 && SecondFits(bytes[0], bytes[1])
    ensures var lead: int := bytes[0];
            OutputOf(ItemOf(bytes)) == LastTwoOutput(bytes[2..], lead % 0x08 * 0x40 + bytes[1] % 0x40)
    ensures bytes[ItemOf(bytes).width..] == bytes[2..][Continuing(bytes[2..])..]
  {
  }

  lemma LeadStep(bytes: seq<Byte>)
    requires bytes != [] && 0xC2 <= bytes[0] <= 0xF4
    ensures Whatwg(FRESH, bytes) == Whatwg(StartByte(bytes[0]).0, bytes[1..])
  {
  }

  lemma FourByteItem(bytes: seq<Byte>)
    requires bytes != [] && 0xF0 <= bytes[0] <= 0xF4
    ensures Whatwg(FRESH, bytes) == [OutputOf(ItemOf(bytes))] + Whatwg(FRESH, bytes[ItemOf(bytes).width..])
  {
    LeadStep(bytes);
    var d := StartByte(bytes[0]).0;
    WhatwgStep(d, bytes[1..]);
    if InWindow(d, bytes[1..]) {
      FourByteTail(bytes, d);
    }
  }

  lemma FourByteTail(bytes: seq<Byte>, d: Decoder)
    requires |bytes| >= 2 && 0xF0 <= bytes[0] <= 0xF4 && SecondFits(bytes[0], bytes[1])
    requires d == StartByte(bytes[0]).0
    ensures Whatwg(Fed(d, bytes[1]), bytes[1..][1..])
        == [OutputOf(ItemOf(bytes))] + Whatwg(FRESH, bytes[ItemOf(bytes).width..])
  {
    var lead: int := bytes[0];
    assert bytes[1..][1..] == bytes[2..];
    LastTwoBytes(Fed(d, bytes[1]), bytes[2..], lead % 0x08 * 0x40 + bytes[1] % 0x40);
    FourByteItemOf(bytes);
  }

  /** From a fresh decoder, the bytes of one item produce exactly that item's output. */
  lemma WhatwgTakesItem(bytes: seq<Byte>)
    requires bytes != []
    ensures Whatwg(FRESH, bytes) == [OutputOf(ItemOf(bytes))] + Whatwg(FRESH, bytes[ItemOf(bytes).width..])
  {
    if 0xC2 <= bytes[0] <= 0xDF {
      TwoByteItem(bytes);
    } else if 0xE0 <= bytes[0] <= 0xEF {
      ThreeByteItem(bytes);
    } else if 0xF0 <= bytes[0] <= 0xF4 {
      FourByteItem(bytes);
    }
  }

  /** The maximal-subpart items are the WHATWG decoder's output on every byte sequence. */
  lemma {:induction false} ItemsAreWhatwg(bytes: seq<Byte>)
    ensures OutputsOf(Items(bytes)) == Whatwg(FRESH, bytes)
    decreases |bytes|
  {
    if bytes != [] {
      var i := ItemOf(bytes);
      WhatwgTakesItem(bytes);
      ItemsAreWhatwg(bytes[i.width..]);
      assert Items(bytes)[1..] == Items(bytes[i.width..]);
    }
  }
}
