/** Base64url segments (src/api/jwtClaims.ts) against section 5 of RFC 4648. Text is UTF-16 code units. */
module Base64Url {
  import opened Common

  const PAD := 61

  type Six = v: int | 0 <= v < 0x40

  type Sextets = seq<Six>

  // ----- The alphabet -----

  /** Value of a code unit, or -1; '+' and '/' are valued too. */
  function Sextet(code: nat): (v: int)
    ensures -1 <= v < 0x40
  {
    if 65 <= code <= 90 then code - 65
    else if 97 <= code <= 122 then code - 71
    else if 48 <= code <= 57 then code + 4
    else if code == 43 || code == 45 then 62
    else if code == 47 || code == 95 then 63
    else -1
  }

  /** The URL and filename safe alphabet of RFC 4648. */
  function Symbol(v: Six): nat {
    if v < 26 then v + 65 else if v < 52 then v + 71 else if v < 62 then v - 4 else if v == 62 then 45 else 95
  }

  /** What the segment's regular expression lets through. */
  predicate InAlphabet(code: nat) {
    65 <= code <= 90 || 97 <= code <= 122 || 48 <= code <= 57 || code == 95 || code == 45
  }

  /** The alphabet is exactly the symbols; '+' and '/' alone have a value without being in it. */
  lemma AlphabetIsSymbols(code: nat)
    ensures InAlphabet(code) <==> exists v: Six :: Symbol(v) == code
    ensures InAlphabet(code) ==> Sextet(code) >= 0 && Symbol(Sextet(code)) == code
    ensures Sextet(code) >= 0 <==> InAlphabet(code) || code == 43 || code == 47
  {
    if InAlphabet(code) {
      assert Symbol(Sextet(code)) == code;
    }
  }

  lemma SextetOfSymbol(v: Six)
    ensures Sextet(Symbol(v)) == v && InAlphabet(Symbol(v)) && Symbol(v) != PAD
  {
  }

  // ----- Encoding -----

  function EncodedGroup(a: Byte, b: Byte, c: Byte): (g: Sextets)
    ensures |g| == 4
  {
    [a / 4, a % 4 * 0x10 + b / 0x10, b % 0x10 * 4 + c / 0x40, c % 0x40]
  }

  /** Three bytes as four sextets; a shorter last group is filled with zero bits and cut. */
  function EncodedSextets(bytes: seq<Byte>): Sextets {
    if |bytes| == 0 then []
    else if |bytes| == 1 then EncodedGroup(bytes[0], 0, 0)[..2]
    else if |bytes| == 2 then EncodedGroup(bytes[0], bytes[1], 0)[..3]
    else EncodedGroup(bytes[0], bytes[1], bytes[2]) + EncodedSextets(bytes[3..])
  }

  function Encode(bytes: seq<Byte>): seq<nat> {
    Symbols(EncodedSextets(bytes))
  }

  function Symbols(s: Sextets): (r: seq<nat>)
    ensures |r| == |s|
  {
    seq(|s|, k requires 0 <= k < |s| => Symbol(s[k]))
  }

  function Pads(n: nat): (r: seq<nat>)
    ensures |r| == n
  {
    seq(n, _ => PAD)
  }

  // ----- Decoding -----

  function DecodedGroup(v0: Six, v1: Six, v2: Six, v3: Six): (g: seq<Byte>)
    ensures |g| == 3
  {
    [v0 * 4 + v1 / 0x10, v1 % 0x10 * 0x10 + v2 / 4, v2 % 4 * 0x40 + v3]
  }

  /** Four sextets as three bytes; the leftover bits of a shorter last group are dropped. */
  function DecodedBytes(s: Sextets): seq<Byte> {
    if |s| < 2 then []
    else if |s| == 2 then DecodedGroup(s[0], s[1], 0, 0)[..1]
    else if |s| == 3 then DecodedGroup(s[0], s[1], s[2], 0)[..2]
    else DecodedGroup(s[0], s[1], s[2], s[3]) + DecodedBytes(s[4..])
  }

  /** The segment without its trailing '='. */
  function Unpadded(segment: seq<nat>): (r: seq<nat>)
    ensures r <= segment
    ensures r != [] ==> r[|r| - 1] != PAD
  {
    if segment == [] || segment[|segment| - 1] != PAD then segment else Unpadded(segment[..|segment| - 1])
  }

  function Value(code: nat): Six
    requires InAlphabet(code)
  {
    Sextet(code)
  }

  predicate AllInAlphabet(text: seq<nat>) {
    forall k :: 0 <= k < |text| ==> InAlphabet(text[k])
  }

  function Values(text: seq<nat>): (r: Sextets)
    requires AllInAlphabet(text)
    ensures |r| == |text|
  {
    seq(|text|, k requires 0 <= k < |text| && InAlphabet(text[k]) => Value(text[k]))
  }

  predicate Acceptable(unpadded: seq<nat>) {
    unpadded != [] && |unpadded| % 4 != 1 && AllInAlphabet(unpadded)
  }

  /** What decoding must give: None exactly for an empty, 1-mod-4 or out-of-alphabet segment. */
  function Decoded(segment: seq<nat>): Option<seq<Byte>> {
    var unpadded := Unpadded(segment);
    if Acceptable(unpadded) then Some(DecodedBytes(Values(unpadded))) else None
  }

  function DecodedLength(n: nat): int {
    n / 4 * 3 + (if n % 4 == 0 then 0 else n % 4 - 1)
  }

  lemma {:induction false} DecodedHasLength(s: Sextets)
    requires |s| % 4 != 1
    ensures |DecodedBytes(s)| == DecodedLength(|s|)
    decreases |s|
  {
    if |s| >= 4 {
      DecodedHasLength(s[4..]);
    }
  }

  lemma {:induction false} DecodedOfAppend(a: Sextets, b: Sextets)
    requires |a| % 4 == 0
    ensures DecodedBytes(a + b) == DecodedBytes(a) + DecodedBytes(b)
    decreases |a|
  {
    if a == [] {
      assert a + b == b;
    } else {
      DecodedOfAppend(a[4..], b);
      assert (a + b)[4..] == a[4..] + b;
    }
  }

  /** The four sextets of a group or-ed into 24 bits; they are disjoint there. */
  function Triple(v0: int, v1: int, v2: int, v3: int): int {
    v0 * 0x4_0000 + v1 * 0x1000 + v2 * 0x40 + v3
  }

  lemma TripleDigits(v0: int, v1: int, v2: int, v3: int)
    ensures Triple(v0, v1, v2, v3)
         == (v0 * 4 + v1 / 0x10) * 0x1_0000 + (v1 % 0x10 * 0x10 + v2 / 4) * 0x100 + (v2 % 4 * 0x40 + v3)
  {
  }

  /** The shifts and masks over a 24-bit group. */
  lemma ThreeDigits(n: int, a: int, b: int, c: int)
    requires 0 <= a < 0x100 && 0 <= b < 0x100 && 0 <= c < 0x100
    requires n == a * 0x1_0000 + b * 0x100 + c
    ensures n / 0x1_0000 % 0x100 == a && n / 0x100 % 0x100 == b && n % 0x100 == c
  {
  }

  lemma TripleBytes(v0: Six, v1: Six, v2: Six, v3: Six, n: int)
    requires n == Triple(v0, v1, v2, v3)
    ensures DecodedGroup(v0, v1, v2, v3) == [n / 0x1_0000 % 0x100, n / 0x100 % 0x100, n % 0x100]
  {
    var a: int, b: int, c: int := v0 * 4 + v1 / 0x10, v1 % 0x10 * 0x10 + v2 / 4, v2 % 4 * 0x40 + v3;
    TripleDigits(v0, v1, v2, v3);
    ThreeDigits(n, a, b, c);
  }

  /**
   One group of the padded text: what the writes at `o` leave in the output. The source's test for a negative
   sextet is omitted: the alphabet has been checked, so no value is negative.
   */
  method DecodeGroup(padded: seq<nat>, i: nat, group: seq<nat>, out: array<Byte>, o: nat) returns (next: nat)
    requires i + 4 <= |padded| && 2 <= |group| <= 4 && AllInAlphabet(group)
    requires padded[i..i + 4] == group + Pads(4 - |group|)
    requires o + |DecodedBytes(Values(group))| <= out.Length
    modifies out
    ensures next == o + |DecodedBytes(Values(group))|
    ensures out[..next] == old(out[..o]) + DecodedBytes(Values(group))
  {
    var quad := padded[i..i + 4];
    var v0: int, v1: int := Sextet(quad[0]), Sextet(quad[1]);
    var c2, c3 := quad[2], quad[3];
    var v2: int := if c2 == PAD then 0 else Sextet(c2);
    var v3: int := if c3 == PAD then 0 else Sextet(c3);
    var triple: int := Triple(v0, v1, v2, v3);
    TripleBytes(v0, v1, v2, v3, triple);
    next := o;
    out[next] := triple / 0x1_0000 % 0x100;
    next := next + 1;
    if c2 != PAD {
      out[next] := triple / 0x100 % 0x100;
      next := next + 1;
    }
    if c3 != PAD {
      out[next] := triple % 0x100;
      next := next + 1;
    }
  }

  /** What the first `i` code units, `i` a whole number of groups, decode to. */
  function Taken(u: seq<nat>, i: nat): seq<Byte>
    requires AllInAlphabet(u)
  {
    DecodedBytes(Values(u[..Min(i, |u|)]))
  }

  function GroupAt(u: seq<nat>, i: nat): seq<nat>
    requires i <= |u|
  {
    u[i..Min(i + 4, |u|)]
  }

  lemma TakenStep(u: seq<nat>, i: nat)
    requires AllInAlphabet(u) && i % 4 == 0 && i <= |u|
    ensures Taken(u, i + 4) == Taken(u, i) + DecodedBytes(Values(GroupAt(u, i)))
    ensures Taken(u, i) <= DecodedBytes(Values(u))
  {
    var j := Min(i + 4, |u|);
    DecodedOfAppend(Values(u[..i]), Values(u[i..j]));
    assert Values(u[..j]) == Values(u[..i]) + Values(u[i..j]);
    DecodedOfAppend(Values(u[..i]), Values(u[i..]));
    assert Values(u) == Values(u[..i]) + Values(u[i..]);
  }

  lemma TakenAll(u: seq<nat>, i: nat)
    requires AllInAlphabet(u) && i >= |u|
    ensures Taken(u, i) == DecodedBytes(Values(u))
  {
    assert u[..|u|] == u;
  }

  lemma NextMultiple(i: nat)
    requires i % 4 == 0
    ensures (i + 4) % 4 == 0
  {
  }

  lemma TakenFits(u: seq<nat>, i: nat)
    requires AllInAlphabet(u) && i % 4 == 0 && i <= |u|
    ensures Taken(u, i + 4) == Taken(u, i) + DecodedBytes(Values(GroupAt(u, i)))
    ensures |Taken(u, i + 4)| <= |DecodedBytes(Values(u))|
  {
    TakenStep(u, i);
    if i + 4 <= |u| {
      NextMultiple(i);
      TakenStep(u, i + 4);
    } else {
      TakenAll(u, i + 4);
    }
  }

  predicate PaddedCopy(u: seq<nat>, padded: seq<nat>) {
    |padded| % 4 == 0 && |u| <= |padded| < |u| + 4 && padded == u + Pads(|padded| - |u|)
  }

  /** The padded copy of the text the loop runs over, and the size of its output array. */
  method Repadded(u: seq<nat>) returns (padded: seq<nat>, length: nat)
    requires Acceptable(u)
    ensures PaddedCopy(u, padded)
    ensures length == |padded| / 4 * 3 - (|padded| - |u|) == |DecodedBytes(Values(u))|
  {
    var pads: nat := (4 - |u| % 4) % 4;
    WholeGroups(|u|, pads);
    padded := u + Pads(pads);
    DecodedHasLength(Values(u));
    OutputLength(|u|, |padded|);
    length := |padded| / 4 * 3 - (|padded| - |u|);
  }

  lemma WholeGroups(n: nat, pads: nat)
    requires pads == (4 - n % 4) % 4
    ensures (n + pads) % 4 == 0 && pads < 4
  {
  }

  lemma OutputLength(n: nat, padded: nat)
    requires padded % 4 == 0 && n <= padded < n + 4 && n % 4 != 1
    ensures padded / 4 * 3 - (padded - n) == DecodedLength(n)
  {
  }

  lemma GroupOfPadded(u: seq<nat>, padded: seq<nat>, i: nat)
    requires PaddedCopy(u, padded)
    requires |u| % 4 != 1 && i % 4 == 0 && i < |padded|
    ensures i + 2 <= |u| && i + 4 <= |padded| && 2 <= |GroupAt(u, i)| <= 4
    ensures padded[i..i + 4] == GroupAt(u, i) + Pads(4 - |GroupAt(u, i)|)
  {
  }

  lemma NextGroup(i: nat, n: nat)
    requires i % 4 == 0 && n % 4 == 0 && i < n
    ensures i + 4 <= n && (i + 4) % 4 == 0
  {
  }

  /** One turn of the loop. */
  method DecodeTurn(u: seq<nat>, padded: seq<nat>, i: nat, out: array<Byte>, o: nat) returns (next: nat)
    requires Acceptable(u) && PaddedCopy(u, padded) && i % 4 == 0 && i < |padded|
    requires out.Length == |DecodedBytes(Values(u))| && o <= out.Length && out[..o] == Taken(u, i)
    modifies out
    ensures next <= out.Length && out[..next] == Taken(u, i + 4)
  {
    GroupOfPadded(u, padded, i);
    TakenFits(u, i);
    next := DecodeGroup(padded, i, GroupAt(u, i), out, o);
  }

  /** The loop of `base64UrlToBytes`: its output array is filled to the last element and no write leaves it. */
  method DecodeGroups(u: seq<nat>) returns (bytes: seq<Byte>)
    requires Acceptable(u)
    ensures bytes == DecodedBytes(Values(u))
  {
    var padded, length := Repadded(u);
    var out := new Byte[length];
    var o: nat := 0;
    var i: nat := 0;
    while i < |padded|
      invariant i % 4 == 0 && i <= |padded| && o <= out.Length && out[..o] == Taken(u, i)
    {
      NextGroup(i, |padded|);
      o := DecodeTurn(u, padded, i, out, o);
      i := i + 4;
    }
    TakenAll(u, i);
    assert |out[..o]| == out.Length;
    bytes := out[..];
  }

  method Base64UrlToBytes(segment: seq<nat>) returns (r: Option<seq<Byte>>)
    ensures r == Decoded(segment)
  {
    var unpadded := Unpadded(segment);
    if |unpadded| == 0 || |unpadded| % 4 == 1 {
      return None;
    }
    if !AllInAlphabet(unpadded) {
      return None;
    }
    var bytes := DecodeGroups(unpadded);
    r := Some(bytes);
  }

  // ----- Round trips -----

  lemma GroupRoundTrip(a: Byte, b: Byte, c: Byte)
    ensures var g := EncodedGroup(a, b, c); DecodedGroup(g[0], g[1], g[2], g[3]) == [a, b, c]
  {
  }

  lemma DecodedStep(group: Sextets, rest: Sextets)
    requires |group| == 4
    ensures DecodedBytes(group + rest) == DecodedGroup(group[0], group[1], group[2], group[3]) + DecodedBytes(rest)
  {
    assert (group + rest)[4..] == rest;
  }

  lemma {:induction false} SextetsRoundTrip(bytes: seq<Byte>)
    ensures DecodedBytes(EncodedSextets(bytes)) == bytes
    ensures |EncodedSextets(bytes)| % 4 != 1 && (bytes != [] ==> EncodedSextets(bytes) != [])
    decreases |bytes|
  {
    if |bytes| == 1 {
      GroupRoundTrip(bytes[0], 0, 0);
    } else if |bytes| == 2 {
      GroupRoundTrip(bytes[0], bytes[1], 0);
    } else if |bytes| > 2 {
      var a, b, c, rest := bytes[0], bytes[1], bytes[2], bytes[3..];
      GroupRoundTrip(a, b, c);
      DecodedStep(EncodedGroup(a, b, c), EncodedSextets(rest));
      SextetsRoundTrip(rest);
      assert bytes == [a, b, c] + rest;
    }
  }

  lemma {:induction false} UnpaddedOfPadded(text: seq<nat>, pads: nat)
    requires text == [] || text[|text| - 1] != PAD
    ensures Unpadded(text + Pads(pads)) == text
    decreases pads
  {
    if pads == 0 {
      assert text + Pads(0) == text;
    } else {
      UnpaddedOfPadded(text, pads - 1);
      assert (text + Pads(pads))[..|text| + pads - 1] == text + Pads(pads - 1);
    }
  }

  /** Decoding undoes encoding for every non-empty byte sequence, with any amount of padding or none. */
  lemma DecodeOfEncode(bytes: seq<Byte>, pads: nat)
    ensures Decoded(Encode(bytes) + Pads(pads)) == if bytes == [] then None else Some(bytes)
  {
    var s := EncodedSextets(bytes);
    var text := Encode(bytes);
    forall k | 0 <= k < |text|
      ensures Sextet(text[k]) == s[k] && InAlphabet(text[k]) && text[k] != PAD
    {
      SextetOfSymbol(s[k]);
    }
    UnpaddedOfPadded(text, pads);
    SextetsRoundTrip(bytes);
    assert Values(text) == s;
  }

  /** The bits of the last sextet that no byte takes. */
  function Leftover(s: Sextets): int {
    if |s| % 4 == 2 then s[|s| - 1] % 0x10 else if |s| % 4 == 3 then s[|s| - 1] % 4 else 0
  }

  lemma EncodedStep(group: seq<Byte>, rest: seq<Byte>)
    requires |group| == 3
    ensures EncodedSextets(group + rest) == EncodedGroup(group[0], group[1], group[2]) + EncodedSextets(rest)
  {
    assert (group + rest)[3..] == rest;
  }

  /** Cutting 6-bit values at `m` and joining the halves into bytes loses nothing. */
  lemma Halves(high: int, low: int, m: int)
    requires m in {4, 0x10, 0x40} && 0 <= low < m
    ensures (high * m + low) / m == high && (high * m + low) % m == low
  {
  }

  lemma SextetGroupRoundTrip(v0: Six, v1: Six, v2: Six, v3: Six)
    ensures var g := DecodedGroup(v0, v1, v2, v3); EncodedGroup(g[0], g[1], g[2]) == [v0, v1, v2, v3]
  {
    var g := DecodedGroup(v0, v1, v2, v3);
    Regroup(v0, v1, v2, v3, g[0], g[1], g[2]);
  }

  lemma Regroup(v0: int, v1: int, v2: int, v3: int, a: int, b: int, c: int)
    requires 0 <= v1 < 0x40 && 0 <= v2 < 0x40 && 0 <= v3 < 0x40
    requires a == v0 * 4 + v1 / 0x10 && b == v1 % 0x10 * 0x10 + v2 / 4 && c == v2 % 4 * 0x40 + v3
    ensures a / 4 == v0 && a % 4 * 0x10 + b / 0x10 == v1 && b % 0x10 * 4 + c / 0x40 == v2 && c % 0x40 == v3
  {
    Halves(v0, v1 / 0x10, 4);
    Halves(v1 % 0x10, v2 / 4, 0x10);
    Halves(v2 % 4, v3, 0x40);
  }

  lemma ReencodingStep(s: Sextets)
    requires |s| >= 4
    ensures EncodedSextets(DecodedBytes(s)) == s[..4] + EncodedSextets(DecodedBytes(s[4..]))
  {
    var group := DecodedGroup(s[0], s[1], s[2], s[3]);
    assert s == s[..4] + s[4..];
    SextetGroupRoundTrip(s[0], s[1], s[2], s[3]);
    DecodedStep(s[..4], s[4..]);
    EncodedStep(group, DecodedBytes(s[4..]));
  }

  lemma EncodedOfOne(a: Byte)
    ensures EncodedSextets([a]) == [a / 4, a % 4 * 0x10]
  {
  }

  lemma EncodedOfTwo(a: Byte, b: Byte)
    ensures EncodedSextets([a, b]) == [a / 4, a % 4 * 0x10 + b / 0x10, b % 0x10 * 4]
  {
  }

  lemma JoinTwo(v0: int, v1: int, v2: int, a: int, b: int)
    requires 0 <= v1 < 0x40 && 0 <= v2 < 0x40
    requires a == v0 * 4 + v1 / 0x10 && b == v1 % 0x10 * 0x10 + v2 / 4
    ensures a / 4 == v0 && a % 4 == v1 / 0x10 && b / 0x10 == v1 % 0x10 && b % 0x10 == v2 / 4
    ensures a % 4 * 0x10 + b / 0x10 == v1
  {
    Halves(v0, v1 / 0x10, 4);
    Halves(v1 % 0x10, v2 / 4, 0x10);
  }

  /** A last group of two sextets keeps the top two bits of the second. */
  lemma ReencodingOfTwo(s: Sextets, a: Byte, v0: int, v1: int)
    requires s == [v0, v1] && a == v0 * 4 + v1 / 0x10
    ensures EncodedSextets(DecodedBytes(s)) == [v0, v1 / 0x10 * 0x10]
  {
    assert DecodedBytes(s) == [a];
    EncodedOfOne(a);
    JoinTwo(v0, v1, 0, a, v1 % 0x10 * 0x10);
  }

  /** A last group of three keeps the top four bits of the third. */
  lemma ReencodingOfThree(s: Sextets, a: Byte, b: Byte, v0: int, v1: int, v2: int)
    requires s == [v0, v1, v2] && a == v0 * 4 + v1 / 0x10 && b == v1 % 0x10 * 0x10 + v2 / 4
    ensures EncodedSextets(DecodedBytes(s)) == [v0, v1, v2 / 4 * 4]
  {
    assert DecodedBytes(s) == [a, b];
    EncodedOfTwo(a, b);
    JoinTwo(v0, v1, v2, a, b);
  }

  lemma {:induction false} ReencodingKeepsIff(s: Sextets)
    requires |s| % 4 != 1
    ensures EncodedSextets(DecodedBytes(s)) == s <==> Leftover(s) == 0
    decreases |s|
  {
    if |s| >= 4 {
      ReencodingKeepsIff(s[4..]);
      LongReencodes(s);
    } else if |s| == 3 {
      ShortOfThree(s, s[0], s[1], s[2]);
    } else if |s| == 2 {
      ShortOfTwo(s, s[0], s[1]);
    } else {
      assert s == [] && DecodedBytes(s) == [];
    }
  }

  lemma LongReencodes(s: Sextets)
    requires |s| >= 4
    ensures EncodedSextets(DecodedBytes(s)) == s <==> EncodedSextets(DecodedBytes(s[4..])) == s[4..]
    ensures Leftover(s) == Leftover(s[4..])
  {
    ReencodingStep(s);
    SamePrefix(s[..4], EncodedSextets(DecodedBytes(s[4..])), s[4..]);
    LeftoverOfRest(s);
    assert s == s[..4] + s[4..];
  }

  lemma ShortOfTwo(s: Sextets, v0: Six, v1: Six)
    requires s == [v0, v1]
    ensures EncodedSextets(DecodedBytes(s)) == s <==> Leftover(s) == 0
  {
    ReencodingOfTwo(s, DecodedGroup(v0, v1, 0, 0)[0], v0, v1);
    CutIff(v1, 0x10);
  }

  lemma ShortOfThree(s: Sextets, v0: Six, v1: Six, v2: Six)
    requires s == [v0, v1, v2]
    ensures EncodedSextets(DecodedBytes(s)) == s <==> Leftover(s) == 0
  {
    var g := DecodedGroup(v0, v1, v2, 0);
    ReencodingOfThree(s, g[0], g[1], v0, v1, v2);
    CutIff(v2, 4);
  }

  lemma CutIff(v: int, m: int)
    requires m in {4, 0x10}
    ensures v / m * m == v <==> v % m == 0
  {
  }

  lemma LeftoverOfRest(s: Sextets)
    requires |s| >= 4
    ensures Leftover(s) == Leftover(s[4..])
  {
  }

  lemma SamePrefix<T>(a: seq<T>, b: seq<T>, c: seq<T>)
    ensures a + b == a + c <==> b == c
  {
    if a + b == a + c {
      assert b == (a + b)[|a|..] && c == (a + c)[|a|..];
    }
  }

  /**
   Decoding is not one-to-one: re-encoding gives the unpadded segment back exactly when the unused bits of its
   last symbol are zero.
   */
  lemma EncodeOfDecodeIff(segment: seq<nat>)
    requires Decoded(segment).Some?
    ensures Encode(Decoded(segment).value) == Unpadded(segment) <==> Leftover(Values(Unpadded(segment))) == 0
  {
    var text := Unpadded(segment);
    var s := Values(text);
    var again := EncodedSextets(DecodedBytes(s));
    ReencodingKeepsIff(s);
    forall k | 0 <= k < |text|
      ensures Symbol(s[k]) == text[k]
    {
      AlphabetIsSymbols(text[k]);
    }
    assert Symbols(s) == text;
    if Symbols(again) == text {
      forall k | 0 <= k < |again|
        ensures again[k] == s[k]
      {
        SextetOfSymbol(again[k]);
        assert Symbols(again)[k] == text[k];
      }
      assert again == s;
    }
  }
}
