/**
 The UTF-8 encoder and the surrogate rules of src/textEncoding.ts, and the hand-written encoder of
 src/api/transport.ts. `encodeURIComponent` is modelled by its definition in ECMA-262.
 */
module TextEncoding {
  import opened Common
  import opened Utf8Spec
  import opened TextDecoding

  type Text = seq<Unit>

  // ----- UTF-16 -----

  predicate IsHigh(u: int) { 0xD800 <= u <= 0xDBFF }

  predicate IsLow(u: int) { 0xDC00 <= u <= 0xDFFF }

  predicate IsLone(cp: int) { 0xD800 <= cp <= 0xDFFF }

  type CodePoint = v: int | 0 <= v <= 0x10FFFF

  /** Whether the text begins with a surrogate pair. */
  predicate StartsWithPair(text: Text) {
    |text| > 1 && IsHigh(text[0]) && IsLow(text[1])
  }

  function PairValue(high: Unit, low: Unit): CodePoint
    requires IsHigh(high) && IsLow(low)
  {
    0x10000 + (high - 0xD800) * 0x400 + (low - 0xDC00)
  }

  /** The code points of a string; an unpaired surrogate stands for itself. */
  function CodePoints(text: Text): seq<CodePoint> {
    if text == [] then []
    else if StartsWithPair(text) then [PairValue(text[0], text[1])] + CodePoints(text[2..])
    else [text[0]] + CodePoints(text[1..])
  }

  function TextOfCodePoints(cps: seq<CodePoint>): Text {
    if cps == [] then [] else Units(cps[0]) + TextOfCodePoints(cps[1..])
  }

  predicate AllScalars(cps: seq<CodePoint>) {
    cps == [] || (IsScalar(cps[0]) && AllScalars(cps[1..]))
  }

  function ReplaceLone(cps: seq<CodePoint>): seq<CodePoint> {
    if cps == [] then [] else [if IsLone(cps[0]) then 0xFFFD else cps[0]] + ReplaceLone(cps[1..])
  }

  lemma PairUnits(high: Unit, low: Unit)
    requires IsHigh(high) && IsLow(low)
    ensures Units(PairValue(high, low)) == [high, low]
    ensures IsScalar(PairValue(high, low))
  {
  }

  lemma {:induction false} TextRoundTrip(text: Text)
    ensures TextOfCodePoints(CodePoints(text)) == text
    decreases |text|
  {
    if text != [] {
      if StartsWithPair(text) {
        PairUnits(text[0], text[1]);
        TextRoundTrip(text[2..]);
        assert CodePoints(text)[1..] == CodePoints(text[2..]);
      } else {
        TextRoundTrip(text[1..]);
        assert CodePoints(text)[1..] == CodePoints(text[1..]);
      }
    }
  }

  lemma {:induction false} CodePointsRoundTrip(cps: seq<CodePoint>)
    requires AllScalars(cps)
    ensures CodePoints(TextOfCodePoints(cps)) == cps
    decreases |cps|
  {
    if cps != [] {
      CodePointsRoundTrip(cps[1..]);
      var text := TextOfCodePoints(cps);
      var n := |Units(cps[0])|;
      assert text[n..] == TextOfCodePoints(cps[1..]);
      if n == 2 {
        assert text[0] == 0xD800 + (cps[0] - 0x10000) / 0x400 && text[1] == 0xDC00 + (cps[0] - 0x10000) % 0x400;
        assert StartsWithPair(text) && PairValue(text[0], text[1]) == cps[0];
      } else {
        assert text[0] == cps[0];
      }
    }
  }

  // ----- Replacing lone surrogates -----

  /** Every unpaired surrogate replaced, everything else untouched. */
  function Replaced(text: Text): Text {
    if text == [] then []
    else if StartsWithPair(text) then text[..2] + Replaced(text[2..])
    else [if IsLone(text[0]) then REPLACEMENT else text[0]] + Replaced(text[1..])
  }

  lemma {:induction false} ReplacedCodePoints(text: Text)
    ensures CodePoints(Replaced(text)) == ReplaceLone(CodePoints(text))
    ensures AllScalars(CodePoints(Replaced(text)))
    decreases |text|
  {
    if text != [] {
      var r := Replaced(text);
      if StartsWithPair(text) {
        ReplacedCodePoints(text[2..]);
        PairUnits(text[0], text[1]);
        assert r[2..] == Replaced(text[2..]) && StartsWithPair(r);
        assert CodePoints(text)[1..] == CodePoints(text[2..]);
        assert CodePoints(r)[1..] == CodePoints(Replaced(text[2..]));
      } else {
        ReplacedCodePoints(text[1..]);
        assert r[1..] == Replaced(text[1..]) && !IsHigh(r[0]);
        assert CodePoints(text)[1..] == CodePoints(text[1..]);
        assert CodePoints(r)[1..] == CodePoints(Replaced(text[1..]));
      }
    }
  }

  /** `checkUtf8`: nothing was replaced, which is exactly the absence of unpaired surrogates. */
  lemma {:induction false} NothingReplacedIff(text: Text)
    ensures Replaced(text) == text <==> AllScalars(CodePoints(text))
    decreases |text|
  {
    if text != [] {
      if StartsWithPair(text) {
        NothingReplacedIff(text[2..]);
        PairUnits(text[0], text[1]);
        assert CodePoints(text)[1..] == CodePoints(text[2..]);
        assert text == text[..2] + text[2..];
      } else {
        NothingReplacedIff(text[1..]);
        assert CodePoints(text)[1..] == CodePoints(text[1..]);
        assert text == [text[0]] + text[1..];
      }
    }
  }

  /** `out` and the slice not yet copied are the replaced text of the first `i` units. */
  ghost predicate Scanned(text: Text, out: Text, copiedUpTo: nat, i: nat) {
    && copiedUpTo <= i <= |text|
    && (copiedUpTo == 0 ==> out == [])
    && Replaced(text) == out + text[copiedUpTo..i] + Replaced(text[i..])
  }

  /** The next `width` units stay, or one unit becomes `piece`: either way the replaced text starts with `piece`. */
  lemma ScanStep(text: Text, i: nat) returns (width: nat, piece: Text)
    requires i < |text|
    ensures width == (if StartsWithPair(text[i..]) then 2 else 1) && i + width <= |text|
    ensures Replaced(text[i..]) == piece + Replaced(text[i + width..])
    ensures piece == if width == 1 && IsLone(text[i]) then [REPLACEMENT] else text[i..i + width]
  {
    width := if StartsWithPair(text[i..]) then 2 else 1;
    assert text[i..][width..] == text[i + width..];
    assert text[i..][..width] == text[i..i + width];
    piece := if width == 1 && IsLone(text[i]) then [REPLACEMENT] else text[i..i + width];
  }

  lemma ScanKeeps(text: Text, out: Text, copiedUpTo: nat, i: nat, width: nat)
    requires Scanned(text, out, copiedUpTo, i) && i + width <= |text|
    requires Replaced(text[i..]) == text[i..i + width] + Replaced(text[i + width..])
    ensures Scanned(text, out, copiedUpTo, i + width)
  {
    assert text[copiedUpTo..i + width] == text[copiedUpTo..i] + text[i..i + width];
  }

  lemma ScanReplaces(text: Text, out: Text, copiedUpTo: nat, i: nat)
    requires Scanned(text, out, copiedUpTo, i) && i < |text|
    requires Replaced(text[i..]) == [REPLACEMENT] + Replaced(text[i + 1..])
    ensures Scanned(text, out + text[copiedUpTo..i] + [REPLACEMENT], i + 1, i + 1)
  {
    assert text[i + 1..i + 1] == [];
  }

  lemma ScanStarts(text: Text)
    ensures Scanned(text, [], 0, 0)
  {
    assert text[0..] == text && text[0..0] == [];
  }

  lemma ScanEnds(text: Text, out: Text, copiedUpTo: nat)
    requires Scanned(text, out, copiedUpTo, |text|)
    ensures Replaced(text) == (if copiedUpTo == 0 then text else out + text[copiedUpTo..])
  {
    assert text[|text|..] == [] && text[copiedUpTo..] == text[copiedUpTo..|text|];
    assert out + text[copiedUpTo..] + [] == out + text[copiedUpTo..];
  }

  /** One scan; the text between replacements is copied in slices. */
  method WithLoneSurrogatesReplaced(text: Text) returns (r: Text)
    ensures r == Replaced(text)
  {
    var out: Text := [];
    var copiedUpTo := 0;
    var i := 0;
    ScanStarts(text);
    while i < |text|
      invariant Scanned(text, out, copiedUpTo, i)
    {
      var unit := text[i];
      ghost var width, piece := ScanStep(text, i);
      if unit / 0x400 == 0x36 && i + 1 < |text| && text[i + 1] / 0x400 == 0x37 {
        ScanKeeps(text, out, copiedUpTo, i, 2);
        i := i + 2;
        continue;
      }
      if unit / 0x400 == 0x36 || unit / 0x400 == 0x37 {
        ScanReplaces(text, out, copiedUpTo, i);
        out := out + text[copiedUpTo..i] + [REPLACEMENT];
        copiedUpTo := i + 1;
      } else {
        ScanKeeps(text, out, copiedUpTo, i, 1);
      }
      i := i + 1;
    }
    ScanEnds(text, out, copiedUpTo);
    r := if copiedUpTo == 0 then text else out + text[copiedUpTo..];
  }

  method CheckUtf8(text: Text) returns (ok: bool)
    ensures ok <==> AllScalars(CodePoints(text))
  {
    var replaced := WithLoneSurrogatesReplaced(text);
    NothingReplacedIff(text);
    ok := replaced == text;
  }

  // ----- Percent-encoding -----

  /** Concatenated sequences; a surrogate gets its three-byte form. */
  function Utf8Of(cps: seq<CodePoint>): seq<Byte> {
    if cps == [] then [] else EncodeScalar(cps[0]) + Utf8Of(cps[1..])
  }

  /** The characters `encodeURIComponent` leaves alone. */
  predicate IsUnreserved(u: Unit) {
    || 0x41 <= u <= 0x5A || 0x61 <= u <= 0x7A || 0x30 <= u <= 0x39
    || u in {0x2D, 0x5F, 0x2E, 0x21, 0x7E, 0x2A, 0x27, 0x28, 0x29}
  }

  function HexDigit(n: int): Unit
    requires 0 <= n < 16
  {
    if n < 10 then 0x30 + n else 0x41 + (n - 10)
  }

  function HexValue(u: Unit): int {
    if 0x30 <= u <= 0x39 then u - 0x30
    else if 0x41 <= u <= 0x46 then u - 0x41 + 10
    else if 0x61 <= u <= 0x66 then u - 0x61 + 10
    else 0
  }

  function Escaped(bytes: seq<Byte>): Text {
    if bytes == [] then [] else [0x25, HexDigit(bytes[0] / 16), HexDigit(bytes[0] % 16)] + Escaped(bytes[1..])
  }

  /** None is the URIError for an unpaired surrogate. */
  function EncodeUriComponent(text: Text): Option<Text> {
    if text == [] then Some([])
    else
      var width := if StartsWithPair(text) then 2 else 1;
      var cp := if StartsWithPair(text) then PairValue(text[0], text[1]) else text[0];
      var rest := EncodeUriComponent(text[width..]);
      if IsLone(cp) || rest.None? then None
      else Some((if IsUnreserved(text[0]) then [text[0]] else Escaped(EncodeScalar(cp))) + rest.value)
  }

  /** Reads the escapes back: "%XX" is one byte, anything else is itself. */
  function Unescaped(encoded: Text): seq<int> {
    if encoded == [] then []
    else if encoded[0] == 0x25 && |encoded| >= 3 then
      [HexValue(encoded[1]) * 16 + HexValue(encoded[2])] + Unescaped(encoded[3..])
    else [encoded[0]] + Unescaped(encoded[1..])
  }

  lemma {:induction false} UnescapeEscaped(bytes: seq<Byte>, rest: Text)
    ensures Unescaped(Escaped(bytes) + rest) == bytes + Unescaped(rest)
    decreases |bytes|
  {
    if bytes == [] {
      assert Escaped(bytes) + rest == rest;
      assert bytes + Unescaped(rest) == Unescaped(rest);
    } else {
      UnescapeEscaped(bytes[1..], rest);
      var all := Escaped(bytes) + rest;
      assert all[3..] == Escaped(bytes[1..]) + rest;
      var b: int := bytes[0];
      assert HexValue(HexDigit(b / 16)) == b / 16 && HexValue(HexDigit(b % 16)) == b % 16;
    }
  }

  /** On text without unpaired surrogates the escapes stand for exactly its UTF-8 bytes. */
  lemma {:induction false} EscapesAreUtf8(text: Text)
    requires AllScalars(CodePoints(text))
    ensures EncodeUriComponent(text).Some?
    ensures Unescaped(EncodeUriComponent(text).value) == Utf8Of(CodePoints(text))
    decreases |text|
  {
    if text != [] {
      var width := if StartsWithPair(text) then 2 else 1;
      var cp := CodePoints(text)[0];
      assert CodePoints(text)[1..] == CodePoints(text[width..]);
      EscapesAreUtf8(text[width..]);
      var rest := EncodeUriComponent(text[width..]).value;
      var encoded := EncodeUriComponent(text).value;
      if IsUnreserved(text[0]) {
        assert encoded[1..] == rest && EncodeScalar(cp) == [text[0]];
      } else {
        UnescapeEscaped(EncodeScalar(cp), rest);
      }
    }
  }

  /** An unpaired surrogate makes `encodeURIComponent` throw, which is why it is replaced first. */
  lemma {:induction false} UriErrorIffLone(text: Text)
    ensures EncodeUriComponent(text).None? <==> !AllScalars(CodePoints(text))
    decreases |text|
  {
    if text != [] {
      var width := if StartsWithPair(text) then 2 else 1;
      assert CodePoints(text)[1..] == CodePoints(text[width..]);
      UriErrorIffLone(text[width..]);
    }
  }

  /** Every escape is complete and every other unit is ASCII, so each reads back as one byte. */
  predicate ReadsAsBytes(encoded: Text) {
    encoded == []
    || (if encoded[0] == 0x25
        then |encoded| >= 3 && HexValue(encoded[1]) * 16 + HexValue(encoded[2]) < 0x100 && ReadsAsBytes(encoded[3..])
        else encoded[0] < 0x80 && ReadsAsBytes(encoded[1..]))
  }

  lemma {:induction false} EscapedReadsAsBytes(bytes: seq<Byte>, rest: Text)
    requires ReadsAsBytes(rest)
    ensures ReadsAsBytes(Escaped(bytes) + rest)
    decreases |bytes|
  {
    if bytes == [] {
      assert Escaped(bytes) + rest == rest;
    } else {
      EscapedReadsAsBytes(bytes[1..], rest);
      assert (Escaped(bytes) + rest)[3..] == Escaped(bytes[1..]) + rest;
    }
  }

  lemma {:induction false} UriReadsAsBytes(text: Text)
    requires EncodeUriComponent(text).Some?
    ensures ReadsAsBytes(EncodeUriComponent(text).value)
    decreases |text|
  {
    if text != [] {
      var width := if StartsWithPair(text) then 2 else 1;
      UriReadsAsBytes(text[width..]);
      var rest := EncodeUriComponent(text[width..]).value;
      var cp := if StartsWithPair(text) then PairValue(text[0], text[1]) else text[0];
      if IsUnreserved(text[0]) {
        assert ([text[0]] + rest)[1..] == rest;
      } else {
        EscapedReadsAsBytes(EncodeScalar(cp), rest);
      }
    }
  }

  lemma UnescapeStep(encoded: Text, i: nat) returns (width: nat, byte: Byte)
    requires i < |encoded| && ReadsAsBytes(encoded[i..])
    ensures width == (if encoded[i] == 0x25 then 3 else 1) && i + width <= |encoded|
    ensures byte == if width == 3 then HexValue(encoded[i + 1]) * 16 + HexValue(encoded[i + 2]) else encoded[i]
    ensures ReadsAsBytes(encoded[i + width..])
    ensures Unescaped(encoded[i..]) == [byte] + Unescaped(encoded[i + width..])
  {
    var rest := encoded[i..];
    width := if rest[0] == 0x25 then 3 else 1;
    assert rest[width..] == encoded[i + width..];
    byte := if width == 3 then HexValue(rest[1]) * 16 + HexValue(rest[2]) else rest[0];
  }

  lemma Regroup(read: seq<Byte>, byte: Byte, rest: seq<int>)
    ensures (read + [byte]) + rest == read + ([byte] + rest)
  {
  }

  /** Turns each escape into a byte, in a buffer as long as the escaped text. */
  method UnescapeToBytes(encoded: Text) returns (r: seq<Byte>)
    requires ReadsAsBytes(encoded)
    ensures r == Unescaped(encoded)
  {
    var bytes := new Byte[|encoded|];
    var n := 0;
    var i := 0;
    assert encoded[0..] == encoded;
    while i < |encoded|
      invariant 0 <= n <= i <= |encoded|
      invariant ReadsAsBytes(encoded[i..])
      invariant Unescaped(encoded) == bytes[..n] + Unescaped(encoded[i..])
    {
      ghost var width, byte := UnescapeStep(encoded, i);
      ghost var read := bytes[..n];
      Regroup(read, byte, Unescaped(encoded[i + width..]));
      var code := encoded[i];
      if code == 0x25 {
        // An escape stands for one byte; its two hex digits are skipped.
        bytes[n] := HexValue(encoded[i + 1]) * 16 + HexValue(encoded[i + 2]);
        i := i + 2;
      } else {
        bytes[n] := code;
      }
      n := n + 1;
      i := i + 1;
      assert bytes[..n] == read + [byte];
    }
    assert encoded[i..] == [] && bytes[..n] + [] == bytes[..n];
    r := bytes[..n];
  }

  method EncodeUtf8(text: Text) returns (r: seq<Byte>)
    ensures r == Utf8Of(CodePoints(Replaced(text)))
  {
    var replaced := WithLoneSurrogatesReplaced(text);
    ReplacedCodePoints(text);
    EscapesAreUtf8(replaced);
    UriReadsAsBytes(replaced);
    r := UnescapeToBytes(EncodeUriComponent(replaced).value);
  }

  // ----- The hand-written encoder -----

  method BitsOf(cp: int) returns (bytes: seq<Byte>)
    requires 0 <= cp <= 0x10FFFF
    ensures bytes == EncodeScalar(cp)
  {
    if cp < 0x80 {
      bytes := [cp];
    } else if cp < 0x800 {
      bytes := [0xC0 + cp / 0x40, 0x80 + cp % 0x40];
    } else if cp < 0x10000 {
      bytes := [0xE0 + cp / 0x1000, 0x80 + cp / 0x40 % 0x40, 0x80 + cp % 0x40];
    } else {
      bytes := [0xF0 + cp / 0x40000, 0x80 + cp / 0x1000 % 0x40, 0x80 + cp / 0x40 % 0x40, 0x80 + cp % 0x40];
    }
  }

  /** The code point at `i`; an unpaired surrogate is read as itself. */
  method ReadCodePoint(text: Text, i: nat) returns (width: nat, cp: CodePoint)
    requires i < |text|
    ensures i + width <= |text| && 1 <= width
    ensures Utf8Of(CodePoints(text[i..])) == EncodeScalar(cp) + Utf8Of(CodePoints(text[i + width..]))
  {
    ghost var rest := text[i..];
    width, cp := 1, text[i];
    if 0xD800 <= cp <= 0xDBFF && i + 1 < |text| {
      var lo := text[i + 1];
      if 0xDC00 <= lo <= 0xDFFF {
        cp := 0x10000 + (cp - 0xD800) * 0x400 + (lo - 0xDC00);
        width := 2;
      }
    }
    assert rest[width..] == text[i + width..];
    assert CodePoints(rest)[0] == cp && CodePoints(rest)[1..] == CodePoints(rest[width..]);
  }

  ghost predicate HandProgress(text: Text, i: nat, out: seq<Byte>) {
    i <= |text| && Utf8Of(CodePoints(text)) == out + Utf8Of(CodePoints(text[i..]))
  }

  lemma HandStarts(text: Text)
    ensures HandProgress(text, 0, [])
  {
    assert text[0..] == text;
    assert [] + Utf8Of(CodePoints(text)) == Utf8Of(CodePoints(text));
  }

  lemma HandAdvances(text: Text, i: nat, out: seq<Byte>, width: nat, bits: seq<Byte>)
    requires HandProgress(text, i, out) && i + width <= |text|
    requires Utf8Of(CodePoints(text[i..])) == bits + Utf8Of(CodePoints(text[i + width..]))
    ensures HandProgress(text, i + width, out + bits)
  {
    var tail := Utf8Of(CodePoints(text[i + width..]));
    assert out + (bits + tail) == (out + bits) + tail;
  }

  lemma HandEnds(text: Text, out: seq<Byte>)
    requires HandProgress(text, |text|, out)
    ensures out == Utf8Of(CodePoints(text))
  {
    assert text[|text|..] == [] && out + [] == out;
  }

  /** The encoder of the API transport: the same bit distribution, surrogates included. */
  method HandEncodeUtf8(text: Text) returns (out: seq<Byte>)
    ensures out == Utf8Of(CodePoints(text))
  {
    out := [];
    var i := 0;
    HandStarts(text);
    while i < |text|
      invariant HandProgress(text, i, out)
    {
      var width, cp := ReadCodePoint(text, i);
      var bits := BitsOf(cp);
      HandAdvances(text, i, out, width, bits);
      out := out + bits;
      i := i + width;
    }
    HandEnds(text, out);
  }

  // ----- Round trips -----

  /** A scalar's sequence in front of anything is taken whole, as that scalar. */
  lemma SequenceIsTaken(v: CodePoint, rest: seq<Byte>)
    requires IsScalar(v)
    ensures var bytes := EncodeScalar(v) + rest;
            ItemOf(bytes) == Scalar(v, |EncodeScalar(v)|) && bytes[|EncodeScalar(v)|..] == rest
  {
    var e := EncodeScalar(v);
    ScalarRoundTrip(v);
    assert (e + rest)[..|e|] == e;
    PrefixLengthIsUnique(e + rest, |e|);
  }

  /** Encoded code points are well-formed UTF-8 exactly when no surrogate is among them. */
  lemma {:induction false} Utf8IsWellFormedIff(cps: seq<CodePoint>)
    ensures WellFormed(Utf8Of(cps)) <==> AllScalars(cps)
    decreases |cps|
  {
    if cps != [] {
      Utf8IsWellFormedIff(cps[1..]);
      var rest := Utf8Of(cps[1..]);
      if IsScalar(cps[0]) {
        SequenceIsTaken(cps[0], rest);
      } else {
        SurrogateFormIsIllFormed(cps[0], rest);
      }
    }
  }

  /** Decoding encoded scalars gives their text and nothing bad, under either rule. */
  lemma {:induction false} DecodeOfEncoded(cps: seq<CodePoint>)
    requires AllScalars(cps)
    ensures TextOf(Items(Utf8Of(cps))) == TextOfCodePoints(cps)
    ensures WellFormed(Utf8Of(cps))
    decreases |cps|
  {
    if cps != [] {
      DecodeOfEncoded(cps[1..]);
      SequenceIsTaken(cps[0], Utf8Of(cps[1..]));
      assert Items(Utf8Of(cps))[1..] == Items(Utf8Of(cps[1..]));
    }
  }

  /**
   Decoding what `encodeUtf8` produced gives the text with its unpaired surrogates replaced, in every mode
   of both decoders; that is the text itself exactly when `checkUtf8` holds.
   */
  lemma EncodeThenDecode(text: Text, fatal: bool)
    ensures var bytes := Utf8Of(CodePoints(Replaced(text)));
            && Decoded(Items(bytes), fatal) == Ok(Replaced(text))
            && Decoded(PerByteItems(bytes), fatal) == Ok(Replaced(text))
            && (Decoded(Items(bytes), fatal) == Ok(text) <==> AllScalars(CodePoints(text)))
  {
    var cps := CodePoints(Replaced(text));
    ReplacedCodePoints(text);
    DecodeOfEncoded(cps);
    TextRoundTrip(Replaced(text));
    NothingReplacedIff(text);
    BadIffIllFormed(Utf8Of(cps));
    DecodersAgree(Utf8Of(cps));
  }

  function Values(items: seq<Item>): seq<CodePoint> {
    if items == [] then []
    else [if items[0].Scalar? && IsScalar(items[0].value) then items[0].value else REPLACEMENT] + Values(items[1..])
  }

  lemma {:induction false} DecodedTextIsScalars(items: seq<Item>)
    ensures TextOf(items) == TextOfCodePoints(Values(items)) && AllScalars(Values(items))
    decreases |items|
  {
    if items != [] {
      DecodedTextIsScalars(items[1..]);
      assert Values(items)[1..] == Values(items[1..]);
    }
  }

  lemma {:induction false} WellFormedReencodes(bytes: seq<Byte>)
    requires WellFormed(bytes)
    ensures Utf8Of(Values(Items(bytes))) == bytes
    decreases |bytes|
  {
    if bytes != [] {
      var n := PrefixLength(bytes);
      WellFormedReencodes(bytes[n..]);
      FirstReencodes(bytes, n);
      assert bytes == bytes[..n] + bytes[n..];
    }
  }

  lemma ValuesCons(item: Item, items: seq<Item>)
    requires item.Scalar? && IsScalar(item.value)
    ensures Values([item] + items) == [item.value] + Values(items)
    ensures Utf8Of([item.value] + Values(items)) == EncodeScalar(item.value) + Utf8Of(Values(items))
  {
    assert ([item] + items)[1..] == items;
    assert ([item.value] + Values(items))[1..] == Values(items);
  }

  lemma FirstReencodes(bytes: seq<Byte>, n: nat)
    requires bytes != [] && n == PrefixLength(bytes) > 0
    ensures Utf8Of(Values(Items(bytes))) == bytes[..n] + Utf8Of(Values(Items(bytes[n..])))
  {
    SequenceRoundTrip(bytes[..n]);
    assert Value(bytes[..n], n) == Value(bytes, n);
    ValuesCons(ItemOf(bytes), Items(bytes[n..]));
  }

  /** Whatever items a decoder finds, its text encodes back to the bytes only if these were well-formed. */
  lemma ReencodedIsWellFormed(items: seq<Item>)
    ensures Utf8Of(CodePoints(Replaced(TextOf(items)))) == Utf8Of(Values(items))
    ensures WellFormed(Utf8Of(Values(items)))
  {
    DecodedTextIsScalars(items);
    CodePointsRoundTrip(Values(items));
    NothingReplacedIff(TextOf(items));
    Utf8IsWellFormedIff(Values(items));
  }

  /**
   Decoding a byte sequence, either way, and encoding the text again gives it back exactly when it was
   well-formed.
   */
  lemma DecodeThenEncode(bytes: seq<Byte>)
    ensures Utf8Of(CodePoints(Replaced(TextOf(Items(bytes))))) == bytes <==> WellFormed(bytes)
    ensures Utf8Of(CodePoints(Replaced(TextOf(PerByteItems(bytes))))) == bytes <==> WellFormed(bytes)
  {
    ReencodedIsWellFormed(Items(bytes));
    ReencodedIsWellFormed(PerByteItems(bytes));
    if WellFormed(bytes) {
      WellFormedReencodes(bytes);
      BadIffIllFormed(bytes);
      PerByteIsExpansion(bytes);
      NothingToExpand(Items(bytes));
    }
  }

  /** The two encoders agree on exactly the strings that pass `checkUtf8`. */
  lemma EncodersAgreeIff(text: Text)
    ensures Utf8Of(CodePoints(text)) == Utf8Of(CodePoints(Replaced(text))) <==> AllScalars(CodePoints(text))
  {
    ReplacedCodePoints(text);
    NothingReplacedIff(text);
    Utf8IsWellFormedIff(CodePoints(text));
    Utf8IsWellFormedIff(CodePoints(Replaced(text)));
  }
}
