/** The two UTF-8 decoders of src/textEncoding.ts. */
module TextDecoding {
  import opened Common
  import opened Utf8Spec

  datatype DecodeError = InvalidEncoding

  /** `String.fromCodePoint`. */
  function Units(cp: int): seq<Unit>
    requires 0 <= cp <= 0x10FFFF
  {
    if cp < 0x10000 then [cp] else [0xD800 + (cp - 0x10000) / 0x400, 0xDC00 + (cp - 0x10000) % 0x400]
  }

  function ItemText(i: Item): seq<Unit> {
    if i.Scalar? && IsScalar(i.value) then Units(i.value) else [REPLACEMENT]
  }

  /** The text of a run of items: a replacement character for every bad one. */
  function TextOf(items: seq<Item>): seq<Unit> {
    if items == [] then [] else ItemText(items[0]) + TextOf(items[1..])
  }

  function Decoded(items: seq<Item>, fatal: bool): Result<seq<Unit>, DecodeError> {
    if fatal && AnyBad(items) then Err(InvalidEncoding) else Ok(TextOf(items))
  }

  // ----- Reading one sequence -----

  /** The value gathered from the first `j` bytes of an `n`-byte sequence, masks written as remainders. */
  function Gathered(s: seq<Byte>, n: nat, j: nat): int
    requires 1 <= j <= |s| && 1 <= n <= 4
  {
    if j == 1 then
      var lead: int := s[0];
      if n == 1 then lead else if n == 2 then lead % 0x20 else if n == 3 then lead % 0x10 else lead % 0x08
    else Gathered(s, n, j - 1) * 0x40 + s[j - 1] % 0x40
  }

  lemma GatheredIsValue(s: seq<Byte>, n: nat)
    requires 1 <= n <= 4 && n <= |s|
    ensures Gathered(s, n, n) == Value(s, n)
  {
    if n >= 2 {
      assert Gathered(s, n, 2) == Gathered(s, n, 1) * 0x40 + s[1] % 0x40;
    }
    if n >= 3 {
      assert Gathered(s, n, 3) == Gathered(s, n, 2) * 0x40 + s[2] % 0x40;
    }
    if n == 4 {
      assert Gathered(s, n, 4) == Gathered(s, n, 3) * 0x40 + s[3] % 0x40;
    }
  }

  /** The length the lead byte announces to the per-byte decoder; 0 for a byte that starts nothing. */
  function Announced(lead: Byte): nat {
    if lead < 0x80 then 1 else if lead < 0xC2 then 0 else if lead < 0xE0 then 2
    else if lead < 0xF0 then 3 else if lead < 0xF8 then 4 else 0
  }

  predicate AllContinue(s: seq<Byte>, n: nat) {
    n <= |s| && forall k :: 1 <= k < n ==> IsContinuation(s[k])
  }

  /** The value checks of the per-byte decoder: shortest form, in range, no surrogate. */
  predicate ValueAllowed(n: nat, cp: int) {
    !(n == 2 && cp < 0x80) && !(n == 3 && cp < 0x800) && !(n == 4 && cp < 0x10000)
    && cp <= 0x10FFFF && !(0xD800 <= cp <= 0xDFFF)
  }

  lemma ThreeByteChecks(lead: Byte, b: Byte, c: Byte)
    requires 0xE0 <= lead <= 0xEF && IsContinuation(b) && IsContinuation(c)
    ensures ValueAllowed(3, (lead as int % 0x10 * 0x40 + b % 0x40) * 0x40 + c % 0x40) <==> SecondFits(lead, b)
  {
    var x, y, z := lead as int % 0x10, b as int % 0x40, c as int % 0x40;
    assert lead == 0xE0 + x && b == 0x80 + y;
  }

  lemma FourByteChecks(lead: Byte, b: Byte, c: Byte, d: Byte)
    requires 0xF0 <= lead <= 0xF7 && IsContinuation(b) && IsContinuation(c) && IsContinuation(d)
    ensures ValueAllowed(4, ((lead as int % 0x08 * 0x40 + b % 0x40) * 0x40 + c % 0x40) * 0x40 + d % 0x40)
            <==> lead <= 0xF4 && SecondFits(lead, b)
  {
    var w, x, y, z := lead as int % 0x08, b as int % 0x40, c as int % 0x40, d as int % 0x40;
    assert lead == 0xF0 + w && b == 0x80 + x;
  }

  /** The announced length with plain continuation bytes and the value checks accept exactly Table 3-7. */
  lemma ChecksAreTheTable(s: seq<Byte>)
    requires s != [] && Announced(s[0]) > 0
    ensures var n := Announced(s[0]);
            PrefixLength(s) == if AllContinue(s, n) && ValueAllowed(n, Value(s, n)) then n else 0
  {
    var n := Announced(s[0]);
    if AllContinue(s, n) {
      if n == 3 {
        ThreeByteChecks(s[0], s[1], s[2]);
      } else if n == 4 {
        FourByteChecks(s[0], s[1], s[2], s[3]);
      }
    }
  }

  // ----- Taking items -----

  /** What a rest of the input still gives: its text, and whether anything in it is replaced. */
  datatype Rest = Rest(text: seq<Unit>, bad: bool)

  function RestOf(items: seq<Item>): Rest {
    Rest(TextOf(items), AnyBad(items))
  }

  function Before(i: Item, after: Rest): Rest {
    Rest(ItemText(i) + after.text, i.Bad? || after.bad)
  }

  function Ended(all: Rest, fatal: bool): Result<seq<Unit>, DecodeError> {
    if fatal && all.bad then Err(InvalidEncoding) else Ok(all.text)
  }

  /** `out` is the text up to `rest`, and a fatal decoder has met nothing bad in it. */
  ghost predicate Reaches(all: Rest, out: seq<Unit>, rest: Rest, fatal: bool) {
    all.text == out + rest.text && (fatal ==> all.bad == rest.bad)
  }

  /** A bad item ends a fatal decoder; every other item is appended. */
  lemma ItemTaken(all: Rest, out: seq<Unit>, item: Item, after: Rest, fatal: bool)
    requires Reaches(all, out, Before(item, after), fatal)
    ensures fatal && item.Bad? ==> Ended(all, fatal) == Err(InvalidEncoding)
    ensures !(fatal && item.Bad?) ==> Reaches(all, out + ItemText(item), after, fatal)
  {
    assert out + (ItemText(item) + after.text) == (out + ItemText(item)) + after.text;
  }

  lemma StartReaches(all: Rest, fatal: bool)
    ensures Reaches(all, [], all, fatal)
  {
    assert [] + all.text == all.text;
  }

  lemma EndReaches(all: Rest, out: seq<Unit>, fatal: bool)
    requires Reaches(all, out, RestOf([]), fatal)
    ensures Ended(all, fatal) == Ok(out)
  {
    assert out + [] == out;
  }

  lemma FirstItem(items: seq<Item>, i: Item, after: seq<Item>)
    requires items == [i] + after
    ensures RestOf(items) == Before(i, RestOf(after))
  {
    assert items[1..] == after;
  }

  lemma ItemIsScalar(rest: seq<Byte>)
    requires rest != [] && PrefixLength(rest) > 0
    ensures IsScalar(Value(rest, PrefixLength(rest)))
  {
    var n := PrefixLength(rest);
    SequenceRoundTrip(rest[..n]);
    assert Value(rest[..n], n) == Value(rest, n);
  }

  // ----- One replacement per byte -----

  function PerByteItemOf(bytes: seq<Byte>): (i: Item)
    requires bytes != []
    ensures 0 < i.width <= |bytes|
  {
    var n := PrefixLength(bytes);
    if n > 0 then Scalar(Value(bytes, n), n) else Bad(1)
  }

  lemma PerByteStep(bytes: seq<Byte>, i: nat, next: nat, item: Item, rest: Rest) returns (after: Rest)
    requires i < |bytes| && item == PerByteItemOf(bytes[i..]) && next == i + item.width
        && rest == RestOf(PerByteItems(bytes[i..]))
    ensures i < next <= |bytes| && after == RestOf(PerByteItems(bytes[next..])) && rest == Before(item, after)
  {
    assert bytes[i..][item.width..] == bytes[next..];
    FirstItem(PerByteItems(bytes[i..]), item, PerByteItems(bytes[next..]));
    after := RestOf(PerByteItems(bytes[next..]));
  }

  /** The continuation loop: whether the tail continues, and the value gathered. */
  method ReadContinuations(bytes: seq<Byte>, i: nat, length: nat, lead: int) returns (valid: bool, cp: int)
    requires 1 <= length <= 4 && i + length <= |bytes|
    requires lead == Gathered(bytes[i..], length, 1)
    ensures valid == AllContinue(bytes[i..], length)
    ensures valid ==> cp == Value(bytes[i..], length)
  {
    ghost var rest := bytes[i..];
    valid, cp := true, lead;
    for j := 1 to length
      invariant valid && AllContinue(rest, j) && cp == Gathered(rest, length, j)
    {
      var b := bytes[i + j];
      assert b == rest[j];
      if b / 0x40 != 2 {
        return false, cp;
      }
      cp := cp * 0x40 + b % 0x40;
    }
    GatheredIsValue(rest, length);
  }

  /** Reads the sequence at `i` if there is one. */
  method ReadSequence(bytes: seq<Byte>, i: nat) returns (length: nat, cp: int)
    requires i < |bytes|
    ensures length == PrefixLength(bytes[i..])
    ensures length > 0 ==> cp == Value(bytes[i..], length)
  {
    var first := bytes[i];
    assert first == bytes[i..][0];
    if first < 0x80 {
      return 1, first;
    } else if first < 0xC2 {
      return 0, 0;
    } else if first < 0xE0 {
      length, cp := 2, first as int % 0x20;
    } else if first < 0xF0 {
      length, cp := 3, first as int % 0x10;
    } else if first < 0xF8 {
      length, cp := 4, first as int % 0x08;
    } else {
      return 0, 0;
    }
    ChecksAreTheTable(bytes[i..]);
    if i + length > |bytes| {
      return 0, 0;
    }
    var valid;
    valid, cp := ReadContinuations(bytes, i, length, cp);
    if !valid
       || (length == 2 && cp < 0x80) || (length == 3 && cp < 0x800) || (length == 4 && cp < 0x10000)
       || cp > 0x10FFFF || 0xD800 <= cp <= 0xDFFF {
      return 0, 0;
    }
  }

  method PerBytePiece(bytes: seq<Byte>, i: nat, fatal: bool)
    returns (piece: Option<seq<Unit>>, next: nat, ghost item: Item)
    requires i < |bytes|
    ensures item == PerByteItemOf(bytes[i..]) && next == i + item.width
    ensures piece == if fatal && item.Bad? then None else Some(ItemText(item))
  {
    var length, cp := ReadSequence(bytes, i);
    if length == 0 {
      return if fatal then None else Some([REPLACEMENT]), i + 1, Bad(1);
    }
    ItemIsScalar(bytes[i..]);
    return Some(Units(cp)), i + length, Scalar(cp, length);
  }

  /** One turn of the per-byte loop: what to append and where to go on, or None to throw. */
  method PerByteTurn(bytes: seq<Byte>, i: nat, fatal: bool, ghost rest: Rest)
    returns (piece: Option<seq<Unit>>, next: nat, ghost item: Item, ghost after: Rest)
    requires i < |bytes| && rest == RestOf(PerByteItems(bytes[i..]))
    ensures i < next <= |bytes| && after == RestOf(PerByteItems(bytes[next..])) && rest == Before(item, after)
    ensures piece == if fatal && item.Bad? then None else Some(ItemText(item))
  {
    piece, next, item := PerBytePiece(bytes, i, fatal);
    after := PerByteStep(bytes, i, next, item, rest);
  }

  method DecodeUtf8(bytes: seq<Byte>, fatal: bool) returns (r: Result<seq<Unit>, DecodeError>)
    ensures r == Decoded(PerByteItems(bytes), fatal)
  {
    var out: seq<Unit> := [];
    var i := 0;
    ghost var all := RestOf(PerByteItems(bytes));
    ghost var rest := all;
    StartReaches(all, fatal);
    assert bytes[0..] == bytes;
    while i < |bytes|
      invariant i <= |bytes| && rest == RestOf(PerByteItems(bytes[i..])) && Reaches(all, out, rest, fatal)
    {
      var piece, next;
      ghost var item, after;
      piece, next, item, after := PerByteTurn(bytes, i, fatal, rest);
      ItemTaken(all, out, item, after, fatal);
      if piece.None? {
        return Err(InvalidEncoding);
      }
      out := out + piece.value;
      i, rest := next, after;
    }
    EndReaches(all, out, fatal);
    r := Ok(out);
  }

  // ----- One replacement per maximal subpart -----

  /** The window of the second byte, and of every later one. */
  predicate InRange(s: seq<Byte>, j: nat)
    requires 1 <= j < |s|
  {
    if j == 1 then SecondFits(s[0], s[1]) else IsContinuation(s[j])
  }

  predicate Accepted(s: seq<Byte>, j: nat) {
    1 <= j <= |s| && forall k :: 1 <= k < j ==> InRange(s, k)
  }

  /** Walking the windows finds the whole sequence, or stops exactly after the maximal subpart. */
  lemma WalkFindsItem(s: seq<Byte>, n: nat, seen: nat)
    requires s != [] && 0xC2 <= s[0] <= 0xF4 && n == Announced(s[0])
    requires 1 <= seen <= n && Accepted(s, seen)
    requires seen < n ==> seen == |s| || !InRange(s, seen)
    ensures seen == n ==> PrefixLength(s) == n
    ensures seen < n ==> PrefixLength(s) == 0 && SubpartLength(s) == seen
  {
    assert seen > 1 ==> InRange(s, 1);
    assert seen > 2 ==> InRange(s, 2);
    assert seen > 3 ==> InRange(s, 3);
  }

  lemma ItemStep(bytes: seq<Byte>, i: nat, next: nat, item: Item, rest: Rest) returns (after: Rest)
    requires i < |bytes| && item == ItemOf(bytes[i..]) && next == i + item.width && rest == RestOf(Items(bytes[i..]))
    ensures i < next <= |bytes| && after == RestOf(Items(bytes[next..])) && rest == Before(item, after)
  {
    assert bytes[i..][item.width..] == bytes[next..];
    FirstItem(Items(bytes[i..]), item, Items(bytes[next..]));
    after := RestOf(Items(bytes[next..]));
  }

  /** The continuation loop with its narrowing window; `seen` bytes belong to the sequence or the subpart. */
  method WalkSubpart(bytes: seq<Byte>, i: nat, length: nat, lead: int, lowest: int, highest: int)
    returns (seen: nat, cp: int)
    requires i < |bytes| && 0xC2 <= bytes[i] <= 0xF4 && length == Announced(bytes[i])
    requires lead == Gathered(bytes[i..], length, 1)
    requires forall b: Byte :: lowest <= b <= highest <==> SecondFits(bytes[i], b)
    ensures 1 <= seen <= length
    ensures seen == length ==> PrefixLength(bytes[i..]) == length && cp == Value(bytes[i..], length)
    ensures seen < length ==> PrefixLength(bytes[i..]) == 0 && SubpartLength(bytes[i..]) == seen
  {
    ghost var rest := bytes[i..];
    var lower, upper := lowest, highest;
    seen, cp := 1, lead;
    while seen < length
      invariant 1 <= seen <= length && Accepted(rest, seen)
      invariant cp == Gathered(rest, length, seen)
      invariant seen == 1 ==> lower == lowest && upper == highest
      invariant seen > 1 ==> lower == 0x80 && upper == 0xBF
    {
      if i + seen >= |bytes| {
        break;
      }
      var b := bytes[i + seen];
      assert b == rest[seen];
      if b < lower || b > upper {
        break;
      }
      cp := cp * 0x40 + b % 0x40;
      lower, upper := 0x80, 0xBF;
      seen := seen + 1;
    }
    WalkFindsItem(rest, length, seen);
    if seen == length {
      GatheredIsValue(rest, length);
    }
  }

  /** What the lead byte announces, and the window it leaves its second byte; length 0 for no lead byte. */
  method ReadLead(first: Byte) returns (length: nat, cp: int, lower: int, upper: int)
    ensures length == if first < 0x80 || 0xC2 <= first <= 0xF4 then Announced(first) else 0
    ensures length > 0 ==> cp == Gathered([first], length, 1)
    ensures length > 1 ==> forall b: Byte :: lower <= b <= upper <==> SecondFits(first, b)
  {
    length, cp, lower, upper := 0, 0, 0x80, 0xBF;
    if first < 0x80 {
      length, cp := 1, first;
    } else if 0xC2 <= first <= 0xDF {
      length, cp := 2, first as int % 0x20;
    } else if 0xE0 <= first <= 0xEF {
      if first == 0xE0 {
        lower := 0xA0; // anything lower is overlong
      }
      if first == 0xED {
        upper := 0x9F; // anything higher is a surrogate
      }
      length, cp := 3, first as int % 0x10;
    } else if 0xF0 <= first <= 0xF4 {
      if first == 0xF0 {
        lower := 0x90; // anything lower is overlong
      }
      if first == 0xF4 {
        upper := 0x8F; // anything higher is above U+10FFFF
      }
      length, cp := 4, first as int % 0x08;
    }
  }

  /** Reads the sequence at `i`, or the maximal subpart when there is none. */
  method ReadItem(bytes: seq<Byte>, i: nat) returns (complete: bool, width: nat, cp: int)
    requires i < |bytes|
    ensures complete ==> width == PrefixLength(bytes[i..]) > 0 && cp == Value(bytes[i..], width)
    ensures !complete ==> PrefixLength(bytes[i..]) == 0 && width == SubpartLength(bytes[i..])
  {
    assert bytes[i] == bytes[i..][0];
    var length, lower, upper;
    length, cp, lower, upper := ReadLead(bytes[i]);
    width := 1;
    if length > 1 {
      width, cp := WalkSubpart(bytes, i, length, cp, lower, upper);
    }
    complete := width == length;
  }

  /** What the item at `i` adds to the text, or None to throw. */
  method SubpartPiece(bytes: seq<Byte>, i: nat, fatal: bool)
    returns (piece: Option<seq<Unit>>, next: nat, ghost item: Item)
    requires i < |bytes|
    ensures item == ItemOf(bytes[i..]) && next == i + item.width
    ensures piece == if fatal && item.Bad? then None else Some(ItemText(item))
  {
    var complete, width, cp := ReadItem(bytes, i);
    next := i + width;
    if complete {
      ItemIsScalar(bytes[i..]);
      item := Scalar(cp, width);
      piece := Some(Units(cp));
    } else {
      item := Bad(width);
      piece := if fatal then None else Some([REPLACEMENT]);
    }
  }

  /** One turn of the maximal-subpart loop: what to append and where to go on, or None to throw. */
  method SubpartTurn(bytes: seq<Byte>, i: nat, fatal: bool, ghost rest: Rest)
    returns (piece: Option<seq<Unit>>, next: nat, ghost item: Item, ghost after: Rest)
    requires i < |bytes| && rest == RestOf(Items(bytes[i..]))
    ensures i < next <= |bytes| && after == RestOf(Items(bytes[next..])) && rest == Before(item, after)
    ensures piece == if fatal && item.Bad? then None else Some(ItemText(item))
  {
    piece, next, item := SubpartPiece(bytes, i, fatal);
    after := ItemStep(bytes, i, next, item, rest);
  }

  method DecodeUtf8MaximalSubpart(bytes: seq<Byte>, fatal: bool) returns (r: Result<seq<Unit>, DecodeError>)
    ensures r == Decoded(Items(bytes), fatal)
  {
    var out: seq<Unit> := [];
    var i := 0;
    ghost var all := RestOf(Items(bytes));
    ghost var rest := all;
    StartReaches(all, fatal);
    assert bytes[0..] == bytes;
    while i < |bytes|
      invariant i <= |bytes| && rest == RestOf(Items(bytes[i..])) && Reaches(all, out, rest, fatal)
    {
      var piece, next;
      ghost var item, after;
      piece, next, item, after := SubpartTurn(bytes, i, fatal, rest);
      ItemTaken(all, out, item, after, fatal);
      if piece.None? {
        return Err(InvalidEncoding);
      }
      out := out + piece.value;
      i, rest := next, after;
    }
    EndReaches(all, out, fatal);
    r := Ok(out);
  }

  // ----- What the two decoders promise -----

  function OutputText(outputs: seq<Output>): seq<Unit> {
    if outputs == [] then []
    else
      (if outputs[0].CodePoint? && IsScalar(outputs[0].value) then Units(outputs[0].value) else [0xFFFD])
      + OutputText(outputs[1..])
  }

  predicate AnyError(outputs: seq<Output>) {
    outputs != [] && (outputs[0].Error? || AnyError(outputs[1..]))
  }

  lemma {:induction false} TextOfOutputs(items: seq<Item>)
    ensures OutputText(OutputsOf(items)) == TextOf(items)
    ensures AnyError(OutputsOf(items)) == AnyBad(items)
    decreases |items|
  {
    if items != [] {
      TextOfOutputs(items[1..]);
      assert OutputsOf(items)[1..] == OutputsOf(items[1..]);
    }
  }

  /**
   The maximal-subpart decoder is the decoder of section 8.1.1 of the WHATWG Encoding Standard on every
   input: the same text in replacement mode, and in fatal mode an error exactly when that decoder errs.
   */
  lemma MaximalSubpartIsWhatwg(bytes: seq<Byte>, fatal: bool)
    ensures Decoded(Items(bytes), fatal) ==
            if fatal && AnyError(Whatwg(FRESH, bytes)) then Err(InvalidEncoding)
                else Ok(OutputText(Whatwg(FRESH, bytes)))
  {
    ItemsAreWhatwg(bytes);
    TextOfOutputs(Items(bytes));
  }

  /** Both fatal modes fail on exactly the ill-formed inputs; on the others the two decoders agree. */
  lemma DecodersAgree(bytes: seq<Byte>)
    ensures Decoded(PerByteItems(bytes), true) == Decoded(Items(bytes), true)
    ensures Decoded(Items(bytes), true).Err? <==> !WellFormed(bytes)
    ensures WellFormed(bytes) ==> Decoded(PerByteItems(bytes), false) == Decoded(Items(bytes), false)
  {
    BadIffIllFormed(bytes);
    PerByteIsExpansion(bytes);
    if WellFormed(bytes) {
      NothingToExpand(Items(bytes));
    }
  }

  lemma {:induction false} NothingToExpand(items: seq<Item>)
    requires !AnyBad(items)
    ensures Expand(items) == items
    decreases |items|
  {
    if items != [] {
      NothingToExpand(items[1..]);
    }
  }
}
