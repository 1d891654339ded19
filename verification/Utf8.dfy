/**
  * The hand-written UTF-8 codec and the separate byte counter. Shifts and masks
  * on these non-negative values are written as division, remainder and sum.
  */
module Utf8 {
  import opened Units

  type Byte = b: int | 0 <= b < 0x100

  type Bytes = seq<Byte>

  const REPLACEMENT: Unit := 0xfffd

  predicate IsHigh(u: int) { 0xd800 <= u <= 0xdbff }

  predicate IsLow(u: int) { 0xdc00 <= u <= 0xdfff }

  predicate IsScalar(code: int) {
    0 <= code <= 0x10ffff && !IsHigh(code) && !IsLow(code)
  }

  predicate LeadsPair(s: Text) {
    |s| > 1 && IsHigh(s[0]) && IsLow(s[1])
  }

  /** How many units `codePointAt` reads at the front. */
  function PointWidth(s: Text): nat {
    if LeadsPair(s) then 2 else 1
  }

  /** The code point encoded for the front of `s`; U+FFFD for an unpaired surrogate. */
  function PointAt(s: Text): (code: int)
    requires s != []
    ensures IsScalar(code)
  {
    if LeadsPair(s) then 0x1_0000 + (s[0] - 0xd800) * 0x400 + (s[1] - 0xdc00)
    else if IsHigh(s[0]) || IsLow(s[0]) then REPLACEMENT
    else s[0]
  }

  function EncodePoint(code: int): Bytes
    requires IsScalar(code)
  {
    if code < 0x80 then [code]
    else if code < 0x800 then [0xc0 + code / 0x40, 0x80 + code % 0x40]
    else if code < 0x1_0000 then [0xe0 + code / 0x1000, 0x80 + code / 0x40 % 0x40, 0x80 + code % 0x40]
    else [0xf0 + code / 0x4_0000, 0x80 + code / 0x1000 % 0x40, 0x80 + code / 0x40 % 0x40, 0x80 + code % 0x40]
  }

  function Encode(s: Text): Bytes {
    if s == [] then [] else EncodePoint(PointAt(s)) + Encode(s[PointWidth(s)..])
  }

  function FromCodePoint(code: int): Text
    requires 0 <= code <= 0x10ffff
  {
    if code < 0x1_0000 then [code]
    else [0xd800 + (code - 0x1_0000) / 0x400, 0xdc00 + (code - 0x1_0000) % 0x400]
  }

  /** The length a first byte announces; 0 when it cannot start a sequence. */
  function Announced(first: Byte): nat {
    if first < 0x80 then 1
    else if 0xc0 <= first < 0xe0 then 2
    else if 0xe0 <= first < 0xf0 then 3
    else if 0xf0 <= first < 0xf8 then 4
    else 0
  }

  /** The bits of the code point a first byte carries. */
  function LeadBits(first: Byte): nat {
    if first < 0x80 then first
    else if first < 0xe0 then first % 0x20
    else if first < 0xf0 then first % 0x10
    else first % 0x08
  }

  predicate IsContinuation(b: Byte) { 0x80 <= b < 0xc0 }

  /** The code point after the bytes `b[..n]`, starting from a lead of `code`. */
  function Gather(code: nat, b: Bytes, n: nat): nat
    requires 1 <= n <= |b|
  {
    if n == 1 then code else Gather(code, b, n - 1) * 0x40 + b[n - 1] % 0x40
  }

  /** Whether the bytes after the first, up to `n` in all, continue it. */
  predicate AllContinue(b: Bytes, n: nat)
    requires 1 <= n <= |b|
  {
    n == 1 || (AllContinue(b, n - 1) && IsContinuation(b[n - 1]))
  }

  /** What one turn of the decoder writes, and how many bytes it uses up. */
  function DecodeStep(b: Bytes): (r: (Text, nat))
    requires b != []
    ensures 0 < r.1 <= |b|
  {
    var length := Announced(b[0]);
    if length == 0 then ([REPLACEMENT], 1)
    else if length > |b| then ([REPLACEMENT], |b|)
    else if !AllContinue(b, length) then ([REPLACEMENT], 1)
    else
      var code := Gather(LeadBits(b[0]), b, length);
      (if code > 0x10ffff then [REPLACEMENT] else FromCodePoint(code), length)
  }

  function Decode(b: Bytes): Text
    decreases |b|
  {
    if b == [] then [] else DecodeStep(b).0 + Decode(b[DecodeStep(b).1..])
  }

  /** The string with every unpaired surrogate replaced by U+FFFD. */
  function Repaired(s: Text): Text {
    if s == [] then []
    else if LeadsPair(s) then s[..2] + Repaired(s[2..])
    else [if IsHigh(s[0]) || IsLow(s[0]) then REPLACEMENT else s[0]] + Repaired(s[1..])
  }

  lemma GatherAll(lead: nat, b: Bytes)
    requires |b| > 0
    ensures Gather(lead, b, 1) == lead
    ensures |b| > 1 ==> Gather(lead, b, 2) == lead * 0x40 + b[1] % 0x40
    ensures |b| > 2 ==> Gather(lead, b, 3) == 0x40 * (0x40 * lead + b[1] % 0x40) + b[2] % 0x40
    ensures |b| > 3 ==>
              Gather(lead, b, 4) == 0x40 * (0x40 * (0x40 * lead + b[1] % 0x40) + b[2] % 0x40) + b[3] % 0x40
  {
    if |b| > 2 {
      assert Gather(lead, b, 3) == Gather(lead, b, 2) * 0x40 + b[2] % 0x40;
      if |b| > 3 {
        assert Gather(lead, b, 4) == Gather(lead, b, 3) * 0x40 + b[3] % 0x40;
      }
    }
  }

  /** Dividing by 64 twice, and three times. */
  lemma DivideAgain(n: nat)
    ensures n / 0x1000 == n / 0x40 / 0x40
  {
    var m := n / 0x40;
    assert 0x40 * m <= n < 0x40 * m + 0x40;
    assert 0x40 * (m / 0x40) <= m < 0x40 * (m / 0x40) + 0x40;
  }

  lemma DivideThrice(n: nat)
    ensures n / 0x4_0000 == n / 0x1000 / 0x40
  {
    var m := n / 0x1000;
    assert 0x1000 * m <= n < 0x1000 * m + 0x1000;
    assert 0x40 * (m / 0x40) <= m < 0x40 * (m / 0x40) + 0x40;
  }

  /** The lead byte announces how many bytes follow and keeps the top bits. */
  lemma LeadOf(code: int)
    requires IsScalar(code)
    ensures var e := EncodePoint(code);
            && Announced(e[0]) == |e|
            && LeadBits(e[0]) == (if code < 0x80 then code else if code < 0x800 then code / 0x40
                                  else if code < 0x1_0000 then code / 0x1000 else code / 0x4_0000)
            && forall k | 1 <= k < |e| :: IsContinuation(e[k])
  {
  }

  lemma GatherTwo(code: int, b: Bytes)
    requires 0x80 <= code < 0x800 && |b| >= 2 && EncodePoint(code) == b[..2]
    ensures Gather(code / 0x40, b, 2) == code
  {
    GatherAll(code / 0x40, b);
    assert b[1] == b[..2][1];
  }

  lemma ThreeParts(code: nat)
    ensures 0x40 * (0x40 * (code / 0x1000) + code / 0x40 % 0x40) + code % 0x40 == code
  {
    DivideAgain(code);
    var low := code / 0x40;
    assert 0x40 * (low / 0x40) + low % 0x40 == low;
  }

  lemma GatherThree(code: int, b: Bytes)
    requires IsScalar(code) && 0x800 <= code < 0x1_0000 && |b| >= 3 && EncodePoint(code) == b[..3]
    ensures Gather(code / 0x1000, b, 3) == code
  {
    var e := EncodePoint(code);
    assert b[1] == e[1] && b[2] == e[2];
    GatherAll(code / 0x1000, b);
    SixBits(b[1], code / 0x40 % 0x40);
    SixBits(b[2], code % 0x40);
    ThreeParts(code);
  }

  lemma FourParts(code: nat)
    ensures 0x40 * (0x40 * (0x40 * (code / 0x4_0000) + code / 0x1000 % 0x40) + code / 0x40 % 0x40) + code % 0x40 == code
  {
    DivideAgain(code);
    DivideThrice(code);
    var low, mid := code / 0x40, code / 0x1000;
    assert 0x40 * (mid / 0x40) + mid % 0x40 == mid;
    assert 0x40 * mid + low % 0x40 == low;
  }

  lemma SixBits(b: Byte, x: int)
    requires 0 <= x < 0x40 && b == 0x80 + x
    ensures b % 0x40 == x
  {
  }

  lemma GatherFour(code: int, b: Bytes)
    requires IsScalar(code) && 0x1_0000 <= code && |b| >= 4 && EncodePoint(code) == b[..4]
    ensures Gather(code / 0x4_0000, b, 4) == code
  {
    var e := EncodePoint(code);
    assert b[1] == e[1] && b[2] == e[2] && b[3] == e[3];
    GatherAll(code / 0x4_0000, b);
    SixBits(b[1], code / 0x1000 % 0x40);
    SixBits(b[2], code / 0x40 % 0x40);
    SixBits(b[3], code % 0x40);
    FourParts(code);
  }

  /** The bits of an encoded code point, put together again. */
  lemma GatherEncoded(code: int, b: Bytes)
    requires IsScalar(code) && |EncodePoint(code)| <= |b| && b[..|EncodePoint(code)|] == EncodePoint(code)
    ensures Gather(LeadBits(b[0]), b, |EncodePoint(code)|) == code
  {
    LeadOf(code);
    assert b[0] == b[..|EncodePoint(code)|][0];
    if code < 0x80 {
    } else if code < 0x800 {
      GatherTwo(code, b);
    } else if code < 0x1_0000 {
      GatherThree(code, b);
    } else {
      GatherFour(code, b);
    }
  }

  /** Decoding the encoding of one code point, with anything after it. */
  lemma DecodeOnePoint(code: int, rest: Bytes)
    requires IsScalar(code)
    ensures DecodeStep(EncodePoint(code) + rest) == (FromCodePoint(code), |EncodePoint(code)|)
  {
    var e := EncodePoint(code);
    LeadOf(code);
    assert (e + rest)[..|e|] == e;
    GatherEncoded(code, e + rest);
    assert forall k | 0 <= k < |e| :: (e + rest)[k] == e[k];
    EachContinues(e + rest, |e|);
  }

  /** Decoding inverts encoding for every UTF-16 string, up to unpaired surrogates. */
  lemma {:induction false} DecodeInvertsEncode(s: Text)
    ensures Decode(Encode(s)) == Repaired(s)
  {
    if s == [] {
    } else {
      var code, rest := PointAt(s), Encode(s[PointWidth(s)..]);
      DecodeOnePoint(code, rest);
      assert (EncodePoint(code) + rest)[|EncodePoint(code)|..] == rest;
      DecodeInvertsEncode(s[PointWidth(s)..]);
      assert LeadsPair(s) ==> FromCodePoint(code) == s[..2];
    }
  }

  // ---------- Well-formed UTF-8 (section 4 of RFC 3629) ----------

  predicate Tail(b: int) { 0x80 <= b <= 0xbf }

  /** The length of the well-formed character at the front, or 0. */
  function CharacterLength(b: Bytes): (n: nat)
    ensures n <= |b|
  {
    if |b| >= 1 && b[0] <= 0x7f then 1
    else if |b| >= 2 && 0xc2 <= b[0] <= 0xdf && Tail(b[1]) then 2
    else if |b| >= 3 && Tail(b[2]) && (
        || (b[0] == 0xe0 && 0xa0 <= b[1] <= 0xbf)
        || (0xe1 <= b[0] <= 0xec && Tail(b[1]))
        || (b[0] == 0xed && 0x80 <= b[1] <= 0x9f)
        || (0xee <= b[0] <= 0xef && Tail(b[1]))) then 3
    else if |b| >= 4 && Tail(b[2]) && Tail(b[3]) && (
        || (b[0] == 0xf0 && 0x90 <= b[1] <= 0xbf)
        || (0xf1 <= b[0] <= 0xf3 && Tail(b[1]))
        || (b[0] == 0xf4 && 0x80 <= b[1] <= 0x8f)) then 4
    else 0
  }

  predicate WellFormedUtf8(b: Bytes)
    decreases |b|
  {
    b == [] || (CharacterLength(b) > 0 && WellFormedUtf8(b[CharacterLength(b)..]))
  }

  /** No three-byte form is overlong, and none encodes a surrogate. */
  lemma ThreeByteForm(code: int)
    requires IsScalar(code) && 0x800 <= code < 0x1_0000
    ensures var high, middle := code / 0x1000, code / 0x40 % 0x40;
            0 <= high < 16 && 0 <= middle < 0x40 && (high == 0 ==> middle >= 0x20) && (high == 13 ==> middle < 0x20)
  {
    DivideAgain(code);
  }

  /** No four-byte form is overlong, and none is past the last code point. */
  lemma FourByteForm(code: int)
    requires IsScalar(code) && 0x1_0000 <= code
    ensures var high, middle := code / 0x4_0000, code / 0x1000 % 0x40;
            0 <= high <= 4 && 0 <= middle < 0x40 && (high == 0 ==> middle >= 0x10) && (high == 4 ==> middle < 0x10)
  {
    DivideThrice(code);
  }

  lemma EncodedPointIsCharacter(code: int, rest: Bytes)
    requires IsScalar(code)
    ensures CharacterLength(EncodePoint(code) + rest) == |EncodePoint(code)|
  {
    var e := EncodePoint(code);
    var b := e + rest;
    assert forall k | 0 <= k < |e| :: b[k] == e[k];
    if 0x800 <= code < 0x1_0000 {
      ThreeByteForm(code);
    } else if 0x1_0000 <= code {
      FourByteForm(code);
    }
  }

  lemma {:induction false} EncodingIsWellFormed(s: Text)
    ensures WellFormedUtf8(Encode(s))
  {
    if s == [] {
    } else {
      var code, rest := PointAt(s), Encode(s[PointWidth(s)..]);
      EncodedPointIsCharacter(code, rest);
      assert (EncodePoint(code) + rest)[|EncodePoint(code)|..] == rest;
      EncodingIsWellFormed(s[PointWidth(s)..]);
    }
  }

  lemma Push(m: nat, x: nat)
    requires x < 0x40
    ensures (0x40 * m + x) / 0x40 == m && (0x40 * m + x) % 0x40 == x
  {
  }

  lemma TwoByteCharacter(a: int, b: int) returns (code: int)
    requires 0xc2 <= a <= 0xdf && Tail(b)
    ensures IsScalar(code) && EncodePoint(code) == [a, b]
  {
    code := 0x40 * (a - 0xc0) + (b - 0x80);
    Push(a - 0xc0, b - 0x80);
  }

  lemma ThreeByteCharacter(a: int, b: int, c: int) returns (code: int)
    requires 0xe0 <= a <= 0xef && Tail(b) && Tail(c)
    requires (a == 0xe0 ==> b >= 0xa0) && (a == 0xed ==> b <= 0x9f)
    ensures IsScalar(code) && EncodePoint(code) == [a, b, c]
  {
    var high := 0x40 * (a - 0xe0) + (b - 0x80);
    code := 0x40 * high + (c - 0x80);
    Push(a - 0xe0, b - 0x80);
    Push(high, c - 0x80);
    DivideAgain(code);
  }

  lemma FourByteCharacter(a: int, b: int, c: int, d: int) returns (code: int)
    requires 0xf0 <= a <= 0xf4 && Tail(b) && Tail(c) && Tail(d)
    requires (a == 0xf0 ==> b >= 0x90) && (a == 0xf4 ==> b <= 0x8f)
    ensures IsScalar(code) && EncodePoint(code) == [a, b, c, d]
  {
    var top := 0x40 * (a - 0xf0) + (b - 0x80);
    var high := 0x40 * top + (c - 0x80);
    code := 0x40 * high + (d - 0x80);
    Push(a - 0xf0, b - 0x80);
    Push(top, c - 0x80);
    Push(high, d - 0x80);
    DivideAgain(code);
    DivideAgain(high);
    DivideThrice(code);
  }

  /** A well-formed character is the encoding of a scalar value. */
  lemma CharacterIsEncodedPoint(b: Bytes) returns (code: int)
    requires CharacterLength(b) > 0
    ensures IsScalar(code) && EncodePoint(code) == b[..CharacterLength(b)]
  {
    var n := CharacterLength(b);
    if n == 1 {
      code := b[0];
    } else if n == 2 {
      code := TwoByteCharacter(b[0], b[1]);
    } else if n == 3 {
      code := ThreeByteCharacter(b[0], b[1], b[2]);
    } else {
      code := FourByteCharacter(b[0], b[1], b[2], b[3]);
    }
  }

  lemma EncodeFromCodePoint(code: int, t: Text)
    requires IsScalar(code)
    ensures Encode(FromCodePoint(code) + t) == EncodePoint(code) + Encode(t)
  {
    var s := FromCodePoint(code) + t;
    assert PointAt(s) == code && s[PointWidth(s)..] == t;
  }

  lemma {:induction false} WellFormedIsKept(b: Bytes)
    requires WellFormedUtf8(b)
    ensures Encode(Decode(b)) == b
    decreases |b|
  {
    if b == [] {
    } else {
      var n := CharacterLength(b);
      var code := CharacterIsEncodedPoint(b);
      assert b == EncodePoint(code) + b[n..];
      DecodeOnePoint(code, b[n..]);
      EncodeFromCodePoint(code, Decode(b[n..]));
      WellFormedIsKept(b[n..]);
    }
  }

  /**
    * Bytes survive being decoded and encoded again exactly when they are
    * well-formed UTF-8. Everything else is changed, though not always to
    * U+FFFD: see `LenientDecoding`.
    */
  lemma DecodingIsExactOnWellFormed(b: Bytes)
    ensures Encode(Decode(b)) == b <==> WellFormedUtf8(b)
  {
    if WellFormedUtf8(b) {
      WellFormedIsKept(b);
    } else {
      EncodingIsWellFormed(Decode(b));
    }
  }

  lemma OverlongIsDecoded()
    ensures !WellFormedUtf8([0xc0, 0x80]) && Decode([0xc0, 0x80]) == [0x00]
  {
    var b: Bytes := [0xc0, 0x80];
    GatherAll(0, b);
    assert b[2..] == [] && Decode([]) == [];
  }

  lemma SurrogateIsDecoded()
    ensures Decode([0xed, 0xa0, 0x80]) == [0xd800]
  {
    var b: Bytes := [0xed, 0xa0, 0x80];
    GatherAll(0xd, b);
    assert DecodeStep(b) == (FromCodePoint(0xd800), 3);
    assert b[3..] == [] && Decode([]) == [];
  }

  lemma SurrogateIsMalformed()
    ensures !WellFormedUtf8([0xed, 0xa0, 0x80])
  {
  }

  /** Overlong forms and encoded surrogates are malformed, and yet decoded as code points. */
  lemma LenientDecoding()
    ensures !WellFormedUtf8([0xc0, 0x80]) && Decode([0xc0, 0x80]) == [0x00]
    ensures !WellFormedUtf8([0xed, 0xa0, 0x80]) && Decode([0xed, 0xa0, 0x80]) == [0xd800]
  {
    OverlongIsDecoded();
    SurrogateIsDecoded();
    SurrogateIsMalformed();
  }

  // ---------- The loops ----------

  method ReadPoint(value: Text, i: nat) returns (code: int, width: nat)
    requires i < |value|
    ensures code == PointAt(value[i..]) && width == PointWidth(value[i..])
  {
    code, width := value[i], 1;
    if IsHigh(code) && i + 1 < |value| && IsLow(value[i + 1]) {
      code := 0x1_0000 + (code - 0xd800) * 0x400 + (value[i + 1] - 0xdc00);
      width := 2;
    } else if IsHigh(code) || IsLow(code) {
      code := REPLACEMENT;
    }
  }

  method Utf8Encode(value: Text) returns (bytes: Bytes)
    ensures bytes == Encode(value)
  {
    bytes := [];
    var i := 0;
    ghost var left := value;
    while i < |value|
      invariant 0 <= i <= |value| && left == value[i..]
      invariant Encode(value) == bytes + Encode(left)
    {
      var code, width := ReadPoint(value, i);
      bytes := bytes + EncodePoint(code);
      i := i + width;
      left := left[width..];
    }
  }

  lemma {:induction false} NotAllContinue(b: Bytes, k: nat, n: nat)
    requires 1 <= k < n <= |b| && !IsContinuation(b[k])
    ensures !AllContinue(b, n)
  {
    if k < n - 1 {
      NotAllContinue(b, k, n - 1);
    }
  }

  lemma {:induction false} EachContinues(b: Bytes, n: nat)
    requires 1 <= n <= |b| && forall k | 1 <= k < n :: IsContinuation(b[k])
    ensures AllContinue(b, n)
  {
    if n > 1 {
      EachContinues(b, n - 1);
    }
  }

  /** The inner loop: the code point, or None at the first byte that does not continue it. */
  method ReadContinuation(b: Bytes, length: nat) returns (r: Option<nat>)
    requires 1 <= length <= |b|
    ensures r == if AllContinue(b, length) then Some(Gather(LeadBits(b[0]), b, length)) else None
  {
    var code: nat := LeadBits(b[0]);
    for k := 1 to length
      invariant code == Gather(LeadBits(b[0]), b, k)
      invariant AllContinue(b, k)
    {
      if !IsContinuation(b[k]) {
        NotAllContinue(b, k, length);
        return None;
      }
      code := code * 0x40 + b[k] % 0x40;
    }
    r := Some(code);
  }

  method DecodeAt(rest: Bytes) returns (piece: Text, used: nat)
    requires rest != []
    ensures 0 < used <= |rest| && Decode(rest) == piece + Decode(rest[used..])
  {
    var length := Announced(rest[0]);
    piece, used := [REPLACEMENT], 1;
    if length > |rest| {
      used := |rest|;
    } else if length > 0 {
      var code := ReadContinuation(rest, length);
      if code.Some? {
        used := length;
        if code.value <= 0x10ffff {
          piece := FromCodePoint(code.value);
        }
      }
    }
    assert (piece, used) == DecodeStep(rest);
  }

  lemma Advance(bytes: Bytes, i: nat, out: Text, piece: Text, used: nat)
    requires i + used <= |bytes|
    requires Decode(bytes) == out + Decode(bytes[i..])
    requires Decode(bytes[i..]) == piece + Decode(bytes[i..][used..])
    ensures Decode(bytes) == out + piece + Decode(bytes[i + used..])
  {
    assert bytes[i..][used..] == bytes[i + used..];
  }

  method Utf8Decode(bytes: Bytes) returns (out: Text)
    ensures out == Decode(bytes)
  {
    hide DecodeStep;
    out := [];
    var i := 0;
    while i < |bytes|
      invariant 0 <= i <= |bytes|
      invariant Decode(bytes) == out + Decode(bytes[i..])
    {
      var piece, used := DecodeAt(bytes[i..]);
      Advance(bytes, i, out, piece, used);
      out := out + piece;
      i := i + used;
    }
  }

  /** The counter in another file agrees with the encoder on every string. */
  method Utf8ByteLength(value: Text) returns (bytes: nat)
    ensures bytes == |Encode(value)|
  {
    bytes := 0;
    var i := 0;
    while i < |value|
      invariant 0 <= i <= |value|
      invariant |Encode(value)| == bytes + |Encode(value[i..])|
    {
      ghost var rest := value[i..];
      var code := value[i];
      var width := 1;
      if code < 0x80 {
        bytes := bytes + 1;
      } else if code < 0x800 {
        bytes := bytes + 2;
      } else if 0xd800 <= code <= 0xdbff {
        var next := if i + 1 < |value| then value[i + 1] else 0;
        if 0xdc00 <= next <= 0xdfff {
          bytes := bytes + 4;
          width := 2;
        } else {
          bytes := bytes + 3;
        }
      } else {
        bytes := bytes + 3;
      }
      assert width == PointWidth(rest) && rest[width..] == value[i + width..];
      i := i + width;
    }
  }

  // ---------- What the decoder makes of any bytes ----------

  /** A code point as the decoder writes it, or U+FFFD when there is no such code point. */
  function PointText(code: nat): Text {
    if code >= 0x11_0000 then [0xfffd]
    else if code >= 0x1_0000 then [0xd800 + (code - 0x1_0000) / 0x400, 0xdc00 + (code - 0x1_0000) % 0x400]
    else [code]
  }

  /** How many continuations a lead byte announces. */
  function Following(lead: Byte): nat {
    if lead < 0xe0 then 1 else if lead < 0xf0 then 2 else 3
  }

  predicate IsComplete(b: Bytes, n: nat) {
    n < |b| && forall k | 1 <= k <= n :: 0x80 <= b[k] < 0xc0
  }

  /** The code point of a lead and its continuations: five, four or three bits, and six bits each. */
  function CodeOf(b: Bytes): nat
    requires b != [] && 0xc0 <= b[0] < 0xf8 && IsComplete(b, Following(b[0]))
  {
    var lead: int, second: int := b[0], b[1] - 0x80;
    if lead < 0xe0 then (lead - 0xc0) * 0x40 + second
    else
      var third: int := b[2] - 0x80;
      if lead < 0xf0 then (lead - 0xe0) * 0x1000 + second * 0x40 + third
      else (lead - 0xf0) * 0x4_0000 + second * 0x1000 + third * 0x40 + (b[3] - 0x80)
  }

  lemma SixLow(b: Byte)
    requires 0x80 <= b < 0xc0
    ensures b % 0x40 == b - 0x80
  {
  }

  lemma LeadLow(lead: Byte)
    requires 0xc0 <= lead < 0xf8
    ensures LeadBits(lead) == (lead as int) - if lead < 0xe0 then 0xc0 else if lead < 0xf0 then 0xe0 else 0xf0
  {
  }

  lemma CodeIsGathered(b: Bytes)
    requires b != [] && 0xc0 <= b[0] < 0xf8 && IsComplete(b, Following(b[0]))
    ensures Gather(LeadBits(b[0]), b, Following(b[0]) + 1) == CodeOf(b)
  {
    LeadLow(b[0]);
    GatherAll(LeadBits(b[0]), b);
    SixLow(b[1]);
    if b[0] >= 0xe0 {
      SixLow(b[2]);
    }
    if b[0] >= 0xf0 {
      SixLow(b[3]);
    }
    hide Gather;
    hide LeadBits;
  }

  /** A lead byte whose continuations are all there: they are one code point. */
  lemma CompleteIsRead(b: Bytes)
    requires b != [] && 0xc0 <= b[0] < 0xf8 && IsComplete(b, Following(b[0]))
    ensures Decode(b) == PointText(CodeOf(b)) + Decode(b[Following(b[0]) + 1..])
  {
    CodeIsGathered(b);
    EachContinues(b, Following(b[0]) + 1);
    hide Gather;
    hide AllContinue;
    hide CodeOf;
  }

  /**
    * A lead byte without all its continuations: when the bytes end too early,
    * everything left becomes one U+FFFD; otherwise only the lead does.
    */
  lemma IncompleteIsReplaced(b: Bytes)
    requires b != [] && 0xc0 <= b[0] < 0xf8 && !IsComplete(b, Following(b[0]))
    ensures Decode(b) == if |b| <= Following(b[0]) then [0xfffd] else [0xfffd] + Decode(b[1..])
  {
    if |b| <= Following(b[0]) {
      assert b[|b|..] == [] && Decode([]) == [];
    } else {
      var k :| 1 <= k <= Following(b[0]) && !(0x80 <= b[k] < 0xc0);
      NotAllContinue(b, k, Following(b[0]) + 1);
    }
  }

  /** A byte that is a character by itself, and one that can start none. */
  lemma SingleByteIsRead(b: Bytes)
    requires b != [] && (b[0] < 0xc0 || b[0] >= 0xf8)
    ensures Decode(b) == [if b[0] < 0x80 then b[0] else 0xfffd] + Decode(b[1..])
  {
    if b[0] < 0x80 {
      GatherAll(LeadBits(b[0]), b);
    }
  }
}
