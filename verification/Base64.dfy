/**
  * Base64 over bytes (section 4 of RFC 4648). The decoder keeps its bits in a
  * signed 32-bit accumulator that is shifted left forever and never masked;
  * `ToInt32` is the wrap-around that every such shift performs.
  */
module Base64 {
  import opened Units
  import opened Utf8

  const PAD: Unit := 0x3d

  type Digit = d: int | 0 <= d < 64

  /** The letter of a digit in the standard alphabet. */
  function Letter(d: Digit): Unit {
    if d < 26 then 0x41 + d
    else if d < 52 then 0x61 + (d - 26)
    else if d < 62 then 0x30 + (d - 52)
    else if d == 62 then 0x2b
    else 0x2f
  }

  /** The reverse table: the digit of a letter, or -1. */
  function Reverse(c: Unit): (d: int)
    ensures d == -1 || (0 <= d < 64 && Letter(d) == c)
  {
    if 0x41 <= c <= 0x5a then c - 0x41
    else if 0x61 <= c <= 0x7a then c - 0x61 + 26
    else if 0x30 <= c <= 0x39 then c - 0x30 + 52
    else if c == 0x2b then 62
    else if c == 0x2f then 63
    else -1
  }

  lemma ReverseOfLetter(d: Digit)
    ensures Reverse(Letter(d)) == d && Letter(d) != PAD && !Skipped(Letter(d))
  {
  }

  /** Whitespace the decoder passes over. */
  predicate Skipped(c: Unit) {
    c == 0x20 || c == 0x09 || c == 0x0a || c == 0x0d
  }

  function Group(a: Byte, b: Byte, c: Byte): (Digit, Digit, Digit, Digit) {
    (a / 4, (a % 4) * 16 + b / 16, (b % 16) * 4 + c / 64, c % 64)
  }

  /** Quotient and remainder are determined by what they add up to. */
  lemma Quotient(n: int, k: int, q: int, r: int)
    requires k in {4, 16, 64, 0x100, 0x1000, 0x4_0000}
    requires n == k * q + r && 0 <= r < k
    ensures n / k == q && n % k == r
  {
    if k == 4 { assert n / 4 == q; }
    else if k == 16 { assert n / 16 == q; }
    else if k == 64 { assert n / 64 == q; }
    else if k == 0x100 { assert n / 0x100 == q; }
    else if k == 0x1000 { assert n / 0x1000 == q; }
    else { assert n / 0x4_0000 == q; }
  }

  lemma HighDigits(a1: int, a0: int, b1: int, b0: int, c: int)
    requires 0 <= a1 < 64 && 0 <= a0 < 4 && 0 <= b1 < 16 && 0 <= b0 < 16 && 0 <= c < 0x100
    ensures var triple := 0x1_0000 * (4 * a1 + a0) + 0x100 * (16 * b1 + b0) + c;
            triple / 0x4_0000 % 0x40 == a1 && triple / 0x1000 % 0x40 == a0 * 16 + b1
  {
    var triple := 0x1_0000 * (4 * a1 + a0) + 0x100 * (16 * b1 + b0) + c;
    Quotient(triple, 0x4_0000, a1, 0x1_0000 * a0 + 0x100 * (16 * b1 + b0) + c);
    Quotient(triple, 0x1000, 64 * a1 + 16 * a0 + b1, 0x100 * b0 + c);
    Quotient(64 * a1 + 16 * a0 + b1, 64, a1, 16 * a0 + b1);
  }

  lemma LowDigits(a: int, b1: int, b0: int, c1: int, c0: int)
    requires 0 <= a < 0x100 && 0 <= b1 < 16 && 0 <= b0 < 16 && 0 <= c1 < 4 && 0 <= c0 < 64
    ensures var triple := 0x1_0000 * a + 0x100 * (16 * b1 + b0) + 64 * c1 + c0;
            triple / 0x40 % 0x40 == b0 * 4 + c1 && triple % 0x40 == c0
  {
    var triple := 0x1_0000 * a + 0x100 * (16 * b1 + b0) + 64 * c1 + c0;
    Quotient(triple, 64, 0x400 * a + 64 * b1 + 4 * b0 + c1, c0);
    Quotient(0x400 * a + 64 * b1 + 4 * b0 + c1, 64, 16 * a + b1, 4 * b0 + c1);
  }

  /** The same four digits, cut out of the 24-bit number the encoder builds. */
  lemma GroupIsTriple(a: int, b: int, c: int)
    requires 0 <= a < 0x100 && 0 <= b < 0x100 && 0 <= c < 0x100
    ensures var triple := 0x1_0000 * a + 0x100 * b + c;
            Group(a, b, c)
              == (triple / 0x4_0000 % 0x40, triple / 0x1000 % 0x40, triple / 0x40 % 0x40, triple % 0x40)
  {
    HighDigits(a / 4, a % 4, b / 16, b % 16, c);
    LowDigits(a, b / 16, b % 16, c / 64, c % 64);
  }

  /** The letters of the group at the front. */
  function FirstLetters(bytes: Bytes): (letters: Text)
    requires bytes != []
  {
    var b := if |bytes| > 1 then bytes[1] else 0;
    var c := if |bytes| > 2 then bytes[2] else 0;
    var g := Group(bytes[0], b, c);
    [Letter(g.0), Letter(g.1), if |bytes| > 1 then Letter(g.2) else PAD, if |bytes| > 2 then Letter(g.3) else PAD]
  }

  function Drop3(bytes: Bytes): Bytes {
    if |bytes| > 3 then bytes[3..] else []
  }

  function Encode64(bytes: Bytes): Text
    decreases |bytes|
  {
    if bytes == [] then [] else FirstLetters(bytes) + Encode64(Drop3(bytes))
  }

  function ToInt32(x: int): (r: int)
    ensures -0x8000_0000 <= r < 0x8000_0000
  {
    var low := x % 0x1_0000_0000;
    if low < 0x8000_0000 then low else low - 0x1_0000_0000
  }

  /** `(buffer >> bits) & 0xff`: dividing rounds down, which is the arithmetic shift. */
  function Extract(buffer: int, bits: nat): Byte
    requires bits in {0, 2, 4}
  {
    (if bits == 0 then buffer else if bits == 2 then buffer / 4 else buffer / 16) % 0x100
  }

  function Prepend(bytes: Bytes, rest: Option<Bytes>): Option<Bytes> {
    if rest.None? then None else Some(bytes + rest.value)
  }

  lemma PrependTwice(x: Bytes, y: Bytes, rest: Option<Bytes>)
    ensures Prepend(x, Prepend(y, rest)) == Prepend(x + y, rest)
    ensures Prepend([], rest) == rest
  {
    if rest.Some? {
      assert x + (y + rest.value) == x + y + rest.value;
      assert [] + rest.value == rest.value;
    }
  }

  function Next(buffer: int, d: int): int {
    ToInt32(buffer * 64 + d)
  }

  /** The decoder from position `i` on, with a given accumulator. */
  function DecodeFrom(s: Text, i: nat, buffer: int, bits: nat): Option<Bytes>
    requires i <= |s| && bits in {0, 2, 4, 6}
    decreases |s| - i
  {
    if i == |s| || s[i] == PAD then Some([])
    else if Skipped(s[i]) then DecodeFrom(s, i + 1, buffer, bits)
    else
      var index := Reverse(s[i]);
      if index == -1 then None
      else
        var shifted := Next(buffer, index);
        if bits < 2 then DecodeFrom(s, i + 1, shifted, bits + 6)
        else Prepend([Extract(shifted, bits - 2)], DecodeFrom(s, i + 1, shifted, bits - 2))
  }

  function Decode64(s: Text): Option<Bytes> {
    DecodeFrom(s, 0, 0, 0)
  }

  /** A letter of the alphabet adds six bits, and a byte comes out when there are eight. */
  lemma OneDigit(s: Text, i: nat, d: Digit, buffer: int, bits: nat)
    requires i < |s| && s[i] == Letter(d) && bits in {0, 2, 4, 6}
    ensures DecodeFrom(s, i, buffer, bits) ==
              if bits < 2 then DecodeFrom(s, i + 1, Next(buffer, d), bits + 6)
              else Prepend([Extract(Next(buffer, d), bits - 2)], DecodeFrom(s, i + 1, Next(buffer, d), bits - 2))
  {
    ReverseOfLetter(d);
  }

  lemma Wraps(x: int) returns (k: int)
    ensures ToInt32(x) == x - 0x1_0000_0000 * k
  {
    k := x / 0x1_0000_0000;
    if x % 0x1_0000_0000 >= 0x8000_0000 {
      k := k + 1;
    }
  }

  lemma SameLowByte(j: int, x: int)
    ensures (0x100 * j + x) % 0x100 == x % 0x100
  {
    Quotient(0x100 * j + x, 0x100, j + x / 0x100, x % 0x100);
  }

  /** Cutting bytes out of a number whose high part is unknown. */
  lemma CutOut(j: int, d: int, e: int)
    requires 0 <= d < 64 && 0 <= e < 64
    ensures var two := 0x1000 * j + 64 * d + e;
            && Extract(two, 4) == (4 * d + e / 16) % 0x100
            && Extract(two, 2) == (16 * d + e / 4) % 0x100
            && Extract(two, 0) == (64 * d + e) % 0x100
  {
    var two := 0x1000 * j + 64 * d + e;
    Quotient(two, 16, 0x100 * j + 4 * d + e / 16, e % 16);
    Quotient(two, 4, 0x400 * j + 16 * d + e / 4, e % 4);
    SameLowByte(j, 4 * d + e / 16);
    SameLowByte(4 * j, 16 * d + e / 4);
    SameLowByte(16 * j, 64 * d + e);
  }

  /** Two digits in a row: the bits that come out do not depend on what was below them. */
  lemma TwoDigits(before: int, d: Digit, e: Digit)
    ensures var two := Next(Next(before, d), e);
            && Extract(two, 4) == (4 * (d as int) + e / 16) % 0x100
            && Extract(two, 2) == (16 * (d as int) + e / 4) % 0x100
            && Extract(two, 0) == (64 * (d as int) + e) % 0x100
  {
    hide Extract;
    hide ToInt32;
    var one := Next(before, d);
    var k1 := Wraps(before * 64 + d);
    var k2 := Wraps(one * 64 + e);
    CutOut(before - 0x400_0000 * k1 - 0x10_0000 * k2, d, e);
  }

  /** The three bytes of a group, read off neighbouring digits. */
  lemma GroupBytes(a: int, b: int, c: int)
    requires 0 <= a < 0x100 && 0 <= b < 0x100 && 0 <= c < 0x100
    ensures var g := Group(a, b, c);
            && (4 * (g.0 as int) + g.1 / 16) % 0x100 == a
            && (16 * (g.1 as int) + g.2 / 4) % 0x100 == b
            && (64 * (g.2 as int) + g.3) % 0x100 == c
  {
    Quotient(16 * (a % 4) + b / 16, 16, a % 4, b / 16);
    Quotient(4 * (b % 16) + c / 64, 4, b % 16, c / 64);
    Quotient(0x100 * (a % 4) + b, 0x100, a % 4, b);
    Quotient(0x100 * (b % 16) + c, 0x100, b % 16, c);
  }

  /** The accumulator after each letter of a group yields the group's bytes in turn. */
  lemma FourExtracts(a: Byte, b: Byte, c: Byte, buffer: int)
    ensures var g := Group(a, b, c);
            var two := Next(Next(buffer, g.0), g.1);
            && Extract(two, 4) == a
            && Extract(Next(two, g.2), 2) == b
            && Extract(Next(Next(two, g.2), g.3), 0) == c
  {
    hide Extract;
    hide Next;
    hide Group;
    var g := Group(a, b, c);
    TwoDigits(buffer, g.0, g.1);
    TwoDigits(Next(buffer, g.0), g.1, g.2);
    TwoDigits(Next(Next(buffer, g.0), g.1), g.2, g.3);
    GroupBytes(a, b, c);
  }

  /** The first two letters of a group give its first byte, from any accumulator. */
  lemma TwoLetters(s: Text, i: nat, d: Digit, e: Digit, buffer: int)
    requires i + 1 < |s| && s[i] == Letter(d) && s[i + 1] == Letter(e)
    ensures var two := Next(Next(buffer, d), e);
            DecodeFrom(s, i, buffer, 0) == Prepend([Extract(two, 4)], DecodeFrom(s, i + 2, two, 4))
  {
    OneDigit(s, i, d, buffer, 0);
    OneDigit(s, i + 1, e, Next(buffer, d), 6);
  }

  /** The four letters of a group give its three bytes, whatever the accumulator holds. */
  lemma FourLetters(s: Text, i: nat, a: Byte, b: Byte, c: Byte, buffer: int) returns (left: int)
    requires i + 3 < |s|
    requires var g := Group(a, b, c);
             s[i] == Letter(g.0) && s[i + 1] == Letter(g.1) && s[i + 2] == Letter(g.2) && s[i + 3] == Letter(g.3)
    ensures DecodeFrom(s, i, buffer, 0) == Prepend([a, b, c], DecodeFrom(s, i + 4, left, 0))
  {
    var g := Group(a, b, c);
    FourExtracts(a, b, c, buffer);
    var two := Next(Next(buffer, g.0), g.1);
    var three := Next(two, g.2);
    left := Next(three, g.3);
    TwoLetters(s, i, g.0, g.1, buffer);
    OneDigit(s, i + 2, g.2, two, 4);
    OneDigit(s, i + 3, g.3, three, 2);
    var bytes := DecodeFrom(s, i + 4, left, 0);
    PrependTwice([b], [c], bytes);
    PrependTwice([a], [b, c], bytes);
    assert [b] + [c] == [b, c] && [a] + [b, c] == [a, b, c];
  }

  /** The last, padded group: decoding stops at the padding and drops the odd bits. */
  lemma PaddedGroup(s: Text, i: nat, bytes: Bytes, buffer: int)
    requires |bytes| in {1, 2}
    requires i <= |s| && s[i..] == FirstLetters(bytes)
    ensures DecodeFrom(s, i, buffer, 0) == Some(bytes)
  {
    var a := bytes[0];
    var b: Byte := if |bytes| > 1 then bytes[1] else 0;
    var g := Group(a, b, 0);
    assert forall k | 0 <= k < 4 :: s[i + k] == s[i..][k];
    FourExtracts(a, b, 0, buffer);
    var two := Next(Next(buffer, g.0), g.1);
    TwoLetters(s, i, g.0, g.1, buffer);
    if |bytes| == 1 {
      assert [a] + [] == bytes;
    } else {
      OneDigit(s, i + 2, g.2, two, 4);
      assert [b] + [] == [b] && [a] + [b] == bytes;
    }
  }

  /** Decoding inverts encoding from any accumulator. */
  lemma {:induction false} DecodeFromEncoded(s: Text, i: nat, bytes: Bytes, buffer: int)
    requires i <= |s| && s[i..] == Encode64(bytes)
    ensures DecodeFrom(s, i, buffer, 0) == Some(bytes)
    decreases |bytes|
  {
    if bytes == [] {
    } else {
      var rest := Drop3(bytes);
      assert s[i..] == FirstLetters(bytes) + Encode64(rest);
      assert s[i + 4..] == s[i..][4..] == Encode64(rest);
      if |bytes| >= 3 {
        assert forall k | 0 <= k < 4 :: s[i + k] == s[i..][k];
        var left := FourLetters(s, i, bytes[0], bytes[1], bytes[2], buffer);
        DecodeFromEncoded(s, i + 4, rest, left);
        assert bytes == [bytes[0], bytes[1], bytes[2]] + rest;
      } else {
        assert s[i..] == FirstLetters(bytes);
        PaddedGroup(s, i, bytes, buffer);
      }
    }
  }

  lemma Base64RoundTrip(bytes: Bytes)
    ensures Decode64(Encode64(bytes)) == Some(bytes)
  {
    DecodeFromEncoded(Encode64(bytes), 0, bytes, 0);
  }

  /** What the encoder writes: whole groups of four, and nothing but letters and padding. */
  lemma {:induction false} EncodedShape(bytes: Bytes)
    ensures |Encode64(bytes)| % 4 == 0 && (Encode64(bytes) == [] <==> bytes == [])
    decreases |bytes|
  {
    if bytes == [] {
    } else {
      EncodedShape(Drop3(bytes));
    }
  }

  // ---------- The loops ----------

  method GroupAt(bytes: Bytes, i: nat) returns (letters: Text)
    requires i < |bytes|
    ensures letters == FirstLetters(bytes[i..])
  {
    var a := bytes[i];
    var b: Byte := if i + 1 < |bytes| then bytes[i + 1] else 0;
    var c: Byte := if i + 2 < |bytes| then bytes[i + 2] else 0;
    var triple := 0x1_0000 * (a as int) + 0x100 * (b as int) + c;
    GroupIsTriple(a, b, c);
    var remaining := |bytes| - i;
    letters := [Letter(triple / 0x4_0000 % 0x40), Letter(triple / 0x1000 % 0x40),
                if remaining > 1 then Letter(triple / 0x40 % 0x40) else PAD,
                if remaining > 2 then Letter(triple % 0x40) else PAD];
  }

  method EncodeBase64(bytes: Bytes) returns (out: Text)
    ensures out == Encode64(bytes)
  {
    out := [];
    var i := 0;
    ghost var left := bytes;
    while i < |bytes|
      invariant 0 <= i && left == if i < |bytes| then bytes[i..] else []
      invariant Encode64(bytes) == out + Encode64(left)
      decreases |bytes| - i
    {
      var letters := GroupAt(bytes, i);
      out := out + letters;
      i := i + 3;
      left := Drop3(left);
    }
  }

  method DecodeBase64(value: Text) returns (r: Option<Bytes>)
    ensures r == Decode64(value)
  {
    var bytes: Bytes := [];
    var buffer, bits := 0, 0;
    var i := 0;
    PrependTwice([], [], Decode64(value));
    while i < |value| && value[i] != PAD
      invariant 0 <= i <= |value| && bits in {0, 2, 4, 6}
      invariant Decode64(value) == Prepend(bytes, DecodeFrom(value, i, buffer, bits))
      decreases |value| - i
    {
      if !Skipped(value[i]) {
        var index := Reverse(value[i]);
        if index == -1 {
          return None;
        }
        buffer := Next(buffer, index);
        bits := bits + 6;
        if bits >= 8 {
          bits := bits - 8;
          PrependTwice(bytes, [Extract(buffer, bits)], DecodeFrom(value, i + 1, buffer, bits));
          bytes := bytes + [Extract(buffer, bits)];
        }
      }
      i := i + 1;
    }
    assert bytes + [] == bytes;
    r := Some(bytes);
  }

  // ---------- What the decoder makes of any text ----------

  /** Letters as their digits. */
  function Lettered(digits: seq<Digit>): (s: Text)
    ensures |s| == |digits| && forall i | 0 <= i < |s| :: s[i] == Letter(digits[i])
  {
    seq(|digits|, i requires 0 <= i < |digits| => Letter(digits[i]))
  }

  function FirstByte(d: Digit, e: Digit): Byte {
    (d as int) * 4 + (e as int) / 16
  }

  function SecondByte(e: Digit, f: Digit): Byte {
    (e as int) % 16 * 16 + (f as int) / 4
  }

  function ThirdByte(f: Digit, g: Digit): Byte {
    (f as int) % 4 * 64 + (g as int)
  }

  /** Six bits a digit, taken eight at a time; what is left over at the end is dropped. */
  function BytesOf(digits: seq<Digit>): Bytes {
    (if |digits| > 1 then [FirstByte(digits[0], digits[1])] else [])
    + (if |digits| > 2 then [SecondByte(digits[1], digits[2])] else [])
    + (if |digits| > 3 then [ThirdByte(digits[2], digits[3])] + BytesOf(digits[4..]) else [])
  }

  /** Any four digits are a group. */
  lemma DigitsGroup(d: Digit, e: Digit, f: Digit, g: Digit)
    ensures Group(FirstByte(d, e), SecondByte(e, f), ThirdByte(f, g)) == (d, e, f, g)
  {
    Quotient(FirstByte(d, e), 4, d, e / 16);
    Quotient(SecondByte(e, f), 16, e % 16, f / 4);
    Quotient(ThirdByte(f, g), 64, f % 4, g);
  }

  lemma FirstBits(d: Digit, e: Digit)
    ensures (4 * (d as int) + e / 16) % 0x100 == FirstByte(d, e)
  {
  }

  lemma SecondBits(e: Digit, f: Digit)
    ensures (16 * (e as int) + f / 4) % 0x100 == SecondByte(e, f)
  {
    Quotient(16 * (e as int) + f / 4, 0x100, e / 16, SecondByte(e, f));
  }

  lemma NothingMore(s: Text, i: nat, buffer: int, bits: nat)
    requires i == |s| && bits in {0, 2, 4, 6}
    ensures DecodeFrom(s, i, buffer, bits) == Some([])
  {
  }

  /** A byte put before what comes from the rest, in the terms of the digits. */
  lemma TwoDigitsLast(s: Text, i: nat, d: Digit, e: Digit, buffer: int)
    requires i + 2 <= |s| && s[i] == Letter(d) && s[i + 1] == Letter(e)
    ensures DecodeFrom(s, i, buffer, 0)
         == Prepend([FirstByte(d, e)], DecodeFrom(s, i + 2, Next(Next(buffer, d), e), 4))
  {
    hide DecodeFrom;
    hide Extract;
    hide Next;
    hide FirstByte;
    TwoLetters(s, i, d, e, buffer);
    TwoDigits(buffer, d, e);
    FirstBits(d, e);
  }

  lemma ThirdDigitLast(s: Text, i: nat, d: Digit, e: Digit, f: Digit, buffer: int)
    requires i + 1 == |s| && s[i] == Letter(f)
    ensures DecodeFrom(s, i, Next(Next(buffer, d), e), 4) == Some([SecondByte(e, f)])
  {
    hide DecodeFrom;
    hide Extract;
    hide Next;
    hide SecondByte;
    var two := Next(Next(buffer, d), e);
    OneDigit(s, i, f, two, 4);
    TwoDigits(Next(buffer, d), e, f);
    SecondBits(e, f);
    NothingMore(s, i + 1, Next(two, f), 2);
    assert [SecondByte(e, f)] + [] == [SecondByte(e, f)];
  }

  lemma LastDigits(s: Text, i: nat, digits: seq<Digit>, buffer: int)
    requires i <= |s| && s[i..] == Lettered(digits) && |digits| < 4
    ensures DecodeFrom(s, i, buffer, 0) == Some(BytesOf(digits))
  {
    hide DecodeFrom;
    hide Extract;
    hide Next;
    hide Letter;
    hide FirstByte;
    hide SecondByte;
    assert forall k | 0 <= k < |digits| :: s[i + k] == s[i..][k];
    if digits == [] {
      NothingMore(s, i, buffer, 0);
    } else if |digits| == 1 {
      var next := Next(buffer, digits[0]);
      OneDigit(s, i, digits[0], buffer, 0);
      NothingMore(s, i + 1, next, 6);
      assert DecodeFrom(s, i, buffer, 0) == DecodeFrom(s, i + 1, next, 6);
      assert BytesOf(digits) == [];
    } else {
      var d, e := digits[0], digits[1];
      TwoDigitsLast(s, i, d, e, buffer);
      if |digits| == 2 {
        NothingMore(s, i + 2, Next(Next(buffer, d), e), 4);
        assert BytesOf(digits) == [FirstByte(d, e)] == [FirstByte(d, e)] + [];
      } else {
        ThirdDigitLast(s, i + 2, d, e, digits[2], buffer);
        assert BytesOf(digits) == [FirstByte(d, e)] + [SecondByte(e, digits[2])];
      }
    }
  }

  lemma FourDigits(digits: seq<Digit>)
    requires |digits| >= 4
    ensures BytesOf(digits) == [FirstByte(digits[0], digits[1]), SecondByte(digits[1], digits[2]),
                                ThirdByte(digits[2], digits[3])] + BytesOf(digits[4..])
  {
  }

  lemma {:induction false} DigitsAreRead(s: Text, i: nat, digits: seq<Digit>, buffer: int)
    requires i <= |s| && s[i..] == Lettered(digits)
    ensures DecodeFrom(s, i, buffer, 0) == Some(BytesOf(digits))
    decreases |digits|
  {
    if |digits| < 4 {
      LastDigits(s, i, digits, buffer);
    } else {
      var d, e, f, g := digits[0], digits[1], digits[2], digits[3];
      DigitsGroup(d, e, f, g);
      FourDigits(digits);
      assert forall k | 0 <= k < 4 :: s[i + k] == s[i..][k];
      hide DecodeFrom;
      hide BytesOf;
      hide Letter;
      hide Group;
      var left := FourLetters(s, i, FirstByte(d, e), SecondByte(e, f), ThirdByte(f, g), buffer);
      assert s[i + 4..] == s[i..][4..] == Lettered(digits[4..]);
      DigitsAreRead(s, i + 4, digits[4..], left);
    }
  }

  /** White space is passed over, and everything from the first `=` on is left alone. */
  function Trimmed(s: Text): Text {
    if s == [] || s[0] == 0x3d then []
    else if s[0] == 0x20 || s[0] == 0x09 || s[0] == 0x0a || s[0] == 0x0d then Trimmed(s[1..])
    else [s[0]] + Trimmed(s[1..])
  }

  lemma {:induction false} TrimmedReadsAlike(s: Text, i: nat, t: Text, j: nat, buffer: int, bits: nat)
    requires i <= |s| && j <= |t| && t[j..] == Trimmed(s[i..]) && bits in {0, 2, 4, 6}
    ensures DecodeFrom(s, i, buffer, bits) == DecodeFrom(t, j, buffer, bits)
    decreases |s| - i
  {
    hide Extract;
    hide Next;
    hide Reverse;
    if i == |s| || s[i] == 0x3d {
      assert j == |t|;
    } else if Skipped(s[i]) {
      assert s[i..][1..] == s[i + 1..];
      TrimmedReadsAlike(s, i + 1, t, j, buffer, bits);
    } else {
      assert s[i..][1..] == s[i + 1..] && t[j] == t[j..][0] == s[i] && t[j..][1..] == t[j + 1..];
      var shifted := Next(buffer, Reverse(s[i]));
      TrimmedReadsAlike(s, i + 1, t, j + 1, shifted, if bits < 2 then bits + 6 else bits - 2);
    }
  }

  lemma {:induction false} UnknownIsRefused(s: Text, i: nat, k: nat, buffer: int, bits: nat)
    requires i <= k < |s| && bits in {0, 2, 4, 6}
    requires (forall d: Digit :: Letter(d) != s[k]) && !Skipped(s[k]) && forall j | i <= j <= k :: s[j] != PAD
    ensures DecodeFrom(s, i, buffer, bits) == None
    decreases k - i
  {
    hide Extract;
    hide Next;
    if i == k {
      if Reverse(s[k]) != -1 {
        assert false;
      }
    } else {
      var shifted := Next(buffer, Reverse(s[i]));
      UnknownIsRefused(s, i + 1, k, if Skipped(s[i]) then buffer else shifted,
                       if Skipped(s[i]) then bits else if bits < 2 then bits + 6 else bits - 2);
    }
  }

  /**
    * Every text, padded or not: with the white space out and the padding off,
    * letters give their bits eight at a time, and a single unit that is not of
    * the alphabet makes it no base64 at all.
    */
  lemma EveryTextIsRead(s: Text)
    ensures forall digits | Trimmed(s) == Lettered(digits) :: Decode64(s) == Some(BytesOf(digits))
    ensures forall k | 0 <= k < |Trimmed(s)| && (forall d: Digit :: Letter(d) != Trimmed(s)[k]) :: Decode64(s) == None
  {
    var t := Trimmed(s);
    TrimmedReadsAlike(s, 0, t, 0, 0, 0);
    forall digits | t == Lettered(digits) ensures Decode64(s) == Some(BytesOf(digits)) {
      DigitsAreRead(t, 0, digits, 0);
    }
    forall k | 0 <= k < |t| && (forall d: Digit :: Letter(d) != t[k]) ensures Decode64(s) == None {
      TrimmedIsBare(s);
      UnknownIsRefused(t, 0, k, 0, 0);
    }
  }

  lemma {:induction false} TrimmedIsBare(s: Text)
    ensures forall k | 0 <= k < |Trimmed(s)| :: Trimmed(s)[k] != PAD && !Skipped(Trimmed(s)[k])
  {
    if s == [] {
    } else {
      TrimmedIsBare(s[1..]);
    }
  }

  /** The alphabet, spelled out. */
  lemma AlphabetInWords()
    ensures Lettered([0, 1, 2, 3, 4, 5, 6, 7, 8, 9, 10, 11, 12]) == Ascii("ABCDEFGHIJKLM")
    ensures Lettered([13, 14, 15, 16, 17, 18, 19, 20, 21, 22, 23, 24, 25]) == Ascii("NOPQRSTUVWXYZ")
    ensures Lettered([26, 27, 28, 29, 30, 31, 32, 33, 34, 35, 36, 37, 38]) == Ascii("abcdefghijklm")
    ensures Lettered([39, 40, 41, 42, 43, 44, 45, 46, 47, 48, 49, 50, 51]) == Ascii("nopqrstuvwxyz")
    ensures Lettered([52, 53, 54, 55, 56, 57, 58, 59, 60, 61, 62, 63]) == Ascii("0123456789+/")
  {
  }
}
