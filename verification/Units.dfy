/**
  * JavaScript strings as sequences of UTF-16 code units, with the handful of
  * string operations the protocol code is written in: `indexOf`, `split`,
  * `join`, `trim`, ASCII case conversion and decimal formatting.
  */
module Units {

  type Unit = u: int | 0 <= u < 0x1_0000

  type Text = seq<Unit>

  datatype Option<+T> = None | Some(value: T)

  /** Concatenation is associative, where the verifier has to be told. */
  lemma Regroup<T>(s: seq<T>, t: seq<T>, u: seq<T>)
    ensures s + (t + u) == (s + t) + u
  {
  }

  const NUL: Unit := 0x00
  const LF: Unit := 0x0a
  const CR: Unit := 0x0d
  const SPACE: Unit := 0x20
  const BANG: Unit := 0x21
  const QUOTE: Unit := 0x22
  const PLUS: Unit := 0x2b
  const MINUS: Unit := 0x2d
  const DOT: Unit := 0x2e
  const COLON: Unit := 0x3a
  const SEMICOLON: Unit := 0x3b
  const EQUALS: Unit := 0x3d
  const AT: Unit := 0x40
  const BACKSLASH: Unit := 0x5c
  const UNDERSCORE: Unit := 0x5f

  predicate IsAscii(s: string) {
    forall i | 0 <= i < |s| :: s[i] < 128 as char
  }

  /** An ASCII literal as code units. */
  function Ascii(s: string): (t: Text)
    requires IsAscii(s)
    ensures |t| == |s| && forall i | 0 <= i < |s| :: t[i] == s[i] as int
  {
    seq(|s|, i requires 0 <= i < |s| => s[i] as int)
  }

  /** The position of the first `c` in `s` from `i` on, or `|s|` when there is none. */
  function FindFrom(s: Text, c: Unit, i: nat): (r: nat)
    requires i <= |s|
    ensures i <= r <= |s|
    ensures forall k | i <= k < r :: s[k] != c
    ensures r < |s| ==> s[r] == c
    decreases |s| - i
  {
    if i == |s| || s[i] == c then i else FindFrom(s, c, i + 1)
  }

  /** The position of the first `c` in `s`, or `|s|` when there is none. */
  function Find(s: Text, c: Unit): (r: nat)
    ensures r <= |s|
    ensures forall k | 0 <= k < r :: s[k] != c
    ensures r < |s| ==> s[r] == c
  {
    FindFrom(s, c, 0)
  }

  /** `Find` is the only position with its defining property. */
  lemma FindUnique(s: Text, c: Unit, k: nat)
    requires k <= |s| && (k < |s| ==> s[k] == c)
    requires forall i | 0 <= i < k :: s[i] != c
    ensures Find(s, c) == k
  {
    if Find(s, c) < k {
      assert false;
    }
  }

  function Upper(u: Unit): Unit {
    if 0x61 <= u <= 0x7a then u - 0x20 else u
  }

  /** Uppercases ASCII letters only. */
  function UpperAscii(s: Text): (t: Text)
    ensures |t| == |s| && forall i | 0 <= i < |s| :: t[i] == Upper(s[i])
  {
    seq(|s|, i requires 0 <= i < |s| => Upper(s[i]))
  }

  lemma UpperIdempotent(s: Text)
    ensures UpperAscii(UpperAscii(s)) == UpperAscii(s)
  {
  }

  predicate IsDigit(u: Unit) {
    0x30 <= u <= 0x39
  }

  predicate AllDigits(s: Text) {
    forall i | 0 <= i < |s| :: IsDigit(s[i])
  }

  /** The `\s` class, which is also what `trim` removes. */
  predicate IsSpace(u: Unit) {
    || 0x09 <= u <= 0x0d || u == 0x20 || u == 0xa0 || u == 0x1680
    || 0x2000 <= u <= 0x200a || u == 0x2028 || u == 0x2029
    || u == 0x202f || u == 0x205f || u == 0x3000 || u == 0xfeff
  }

  function TrimStart(s: Text): Text {
    if s != [] && IsSpace(s[0]) then TrimStart(s[1..]) else s
  }

  function TrimEnd(s: Text): Text {
    if s != [] && IsSpace(s[|s| - 1]) then TrimEnd(s[..|s| - 1]) else s
  }

  function Trim(s: Text): Text {
    TrimEnd(TrimStart(s))
  }

  /** `s.split(c)`. */
  function Split(s: Text, c: Unit): (parts: seq<Text>)
    ensures |parts| > 0
    decreases |s|
  {
    var k := Find(s, c);
    if k == |s| then [s] else [s[..k]] + Split(s[k + 1..], c)
  }

  /** `parts.join(c)`. */
  function Join(parts: seq<Text>, c: Unit): Text {
    if |parts| == 0 then [] else if |parts| == 1 then parts[0]
    else parts[0] + [c] + Join(parts[1..], c)
  }

  /** Splitting a join gives the parts back, when no part holds the separator. */
  lemma {:induction false} SplitJoin(parts: seq<Text>, c: Unit)
    requires |parts| > 0
    requires forall p | p in parts :: c !in p
    ensures Split(Join(parts, c), c) == parts
  {
    var s := Join(parts, c);
    var p := parts[0];
    assert p in parts;
    if |parts| == 1 {
      FindUnique(s, c, |s|);
    } else {
      FindUnique(s, c, |p|);
      assert s[..|p|] == p && s[|p| + 1..] == Join(parts[1..], c);
      SplitJoin(parts[1..], c);
    }
  }

  /** Every unit of a join is a unit of some part, or the separator. */
  lemma {:induction false} JoinUnits(parts: seq<Text>, c: Unit, x: Unit)
    requires x != c
    ensures x in Join(parts, c) <==> exists i :: 0 <= i < |parts| && x in parts[i]
  {
    if |parts| > 1 {
      JoinUnits(parts[1..], c, x);
      assert parts == [parts[0]] + parts[1..];
      if x in Join(parts, c) && x !in parts[0] {
        var i :| 0 <= i < |parts[1..]| && x in parts[1..][i];
        assert x in parts[i + 1];
      }
    }
  }

  /** Decimal digits of a natural number, most significant first. */
  function Decimal(n: nat): (s: Text)
    ensures |s| > 0 && AllDigits(s)
  {
    if n < 10 then [0x30 + n] else Decimal(n / 10) + [0x30 + n % 10]
  }

  /** `Number(s)` for a string of digits. */
  function DecimalValue(s: Text): nat
    requires AllDigits(s)
  {
    if s == [] then 0 else DecimalValue(s[..|s| - 1]) * 10 + (s[|s| - 1] - 0x30)
  }

  lemma {:induction false} DecimalRoundTrip(n: nat)
    ensures DecimalValue(Decimal(n)) == n
  {
    var s := Decimal(n);
    if n < 10 {
      assert s[..|s| - 1] == [];
    } else {
      assert s[..|s| - 1] == Decimal(n / 10);
      DecimalRoundTrip(n / 10);
    }
  }

  /** The letters that have a capital, spelled out. */
  lemma UpperInWords()
    ensures UpperAscii(Ascii("abcdefghijklm")) == Ascii("ABCDEFGHIJKLM")
    ensures UpperAscii(Ascii("nopqrstuvwxyz")) == Ascii("NOPQRSTUVWXYZ")
  {
  }
}
