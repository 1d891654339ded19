/**
  * The three backslash-style escapings on the wire: message-tag values, and the
  * two quoting layers of CTCP. Each is one table (which units are written as
  * the escape mark plus a letter) read in both directions by the same two
  * loops; an unknown letter stands for itself and a lone final mark is dropped.
  */
module Escapes {
  import opened Units

  const CTCP_DELIMITER: Unit := 0x01
  const LOW_LEVEL_ESCAPE: Unit := 0x10

  datatype Layer = TagValue | LowLevel | CtcpLevel {

    function Mark(): Unit {
      if LowLevel? then LOW_LEVEL_ESCAPE else BACKSLASH
    }

    /** The letter that follows the mark when `u` cannot be written as itself. */
    function Letter(u: Unit): Option<Unit> {
      match this
      case TagValue =>
        if u == SEMICOLON then Some(COLON)
        else if u == SPACE then Some(0x73)
        else if u == BACKSLASH then Some(BACKSLASH)
        else if u == CR then Some(0x72)
        else if u == LF then Some(0x6e)
        else None
      case LowLevel =>
        if u == NUL then Some(0x30)
        else if u == LF then Some(0x6e)
        else if u == CR then Some(0x72)
        else if u == LOW_LEVEL_ESCAPE then Some(LOW_LEVEL_ESCAPE)
        else None
      case CtcpLevel =>
        if u == CTCP_DELIMITER then Some(0x61)
        else if u == BACKSLASH then Some(BACKSLASH)
        else None
    }

    /** What a letter after the mark stands for. */
    function Meaning(letter: Unit): Unit {
      match this
      case TagValue =>
        if letter == COLON then SEMICOLON
        else if letter == 0x73 then SPACE
        else if letter == 0x72 then CR
        else if letter == 0x6e then LF
        else letter
      case LowLevel =>
        if letter == 0x30 then NUL
        else if letter == 0x6e then LF
        else if letter == 0x72 then CR
        else letter
      case CtcpLevel =>
        if letter == 0x61 then CTCP_DELIMITER else letter
    }

    function QuoteUnit(u: Unit): Text {
      match Letter(u)
      case Some(letter) => [Mark(), letter]
      case None => [u]
    }
  }

  function Quote(layer: Layer, s: Text): Text {
    if s == [] then [] else layer.QuoteUnit(s[0]) + Quote(layer, s[1..])
  }

  function Dequote(layer: Layer, s: Text): Text {
    if s == [] then []
    else if s[0] != layer.Mark() then [s[0]] + Dequote(layer, s[1..])
    else if |s| == 1 then []
    else [layer.Meaning(s[1])] + Dequote(layer, s[2..])
  }

  /** Every string survives being quoted and dequoted in the same layer. */
  lemma {:induction false} DequoteQuote(layer: Layer, s: Text)
    ensures Dequote(layer, Quote(layer, s)) == s
  {
    if s == [] {
    } else {
      var q := layer.QuoteUnit(s[0]);
      var rest := Quote(layer, s[1..]);
      assert (q + rest)[|q|..] == rest;
      DequoteQuote(layer, s[1..]);
    }
  }

  /** No unit the layer protects is left in its output, apart from the mark. */
  lemma {:induction false} QuoteIsClean(layer: Layer, s: Text, u: Unit)
    requires layer.Letter(u).Some? && u != layer.Mark()
    ensures u !in Quote(layer, s)
  {
    if s == [] {
    } else {
      QuoteIsClean(layer, s[1..], u);
    }
  }

  /** A unit that is neither protected nor written by the layer is kept as it is. */
  lemma {:induction false} QuoteKeeps(layer: Layer, s: Text, u: Unit)
    requires layer.Letter(u).None?
    requires forall v: Unit :: layer.Letter(v) != Some(u)
    ensures u in Quote(layer, s) <==> u in s
  {
    if s == [] {
    } else {
      assert s == [s[0]] + s[1..];
      QuoteKeeps(layer, s[1..], u);
    }
  }

  lemma {:induction false} QuoteAppend(layer: Layer, s: Text, t: Text)
    ensures Quote(layer, s + t) == Quote(layer, s) + Quote(layer, t)
  {
    if s == [] {
      assert s + t == t;
    } else {
      assert (s + t)[1..] == s[1..] + t;
      QuoteAppend(layer, s[1..], t);
    }
  }

  /** Text without the mark is its own dequoting, which is the early return. */
  lemma {:induction false} DequoteUnmarked(layer: Layer, s: Text)
    requires layer.Mark() !in s
    ensures Dequote(layer, s) == s
  {
    if s == [] {
    } else {
      DequoteUnmarked(layer, s[1..]);
    }
  }

  method QuoteText(layer: Layer, text: Text) returns (out: Text)
    ensures out == Quote(layer, text)
  {
    out := [];
    for i := 0 to |text|
      invariant out == Quote(layer, text[..i])
    {
      assert text[..i + 1] == text[..i] + [text[i]];
      QuoteAppend(layer, text[..i], [text[i]]);
      out := out + layer.QuoteUnit(text[i]);
    }
    assert text[..|text|] == text;
  }

  method DequoteText(layer: Layer, text: Text) returns (out: Text)
    ensures out == Dequote(layer, text)
  {
    hide Layer.Mark;
    hide Layer.Meaning;
    if layer.Mark() !in text {
      DequoteUnmarked(layer, text);
      return text;
    }
    out := [];
    var i := 0;
    ghost var left := text;
    while i < |text|
      invariant 0 <= i <= |text| && left == text[i..]
      invariant Dequote(layer, text) == out + Dequote(layer, left)
    {
      var unit := text[i];
      i := i + 1;
      if unit == layer.Mark() {
        if i >= |text| {
          assert Dequote(layer, left) == [];
          break;
        }
        unit := layer.Meaning(text[i]);
        i := i + 1;
        left := left[1..];
      }
      left := left[1..];
      Regroup(out, [unit], Dequote(layer, left));
      out := out + [unit];
    }
  }

  // ---------- The tables, spelled out ----------

  lemma QuoteOne(layer: Layer, u: Unit)
    ensures Quote(layer, [u]) == layer.QuoteUnit(u)
  {
    assert [u][1..] == [];
    assert layer.QuoteUnit(u) + [] == layer.QuoteUnit(u);
  }

  /** Tag values, as IRCv3 message tags prescribe: `\:`, `\s`, `\\`, `\r` and `\n`. */
  lemma TagValueTable(u: Unit)
    ensures Quote(TagValue, [u])
         == if u == 0x3b then [0x5c, 0x3a] else if u == 0x20 then [0x5c, 0x73] else if u == 0x5c then [0x5c, 0x5c]
            else if u == 0x0d then [0x5c, 0x72] else if u == 0x0a then [0x5c, 0x6e] else [u]
  {
    QuoteOne(TagValue, u);
  }

  /** CTCP: the low level, whose mark is 0x10, and the level inside a block, whose mark is the backslash. */
  lemma CtcpTables(u: Unit)
    ensures Quote(LowLevel, [u])
         == if u == 0x00 then [0x10, 0x30] else if u == 0x0a then [0x10, 0x6e] else if u == 0x0d then [0x10, 0x72]
            else if u == 0x10 then [0x10, 0x10] else [u]
    ensures Quote(CtcpLevel, [u]) == if u == 0x01 then [0x5c, 0x61] else if u == 0x5c then [0x5c, 0x5c] else [u]
  {
    QuoteOne(LowLevel, u);
    QuoteOne(CtcpLevel, u);
  }

  /**
    * How any text at all is read: the escape of a unit as that unit, an unknown
    * letter behind a mark as itself, a lone final mark as nothing, and every
    * other unit as itself.
    */
  lemma DequoteReads(layer: Layer, u: Unit, rest: Text)
    ensures Dequote(layer, layer.QuoteUnit(u) + rest) == [u] + Dequote(layer, rest)
    ensures Dequote(layer, [layer.Mark()]) == []
    ensures (forall v: Unit :: layer.Letter(v) != Some(u)) ==>
              Dequote(layer, [layer.Mark(), u] + rest) == [u] + Dequote(layer, rest)
  {
    var q := layer.QuoteUnit(u);
    assert (q + rest)[|q|..] == rest;
    assert ([layer.Mark(), u] + rest)[2..] == rest;
    assert [layer.Mark()][1..] == [];
    if layer.Meaning(u) != u {
      assert layer.Letter(layer.Meaning(u)) == Some(u);
    }
  }
}
