/**
  * Every line there is, by its layout: how its parts stand between runs of
  * spaces, and what the parser makes of each layout.
  */
module Layouts {
  import opened Units
  import opened MessageTags
  import opened Messages

  /** A run of spaces. */
  function Spaces(n: nat): Text {
    if n == 0 then [] else [SPACE] + Spaces(n - 1)
  }

  /** What stands behind the verb: words, each after at least one space, then perhaps a last text behind a colon. */
  datatype Tail = End(spaces: nat) | Last(gap: nat, text: Text) | Word(gap: nat, word: Text, rest: Tail)

  predicate IsTail(t: Tail) {
    match t
    case End(_) => true
    case Last(gap, _) => gap > 0
    case Word(gap, word, rest) => gap > 0 && word != [] && SPACE !in word && word[0] != COLON && IsTail(rest)
  }

  function TailText(t: Tail): Text {
    match t
    case End(n) => Spaces(n)
    case Last(gap, text) => Spaces(gap) + ([COLON] + text)
    case Word(gap, word, rest) => Spaces(gap) + (word + TailText(rest))
  }

  function TailParams(t: Tail): seq<Text> {
    match t
    case End(_) => []
    case Last(_, text) => [text]
    case Word(_, word, rest) => [word] + TailParams(rest)
  }

  /** `@tags`, `:source` and the verb, with the spaces before each of the latter two, and the line's end. */
  datatype Layout = Layout(
    margin: nat, tags: Option<Text>, source: Option<Text>, gap: nat, gap': nat, verb: Text, tail: Tail, end: Text)

  function Marked(mark: Unit, part: Option<Text>, gap: nat): Text {
    if part.None? then [] else [mark] + part.value + Spaces(gap)
  }

  function Body(l: Layout): Text {
    Spaces(l.margin) + (Marked(AT, l.tags, l.gap) + (Marked(COLON, l.source, l.gap') + (l.verb + TailText(l.tail))))
  }

  function Written(l: Layout): Text {
    Body(l) + l.end
  }

  /** The verb is told from what may stand before it. */
  predicate IsVerb(verb: Text, tags: Option<Text>, source: Option<Text>) {
    && verb != [] && SPACE !in verb
    && (verb[0] == COLON ==> source.Some?)
    && (verb[0] == AT ==> source.Some? || tags.Some?)
  }

  predicate IsLineEnd(end: Text) {
    forall u | u in end :: u == CR || u == LF
  }

  predicate Unended(body: Text) {
    body == [] || (body[|body| - 1] != CR && body[|body| - 1] != LF)
  }

  predicate IsLayout(l: Layout) {
    && (l.tags.Some? ==> SPACE !in l.tags.value && l.gap > 0)
    && (l.source.Some? ==> SPACE !in l.source.value && l.gap' > 0)
    && IsVerb(l.verb, l.tags, l.source)
    && IsTail(l.tail) && IsLineEnd(l.end) && Unended(Body(l))
  }

  // ---------- Reading a layout ----------

  lemma {:induction false} SpacesDropped(n: nat, rest: Text)
    ensures DropSpaces(Spaces(n) + rest) == DropSpaces(rest)
  {
    if n == 0 {
      assert Spaces(n) + rest == rest;
    } else {
      assert (Spaces(n) + rest)[1..] == Spaces(n - 1) + rest;
      SpacesDropped(n - 1, rest);
    }
  }

  lemma {:induction false} OnlySpaces(n: nat)
    ensures |Spaces(n)| == n && forall i | 0 <= i < n :: Spaces(n)[i] == SPACE
  {
    if n == 0 {
    } else {
      OnlySpaces(n - 1);
    }
  }

  lemma AtomAt(a: Text, rest: Text)
    requires SPACE !in a && (rest == [] || rest[0] == SPACE)
    ensures Atom(a + rest) == a && AfterAtom(a + rest) == rest
  {
    FindUnique(a + rest, SPACE, |a|);
  }

  lemma TailStarts(t: Tail)
    requires IsTail(t)
    ensures TailText(t) == [] || TailText(t)[0] == SPACE
  {
  }

  lemma {:induction false} TailIsRead(t: Tail)
    requires IsTail(t)
    ensures ParamsOf(TailText(t)) == TailParams(t)
  {
    match t
    case End(n) =>
      SpacesDropped(n, []);
      assert Spaces(n) + [] == Spaces(n);
    case Last(gap, text) =>
      SpacesDropped(gap, [COLON] + text);
      assert ([COLON] + text)[1..] == text;
    case Word(gap, word, rest) =>
      SpacesDropped(gap, word + TailText(rest));
      TailStarts(rest);
      AtomAt(word, TailText(rest));
      TailIsRead(rest);
  }

  lemma MarkedIsRead(mark: Unit, part: Text, gap: nat, rest: Text)
    requires SPACE !in part && (gap > 0 || rest == []) && (rest == [] || rest[0] != SPACE)
    ensures var s := Marked(mark, Some(part), gap) + rest;
            s != [] && s[0] == mark && Atom(s[1..]) == part && DropSpaces(AfterAtom(s[1..])) == rest
  {
    var s := Marked(mark, Some(part), gap) + rest;
    assert s[1..] == part + (Spaces(gap) + rest);
    OnlySpaces(gap);
    AtomAt(part, Spaces(gap) + rest);
    SpacesDropped(gap, rest);
  }

  lemma {:induction false} EndStripped(body: Text, end: Text)
    requires IsLineEnd(end) && Unended(body)
    ensures StripEnd(body + end) == body
  {
    if end == [] {
      assert body + end == body;
    } else {
      var shorter := end[..|end| - 1];
      assert end[|end| - 1] in end && forall u | u in shorter :: u in end;
      EndStripped(body, shorter);
      assert (body + end)[..|body + end| - 1] == body + shorter;
    }
  }

  /** The message a layout stands for. */
  function Meant(l: Layout): Message {
    var command := UpperAscii(l.verb);
    Message(
      if l.tags.Some? then ParseTags(l.tags.value) else [],
      if l.source.Some? then Some(ParseSource(l.source.value)) else None,
      command, if l.verb == command then None else Some(l.verb), TailParams(l.tail))
  }

  lemma TagsAreRead(tags: Option<Text>, gap: nat, rest: Text)
    requires tags.Some? ==> SPACE !in tags.value && (gap > 0 || rest == [])
    requires rest == [] || (rest[0] != SPACE && (tags.None? ==> rest[0] != AT))
    ensures ReadTags(Marked(AT, tags, gap) + rest)
         == (if tags.Some? then ParseTags(tags.value) else [], rest)
  {
    if tags.Some? {
      MarkedIsRead(AT, tags.value, gap, rest);
    } else {
      assert Marked(AT, tags, gap) + rest == rest;
    }
  }

  lemma SourceIsRead(source: Option<Text>, gap: nat, rest: Text)
    requires source.Some? ==> SPACE !in source.value && (gap > 0 || rest == [])
    requires rest == [] || (rest[0] != SPACE && (source.None? ==> rest[0] != COLON))
    ensures ReadSource(Marked(COLON, source, gap) + rest)
         == (if source.Some? then Some(ParseSource(source.value)) else None, rest)
  {
    if source.Some? {
      MarkedIsRead(COLON, source.value, gap, rest);
    } else {
      assert Marked(COLON, source, gap) + rest == rest;
    }
  }

  lemma StagesOf(margin: nat, front: Text, end: Text)
    requires IsLineEnd(end) && Unended(Spaces(margin) + front) && front != [] && front[0] != SPACE
    ensures Parse(Spaces(margin) + front + end)
         == ReadCommand(ReadTags(front).0, ReadSource(ReadTags(front).1).0, ReadSource(ReadTags(front).1).1)
  {
    hide ReadTags;
    hide ReadSource;
    hide ReadCommand;
    EndStripped(Spaces(margin) + front, end);
    SpacesDropped(margin, front);
  }

  lemma CommandIsRead(tags: Tags, source: Option<Source>, l: Layout)
    requires l.verb != [] && SPACE !in l.verb && IsTail(l.tail)
    requires tags == (if l.tags.Some? then ParseTags(l.tags.value) else [])
    requires source == (if l.source.Some? then Some(ParseSource(l.source.value)) else None)
    ensures ReadCommand(tags, source, l.verb + TailText(l.tail)) == Parsed(Meant(l))
  {
    hide ParseTags;
    hide ParseSource;
    TailStarts(l.tail);
    AtomAt(l.verb, TailText(l.tail));
    TailIsRead(l.tail);
    hide TailText;
    hide TailParams;
    hide ParamsOf;
  }

  lemma FrontStarts(l: Layout)
    requires l.verb != [] && l.verb[0] != SPACE
    ensures var rest := l.verb + TailText(l.tail);
            var fromSource := Marked(COLON, l.source, l.gap') + rest;
            var front := Marked(AT, l.tags, l.gap) + fromSource;
            && rest[0] == l.verb[0] && fromSource != [] && front != []
            && fromSource[0] == (if l.source.Some? then COLON else l.verb[0])
            && front[0] == (if l.tags.Some? then AT else fromSource[0])
  {
    hide TailText;
    hide Spaces;
  }

  /** A line laid out so is read as the message it stands for, whatever the gaps, the end and the verb's case. */
  lemma LayoutIsRead(l: Layout)
    requires IsLayout(l)
    ensures Parse(Written(l)) == Parsed(Meant(l))
  {
    hide Parse;
    hide ReadTags;
    hide ReadSource;
    hide ReadCommand;
    hide ParseTags;
    hide ParseSource;
    hide TailText;
    hide Spaces;
    hide Meant;
    hide IsTail;
    var rest := l.verb + TailText(l.tail);
    var fromSource := Marked(COLON, l.source, l.gap') + rest;
    var front := Marked(AT, l.tags, l.gap) + fromSource;
    FrontStarts(l);
    hide Marked;
    SourceIsRead(l.source, l.gap', rest);
    TagsAreRead(l.tags, l.gap, fromSource);
    StagesOf(l.margin, front, l.end);
    CommandIsRead(ReadTags(front).0, ReadSource(fromSource).0, l);
  }

  /** A line of nothing but spaces. */
  lemma BlankIsEmpty(margin: nat, end: Text)
    requires IsLineEnd(end)
    ensures Parse(Spaces(margin) + end) == NotParsed(EmptyLine)
  {
    OnlySpaces(margin);
    EndStripped(Spaces(margin), end);
    SpacesDropped(margin, []);
    assert Spaces(margin) + [] == Spaces(margin);
  }

  /** Tags, a source or both, and nothing behind them. */
  predicate IsVerbless(l: Layout) {
    && (l.tags.Some? || l.source.Some?) && l.verb == [] && l.tail == End(0)
    && (l.tags.Some? ==> SPACE !in l.tags.value && (l.source.Some? ==> l.gap > 0))
    && (l.source.Some? ==> SPACE !in l.source.value)
    && IsLineEnd(l.end) && Unended(Body(l))
  }

  lemma VerblessIsRefused(l: Layout)
    requires IsVerbless(l)
    ensures Parse(Written(l)) == NotParsed(MissingCommand)
  {
    var rest := l.verb + TailText(l.tail);
    var fromSource := Marked(COLON, l.source, l.gap') + rest;
    assert rest == [];
    SourceIsRead(l.source, l.gap', rest);
    TagsAreRead(l.tags, l.gap, fromSource);
    StagesOf(l.margin, Marked(AT, l.tags, l.gap) + fromSource, l.end);
  }

  // ---------- Every line has a layout ----------

  lemma {:induction false} EndFound(line: Text) returns (end: Text)
    ensures line == StripEnd(line) + end && IsLineEnd(end) && Unended(StripEnd(line))
  {
    if line != [] && line[|line| - 1] in {CR, LF} {
      var shorter := EndFound(line[..|line| - 1]);
      end := shorter + [line[|line| - 1]];
      assert line == line[..|line| - 1] + [line[|line| - 1]];
    } else {
      end := [];
      assert line == line + [];
    }
  }

  lemma {:induction false} SpacesFound(s: Text) returns (n: nat)
    ensures s == Spaces(n) + DropSpaces(s)
    ensures s != [] && s[0] == SPACE ==> n > 0
  {
    if s != [] && s[0] == SPACE {
      var m := SpacesFound(s[1..]);
      n := m + 1;
      assert s == [SPACE] + s[1..];
    } else {
      n := 0;
      assert Spaces(0) + s == s;
    }
  }

  lemma {:induction false} TailFound(s: Text) returns (t: Tail)
    requires s == [] || s[0] == SPACE
    ensures IsTail(t) && TailText(t) == s
    decreases |s|
  {
    var gap := SpacesFound(s);
    var rest := DropSpaces(s);
    if rest == [] {
      assert Spaces(gap) + [] == Spaces(gap);
      t := End(gap);
    } else if rest[0] == COLON {
      assert rest == [COLON] + rest[1..];
      t := Last(gap, rest[1..]);
    } else {
      OnlySpaces(gap);
      assert rest == Atom(rest) + AfterAtom(rest);
      var after := TailFound(AfterAtom(rest));
      t := Word(gap, Atom(rest), after);
    }
  }

  lemma MarkedFront(mark: Unit, atom: Text, gap: nat, rest: Text, s: Text)
    requires s != [] && s[0] == mark && s[1..] == atom + Spaces(gap) + rest
    ensures s == Marked(mark, Some(atom), gap) + rest
  {
    hide Spaces;
    assert s == [mark] + s[1..];
  }

  /** A marked part at the front, as far as its gap. */
  lemma MarkedFound(mark: Unit, s: Text) returns (part: Option<Text>, gap: nat, rest: Text)
    requires mark != SPACE && (s == [] || s[0] != SPACE)
    ensures s == Marked(mark, part, gap) + rest && (rest == [] || rest[0] != SPACE)
    ensures part.Some? ==> s != [] && SPACE !in part.value && (rest != [] ==> gap > 0)
    ensures part.None? ==> rest == s && (s == [] || s[0] != mark)
  {
    hide Spaces;
    hide DropSpaces;
    if s != [] && s[0] == mark {
      var atom, after := Atom(s[1..]), AfterAtom(s[1..]);
      part, rest := Some(atom), DropSpaces(after);
      gap := SpacesFound(after);
      assert s[1..] == atom + after && after == Spaces(gap) + rest;
      Regroup(atom, Spaces(gap), rest);
      MarkedFront(mark, atom, gap, rest, s);
    } else {
      part, gap, rest := None, 0, s;
      assert [] + rest == rest;
    }
  }

  ghost predicate IsBlank(line: Text) {
    exists margin: nat, end :: IsLineEnd(end) && line == Spaces(margin) + end
  }

  ghost predicate LaidOut(line: Text, message: Message) {
    exists l :: IsLayout(l) && Written(l) == line && Meant(l) == message
  }

  ghost predicate Verbless(line: Text) {
    exists l :: IsVerbless(l) && Written(l) == line
  }

  lemma VerbFound(rest: Text) returns (verb: Text, tail: Tail)
    requires rest == [] || rest[0] != SPACE
    ensures rest == verb + TailText(tail) && SPACE !in verb && IsTail(tail)
    ensures if rest == [] then verb == [] && tail == End(0) else verb != [] && verb[0] == rest[0]
  {
    verb, tail := Atom(rest), End(0);
    assert rest == verb + AfterAtom(rest);
    if rest != [] {
      tail := TailFound(AfterAtom(rest));
    }
  }

  lemma PartsFound(line: Text) returns (l: Layout)
    ensures Written(l) == line && IsLineEnd(l.end) && Unended(Body(l))
    ensures l.tags.Some? ==> SPACE !in l.tags.value && (l.source.Some? || l.verb != [] ==> l.gap > 0)
    ensures l.source.Some? ==> SPACE !in l.source.value && (l.verb != [] ==> l.gap' > 0)
    ensures SPACE !in l.verb && IsTail(l.tail) && (l.verb == [] ==> l.tail == End(0))
    ensures l.verb != [] ==> IsVerb(l.verb, l.tags, l.source)
  {
    hide Spaces;
    hide DropSpaces;
    hide StripEnd;
    hide Marked;
    hide TailText;
    hide IsTail;
    var end := EndFound(line);
    var body := StripEnd(line);
    var margin := SpacesFound(body);
    var front := DropSpaces(body);
    var tags, gap, fromSource := MarkedFound(AT, front);
    var source, gap', rest := MarkedFound(COLON, fromSource);
    var verb, tail := VerbFound(rest);
    l := Layout(margin, tags, source, gap, gap', verb, tail, end);
  }

  /**
    * Every line is a layout read as its message, tags or a source without a
    * verb, or blank; so the parser's answer is settled for every line.
    */
  lemma EveryLineIsRead(line: Text)
    ensures Parse(line) == NotParsed(EmptyLine) <==> IsBlank(line)
    ensures Parse(line) == NotParsed(MissingCommand) <==> Verbless(line)
    ensures forall m :: Parse(line) == Parsed(m) <==> LaidOut(line, m)
  {
    hide Parse;
    var l := PartsFound(line);
    forall margin: nat, end | IsLineEnd(end) && line == Spaces(margin) + end
      ensures Parse(line) == NotParsed(EmptyLine)
    {
      BlankIsEmpty(margin, end);
    }
    forall k | IsVerbless(k) && Written(k) == line ensures Parse(line) == NotParsed(MissingCommand) {
      VerblessIsRefused(k);
    }
    forall k | IsLayout(k) && Written(k) == line ensures Parse(line) == Parsed(Meant(k)) {
      LayoutIsRead(k);
    }
    if l.verb != [] {
      assert IsLayout(l) && LaidOut(line, Meant(l));
    } else if l.tags.Some? || l.source.Some? {
      assert IsVerbless(l) && Verbless(line);
    } else {
      assert Body(l) == Spaces(l.margin);
      assert IsBlank(line);
    }
  }

  // ---------- The layout the serializer writes ----------

  /** One space before each parameter, and a colon only before a last one that needs it. */
  function TailFor(params: seq<Text>): Tail {
    if params == [] then End(0)
    else
      var p := params[0];
      if |params| == 1 && (p == [] || p[0] == COLON || SPACE in p) then Last(1, p) else Word(1, p, TailFor(params[1..]))
  }

  lemma {:induction false} ParamsAreWritten(params: seq<Text>)
    ensures ParamText(params) == TailText(TailFor(params))
  {
    assert Spaces(1) == [SPACE] by {
      assert Spaces(0) == [];
    }
    if params == [] {
    } else {
      ParamsAreWritten(params[1..]);
      assert [SPACE] + ([COLON] + params[0]) == [SPACE, COLON] + params[0];
    }
  }

  /** A line is written with single spaces, no margin and no end, and no colon that is not needed. */
  lemma SerializedAsLaidOut(msg: Message)
    requires Serialize(msg).Line?
    ensures var section := if msg.tags == [] then None else Some(Join(Entries(msg.tags), SEMICOLON));
            var raw := if msg.source.None? then None else Some(msg.source.value.raw);
            Serialize(msg).text == Written(Layout(0, section, raw, 1, 1, VerbOf(msg), TailFor(msg.params), []))
  {
    ParamsAreWritten(msg.params);
    assert Spaces(1) == [SPACE] by {
      assert Spaces(0) == [];
    }
    hide Serialize;
    hide ParamText;
    hide TailText;
    hide VerbOf;
    hide Entries;
    var section := if msg.tags == [] then None else Some(Join(Entries(msg.tags), SEMICOLON));
    var raw := if msg.source.None? then None else Some(msg.source.value.raw);
    var l := Layout(0, section, raw, 1, 1, VerbOf(msg), TailFor(msg.params), []);
    TextIsLine(msg);
    assert TagPart(msg) == Marked(AT, section, 1) && SourcePart(msg) == Marked(COLON, raw, 1);
    assert Body(l) == LineOf(msg);
    assert Body(l) + [] == Body(l);
  }

  lemma TextIsLine(msg: Message)
    requires Serialize(msg).Line?
    ensures Serialize(msg).text == LineOf(msg)
  {
  }
}
