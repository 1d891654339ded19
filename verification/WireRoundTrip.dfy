/**
  * Parsing inverts serializing, exactly on the messages that the wire can
  * carry; and what a serialized line can contain.
  */
module WireRoundTrip {
  import opened Units
  import opened Escapes
  import opened MessageTags
  import opened Messages

  /**
    * What a caller can check before sending a message to know that it will be
    * read back as itself. Every conjunct is about one field.
    */
  predicate WellFormed(msg: Message) {
    var verb := VerbOf(msg);
    && (forall t | t in msg.tags :: ReadableTag(t))
    && (msg.source.Some? ==>
          SPACE !in msg.source.value.raw && msg.source.value == ParseSource(msg.source.value.raw))
    && msg.command == UpperAscii(verb)
    && (msg.rawCommand.Some? ==> verb != msg.command)
    && (verb != [] && verb[0] == COLON ==> msg.source.Some?)
    && (verb != [] && verb[0] == AT ==> msg.source.Some? || msg.tags != [])
  }

  // ---------- Atoms and parameters ----------

  /** Reading an atom off the front of `a + rest`. */
  lemma AtomOf(a: Text, rest: Text)
    requires SPACE !in a
    requires rest == [] || rest[0] == SPACE
    ensures Atom(a + rest) == a && AfterAtom(a + rest) == rest
  {
    FindUnique(a + rest, SPACE, |a|);
  }

  lemma DropOneSpace(s: Text)
    requires s == [] || s[0] != SPACE
    ensures DropSpaces([SPACE] + s) == s
  {
    assert ([SPACE] + s)[1..] == s;
  }

  lemma ParamTextShape(params: seq<Text>)
    ensures ParamText(params) == [] || ParamText(params)[0] == SPACE
  {
  }

  /** Every parameter list the serializer accepts is read back whole. */
  lemma {:induction false} ParamsRoundTrip(params: seq<Text>)
    requires forall i | 0 <= i < |params| - 1 :: !NeedsTrailing(params[i])
    ensures ParamsOf(ParamText(params)) == params
  {
    if params == [] {
    } else {
      var p := params[0];
      var rest := ParamText(params[1..]);
      if |params| == 1 && NeedsTrailing(p) {
        DropOneSpace([COLON] + p);
        assert ParamText(params) == [SPACE] + ([COLON] + p);
        assert ([COLON] + p)[1..] == p;
      } else {
        ParamTextShape(params[1..]);
        assert ParamText(params) == [SPACE] + (p + rest);
        DropOneSpace(p + rest);
        AtomOf(p, rest);
        forall i | 0 <= i < |params[1..]| - 1 ensures !NeedsTrailing(params[1..][i]) {
          assert params[1..][i] == params[i + 1];
        }
        ParamsRoundTrip(params[1..]);
      }
    }
  }

  // ---------- What a line contains ----------

  lemma {:induction false} ParamTextUnits(params: seq<Text>, u: Unit)
    requires u != SPACE && u != COLON
    ensures u in ParamText(params) <==> exists p :: p in params && u in p
  {
    if params == [] {
    } else {
      var p := params[0];
      var rest := params[1..];
      assert params == [p] + rest;
      ParamTextUnits(rest, u);
      if |params| == 1 && NeedsTrailing(p) {
        assert ParamText(params) == [SPACE, COLON] + p;
      } else {
        assert ParamText(params) == [SPACE] + p + ParamText(rest);
      }
      if u in p {
        assert p in params;
      }
      if q :| q in params && u in q {
        assert q == p || q in rest;
      }
    }
  }

  lemma TagPartUnits(msg: Message, u: Unit)
    requires u != SPACE && u != SEMICOLON && u != AT
    ensures u in TagPart(msg) <==> exists t :: t in msg.tags && u in EntryText(t)
  {
    var entries := Entries(msg.tags);
    JoinUnits(entries, SEMICOLON, u);
    if i :| 0 <= i < |entries| && u in entries[i] {
      assert msg.tags[i] in msg.tags && u in EntryText(msg.tags[i]);
    }
    if t :| t in msg.tags && u in EntryText(t) {
      var i :| 0 <= i < |msg.tags| && msg.tags[i] == t;
      assert u in entries[i];
    }
  }

  lemma EntryHoldsNul(tag: Tag)
    requires NUL !in tag.name
    ensures NUL in EntryText(tag) <==> NUL in tag.value
  {
    QuoteKeeps(TagValue, tag.value, NUL);
  }

  /**
    * A serialized line never holds CR or LF, so no field can end the message
    * early and append another. NUL is refused everywhere except inside a tag
    * value, whose escaping has no code for it: there it goes out as it is.
    */
  lemma SerializedLineIsOneLine(msg: Message)
    requires Serialize(msg).Line?
    ensures CR !in Serialize(msg).text && LF !in Serialize(msg).text
    ensures NUL in Serialize(msg).text <==> exists t :: t in msg.tags && NUL in t.value
  {
    var line := LineOf(msg);
    forall u: Unit | u in {CR, LF, NUL}
      ensures u in line <==> u in TagPart(msg)
    {
      ParamTextUnits(msg.params, u);
      assert u !in SourcePart(msg) && u !in VerbOf(msg) && u !in ParamText(msg.params);
    }
    forall u: Unit | u in {CR, LF} ensures u !in TagPart(msg) {
      TagPartUnits(msg, u);
      forall t | t in msg.tags ensures u !in EntryText(t) {
        assert !BadTagName(t.name);
        EntryIsClean(t, u);
      }
    }
    TagPartUnits(msg, NUL);
    forall t | t in msg.tags ensures NUL in EntryText(t) <==> NUL in t.value {
      assert !BadTagName(t.name);
      EntryHoldsNul(t);
    }
  }

  // ---------- Reading back the three leading parts ----------

  lemma BodyShape(msg: Message)
    requires Serialize(msg).Line?
    ensures var body := VerbOf(msg) + ParamText(msg.params);
            && body != [] && body[0] == VerbOf(msg)[0] != SPACE
            && Atom(body) == VerbOf(msg) && AfterAtom(body) == ParamText(msg.params)
  {
    ParamTextShape(msg.params);
    AtomOf(VerbOf(msg), ParamText(msg.params));
  }

  lemma TagNamesOk(msg: Message)
    requires Serialize(msg).Line?
    ensures forall t | t in msg.tags :: SPACE !in t.name && SEMICOLON !in t.name
  {
    forall t | t in msg.tags ensures SPACE !in t.name && SEMICOLON !in t.name {
      assert !BadTagName(t.name);
    }
  }

  lemma SectionEnds(section: Text, rest: Text)
    requires SPACE !in section
    requires rest == [] || rest[0] != SPACE
    ensures ReadTags([AT] + section + [SPACE] + rest) == (ParseTags(section), rest)
  {
    var line := [AT] + section + [SPACE] + rest;
    assert line[1..] == section + ([SPACE] + rest);
    AtomOf(section, [SPACE] + rest);
    DropOneSpace(rest);
  }

  lemma SectionHasNoSpace(msg: Message)
    requires Serialize(msg).Line?
    ensures SPACE !in Join(Entries(msg.tags), SEMICOLON)
  {
    TagNamesOk(msg);
    EntriesAreClean(msg.tags, SPACE);
    JoinUnits(Entries(msg.tags), SEMICOLON, SPACE);
  }

  /** The tag section ends at the first space, and what follows it is left. */
  lemma TagSectionEnds(msg: Message, rest: Text)
    requires Serialize(msg).Line? && msg.tags != []
    requires rest == [] || rest[0] != SPACE
    ensures ReadTags(TagPart(msg) + rest) == (ParseTags(SerializeTags(msg.tags)[1..]), rest)
  {
    var section := Join(Entries(msg.tags), SEMICOLON);
    SectionHasNoSpace(msg);
    SectionEnds(section, rest);
    assert TagPart(msg) == [AT] + section + [SPACE];
    assert SerializeTags(msg.tags)[1..] == section;
  }

  lemma SourceEnds(raw: Text, rest: Text)
    requires SPACE !in raw
    requires rest == [] || rest[0] != SPACE
    ensures ReadSource([COLON] + raw + [SPACE] + rest) == (Some(ParseSource(raw)), rest)
  {
    var line := [COLON] + raw + [SPACE] + rest;
    assert line[1..] == raw + ([SPACE] + rest);
    AtomOf(raw, [SPACE] + rest);
    DropOneSpace(rest);
  }

  lemma StripNothing(line: Text)
    requires CR !in line && LF !in line
    ensures StripEnd(line) == line
  {
    if line != [] {
      assert line[|line| - 1] in line;
    }
  }

  /** The line as the parser sees it, before any tag or source is read. */
  lemma LineStarts(msg: Message)
    requires Serialize(msg).Line?
    ensures LineOf(msg) != [] && DropSpaces(StripEnd(LineOf(msg))) == LineOf(msg)
  {
    SerializedLineIsOneLine(msg);
    StripNothing(LineOf(msg));
    BodyShape(msg);
  }

  // ---------- The round trip, both directions ----------

  /** The parser's reading of a serialized line, given what its stages read. */
  lemma ParseByStages(msg: Message, tags: Tags, afterTags: Text, source: Option<Source>, afterSource: Text)
    requires Serialize(msg).Line?
    requires ReadTags(LineOf(msg)) == (tags, afterTags)
    requires ReadSource(afterTags) == (source, afterSource)
    ensures Parse(Serialize(msg).text) == ReadCommand(tags, source, afterSource)
  {
    LineStarts(msg);
  }

  lemma TagStage(msg: Message)
    requires UniqueNames(msg.tags) && Serialize(msg).Line?
    requires forall t | t in msg.tags :: ReadableTag(t)
    ensures ReadTags(LineOf(msg)) == (msg.tags, SourcePart(msg) + (VerbOf(msg) + ParamText(msg.params)))
         || (msg.tags == [] && msg.source.None? && VerbOf(msg)[0] == AT)
  {
    var afterTags := SourcePart(msg) + (VerbOf(msg) + ParamText(msg.params));
    BodyShape(msg);
    if msg.tags == [] {
      assert LineOf(msg) == afterTags;
      if msg.source.None? {
        assert afterTags == VerbOf(msg) + ParamText(msg.params);
      }
    } else {
      TagNamesOk(msg);
      TagSectionEnds(msg, afterTags);
      TagsRoundTrip(msg.tags);
    }
  }

  lemma SourceStage(msg: Message)
    requires Serialize(msg).Line?
    requires msg.source.Some? ==>
               SPACE !in msg.source.value.raw && msg.source.value == ParseSource(msg.source.value.raw)
    requires msg.source.None? ==> VerbOf(msg)[0] != COLON
    ensures ReadSource(SourcePart(msg) + (VerbOf(msg) + ParamText(msg.params)))
         == (msg.source, VerbOf(msg) + ParamText(msg.params))
  {
    var body := VerbOf(msg) + ParamText(msg.params);
    BodyShape(msg);
    if msg.source.Some? {
      SourceEnds(msg.source.value.raw, body);
    } else {
      assert SourcePart(msg) + body == body;
    }
  }

  lemma CommandStage(msg: Message)
    requires Serialize(msg).Line? && WellFormed(msg)
    ensures ReadCommand(msg.tags, msg.source, VerbOf(msg) + ParamText(msg.params)) == Parsed(msg)
  {
    BodyShape(msg);
    ParamsRoundTrip(msg.params);
  }

  lemma WellFormedRoundTrip(msg: Message)
    requires UniqueNames(msg.tags) && Serialize(msg).Line? && WellFormed(msg)
    ensures Parse(Serialize(msg).text) == Parsed(msg)
  {
    TagStage(msg);
    SourceStage(msg);
    CommandStage(msg);
    var body := VerbOf(msg) + ParamText(msg.params);
    ParseByStages(msg, msg.tags, SourcePart(msg) + body, msg.source, body);
  }

  /** Whatever the parser returns has readable names, a space-free source and a folded verb. */
  lemma ParsedRange(line: Text)
    requires Parse(line).Parsed?
    ensures var m := Parse(line).message;
            && (forall t | t in m.tags :: EQUALS !in t.name)
            && (m.source.Some? ==>
                  SPACE !in m.source.value.raw && m.source.value == ParseSource(m.source.value.raw))
            && m.command == UpperAscii(VerbOf(m))
            && (m.rawCommand.Some? ==> VerbOf(m) != m.command)
  {
    var s := DropSpaces(StripEnd(line));
    if s[0] == AT {
      ParsedTagsRange(Atom(s[1..]));
    }
  }

  /** A verb led by `:` is taken for a source when the message has none. */
  lemma ColonVerbIsMisread(msg: Message)
    requires UniqueNames(msg.tags) && Serialize(msg).Line?
    requires forall t | t in msg.tags :: ReadableTag(t)
    requires VerbOf(msg)[0] == COLON && msg.source.None?
    ensures Parse(Serialize(msg).text) != Parsed(msg)
  {
    var body := VerbOf(msg) + ParamText(msg.params);
    TagStage(msg);
    BodyShape(msg);
    assert SourcePart(msg) + body == body;
    ParseByStages(msg, msg.tags, body, ReadSource(body).0, ReadSource(body).1);
  }

  /** With the verb read as tags, the first parameter is read as source or verb. */
  lemma ShiftedReading(params: seq<Text>)
    requires forall i | 0 <= i < |params| - 1 :: !NeedsTrailing(params[i])
    ensures var rest := DropSpaces(ParamText(params));
            || ReadSource(rest).0.Some?
            || (Atom(rest) == [] && ReadSource(rest).1 == rest)
            || (ReadSource(rest).1 == rest && |ParamsOf(AfterAtom(rest))| < |params|)
  {
    if params != [] {
      var p, tail := params[0], ParamText(params[1..]);
      if |params| == 1 && NeedsTrailing(p) {
        DropOneSpace([COLON] + p);
        assert ParamText(params) == [SPACE] + ([COLON] + p);
      } else {
        ParamTextShape(params[1..]);
        assert ParamText(params) == [SPACE] + (p + tail);
        DropOneSpace(p + tail);
        AtomOf(p, tail);
        ParamsRoundTrip(params[1..]);
      }
    }
  }

  /** A verb led by `@` is taken for tags when the message has neither tags nor source. */
  lemma AtVerbIsMisread(msg: Message)
    requires Serialize(msg).Line? && VerbOf(msg)[0] == AT && msg.source.None? && msg.tags == []
    ensures Parse(Serialize(msg).text) != Parsed(msg)
  {
    var verb, params := VerbOf(msg), ParamText(msg.params);
    assert LineOf(msg) == verb + params;
    assert (verb + params)[1..] == verb[1..] + params;
    ParamTextShape(msg.params);
    AtomOf(verb[1..], params);
    var rest := DropSpaces(params);
    assert ReadTags(LineOf(msg)) == (ParseTags(verb[1..]), rest);
    ShiftedReading(msg.params);
    ParseByStages(msg, ParseTags(verb[1..]), rest, ReadSource(rest).0, ReadSource(rest).1);
  }

  /**
    * The wire round trip. For every message the serializer accepts, parsing the
    * emitted line gives back exactly that message - tags in order, source
    * parts, both spellings of the verb, every parameter - if and only if the
    * message is well formed.
    */
  lemma ParseInvertsSerialize(msg: Message)
    requires UniqueNames(msg.tags) && Serialize(msg).Line?
    ensures Parse(Serialize(msg).text) == Parsed(msg) <==> WellFormed(msg)
  {
    if WellFormed(msg) {
      WellFormedRoundTrip(msg);
    } else if Parse(Serialize(msg).text) == Parsed(msg) {
      ParsedRange(Serialize(msg).text);
      if t :| t in msg.tags && !ReadableTag(t) {
        TagNamesOk(msg);
        NamelessTagIsLost(msg.tags);
        BodyShape(msg);
        LineStarts(msg);
        TagSectionEnds(msg, SourcePart(msg) + (VerbOf(msg) + ParamText(msg.params)));
      } else if VerbOf(msg)[0] == COLON {
        ColonVerbIsMisread(msg);
      } else {
        AtVerbIsMisread(msg);
      }
    }
  }

  /**
    * Reading is stable: what a line was read as, if it can be written again,
    * is read the same way again - unless its verb is led by `@` and an empty
    * tag section shielded it the first time.
    */
  lemma ReparseIsStable(line: Text)
    requires Parse(line).Parsed? && Serialize(Parse(line).message).Line?
    ensures var m := Parse(line).message;
            && (Parse(Serialize(m).text) == Parsed(m) <==>
                (Tag([], []) !in m.tags && (VerbOf(m)[0] == AT ==> m.source.Some? || m.tags != [])))
  {
    var m := Parse(line).message;
    ParsedRange(line);
    var s := DropSpaces(StripEnd(line));
    assert UniqueNames(m.tags) by {
      if s[0] == AT {
        ParsedTagsRange(Atom(s[1..]));
      }
    }
    ParseInvertsSerialize(m);
  }
}
