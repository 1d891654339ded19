/**
  * One IRC message, its source prefix, the line parser and the serializer
  * (section 2.3.1 of RFC 1459, with IRCv3 tags and runs of spaces).
  */
module Messages {
  import opened Units
  import opened MessageTags

  datatype Source = Source(raw: Text, nick: Text, user: Text, host: Text)

  datatype Message = Message(
    tags: Tags,
    source: Option<Source>,
    command: Text,
    rawCommand: Option<Text>,
    params: seq<Text>)

  // ---------- Sources ----------

  function ParseSource(raw: Text): Source {
    var at := Find(raw, AT);
    var bang := Find(raw, BANG);
    var hasUser := bang < |raw| && bang < at;
    Source(
      raw,
      if hasUser then raw[..bang] else raw[..at],
      if hasUser then raw[bang + 1..at] else [],
      if at == |raw| then [] else raw[at + 1..])
  }

  function SourceText(nick: Text, user: Text, host: Text): Text {
    nick + (if user == [] then [] else [BANG] + user) + (if host == [] then [] else [AT] + host)
  }

  function MakeSource(nick: Text, user: Text, host: Text): Source {
    Source(SourceText(nick, user, host), nick, user, host)
  }

  lemma MakeSourceReadBack(nick: Text, user: Text, host: Text)
    requires AT !in nick && BANG !in nick && AT !in user
    ensures ParseSource(SourceText(nick, user, host)) == MakeSource(nick, user, host)
  {
    var raw := SourceText(nick, user, host);
    var before := nick + if user == [] then [] else [BANG] + user;
    assert raw == before + if host == [] then [] else [AT] + host;
    assert raw[..|before|] == before;
    assert forall i | 0 <= i < |before| :: raw[i] == before[i];
    FindUnique(raw, AT, |before|);
    if user == [] {
      assert Find(raw, BANG) >= |nick|;
    } else {
      FindUnique(raw, BANG, |nick|);
      assert raw[|nick| + 1..|before|] == user;
    }
    assert raw[..|nick|] == nick;
    if host != [] {
      assert raw[|before| + 1..] == host;
    }
  }

  /** A source built from parts is read back as those parts exactly when they keep to their fields. */
  lemma MakeSourceRoundTrip(nick: Text, user: Text, host: Text)
    ensures ParseSource(MakeSource(nick, user, host).raw) == MakeSource(nick, user, host)
      <==> AT !in nick && BANG !in nick && AT !in user
  {
    if AT !in nick && BANG !in nick && AT !in user {
      MakeSourceReadBack(nick, user, host);
    }
  }

  // ---------- Parsing ----------

  datatype ParseFailure = EmptyLine | MissingCommand

  datatype ParseResult = Parsed(message: Message) | NotParsed(reason: ParseFailure)

  function StripEnd(line: Text): Text {
    if line != [] && line[|line| - 1] in {CR, LF} then StripEnd(line[..|line| - 1]) else line
  }

  function DropSpaces(s: Text): (r: Text)
    ensures |r| <= |s|
    ensures r == [] || r[0] != SPACE
  {
    if s != [] && s[0] == SPACE then DropSpaces(s[1..]) else s
  }

  function Atom(s: Text): Text {
    s[..Find(s, SPACE)]
  }

  function AfterAtom(s: Text): Text {
    s[Find(s, SPACE)..]
  }

  function ParamsOf(s: Text): seq<Text>
    decreases |s|
  {
    var t := DropSpaces(s);
    if t == [] then []
    else if t[0] == COLON then [t[1..]]
    else [Atom(t)] + ParamsOf(AfterAtom(t))
  }

  /** The tags at the front of a line, and the line from the next atom on. */
  function ReadTags(s: Text): (Tags, Text) {
    if s != [] && s[0] == AT
    then (ParseTags(Atom(s[1..])), DropSpaces(AfterAtom(s[1..])))
    else ([], s)
  }

  function ReadSource(s: Text): (Option<Source>, Text) {
    if s != [] && s[0] == COLON
    then (Some(ParseSource(Atom(s[1..]))), DropSpaces(AfterAtom(s[1..])))
    else (None, s)
  }

  function ReadCommand(tags: Tags, source: Option<Source>, s: Text): ParseResult {
    var verb := Atom(s);
    if verb == [] then NotParsed(MissingCommand)
    else
      var command := UpperAscii(verb);
      Parsed(Message(tags, source, command, if verb == command then None else Some(verb), ParamsOf(AfterAtom(s))))
  }

  function Parse(line: Text): ParseResult {
    var s := DropSpaces(StripEnd(line));
    if s == [] then NotParsed(EmptyLine)
    else
      var (tags, afterTags) := ReadTags(s);
      var (source, afterSource) := ReadSource(afterTags);
      ReadCommand(tags, source, afterSource)
  }

  /** Skipping spaces from `i` in a line that ends at `end`. */
  method SkipSpaces(line: Text, start: nat, end: nat) returns (i: nat)
    requires start <= end <= |line|
    ensures start <= i <= end
    ensures line[i..end] == DropSpaces(line[start..end])
  {
    i := start;
    while i < end && line[i] == SPACE
      invariant start <= i <= end
      invariant DropSpaces(line[i..end]) == DropSpaces(line[start..end])
    {
      assert line[i..end][1..] == line[i + 1..end];
      i := i + 1;
    }
  }

  method ReadAtom(line: Text, start: nat, end: nat) returns (atom: Text, i: nat)
    requires start <= end <= |line|
    ensures start <= i <= end
    ensures atom == Atom(line[start..end]) && line[i..end] == AfterAtom(line[start..end])
    ensures i == start ==> atom == []
  {
    i := start;
    while i < end && line[i] != SPACE
      invariant start <= i <= end
      invariant forall k | start <= k < i :: line[k] != SPACE
    {
      i := i + 1;
    }
    FindUnique(line[start..end], SPACE, i - start);
    atom := line[start..i];
  }

  /** Where the line ends once trailing CR and LF are left off. */
  method LineEnd(line: Text) returns (end: nat)
    ensures end <= |line| && line[..end] == StripEnd(line)
  {
    end := |line|;
    assert line[..end] == line;
    while end > 0 && line[end - 1] in {CR, LF}
      invariant 0 <= end <= |line|
      invariant StripEnd(line[..end]) == StripEnd(line)
    {
      assert line[..end][..end - 1] == line[..end - 1];
      end := end - 1;
    }
  }

  method ReadParams(line: Text, start: nat, end: nat) returns (params: seq<Text>)
    requires start <= end <= |line|
    ensures params == ParamsOf(line[start..end])
  {
    params := [];
    var i := start;
    while true
      invariant start <= i <= end
      invariant ParamsOf(line[start..end]) == params + ParamsOf(line[i..end])
      decreases end - i
    {
      ghost var rest := line[i..end];
      i := SkipSpaces(line, i, end);
      if i >= end {
        assert ParamsOf(rest) == [];
        break;
      }
      if line[i] == COLON {
        assert line[i..end][1..] == line[i + 1..end];
        params := params + [line[i + 1..end]];
        assert ParamsOf(rest) == [line[i + 1..end]];
        break;
      }
      var param, next := ReadAtom(line, i, end);
      assert ParamsOf(rest) == [param] + ParamsOf(line[next..end]);
      params := params + [param];
      i := next;
    }
  }

  method ReadTagsAt(line: Text, start: nat, end: nat) returns (tags: Tags, i: nat)
    requires start < end <= |line|
    ensures start <= i <= end && (tags, line[i..end]) == ReadTags(line[start..end])
  {
    ghost var s := line[start..end];
    tags, i := [], start;
    if line[i] == AT {
      var section, next := ReadAtom(line, i + 1, end);
      assert line[i + 1..end] == s[1..];
      tags := ParseTagSection(section);
      i := SkipSpaces(line, next, end);
    }
  }

  method ReadSourceAt(line: Text, start: nat, end: nat) returns (source: Option<Source>, i: nat)
    requires start <= end <= |line|
    ensures start <= i <= end && (source, line[i..end]) == ReadSource(line[start..end])
  {
    ghost var s := line[start..end];
    source, i := None, start;
    if i < end && line[i] == COLON {
      var raw, next := ReadAtom(line, i + 1, end);
      assert line[i + 1..end] == s[1..];
      source := Some(ParseSource(raw));
      i := SkipSpaces(line, next, end);
    }
  }

  method ParseLine(line: Text) returns (r: ParseResult)
    ensures r == Parse(line)
  {
    var end := LineEnd(line);
    assert line[0..end] == StripEnd(line);
    var i := SkipSpaces(line, 0, end);
    if i >= end {
      return NotParsed(EmptyLine);
    }
    var tags, afterTags := ReadTagsAt(line, i, end);
    var source, afterSource := ReadSourceAt(line, afterTags, end);
    var verb, afterVerb := ReadAtom(line, afterSource, end);
    if verb == [] {
      return NotParsed(MissingCommand);
    }
    var params := ReadParams(line, afterVerb, end);
    var command := UpperAscii(verb);
    r := Parsed(Message(tags, source, command, if verb == command then None else Some(verb), params));
  }

  // ---------- Serializing ----------

  datatype SerializeFailure = AmbiguousParameter | InvalidCommand | ForbiddenCharacter

  datatype SerializeResult = Line(text: Text) | Refused(reason: SerializeFailure)

  function VerbOf(msg: Message): Text {
    if msg.rawCommand.Some? then msg.rawCommand.value else msg.command
  }

  predicate NeedsTrailing(value: Text) {
    value == [] || SPACE in value || value[0] == COLON
  }

  predicate Forbidden(value: Text) {
    NUL in value || CR in value || LF in value
  }

  function ParamText(params: seq<Text>): Text {
    if params == [] then []
    else if |params| == 1 && NeedsTrailing(params[0]) then [SPACE, COLON] + params[0]
    else [SPACE] + params[0] + ParamText(params[1..])
  }

  function TagPart(msg: Message): Text {
    if msg.tags == [] then [] else SerializeTags(msg.tags) + [SPACE]
  }

  function SourcePart(msg: Message): Text {
    if msg.source == None then [] else [COLON] + msg.source.value.raw + [SPACE]
  }

  function LineOf(msg: Message): Text {
    TagPart(msg) + (SourcePart(msg) + (VerbOf(msg) + ParamText(msg.params)))
  }

  predicate BadTagName(name: Text) {
    Forbidden(name) || SPACE in name || SEMICOLON in name
  }

  predicate HasForbidden(msg: Message) {
    || Forbidden(VerbOf(msg))
    || (msg.source.Some? && Forbidden(msg.source.value.raw))
    || (exists p | p in msg.params :: Forbidden(p))
    || (exists t | t in msg.tags :: BadTagName(t.name))
  }

  function Serialize(msg: Message): SerializeResult {
    var verb := VerbOf(msg);
    if verb == [] || SPACE in verb then Refused(InvalidCommand)
    else if HasForbidden(msg) then Refused(ForbiddenCharacter)
    else if exists i | 0 <= i < |msg.params| - 1 :: NeedsTrailing(msg.params[i]) then Refused(AmbiguousParameter)
    else Line(LineOf(msg))
  }

  lemma {:induction false} ParamTextAppend(params: seq<Text>, i: nat)
    requires i < |params|
    requires forall k | 0 <= k < |params| - 1 :: !NeedsTrailing(params[k])
    ensures ParamText(params[i..])
         == (if i == |params| - 1 && NeedsTrailing(params[i]) then [SPACE, COLON] else [SPACE])
            + params[i] + ParamText(params[i + 1..])
  {
    assert params[i..][1..] == params[i + 1..];
    if i == |params| - 1 {
      assert params[i..] == [params[i]];
    }
  }

  /** The checks, in the order they are made. */
  method RefusalOf(msg: Message) returns (refusal: Option<SerializeFailure>)
    ensures refusal == if Serialize(msg).Refused? then Some(Serialize(msg).reason) else None
  {
    var verb := VerbOf(msg);
    if verb == [] || SPACE in verb {
      return Some(InvalidCommand);
    }
    if Forbidden(verb) || (msg.source.Some? && Forbidden(msg.source.value.raw)) {
      return Some(ForbiddenCharacter);
    }
    for i := 0 to |msg.params|
      invariant forall k | 0 <= k < i :: !Forbidden(msg.params[k])
    {
      if Forbidden(msg.params[i]) {
        return Some(ForbiddenCharacter);
      }
    }
    for i := 0 to |msg.tags|
      invariant forall k | 0 <= k < i :: !BadTagName(msg.tags[k].name)
    {
      if BadTagName(msg.tags[i].name) {
        return Some(ForbiddenCharacter);
      }
    }
    assert !HasForbidden(msg);
    var i := 0;
    while i < |msg.params| - 1
      invariant forall k | 0 <= k < i :: k < |msg.params| - 1 ==> !NeedsTrailing(msg.params[k])
    {
      if NeedsTrailing(msg.params[i]) {
        return Some(AmbiguousParameter);
      }
      i := i + 1;
    }
    refusal := None;
  }

  /** The parameters, the last one behind a colon when it needs one. */
  method WriteParams(params: seq<Text>) returns (text: Text)
    requires forall k | 0 <= k < |params| - 1 :: !NeedsTrailing(params[k])
    ensures text == ParamText(params)
  {
    hide ParamText;
    hide NeedsTrailing;
    text := [];
    assert params[0..] == params && [] + ParamText(params) == ParamText(params);
    for i := 0 to |params|
      invariant ParamText(params) == text + ParamText(params[i..])
    {
      ParamTextAppend(params, i);
      var value := params[i];
      var last := i == |params| - 1;
      var piece := if last && NeedsTrailing(value) then [SPACE, COLON] + value else [SPACE] + value;
      Regroup(text, piece, ParamText(params[i + 1..]));
      text := text + piece;
    }
    NoParams(params);
  }

  lemma NoParams(params: seq<Text>)
    ensures ParamText(params[|params|..]) == []
  {
  }

  method WriteLine(msg: Message) returns (line: Text)
    requires Serialize(msg).Line?
    ensures line == LineOf(msg)
  {
    hide VerbOf;
    hide ParamText;
    line := [];
    var tags := WriteTags(msg.tags);
    if tags != [] {
      line := line + tags + [SPACE];
    }
    assert line == TagPart(msg);
    if msg.source.Some? {
      line := line + [COLON] + msg.source.value.raw + [SPACE];
    }
    line := line + VerbOf(msg);
    assert line == TagPart(msg) + (SourcePart(msg) + VerbOf(msg));
    var params := WriteParams(msg.params);
    Regroup(SourcePart(msg), VerbOf(msg), params);
    Regroup(TagPart(msg), SourcePart(msg) + VerbOf(msg), params);
    line := line + params;
  }

  method SerializeMessage(msg: Message) returns (r: SerializeResult)
    ensures r == Serialize(msg)
  {
    hide HasForbidden;
    hide LineOf;
    var refusal := RefusalOf(msg);
    if refusal.Some? {
      return Refused(refusal.value);
    }
    var line := WriteLine(msg);
    r := Line(line);
  }

  // ---------- Sources and refusals in full ----------

  /** `nick!user@host`, whole: how it is read. */
  lemma FullSourceIsRead(nick: Text, user: Text, host: Text)
    requires AT !in nick && BANG !in nick && AT !in user
    ensures var raw := nick + [BANG] + user + [AT] + host; ParseSource(raw) == Source(raw, nick, user, host)
  {
    var raw, front := nick + [BANG] + user + [AT] + host, nick + [BANG] + user;
    FindUnique(raw, AT, |front|);
    FindUnique(raw, BANG, |nick|);
    assert raw[..|nick|] == nick && raw[|nick| + 1..|front|] == user && raw[|front| + 1..] == host;
  }

  /** A source with one of the two marks or neither; a user or host that is not there is empty. */
  lemma ShortSourcesAreRead(nick: Text, user: Text, host: Text)
    requires AT !in nick && BANG !in nick && AT !in user
    ensures var raw := nick + [AT] + host; ParseSource(raw) == Source(raw, nick, [], host)
    ensures var raw := nick + [BANG] + user; ParseSource(raw) == Source(raw, nick, user, [])
    ensures ParseSource(nick) == Source(nick, nick, [], [])
  {
    var hosted, named := nick + [AT] + host, nick + [BANG] + user;
    FindUnique(hosted, AT, |nick|);
    FindUnique(named, AT, |named|);
    FindUnique(named, BANG, |nick|);
    FindUnique(nick, AT, |nick|);
    FindUnique(nick, BANG, |nick|);
    assert hosted[..|nick|] == nick && hosted[|nick| + 1..] == host;
    assert named[..|nick|] == nick && named[|nick| + 1..] == user;
  }

  predicate IsMadeOf(raw: Text, nick: Text, user: Text, host: Text) {
    && AT !in nick && BANG !in nick && AT !in user
    && (|| raw == nick + [BANG] + user + [AT] + host
        || raw == nick + [AT] + host || raw == nick + [BANG] + user || raw == nick)
  }

  /** Every source is of one of these forms. */
  lemma EverySourceHasParts(raw: Text)
    ensures exists nick: Text, user: Text, host: Text :: IsMadeOf(raw, nick, user, host)
  {
    var at, bang := Find(raw, AT), Find(raw, BANG);
    var host := if at < |raw| then raw[at + 1..] else [];
    if bang < at {
      FrontSplits(raw, bang, at);
      assert IsMadeOf(raw, raw[..bang], raw[bang + 1..at], host);
    } else {
      assert raw[..at] + [AT] + host == raw || raw[..at] == raw;
      assert IsMadeOf(raw, raw[..at], [], host);
    }
  }

  lemma FrontSplits(raw: Text, bang: nat, at: nat)
    requires bang < at <= |raw| && raw[bang] == BANG && (at < |raw| ==> raw[at] == AT)
    ensures at < |raw| ==> raw == raw[..bang] + [BANG] + raw[bang + 1..at] + [AT] + raw[at + 1..]
    ensures at == |raw| ==> raw == raw[..bang] + [BANG] + raw[bang + 1..at]
  {
  }

  /** A line break or a NUL, which would end the line or be cut off it. */
  predicate HasBreak(text: Text) {
    0x00 in text || 0x0a in text || 0x0d in text
  }

  predicate FieldHasBreak(msg: Message) {
    || HasBreak(if msg.rawCommand.Some? then msg.rawCommand.value else msg.command)
    || (msg.source.Some? && HasBreak(msg.source.value.raw))
    || (exists param | param in msg.params :: HasBreak(param))
    || (exists tag | tag in msg.tags :: HasBreak(tag.name) || 0x20 in tag.name || 0x3b in tag.name)
  }

  /** A parameter that can only stand last does not. */
  predicate IsAmbiguous(params: seq<Text>) {
    exists i | 0 <= i < |params| - 1 :: params[i] == [] || params[i][0] == 0x3a || 0x20 in params[i]
  }

  /** Exactly which messages are refused, and on which ground, the earlier one first. */
  lemma RefusalsInWords(msg: Message)
    ensures var verb := if msg.rawCommand.Some? then msg.rawCommand.value else msg.command;
            var r := Serialize(msg);
            && (r == Refused(InvalidCommand) <==> verb == [] || 0x20 in verb)
            && (r == Refused(ForbiddenCharacter) <==> verb != [] && 0x20 !in verb && FieldHasBreak(msg))
            && (r == Refused(AmbiguousParameter) <==>
                  verb != [] && 0x20 !in verb && !FieldHasBreak(msg) && IsAmbiguous(msg.params))
  {
    assert forall text :: HasBreak(text) <==> Forbidden(text);
    assert HasForbidden(msg) <==> FieldHasBreak(msg);
    hide HasForbidden;
    hide FieldHasBreak;
    hide LineOf;
  }
}
