/**
  * CTCP messages: blocks between 0x01 delimiters inside the text of a PRIVMSG
  * or NOTICE, quoted at two levels. `toUpperCase` is taken on ASCII letters.
  */
module CtcpCodec {
  import opened Units
  import opened Escapes
  import opened Messages
  import opened WireRoundTrip

  datatype Ctcp = Ctcp(command: Text, params: Text)

  function ReadBody(body: Text): Ctcp {
    var space := Find(body, SPACE);
    Ctcp(UpperAscii(body[..space]),
         Dequote(CtcpLevel, if space == |body| then [] else body[space + 1..]))
  }

  datatype Extracted = Extracted(messages: seq<Ctcp>, plain: Text)

  function HereIn(body: Text): seq<Ctcp> {
    if body == [] then [] else [ReadBody(body)]
  }

  /** Where the block opened at `start` ends: at the next delimiter or with the text. */
  function BlockEnd(s: Text, start: nat): (end: nat)
    requires start < |s|
    ensures start < end <= |s|
  {
    start + 1 + Find(s[start + 1..], CTCP_DELIMITER)
  }

  /** Where the text goes on after the block opened at `start`. */
  function AfterBlock(s: Text, start: nat): (next: nat)
    requires start < |s|
    ensures start < next <= |s|
  {
    if BlockEnd(s, start) == |s| then |s| else BlockEnd(s, start) + 1
  }

  /** What stands between the delimiters of that block. */
  function BlockBody(s: Text, start: nat): Text
    requires start < |s|
  {
    s[start + 1..BlockEnd(s, start)]
  }

  /** The blocks of a dequoted text in order, and the plain text around them. */
  function Blocks(s: Text): Extracted
    decreases |s|
  {
    var start := Find(s, CTCP_DELIMITER);
    if start == |s| then Extracted([], s)
    else
      var rest := Blocks(s[AfterBlock(s, start)..]);
      Extracted(HereIn(BlockBody(s, start)) + rest.messages, s[..start] + rest.plain)
  }

  function Extract(text: Text): Extracted {
    if CTCP_DELIMITER !in text then Extracted([], text) else Blocks(Dequote(LowLevel, text))
  }

  function Decode(text: Text): Option<Ctcp> {
    var Extracted(messages, plain) := Extract(text);
    if |messages| == 1 && Trim(plain) == [] then Some(messages[0]) else None
  }

  function Body(command: Text, params: Text): Text {
    if params == [] then UpperAscii(command)
    else UpperAscii(command) + [SPACE] + Quote(CtcpLevel, params)
  }

  function Encode(command: Text, params: Text): Text {
    Quote(LowLevel, [CTCP_DELIMITER] + Body(command, params) + [CTCP_DELIMITER])
  }

  method BlockMessages(body: Text) returns (here: seq<Ctcp>)
    ensures here == HereIn(body)
  {
    if body == [] {
      return [];
    }
    var space := Find(body, SPACE);
    var params := DequoteText(CtcpLevel, if space == |body| then [] else body[space + 1..]);
    here := [Ctcp(UpperAscii(body[..space]), params)];
  }

  lemma NoBlocks(s: Text)
    requires Find(s, CTCP_DELIMITER) == |s|
    ensures Blocks(s).messages == Blocks([]).messages == [] && Blocks(s).plain == s + Blocks([]).plain
  {
    assert Blocks([]) == Extracted([], []);
  }

  lemma BlocksTurn(s: Text, start: nat)
    requires start < |s| && start == Find(s, CTCP_DELIMITER)
    ensures var rest := Blocks(s[AfterBlock(s, start)..]);
            Blocks(s) == Extracted(HereIn(BlockBody(s, start)) + rest.messages, s[..start] + rest.plain)
  {
    hide HereIn;
    hide BlockBody;
    hide AfterBlock;
    hide Find;
  }

  /** One turn of the loop: the text up to a delimiter, the block there, and where to go on. */
  method ReadNext(rest: Text) returns (here: seq<Ctcp>, before: Text, next: nat)
    requires rest != []
    ensures 0 < next <= |rest|
    ensures Blocks(rest).messages == here + Blocks(rest[next..]).messages
    ensures Blocks(rest).plain == before + Blocks(rest[next..]).plain
  {
    hide Blocks;
    hide HereIn;
    hide BlockEnd;
    hide Find;
    var start := Find(rest, CTCP_DELIMITER);
    if start == |rest| {
      NoBlocks(rest);
      assert rest[|rest|..] == [];
      return [], rest, |rest|;
    }
    BlocksTurn(rest, start);
    var end := BlockEnd(rest, start);
    here := BlockMessages(rest[start + 1..end]);
    before, next := rest[..start], if end == |rest| then end else end + 1;
  }

  lemma NothingLeft()
    ensures Blocks([]) == Extracted([], [])
  {
  }

  method ReadBlocks(dequoted: Text) returns (messages: seq<Ctcp>, plain: Text)
    ensures Extracted(messages, plain) == Blocks(dequoted)
  {
    hide Blocks;
    messages, plain := [], [];
    var i := 0;
    ghost var left := dequoted;
    NothingLeft();
    while i < |dequoted|
      invariant 0 <= i <= |dequoted| && left == dequoted[i..]
      invariant Blocks(dequoted).messages == messages + Blocks(left).messages
      invariant Blocks(dequoted).plain == plain + Blocks(left).plain
    {
      var here, before, next := ReadNext(dequoted[i..]);
      left := left[next..];
      Regroup(messages, here, Blocks(left).messages);
      Regroup(plain, before, Blocks(left).plain);
      messages, plain := messages + here, plain + before;
      i := i + next;
    }
    assert left == [];
  }

  method ExtractCtcp(text: Text) returns (messages: seq<Ctcp>, plain: Text)
    ensures Extracted(messages, plain) == Extract(text)
  {
    if CTCP_DELIMITER !in text {
      return [], text;
    }
    var dequoted := DequoteText(LowLevel, text);
    messages, plain := ReadBlocks(dequoted);
  }

  /** A command read out of a body is upper case and free of spaces and delimiters. */
  lemma BodyCommand(body: Text)
    requires CTCP_DELIMITER !in body
    ensures var c := ReadBody(body).command;
            SPACE !in c && CTCP_DELIMITER !in c && UpperAscii(c) == c
  {
    var c, raw := ReadBody(body).command, body[..Find(body, SPACE)];
    UpperIdempotent(raw);
    assert forall i | 0 <= i < |c| :: c[i] == Upper(raw[i]);
  }

  predicate IsWord(c: Text) {
    SPACE !in c && CTCP_DELIMITER !in c
  }

  lemma {:induction false} BlockCommands(s: Text)
    ensures forall m | m in Blocks(s).messages :: IsWord(m.command)
    decreases |s|
  {
    hide IsWord;
    hide BlockEnd;
    hide ReadBody;
    hide Find;
    var start := Find(s, CTCP_DELIMITER);
    if start < |s| {
      BlockIsWord(s, start);
      BlockCommands(s[AfterBlock(s, start)..]);
    }
  }

  lemma BlockIsWord(s: Text, start: nat)
    requires start < |s|
    ensures forall m | m in HereIn(BlockBody(s, start)) :: IsWord(m.command)
  {
    BodyCommand(BlockBody(s, start));
  }

  /** One well-delimited block is read as its body. */
  lemma OneBlock(body: Text)
    requires CTCP_DELIMITER !in body
    ensures Blocks([CTCP_DELIMITER] + body + [CTCP_DELIMITER]) == Extracted(HereIn(body), [])
  {
    hide HereIn;
    var s := [CTCP_DELIMITER] + body + [CTCP_DELIMITER];
    FindUnique(s, CTCP_DELIMITER, 0);
    FindUnique(s[1..], CTCP_DELIMITER, |body|);
    assert BlockBody(s, 0) == body && s[AfterBlock(s, 0)..] == [];
    BlocksTurn(s, 0);
    assert Blocks([]) == Extracted([], []) && s[..0] + [] == [];
    assert HereIn(body) + [] == HereIn(body);
  }

  lemma BodyReadBack(command: Text, params: Text)
    requires SPACE !in UpperAscii(command)
    ensures ReadBody(Body(command, params)) == Ctcp(UpperAscii(command), params)
  {
    var upper, body := UpperAscii(command), Body(command, params);
    UpperIdempotent(command);
    FindUnique(body, SPACE, |upper|);
    assert body[..|upper|] == upper;
    if params != [] {
      assert body[|upper| + 1..] == Quote(CtcpLevel, params);
      DequoteQuote(CtcpLevel, params);
    }
  }

  lemma BodyIsClean(command: Text, params: Text)
    requires CTCP_DELIMITER !in UpperAscii(command)
    ensures CTCP_DELIMITER !in Body(command, params)
  {
    QuoteIsClean(CtcpLevel, params, CTCP_DELIMITER);
  }

  lemma EncodedHasDelimiter(command: Text, params: Text)
    ensures Encode(command, params) != [] && Encode(command, params)[0] == CTCP_DELIMITER
    ensures Dequote(LowLevel, Encode(command, params))
         == [CTCP_DELIMITER] + Body(command, params) + [CTCP_DELIMITER]
  {
    var plain := [CTCP_DELIMITER] + Body(command, params) + [CTCP_DELIMITER];
    DequoteQuote(LowLevel, plain);
    assert plain[0] == CTCP_DELIMITER;
  }

  lemma UpperWord(command: Text)
    ensures IsWord(command) <==> IsWord(UpperAscii(command))
  {
    var upper := UpperAscii(command);
    assert forall i | 0 <= i < |command| :: upper[i] == Upper(command[i]);
    if SPACE in command {
      var i :| 0 <= i < |command| && command[i] == SPACE;
      assert upper[i] == SPACE;
    }
    if CTCP_DELIMITER in command {
      var i :| 0 <= i < |command| && command[i] == CTCP_DELIMITER;
      assert upper[i] == CTCP_DELIMITER;
    }
  }

  lemma ExtractEncoded(command: Text, params: Text)
    ensures Extract(Encode(command, params)) == Blocks([CTCP_DELIMITER] + Body(command, params) + [CTCP_DELIMITER])
  {
    EncodedHasDelimiter(command, params);
    hide Encode;
    hide Dequote;
    hide Body;
    hide Blocks;
    var text := Encode(command, params);
    assert text[0] in text;
  }

  lemma DecodedIsWord(text: Text)
    ensures Decode(text).Some? ==> IsWord(Decode(text).value.command)
  {
    hide IsWord;
    hide Dequote;
    BlockCommands(Dequote(LowLevel, text));
  }

  lemma DecodeOfWord(command: Text, params: Text)
    requires IsWord(UpperAscii(command))
    ensures Decode(Encode(command, params))
         == if Body(command, params) == [] then None else Some(Ctcp(UpperAscii(command), params))
  {
    BodyIsClean(command, params);
    BodyReadBack(command, params);
    OneBlock(Body(command, params));
    ExtractEncoded(command, params);
    hide Body;
    hide Encode;
    hide Extract;
    hide Blocks;
    hide ReadBody;
  }

  /**
    * Decoding inverts encoding for every parameter text - NUL, CR, LF,
    * backslash and the delimiter included - exactly when the command holds no
    * space and no delimiter and there is something to send.
    */
  lemma DecodeInvertsEncode(command: Text, params: Text)
    ensures Decode(Encode(command, params)) == Some(Ctcp(UpperAscii(command), params))
      <==> SPACE !in command && CTCP_DELIMITER !in command && (command != [] || params != [])
  {
    hide Decode;
    hide Encode;
    UpperWord(command);
    DecodedIsWord(Encode(command, params));
    if IsWord(UpperAscii(command)) {
      DecodeOfWord(command, params);
    }
  }

  /** The encoded body holds nothing the serializer refuses, whatever it carries. */
  lemma EncodedIsSendable(command: Text, params: Text)
    ensures !Forbidden(Encode(command, params))
  {
    var plain := [CTCP_DELIMITER] + Body(command, params) + [CTCP_DELIMITER];
    QuoteIsClean(LowLevel, plain, NUL);
    QuoteIsClean(LowLevel, plain, CR);
    QuoteIsClean(LowLevel, plain, LF);
  }

  const PRIVMSG: Text := Ascii("PRIVMSG")

  function Privmsg(target: Text, text: Text): Message {
    Message([], None, PRIVMSG, None, [target, text])
  }

  lemma PrivmsgIsSendable(target: Text, text: Text)
    requires !NeedsTrailing(target) && !Forbidden(target) && !Forbidden(text)
    ensures Serialize(Privmsg(target, text)).Line? && WellFormed(Privmsg(target, text))
  {
    assert SPACE !in PRIVMSG && !Forbidden(PRIVMSG);
    assert UpperAscii(PRIVMSG) == PRIVMSG;
  }

  /**
    * Sending a CTCP request as a PRIVMSG to any target the wire can carry is
    * never refused, and the receiver that parses the line decodes what was sent.
    */
  lemma CtcpSurvivesTheWire(target: Text, command: Text, params: Text)
    requires !NeedsTrailing(target) && !Forbidden(target)
    requires SPACE !in command && CTCP_DELIMITER !in command && command != []
    ensures var sent := Serialize(Privmsg(target, Encode(command, params)));
            && sent.Line?
            && Parse(sent.text) == Parsed(Privmsg(target, Encode(command, params)))
            && Decode(Parse(sent.text).message.params[1]) == Some(Ctcp(UpperAscii(command), params))
  {
    var msg := Privmsg(target, Encode(command, params));
    EncodedIsSendable(command, params);
    DecodeInvertsEncode(command, params);
    PrivmsgIsSendable(target, Encode(command, params));
    ParseInvertsSerialize(msg);
  }

  const ACTION: Text := Ascii("ACTION")

  /** `/me` text, when the body is an ACTION. */
  function DecodeAction(text: Text): Option<Text> {
    match Decode(text)
    case Some(ctcp) => if ctcp.command == ACTION then Some(ctcp.params) else None
    case None => None
  }

  lemma ActionIsAWord()
    ensures |ACTION| > 0 && SPACE !in ACTION && CTCP_DELIMITER !in ACTION && UpperAscii(ACTION) == ACTION
  {
  }

  /** Every `/me` text comes back, including the empty one. */
  lemma ActionRoundTrip(text: Text)
    ensures DecodeAction(Encode(ACTION, text)) == Some(text)
  {
    ActionIsAWord();
    var action := ACTION;
    DecodeInvertsEncode(action, text);
    assert Decode(Encode(action, text)) == Some(Ctcp(ACTION, text));
  }

  // ---------- Any text with blocks in it ----------

  /** A block between delimiters, and the plain text before it. */
  datatype Piece = Piece(before: Text, body: Text)

  /** Blocks with plain text around them, and perhaps a last one that is never closed. */
  function Assembled(pieces: seq<Piece>, after: Text, unclosed: Option<Text>): Text {
    if pieces == [] then after + if unclosed.None? then [] else [0x01] + unclosed.value
    else pieces[0].before + ([0x01] + (pieces[0].body + ([0x01] + Assembled(pieces[1..], after, unclosed))))
  }

  predicate ArePieces(pieces: seq<Piece>, after: Text, unclosed: Option<Text>) {
    && (forall p | p in pieces :: 0x01 !in p.before && 0x01 !in p.body)
    && 0x01 !in after && (unclosed.Some? ==> 0x01 !in unclosed.value)
  }

  function BodiesRead(pieces: seq<Piece>, unclosed: Option<Text>): seq<Ctcp> {
    if pieces == [] then
      if unclosed.None? || unclosed.value == [] then [] else [ReadBody(unclosed.value)]
    else (if pieces[0].body == [] then [] else [ReadBody(pieces[0].body)]) + BodiesRead(pieces[1..], unclosed)
  }

  function Around(pieces: seq<Piece>, after: Text): Text {
    if pieces == [] then after else pieces[0].before + Around(pieces[1..], after)
  }

  lemma BlockStarts(before: Text, body: Text, rest: Text)
    requires 0x01 !in before && 0x01 !in body
    ensures var s := before + ([0x01] + (body + ([0x01] + rest)));
            && Find(s, CTCP_DELIMITER) == |before| < |s|
            && BlockBody(s, |before|) == body && s[AfterBlock(s, |before|)..] == rest && s[..|before|] == before
  {
    var s, tail := before + ([0x01] + (body + ([0x01] + rest))), body + ([0x01] + rest);
    FindUnique(s, CTCP_DELIMITER, |before|);
    assert s[|before| + 1..] == tail;
    FindUnique(tail, CTCP_DELIMITER, |body|);
    assert s[|before| + 1..|before| + 1 + |body|] == tail[..|body|] == body;
    assert s[|before| + 1 + |body| + 1..] == tail[|body| + 1..] == rest;
  }

  lemma UnclosedBlock(after: Text, body: Text)
    requires 0x01 !in after && 0x01 !in body
    ensures Blocks(after + ([0x01] + body)) == Extracted(HereIn(body), after)
  {
    var s := after + ([0x01] + body);
    UnclosedStarts(after, body);
    hide Blocks;
    hide BlockBody;
    hide AfterBlock;
    hide HereIn;
    hide Find;
    BlocksTurn(s, |after|);
    NothingLeft();
    assert HereIn(body) + [] == HereIn(body) && after + [] == after;
  }

  lemma UnclosedStarts(after: Text, body: Text)
    requires 0x01 !in after && 0x01 !in body
    ensures var s := after + ([0x01] + body);
            && Find(s, CTCP_DELIMITER) == |after| < |s| && s[..|after|] == after
            && BlockBody(s, |after|) == body && s[AfterBlock(s, |after|)..] == []
  {
    var s := after + ([0x01] + body);
    FindUnique(s, CTCP_DELIMITER, |after|);
    assert s[|after| + 1..] == body;
    FindUnique(body, CTCP_DELIMITER, |body|);
  }

  /** The blocks come out in order, the empty ones left out, and so does all the text around them. */
  lemma {:induction false} BlocksAreRead(pieces: seq<Piece>, after: Text, unclosed: Option<Text>)
    requires ArePieces(pieces, after, unclosed)
    ensures Blocks(Assembled(pieces, after, unclosed))
         == Extracted(BodiesRead(pieces, unclosed), Around(pieces, after))
  {
    hide Blocks;
    hide BlockBody;
    hide AfterBlock;
    hide ReadBody;
    hide Find;
    if pieces == [] {
      if unclosed.Some? {
        UnclosedBlock(after, unclosed.value);
      } else {
        assert after + [] == after;
        FindUnique(after, CTCP_DELIMITER, |after|);
        NoBlocks(after);
        NothingLeft();
      }
    } else {
      var p, rest := pieces[0], Assembled(pieces[1..], after, unclosed);
      assert p in pieces && forall q | q in pieces[1..] :: q in pieces;
      BlocksAreRead(pieces[1..], after, unclosed);
      BlockStarts(p.before, p.body, rest);
      BlocksTurn(Assembled(pieces, after, unclosed), |p.before|);
    }
  }

  lemma {:induction false} BlankIsTrimmed(s: Text)
    ensures Trim(s) == [] <==> forall i | 0 <= i < |s| :: IsSpace(s[i])
  {
    hide IsSpace;
    if s != [] && IsSpace(s[0]) {
      BlankIsTrimmed(s[1..]);
      assert forall i | 0 < i < |s| :: s[i] == s[1..][i - 1];
    } else if s != [] {
      FirstStays(s);
    }
  }

  lemma {:induction false} FirstStays(s: Text)
    requires s != [] && !IsSpace(s[0])
    ensures TrimEnd(s) != []
  {
    hide IsSpace;
    if IsSpace(s[|s| - 1]) {
      FirstStays(s[..|s| - 1]);
    }
  }

  /** A body is a CTCP message exactly when it holds one block that is not empty, and only white space around it. */
  lemma DecodedAlone(pieces: seq<Piece>, after: Text, unclosed: Option<Text>)
    requires ArePieces(pieces, after, unclosed) && (pieces != [] || unclosed.Some?)
    ensures var text := Quote(LowLevel, Assembled(pieces, after, unclosed));
            var bodies, around := BodiesRead(pieces, unclosed), Around(pieces, after);
            Decode(text)
              == if |bodies| == 1 && (forall i | 0 <= i < |around| :: IsSpace(around[i])) then Some(bodies[0]) else None
  {
    var plain := Assembled(pieces, after, unclosed);
    DequoteQuote(LowLevel, plain);
    BlocksAreRead(pieces, after, unclosed);
    BlankIsTrimmed(Around(pieces, after));
    DelimiterStays(pieces, after, unclosed);
    hide Blocks;
    hide Dequote;
    hide Quote;
    hide Trim;
    hide IsSpace;
  }

  lemma DelimiterStays(pieces: seq<Piece>, after: Text, unclosed: Option<Text>)
    requires pieces != [] || unclosed.Some?
    ensures CTCP_DELIMITER in Quote(LowLevel, Assembled(pieces, after, unclosed))
  {
    var plain := Assembled(pieces, after, unclosed);
    if pieces != [] {
      assert plain[|pieces[0].before|] == 0x01;
    } else {
      assert plain[|after|] == 0x01;
    }
    QuoteKeeps(LowLevel, plain, CTCP_DELIMITER);
  }
}
