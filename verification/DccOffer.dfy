/**
  * `DCC SEND` offers: reading one, and writing the answer to a passive offer,
  * which is an offer of the same shape.
  */
module DccOffers {
  import opened Units
  import opened CtcpCodec

  datatype DccSend = DccSend(
    filename: Text, host: Text, port: nat, size: Option<nat>, token: Option<Text>,
    passive: bool, secure: bool, turbo: bool)

  datatype Variant = Variant(secure: bool, turbo: bool)

  const DCC: Text := Ascii("DCC")
  const SEND: Text := Ascii("SEND")

  const MAX_IPV4_INTEGER: nat := 0xffff_ffff
  const MAX_SAFE_INTEGER: nat := 0x1f_ffff_ffff_ffff

  function VariantOf(subcommand: Text): Option<Variant> {
    if subcommand == SEND then Some(Variant(false, false))
    else if subcommand == Ascii("SSEND") then Some(Variant(true, false))
    else if subcommand == Ascii("TSEND") then Some(Variant(false, true))
    else if subcommand == Ascii("TSSEND") || subcommand == Ascii("STSEND") then Some(Variant(true, true))
    else None
  }

  // ---------- Addresses ----------

  /** The dotted quad of an unsigned 32-bit address. */
  function Quad(value: nat): Text
    requires value <= MAX_IPV4_INTEGER
  {
    Join(QuadParts(value), DOT)
  }

  function QuadParts(value: nat): seq<Text> {
    [Decimal(value / 0x100_0000), Decimal(value / 0x1_0000 % 0x100),
     Decimal(value / 0x100 % 0x100), Decimal(value % 0x100)]
  }

  predicate IsNumber(s: Text) {
    s != [] && AllDigits(s)
  }

  predicate IsAlphanumeric(u: Unit) {
    IsDigit(u) || 0x41 <= u <= 0x5a || 0x61 <= u <= 0x7a
  }

  predicate IsHostLabel(part: Text) {
    && part != [] && IsAlphanumeric(part[0]) && IsAlphanumeric(part[|part| - 1])
    && forall u | u in part :: IsAlphanumeric(u) || u == MINUS
  }

  predicate IsHostname(raw: Text) {
    var labels := Split(raw, DOT);
    |labels| >= 2 && forall l | l in labels :: IsHostLabel(l)
  }

  function ParseAddress(raw: Text): Option<Text> {
    if raw == [] then None
    else if raw[0] == 0x5b && raw[|raw| - 1] == 0x5d then Some(raw[1..|raw| - 1])
    else if COLON in raw then Some(raw)
    else if AllDigits(raw) then
      if DecimalValue(raw) > MAX_IPV4_INTEGER then None else Some(Quad(DecimalValue(raw)))
    else if AreQuadParts(Split(raw, DOT)) || IsHostname(raw) then Some(raw)
    else None
  }

  predicate AreQuadParts(parts: seq<Text>) {
    |parts| == 4 && forall i | 0 <= i < 4 :: 1 <= |parts[i]| <= 3 && AllDigits(parts[i])
  }

  function PartsValue(parts: seq<Text>): nat
    requires AreQuadParts(parts)
  {
    DecimalValue(parts[0]) * 0x100_0000 + DecimalValue(parts[1]) * 0x1_0000
      + DecimalValue(parts[2]) * 0x100 + DecimalValue(parts[3])
  }

  function EncodeAddress(host: Text): Text {
    var parts := Split(host, DOT);
    if !AreQuadParts(parts) || exists i | 0 <= i < 4 :: DecimalValue(parts[i]) > 255 then host
    else Decimal(PartsValue(parts))
  }

  lemma {:induction false} DecimalWidth(n: nat)
    requires n < 1000
    ensures |Decimal(n)| <= 3
  {
    assert |Decimal(n / 100)| == 1;
    assert n >= 10 ==> Decimal(n) == Decimal(n / 10) + [0x30 + n % 10];
    assert n >= 100 ==> n / 10 / 10 == n / 100;
  }

  /** An address cut into its four bytes adds up again. */
  lemma BytesOfAddress(value: nat)
    requires value <= MAX_IPV4_INTEGER
    ensures value / 0x100_0000 < 0x100
    ensures value / 0x100_0000 * 0x100_0000 + value / 0x1_0000 % 0x100 * 0x1_0000 + value / 0x100 % 0x100 * 0x100
            + value % 0x100 == value
  {
    var low := value / 0x100;
    var high := value / 0x1_0000;
    assert 0x100 * low <= value < 0x100 * low + 0x100;
    assert 0x100 * (low / 0x100) <= low < 0x100 * (low / 0x100) + 0x100;
    assert high == low / 0x100;
    assert value / 0x100_0000 == high / 0x100;
  }

  lemma QuadSplits(value: nat)
    requires value <= MAX_IPV4_INTEGER
    ensures Split(Quad(value), DOT) == QuadParts(value)
    ensures AreQuadParts(QuadParts(value))
  {
    var parts := QuadParts(value);
    BytesOfAddress(value);
    DecimalWidth(value / 0x100_0000);
    DecimalWidth(value / 0x1_0000 % 0x100);
    DecimalWidth(value / 0x100 % 0x100);
    DecimalWidth(value % 0x100);
    forall p | p in parts ensures DOT !in p {
      assert forall i | 0 <= i < |p| :: IsDigit(p[i]);
    }
    SplitJoin(parts, DOT);
  }

  lemma QuadValue(value: nat)
    requires value <= MAX_IPV4_INTEGER
    ensures AreQuadParts(QuadParts(value)) && PartsValue(QuadParts(value)) == value
    ensures forall i | 0 <= i < 4 :: DecimalValue(QuadParts(value)[i]) <= 255
  {
    QuadSplits(value);
    BytesOfAddress(value);
    DecimalRoundTrip(value / 0x100_0000);
    DecimalRoundTrip(value / 0x1_0000 % 0x100);
    DecimalRoundTrip(value / 0x100 % 0x100);
    DecimalRoundTrip(value % 0x100);
  }

  /** A canonical IPv4 address goes out as its unsigned 32-bit integer, top bit or not. */
  lemma EncodeQuad(value: nat)
    requires value <= MAX_IPV4_INTEGER
    ensures EncodeAddress(Quad(value)) == Decimal(value)
  {
    QuadSplits(value);
    QuadValue(value);
  }

  lemma ParseEncodedQuad(value: nat)
    requires value <= MAX_IPV4_INTEGER
    ensures ParseAddress(Decimal(value)) == Some(Quad(value))
  {
    DecimalRoundTrip(value);
    hide Decimal;
    hide DecimalValue;
    hide Quad;
    hide AreQuadParts;
    hide IsHostname;
    hide Split;
    var s := Decimal(value);
    assert IsDigit(s[0]) && forall u | u in s :: IsDigit(u);
  }

  // ---------- Fields ----------

  function WordEnd(s: Text, i: nat): (end: nat)
    requires i <= |s|
    ensures i <= end <= |s|
    ensures forall k | i <= k < end :: !IsSpace(s[k])
    ensures end < |s| ==> IsSpace(s[end])
    decreases |s| - i
  {
    if i == |s| || IsSpace(s[i]) then i else WordEnd(s, i + 1)
  }

  lemma WordEndUnique(s: Text, end: nat)
    requires end <= |s| && (end < |s| ==> IsSpace(s[end]))
    requires forall k | 0 <= k < end :: !IsSpace(s[k])
    ensures WordEnd(s, 0) == end
  {
    if WordEnd(s, 0) < end {
      assert false;
    }
  }

  /** `s.split(/\s+/)` without the empty pieces. */
  function Words(s: Text): seq<Text>
    decreases |s|
  {
    if s == [] then []
    else if IsSpace(s[0]) then Words(s[1..])
    else [s[..WordEnd(s, 0)]] + Words(s[WordEnd(s, 0)..])
  }

  predicate IsWord(s: Text) {
    s != [] && forall i | 0 <= i < |s| :: !IsSpace(s[i])
  }

  lemma OneWord(word: Text, rest: Text)
    requires IsWord(word) && (rest == [] || IsSpace(rest[0]))
    ensures Words(word + rest) == [word] + Words(rest)
  {
    var s := word + rest;
    assert forall i | 0 <= i < |word| :: s[i] == word[i];
    WordEndUnique(s, |word|);
    assert s[..|word|] == word && s[|word|..] == rest;
  }

  /** Fields written with single spaces between them. */
  function Spaced(words: seq<Text>): Text {
    if |words| == 0 then [] else if |words| == 1 then words[0] else words[0] + ([SPACE] + Spaced(words[1..]))
  }

  /** Nothing for `trim` to take off either end. */
  predicate SpaceFreeEnds(s: Text) {
    s != [] && !IsSpace(s[0]) && !IsSpace(s[|s| - 1])
  }

  lemma EndsOfSpaced(w: Text, rest: Text)
    requires IsWord(w) && SpaceFreeEnds(rest)
    ensures SpaceFreeEnds(w + ([SPACE] + rest)) && IsSpace(([SPACE] + rest)[0])
  {
    var all := w + ([SPACE] + rest);
    assert all[0] == w[0] && all[|all| - 1] == rest[|rest| - 1];
  }

  lemma EndsOfWord(w: Text)
    requires IsWord(w)
    ensures SpaceFreeEnds(w)
  {
  }

  lemma NoWords()
    ensures Words([]) == []
  {
  }

  lemma SpaceSkipped(rest: Text)
    ensures Words([SPACE] + rest) == Words(rest)
  {
    assert ([SPACE] + rest)[1..] == rest;
  }

  lemma {:induction false} WordsOfSpaced(words: seq<Text>)
    requires forall w | w in words :: IsWord(w)
    ensures Words(Spaced(words)) == words
    ensures words != [] ==> SpaceFreeEnds(Spaced(words))
  {
    NoWords();
    hide Words;
    hide IsSpace;
    hide IsWord;
    hide SpaceFreeEnds;
    if words == [] {
    } else {
      var w := words[0];
      assert w in words;
      if |words| == 1 {
        OneWord(w, []);
        assert w + [] == w;
        EndsOfWord(w);
      } else {
        var rest := Spaced(words[1..]);
        WordsOfSpaced(words[1..]);
        EndsOfSpaced(w, rest);
        OneWord(w, [SPACE] + rest);
        SpaceSkipped(rest);
      }
    }
  }

  lemma TrimNothing(s: Text)
    requires SpaceFreeEnds(s)
    ensures Trim(s) == s && Trim([SPACE] + s) == s
  {
    assert ([SPACE] + s)[1..] == s;
  }

  // ---------- Reading an offer ----------

  datatype Split2 = Split2(filename: Text, remainder: Text)

  function SplitFilename(rest: Text): Option<Split2> {
    if rest == [] then None
    else if rest[0] == QUOTE then
      var close := 1 + Find(rest[1..], QUOTE);
      if close == |rest| then Some(Split2(rest[1..], []))
      else Some(Split2(rest[1..close], Trim(rest[close + 1..])))
    else
      var space := Find(rest, SPACE);
      if space == |rest| then Some(Split2(rest, []))
      else Some(Split2(rest[..space], Trim(rest[space + 1..])))
  }

  /** The address, port, size and token fields, once the filename is off. */
  function ReadFields(filename: Text, fields: seq<Text>, variant: Variant): Option<DccSend> {
    if |fields| < 2 then None
    else
      var host := ParseAddress(fields[0]);
      if host.None? || !IsNumber(fields[1]) || DecimalValue(fields[1]) > 0xffff then None
      else
        var port := DecimalValue(fields[1]);
        var size :=
          if |fields| > 2 && IsNumber(fields[2]) && DecimalValue(fields[2]) <= MAX_SAFE_INTEGER
          then Some(DecimalValue(fields[2])) else None;
        Some(DccSend(filename, host.value, port, size, if |fields| > 3 then Some(fields[3]) else None,
                     port == 0, variant.secure, variant.turbo))
  }

  function ParseDccSend(ctcp: Ctcp): Option<DccSend> {
    var space := Find(ctcp.params, SPACE);
    if ctcp.command != DCC || space == |ctcp.params| then None
    else
      var variant := VariantOf(UpperAscii(ctcp.params[..space]));
      var split := SplitFilename(Trim(ctcp.params[space + 1..]));
      if variant.None? || split.None? || split.value.filename == [] then None
      else ReadFields(split.value.filename, Words(split.value.remainder), variant.value)
  }

  // ---------- Writing the answer to a passive offer ----------

  function Unquoted(s: Text): Text {
    if s == [] then [] else (if s[0] == QUOTE then [] else [s[0]]) + Unquoted(s[1..])
  }

  predicate NeedsQuotes(filename: Text) {
    exists i | 0 <= i < |filename| :: IsSpace(filename[i]) || filename[i] == QUOTE
  }

  function WrittenName(filename: Text): Text {
    if NeedsQuotes(filename) then [QUOTE] + Unquoted(filename) + [QUOTE] else filename
  }

  function BuildPassiveAccept(filename: Text, host: Text, port: nat, size: Option<nat>, token: Text): Text {
    Spaced([SEND, WrittenName(filename), EncodeAddress(host), Decimal(port)]
           + (if size.None? then [] else [Decimal(size.value)]) + [token])
  }

  lemma {:induction false} UnquotedHasNoQuote(s: Text)
    ensures QUOTE !in Unquoted(s)
    ensures QUOTE !in s ==> Unquoted(s) == s
  {
    if s == [] {
    } else {
      UnquotedHasNoQuote(s[1..]);
      assert s == [s[0]] + s[1..];
    }
  }

  /** The ends of a text that starts and ends as two others do. */
  lemma EndsOfJoined(first: Text, last: Text)
    requires first != [] && !IsSpace(first[0]) && SpaceFreeEnds(last)
    ensures SpaceFreeEnds(first + ([SPACE] + last))
  {
    var all := first + ([SPACE] + last);
    assert all[0] == first[0] && all[|all| - 1] == last[|last| - 1];
  }

  lemma QuotedSplits(rest: Text, close: nat)
    requires rest != [] && rest[0] == QUOTE && close == 1 + Find(rest[1..], QUOTE) < |rest|
    ensures SplitFilename(rest) == Some(Split2(rest[1..close], Trim(rest[close + 1..])))
  {
    hide Trim;
  }

  lemma QuotedParts(plain: Text, tail: Text)
    ensures var rest := [QUOTE] + plain + [QUOTE] + tail;
            && rest[1..] == plain + ([QUOTE] + tail)
            && rest[1..|plain| + 1] == plain && rest[|plain| + 2..] == tail
  {
  }

  lemma ClosingQuote(plain: Text, tail: Text)
    requires QUOTE !in plain
    ensures Find(plain + ([QUOTE] + tail), QUOTE) == |plain|
  {
    FindUnique(plain + ([QUOTE] + tail), QUOTE, |plain|);
  }

  lemma QuotedReadBack(plain: Text, fields: Text)
    requires QUOTE !in plain
    requires SpaceFreeEnds(fields)
    ensures var rest := [QUOTE] + plain + [QUOTE] + ([SPACE] + fields);
            Trim(rest) == rest && SplitFilename(rest) == Some(Split2(plain, fields))
  {
    var quoted := [QUOTE] + plain + [QUOTE];
    var rest := quoted + ([SPACE] + fields);
    EndsOfJoined(quoted, fields);
    TrimNothing(fields);
    TrimNothing(rest);
    hide Trim;
    hide SplitFilename;
    hide SpaceFreeEnds;
    hide Find;
    QuotedParts(plain, [SPACE] + fields);
    ClosingQuote(plain, [SPACE] + fields);
    QuotedSplits(rest, |plain| + 1);
  }

  lemma BareSplits(rest: Text, space: nat)
    requires rest != [] && rest[0] != QUOTE && space == Find(rest, SPACE) < |rest|
    ensures SplitFilename(rest) == Some(Split2(rest[..space], Trim(rest[space + 1..])))
  {
    hide Trim;
  }

  lemma BareReadBack(name: Text, fields: Text)
    requires name != [] && !NeedsQuotes(name)
    requires SpaceFreeEnds(fields)
    ensures var rest := name + ([SPACE] + fields);
            Trim(rest) == rest && SplitFilename(rest) == Some(Split2(name, fields))
  {
    var rest := name + ([SPACE] + fields);
    assert rest[0] == name[0];
    EndsOfJoined(name, fields);
    TrimNothing(fields);
    TrimNothing(rest);
    hide Trim;
    hide SplitFilename;
    hide SpaceFreeEnds;
    FindUnique(rest, SPACE, |name|);
    BareSplits(rest, |name|);
    assert rest[..|name|] == name && rest[|name| + 1..] == fields;
  }

  /** The written name is read back as the name without its quotes, and the fields are left. */
  lemma NameReadBack(filename: Text, fields: Text)
    requires Unquoted(filename) != []
    requires SpaceFreeEnds(fields)
    ensures var rest := WrittenName(filename) + ([SPACE] + fields);
            Trim(rest) == rest && SplitFilename(rest) == Some(Split2(Unquoted(filename), fields))
  {
    UnquotedHasNoQuote(filename);
    if NeedsQuotes(filename) {
      QuotedReadBack(Unquoted(filename), fields);
    } else {
      assert QUOTE !in filename;
      BareReadBack(filename, fields);
    }
  }

  lemma SendIsAWord()
    ensures |SEND| == 4 && SPACE !in SEND && UpperAscii(SEND) == SEND
    ensures VariantOf(SEND) == Some(Variant(false, false))
  {
  }

  lemma DecimalIsWord(n: nat)
    ensures IsWord(Decimal(n)) && IsNumber(Decimal(n)) && DecimalValue(Decimal(n)) == n
  {
    DecimalRoundTrip(n);
  }

  lemma SpacedTwo(a: Text, b: Text, fields: seq<Text>)
    requires fields != []
    ensures Spaced([a, b] + fields) == a + ([SPACE] + (b + ([SPACE] + Spaced(fields))))
  {
    var all := [a, b] + fields;
    assert all[1..] == [b] + fields;
    assert all[1..][1..] == fields;
  }

  /** The fields after the name; a size that is not known is left out. */
  function AnswerFields(value: nat, port: nat, size: Option<nat>, token: Text): (fields: seq<Text>)
    ensures fields != []
  {
    [Decimal(value), Decimal(port)] + (if size.None? then [] else [Decimal(size.value)]) + [token]
  }

  lemma SubcommandCut(rest: Text)
    ensures var params := SEND + ([SPACE] + rest);
            Find(params, SPACE) == 4 && params[..4] == SEND && params[5..] == rest
  {
    SendIsAWord();
    FindUnique(SEND + ([SPACE] + rest), SPACE, 4);
  }

  /** The answer is the subcommand, the written name and the fields. */
  lemma AnswerShape(filename: Text, value: nat, port: nat, size: Option<nat>, token: Text)
    requires value <= MAX_IPV4_INTEGER
    ensures BuildPassiveAccept(filename, Quad(value), port, size, token)
         == SEND + ([SPACE] + (WrittenName(filename) + ([SPACE] + Spaced(AnswerFields(value, port, size, token)))))
  {
    EncodeQuad(value);
    var name, fields := WrittenName(filename), AnswerFields(value, port, size, token);
    SpacedTwo(SEND, name, fields);
    assert [SEND, name, Decimal(value), Decimal(port)] + (if size.None? then [] else [Decimal(size.value)]) + [token]
        == [SEND, name] + fields;
  }

  /** With a size every field is read as it was written; without one the token is read as the size, or as nothing. */
  lemma FieldsReadBack(filename: Text, value: nat, port: nat, size: Option<nat>, token: Text, variant: Variant)
    requires value <= MAX_IPV4_INTEGER && port <= 0xffff && (size.Some? ==> size.value <= MAX_SAFE_INTEGER)
    ensures var offer := ReadFields(filename, AnswerFields(value, port, size, token), variant);
            && offer.Some?
            && (size.Some? ==>
                  offer.value == DccSend(filename, Quad(value), port, size, Some(token), port == 0,
                                         variant.secure, variant.turbo))
            && (size.None? ==> offer.value.token == None)
  {
    DecimalIsWord(port);
    if size.Some? {
      DecimalIsWord(size.value);
    }
    ParseEncodedQuad(value);
  }

  lemma FieldsAreWords(value: nat, port: nat, size: Option<nat>, token: Text)
    requires IsWord(token)
    ensures var words := AnswerFields(value, port, size, token);
            Words(Spaced(words)) == words && SpaceFreeEnds(Spaced(words))
  {
    hide Decimal;
    hide Words;
    hide Spaced;
    hide IsWord;
    hide SpaceFreeEnds;
    DecimalIsWord(value);
    DecimalIsWord(port);
    if size.Some? {
      DecimalIsWord(size.value);
    }
    WordsOfSpaced(AnswerFields(value, port, size, token));
  }

  /** Reading an offer, stage by stage. */
  lemma ParseByStages(params: Text, name: Text, fields: Text)
    requires Find(params, SPACE) == 4 < |params| && params[..4] == SEND
    requires Trim(params[5..]) == params[5..] && SplitFilename(params[5..]) == Some(Split2(name, fields))
    ensures ParseDccSend(Ctcp(DCC, params))
         == if name == [] then None else ReadFields(name, Words(fields), Variant(false, false))
  {
    SendIsAWord();
  }

  /** No offer is ever read with an empty filename. */
  lemma FilenameNotEmpty(ctcp: Ctcp)
    ensures ParseDccSend(ctcp).Some? ==> ParseDccSend(ctcp).value.filename != []
  {
  }

  /**
    * The answer to a passive offer reads back as the offer it answers, through
    * the integer form of the address: same host, port, size and token, and the
    * filename without its quotes - exactly when there is a filename left and the
    * size is known. Without a size the token is lost.
    */
  lemma PassiveAcceptReadsBack(filename: Text, value: nat, port: nat, size: Option<nat>, token: Text)
    requires value <= MAX_IPV4_INTEGER && port <= 0xffff && (size.Some? ==> size.value <= MAX_SAFE_INTEGER)
    requires IsWord(token)
    ensures ParseDccSend(Ctcp(DCC, BuildPassiveAccept(filename, Quad(value), port, size, token)))
         == Some(DccSend(Unquoted(filename), Quad(value), port, size, Some(token), port == 0, false, false))
      <==> Unquoted(filename) != [] && size.Some?
  {
    var params := BuildPassiveAccept(filename, Quad(value), port, size, token);
    FilenameNotEmpty(Ctcp(DCC, params));
    if Unquoted(filename) != [] {
      var fields := Spaced(AnswerFields(value, port, size, token));
      FieldsAreWords(value, port, size, token);
      AnswerShape(filename, value, port, size, token);
      SubcommandCut(WrittenName(filename) + ([SPACE] + fields));
      NameReadBack(filename, fields);
      ParseByStages(params, Unquoted(filename), fields);
      FieldsReadBack(Unquoted(filename), value, port, size, token, Variant(false, false));
    }
  }

  // ---------- Any offer ----------

  /** A filename as an offer writes it: between quotes, or bare up to the first space. */
  function Spelled(name: Text, quoted: bool): Text {
    if quoted then [QUOTE] + name + [QUOTE] else name
  }

  predicate IsSpelled(name: Text, quoted: bool) {
    if quoted then QUOTE !in name else IsWord(name) && name[0] != QUOTE
  }

  /** What the fields behind the name say: address, port, and perhaps size and token. */
  function Offered(name: Text, fields: seq<Text>, secure: bool, turbo: bool): Option<DccSend> {
    if |fields| < 2 || !IsNumber(fields[1]) || DecimalValue(fields[1]) >= 0x1_0000 then None
    else if ParseAddress(fields[0]).None? then None
    else
      var port := DecimalValue(fields[1]);
      var sized := |fields| >= 3 && IsNumber(fields[2]) && DecimalValue(fields[2]) < 0x20_0000_0000_0000;
      Some(DccSend(name, ParseAddress(fields[0]).value, port,
                   if sized then Some(DecimalValue(fields[2])) else None,
                   if |fields| >= 4 then Some(fields[3]) else None, port == 0, secure, turbo))
  }

  /** The subcommand in any case: an S for an encrypted transfer, a T for one without acknowledgements. */
  function Kinds(word: Text): Option<(bool, bool)> {
    var upper := UpperAscii(word);
    if upper == Ascii("SEND") then Some((false, false))
    else if upper == Ascii("SSEND") then Some((true, false))
    else if upper == Ascii("TSEND") then Some((false, true))
    else if upper in {Ascii("TSSEND"), Ascii("STSEND")} then Some((true, true))
    else None
  }

  lemma BareSpelled(name: Text, fields: Text)
    requires IsSpelled(name, false) && SpaceFreeEnds(fields)
    ensures var rest := name + ([SPACE] + fields);
            Trim(rest) == rest && SplitFilename(rest) == Some(Split2(name, fields))
  {
    var rest := name + ([SPACE] + fields);
    assert rest[0] == name[0];
    EndsOfJoined(name, fields);
    TrimNothing(fields);
    TrimNothing(rest);
    hide Trim;
    hide SplitFilename;
    hide SpaceFreeEnds;
    FindUnique(rest, SPACE, |name|);
    BareSplits(rest, |name|);
    assert rest[..|name|] == name && rest[|name| + 1..] == fields;
  }

  lemma WordIsCut(word: Text, rest: Text)
    requires SPACE !in word
    ensures var params := word + ([SPACE] + rest);
            Find(params, SPACE) == |word| < |params| && params[..|word|] == word && params[|word| + 1..] == rest
  {
    FindUnique(word + ([SPACE] + rest), SPACE, |word|);
  }

  lemma KindsAreVariants(word: Text)
    ensures VariantOf(UpperAscii(word)).None? <==> Kinds(word).None?
    ensures Kinds(word).Some? ==>
              VariantOf(UpperAscii(word)).value == Variant(Kinds(word).value.0, Kinds(word).value.1)
  {
  }

  lemma FieldsAreRead(name: Text, fields: seq<Text>, variant: Variant)
    ensures ReadFields(name, fields, variant) == Offered(name, fields, variant.secure, variant.turbo)
  {
    hide ParseAddress;
  }

  /** The three stages, for any subcommand. */
  lemma OfferByStages(word: Text, rest: Text, name: Text, fields: Text)
    requires SPACE !in word && Trim(rest) == rest && SplitFilename(rest) == Some(Split2(name, fields))
    ensures var variant := VariantOf(UpperAscii(word));
            ParseDccSend(Ctcp(DCC, word + ([SPACE] + rest)))
              == if variant.None? || name == [] then None else ReadFields(name, Words(fields), variant.value)
  {
    WordIsCut(word, rest);
    hide Words;
    hide SplitFilename;
    hide Trim;
    hide ReadFields;
    hide VariantOf;
    hide Find;
  }

  /**
    * How every offer is read that has the form of one: the subcommand, the name
    * with or without quotes, and the fields. There is none in an empty name, an
    * unknown subcommand, or fields that do not say where to connect.
    */
  lemma OfferIsRead(word: Text, name: Text, quoted: bool, fields: seq<Text>)
    requires SPACE !in word && IsSpelled(name, quoted)
    requires fields != [] && forall f | f in fields :: IsWord(f)
    ensures var params := word + ([SPACE] + (Spelled(name, quoted) + ([SPACE] + Spaced(fields))));
            ParseDccSend(Ctcp(Ascii("DCC"), params))
              == if Kinds(word).None? || name == [] then None
                 else Offered(name, fields, Kinds(word).value.0, Kinds(word).value.1)
  {
    WordsOfSpaced(fields);
    if quoted {
      QuotedReadBack(name, Spaced(fields));
    } else {
      BareSpelled(name, Spaced(fields));
    }
    hide Words;
    hide Spaced;
    hide SplitFilename;
    hide Trim;
    hide IsWord;
    hide SpaceFreeEnds;
    hide ParseDccSend;
    hide VariantOf;
    hide Kinds;
    hide ReadFields;
    hide Offered;
    OfferByStages(word, Spelled(name, quoted) + ([SPACE] + Spaced(fields)), name, Spaced(fields));
    KindsAreVariants(word);
    if VariantOf(UpperAscii(word)).Some? {
      FieldsAreRead(name, fields, VariantOf(UpperAscii(word)).value);
    }
  }

  predicate IsBracketed(raw: Text) {
    raw != [] && raw[0] == 0x5b && raw[|raw| - 1] == 0x5d
  }

  /** The addresses an offer can name. */
  predicate IsAddress(raw: Text) {
    || IsBracketed(raw) || COLON in raw
    || (IsNumber(raw) && DecimalValue(raw) < 0x1_0000_0000)
    || (!AllDigits(raw) && (AreQuadParts(Split(raw, DOT)) || IsHostname(raw)))
  }

  /** Exactly those are read: an integer as its dotted quad, one in brackets without them, any other as it is. */
  lemma AddressesAreRead(raw: Text)
    ensures ParseAddress(raw).Some? <==> IsAddress(raw)
    ensures IsNumber(raw) && DecimalValue(raw) < 0x1_0000_0000 ==> ParseAddress(raw) == Some(Quad(DecimalValue(raw)))
    ensures IsBracketed(raw) ==> ParseAddress(raw) == Some(raw[1..|raw| - 1])
    ensures IsAddress(raw) && !IsNumber(raw) && !IsBracketed(raw) ==> ParseAddress(raw) == Some(raw)
  {
    hide AreQuadParts;
    hide IsHostname;
    hide Quad;
    hide Split;
    assert AllDigits(raw) ==> COLON !in raw;
  }

  /** Where the answer goes: an address that is no dotted quad, or has a part above 255, is sent as it is. */
  lemma OtherHostsAreKept(parts: seq<Text>)
    requires parts != [] && forall p | p in parts :: DOT !in p
    ensures !AreQuadParts(parts) || (exists i | 0 <= i < 4 :: DecimalValue(parts[i]) > 255) ==>
              EncodeAddress(Join(parts, DOT)) == Join(parts, DOT)
  {
    SplitJoin(parts, DOT);
    hide Decimal;
    hide DecimalValue;
    hide Split;
    hide Join;
    hide PartsValue;
  }
}
