/**
  * What a message does outside the conversations: our own standing, the notices
  * on the network's tab, the lines to send and the effects to raise.
  */
module Outcomes {
  import opened Units
  import opened ISupport
  import opened CaseFolding
  import opened Messages
  import opened CtcpCodec
  import opened DccOffers
  import opened Members
  import opened MuteList
  import opened MessageBuffer
  import opened NetworkState
  import opened Reducer
  import opened Delivery
  import opened ChannelFacts
  import Batches
  import ModeReading

  // ---------- User modes ----------

  /** The letter stands at `i` and nowhere after it. */
  predicate IsLast(text: Text, u: Unit, i: nat) {
    i < |text| && text[i] == u && u !in text[i + 1..]
  }

  lemma {:induction false} SignAfterFirst(text: Text, i: nat, add: bool)
    requires 0 < i <= |text|
    ensures var first := if text[0] == PLUS then true else if text[0] == MINUS then false else add;
            ModeReading.SignAt(text, i, add) == ModeReading.SignAt(text[1..], i - 1, first)
  {
    if i == 1 {
    } else {
      SignAfterFirst(text, i - 1, add);
      assert text[1..][i - 2] == text[i - 1];
    }
  }

  lemma {:induction false} UnnamedModeStays(modes: set<Unit>, text: Text, add: bool, u: Unit)
    requires u !in text
    ensures u in UserModesAfter(modes, text, add) <==> u in modes
    decreases |text|
  {
    if text == [] {
    } else if text[0] == PLUS || text[0] == MINUS {
      UnnamedModeStays(modes, text[1..], text[0] == PLUS, u);
    } else {
      UnnamedModeStays(if add then modes + {text[0]} else modes - {text[0]}, text[1..], add, u);
    }
  }

  lemma {:induction false} LastSignDecides(modes: set<Unit>, text: Text, add: bool, u: Unit, i: nat)
    requires IsLast(text, u, i) && u != PLUS && u != MINUS
    ensures u in UserModesAfter(modes, text, add) <==> ModeReading.SignAt(text, i, add)
    decreases |text|
  {
    var rest, next := text[1..], if text[0] == PLUS then true else if text[0] == MINUS then false else add;
    var modes' := if text[0] == PLUS || text[0] == MINUS then modes
                 else if add then modes + {text[0]} else modes - {text[0]};
    assert UserModesAfter(modes, text, add) == UserModesAfter(modes', rest, next);
    if i == 0 {
      UnnamedModeStays(modes', rest, next, u);
    } else {
      assert rest[i - 1] == text[i] && rest[i..] == text[i + 1..];
      LastSignDecides(modes', rest, next, u, i - 1);
      SignAfterFirst(text, i, add);
    }
  }

  /** Our user modes: a letter is on as its last sign says, and stays as it was when it is not mentioned. */
  lemma UserModesFollowLastSign(modes: set<Unit>, text: Text, u: Unit)
    requires u != PLUS && u != MINUS
    ensures u !in text ==> (u in UserModesAfter(modes, text, true) <==> u in modes)
    ensures forall i | 0 <= i < |text| && IsLast(text, u, i) ::
              u in UserModesAfter(modes, text, true) <==> ModeReading.SignAt(text, i, true)
  {
    if u !in text {
      UnnamedModeStays(modes, text, true, u);
    }
    forall i | 0 <= i < |text| && IsLast(text, u, i)
      ensures u in UserModesAfter(modes, text, true) <==> ModeReading.SignAt(text, i, true)
    {
      LastSignDecides(modes, text, true, u, i);
    }
  }

  // ---------- What a message means for us ----------

  /** The state without the conversations, the batches and the mute list. */
  function Own(s: Network): Network {
    s.(channels := map[], queries := map[], batches := map[], ignores := [])
  }

  predicate Ours(own: Network, msg: Message, ctx: Context) {
    Same(SenderOf(msg), own.nick, ctx)
  }

  function Showing(own: Network, entry: Entry): Network {
    own.(notices := own.notices + [entry])
  }

  /** `DCC SEND` in any of its spellings. */
  predicate IsOffer(ctcp: Ctcp) {
    var word := UpperAscii(ctcp.params[..Find(ctcp.params, SPACE)]);
    ctcp.command == Ascii("DCC")
    && word in {Ascii("SEND"), Ascii("SSEND"), Ascii("TSEND"), Ascii("TSSEND"), Ascii("STSEND")}
  }

  /** The answer goes back as a NOTICE whose CTCP has the answer's first word for its command. */
  function AnswerTo(sender: Text, answer: Text): Text {
    var space := Find(answer, SPACE);
    Ascii("NOTICE ") + sender + Ascii(" :")
      + Encode(answer[..space], if space < |answer| then answer[space + 1..] else [])
  }

  function VersionsAfter(own: Network, sender: Text, ctcp: Ctcp, ctx: Context): map<Text, Text> {
    if ctcp.command == Ascii("VERSION") && ctcp.params != []
    then own.ctcpVersions[Fold(sender, ctx.support.caseMapping) := ctcp.params] else own.ctcpVersions
  }

  /** A request or an answer from somebody, which is shown as a notice, answered, or handed on as an offer of a file. */
  function AfterRequest(own: Network, msg: Message, ctcp: Ctcp, ctx: Context, now: int): Reduction {
    var sender, about := SenderOf(msg), Subject(own.nick, msg, ctx);
    var shown := Showing(own, BuildEntry(msg, ServerLine, about, ctx.wording(msg), ctx, now));
    var host := if msg.source.Some? then Some(msg.source.value.host) else None;
    if VerbFor(msg.command).NoticeVerb? then
      Reduction(shown.(ctcpVersions := VersionsAfter(own, sender, ctcp, ctx)), [], [])
    else if ctcp.command == Ascii("DCC") && ctx.isDccAccept(ctcp) then
      Reduction(own, [], [DccAccepted(sender, ctcp.params)])
    else if ParseDccSend(ctcp).Some? then
      Reduction(shown, [], [DccOffered(sender, about, ParseDccSend(ctcp).value, host)])
    else if IsOffer(ctcp) then Reduction(own, [], [DccUnreadable(sender, about, ctcp.params)])
    else
      var answer := ctx.ctcpAnswer(ctcp, now);
      Reduction(shown, if answer.Some? then [AnswerTo(sender, answer.value)] else [], [])
  }

  /** Somebody else's ordinary line may be a catalogue entry, or a bot's answer when it is a NOTICE. */
  function AfterLine(own: Network, msg: Message, ctx: Context): Reduction {
    var sender, body, about := SenderOf(msg), Arg(msg, 1), Subject(own.nick, msg, ctx);
    if Ours(own, msg, ctx) || Speech(msg).0 then Quiet(own)
    else
      Reduction(own, [],
        (if ctx.isXdccOffer(body) then [XdccOffered(sender, about, body)] else [])
        + (if VerbFor(msg.command).NoticeVerb? && ctx.isXdccAnswer(body) then [XdccAnswered(sender, about, body)]
           else []))
  }

  function AfterTalk(own: Network, msg: Message, ctx: Context, now: int): Reduction {
    if IsRequest(own.nick, msg, ctx) then AfterRequest(own, msg, Decode(Arg(msg, 1)).value, ctx, now)
    else if IsServers(msg, ctx) then Quiet(Showing(own, BuildEntry(msg, ServerLine, [], Arg(msg, 1), ctx, now)))
    else AfterLine(own, msg, ctx)
  }

  /** A refused nick is tried again under another while we register; afterwards it is only reported. */
  function AfterRefusal(own: Network, msg: Message, ctx: Context, now: int): Reduction {
    if !own.phase.Registering? then
      Quiet(Showing(own, BuildEntry(msg, ErrorLine, [], ctx.wording(msg), ctx, now)))
    else
      var next := NextNick(own, ctx);
      var text := ctx.wording(msg) + Ascii(" Trying ") + next + Ascii(".");
      Reduction(Showing(own, BuildEntry(msg, ServerLine, [], text, ctx, now)).(
                  nick := next, triedNicks := own.triedNicks + [next]),
                [Ascii("NICK ") + next], [])
  }

  /** The account a message names for us; a star is none. */
  function NamedAccount(msg: Message): Option<Text> {
    if msg.params == [] || msg.params[0] == Ascii("*") then None else Some(msg.params[0])
  }

  /** Welcomes, farewells, and news of ourselves. */
  function AfterNews(own: Network, msg: Message, ctx: Context, now: int): Network {
    match VerbFor(msg.command)
    case WelcomeVerb => own.(phase := Registered, nick := Arg(msg, 0))
    case MotdEndVerb => own.(phase := Registered)
    case ErrorVerb =>
      var gone := own.(phase := Disconnected);
      if LastArg(msg) == [] then gone else Showing(gone, BuildEntry(msg, ErrorLine, [], LastArg(msg), ctx, now))
    case NickVerb => if Ours(own, msg, ctx) then own.(nick := Arg(msg, 0)) else own
    case ModeVerb =>
      if PlaceOf(Arg(msg, 0), ctx).isChannel then own
      else own.(userModes := UserModesAfter(own.userModes, Arg(msg, 1), true))
    case AwayVerb => if Ours(own, msg, ctx) then own.(away := Arg(msg, 0) != []) else own
    case AccountVerb => if Ours(own, msg, ctx) then own.(account := NamedAccount(msg)) else own
    case LoggedInVerb => if |msg.params| > 2 then own.(account := Some(msg.params[2])) else own
    case LoggedOutVerb => own.(account := None)
    case AwayStateVerb => own.(away := msg.command == Ascii("306"))
    case _ => own
  }

  function PongTo(token: Text): Text {
    Ascii("PONG :") + token
  }

  /** What an unmuted message makes of our own part of the state, what it sends and what it raises. */
  function Brings(own: Network, msg: Message, ctx: Context, now: int): Reduction {
    match VerbFor(msg.command)
    case PingVerb => Reduction(own, [PongTo(Arg(msg, 0))], [])
    case PrivmsgVerb | NoticeVerb => AfterTalk(own, msg, ctx, now)
    case NickRefusedVerb => AfterRefusal(own, msg, ctx, now)
    case MotdEndVerb => Reduction(AfterNews(own, msg, ctx, now), [], [RegistrationDone])
    case _ => Quiet(AfterNews(own, msg, ctx, now))
  }

  /** What of a step concerns us. */
  function OwnPart(r: Reduction): Reduction {
    r.(state := Own(r.state))
  }

  // ---------- Command by command ----------

  lemma OffersInWords(ctcp: Ctcp)
    ensures IsDccSendOffer(ctcp) <==> IsOffer(ctcp)
    ensures ParseDccSend(ctcp).Some? ==> ctcp.command == DCC
  {
    hide ReadFields;
    hide SplitFilename;
    hide Words;
    hide Trim;
  }

  lemma AnswersInWords(sender: Text)
    ensures forall answer :: ReplyLine(sender, answer) == AnswerTo(sender, answer)
  {
    hide Encode;
    assert Ascii(" :") == [SPACE, COLON];
  }

  lemma RequestTaken(s: Network, ctcp: Ctcp, msg: Message, ctx: Context, now: int)
    requires Says(msg)
    ensures OwnPart(CtcpTaken(s, ctcp, msg, ctx, now)) == AfterRequest(Own(s), msg, ctcp, ctx, now)
  {
    SpeechIs(s, msg, ctx);
    OffersInWords(ctcp);
    AnswersInWords(SenderOf(msg));
    hide VerbFor;
    hide BuildEntry;
    hide ParseDccSend;
    hide IsDccSendOffer;
    hide IsOffer;
    hide ReplyLine;
    hide AnswerTo;
    hide ConversationName;
    hide Subject;
    hide IsServers;
    hide IsServerNotice;
    hide Speech;
    hide CtcpIn;
    hide IsRequest;
    hide DecodeAction;
    hide IsSelf;
    hide IsChannel;
  }

  lemma FiledElsewhere(s: Network, target: Text, channel: Channel, ctx: Context)
    ensures Own(WithConversation(s, target, channel, ctx)) == Own(s)
  {
  }

  lemma LineTakenElsewhere(s: Network, msg: Message, ctx: Context, now: int)
    ensures Own(LineTaken(s, msg, ctx, now).state) == Own(s)
  {
    hide VerbFor;
    hide BuildEntry;
    hide ConversationName;
    hide Conversation;
    hide Added;
    hide Reconcile;
    hide DecodeAction;
    hide WithConversation;
    hide Own;
    hide IsSelf;
    hide LineEffects;
    forall target, channel ensures Own(WithConversation(s, target, channel, ctx)) == Own(s) {
      FiledElsewhere(s, target, channel, ctx);
    }
  }

  lemma LineTakenBrings(s: Network, msg: Message, ctx: Context, now: int)
    ensures OwnPart(LineTaken(s, msg, ctx, now)) == AfterLine(Own(s), msg, ctx)
  {
    SpeechIs(s, msg, ctx);
    LineTakenElsewhere(s, msg, ctx, now);
    assert Own(s).nick == s.nick;
    hide VerbFor;
    hide BuildEntry;
    hide ConversationName;
    hide Conversation;
    hide WithConversation;
    hide Added;
    hide Reconcile;
    hide Subject;
    hide IsServers;
    hide IsServerNotice;
    hide Speech;
    hide DecodeAction;
    hide IsSelf;
    hide Same;
    hide CtcpIn;
    hide IsRequest;
    hide Own;
  }

  lemma TalkBrings(s: Network, msg: Message, ctx: Context, now: int)
    requires Says(msg)
    ensures OwnPart(Spoken(s, msg, ctx, now)) == AfterTalk(Own(s), msg, ctx, now)
  {
    SpeechIs(s, msg, ctx);
    LineTakenBrings(s, msg, ctx, now);
    hide VerbFor;
    hide BuildEntry;
    hide LineTaken;
    hide AfterLine;
    hide AfterRequest;
    hide CtcpTaken;
    hide IsRequest;
    hide IsServers;
    hide IsServerNotice;
    hide Speech;
    hide Subject;
    hide ConversationName;
    var ctcp := CtcpIn(s, msg, ctx);
    if ctcp.Some? {
      assert ctcp == Decode(Arg(msg, 1));
      RequestTaken(s, ctcp.value, msg, ctx, now);
    }
  }

  lemma EventsElsewhere(s: Network, msg: Message, ctx: Context, now: int)
    ensures Own(Joined(s, msg, ctx, now)) == Own(Parted(s, msg, ctx, now)) == Own(s)
    ensures Own(Quitted(s, msg, ctx, now)) == Own(Kicked(s, msg, ctx, now)) == Own(s)
    ensures Own(TopicSet(s, msg, ctx, now)) == Own(s)
  {
    hide BuildEntry;
    hide JoinedChannel;
    hide PartedChannel;
    hide QuitChannel;
    hide KickedChannel;
    hide TopicChannel;
    hide AmendedWhere;
    hide IsChannel;
    hide Conversation;
    hide IsSelf;
  }

  lemma RepliesElsewhere(s: Network, msg: Message, ctx: Context)
    ensures Own(Named(s, msg, ctx)) == Own(NamesEnded(s, msg, ctx)) == Own(Replied(s, msg, ctx)) == Own(s)
  {
    hide VerbFor;
    hide NamesChannel;
    hide NamesEndChannel;
    hide NamesEntries;
    hide RepliedChannel;
    hide Conversation;
    hide WithConversation;
    hide Own;
    forall target, channel ensures Own(WithConversation(s, target, channel, ctx)) == Own(s) {
      FiledElsewhere(s, target, channel, ctx);
    }
  }

  lemma WhoElsewhere(s: Network, msg: Message, ctx: Context)
    ensures Own(WhoHeard(s, msg, ctx)) == Own(s)
  {
    hide WhoDetails;
    hide AmendedWhere;
    hide Upsert;
    hide KeyOf;
  }

  lemma ModeBrings(s: Network, msg: Message, ctx: Context, now: int)
    ensures VerbFor(msg.command).ModeVerb? ==> Own(Moded(s, msg, ctx, now)) == AfterNews(Own(s), msg, ctx, now)
    ensures VerbFor(msg.command).NickVerb? ==> Own(Renamed(s, msg, ctx, now)) == AfterNews(Own(s), msg, ctx, now)
  {
    hide VerbFor;
    hide ModedChannel;
    hide RenamedChannel;
    hide AmendedWhere;
    hide UserModesAfter;
  }

  lemma HeardBrings(s: Network, msg: Message, ctx: Context, now: int)
    requires IsNews(VerbFor(msg.command))
    ensures Own(Heard(s, msg, ctx)) == AfterNews(Own(s), msg, ctx, now)
  {
    hide VerbFor;
    hide NewsOf;
    hide AmendedWhere;
    assert Ascii("*") == [STAR];
  }

  lemma SameNextNick(s: Network, ctx: Context)
    ensures NextNick(s, ctx) == NextNick(Own(s), ctx)
  {
    hide FirstUntried;
    hide Underscored;
    hide Cut;
    hide NickLimit;
    hide TriedKeys;
  }

  lemma RefusalBrings(s: Network, msg: Message, ctx: Context, now: int)
    ensures OwnPart(NickRefused(s, msg, ctx, now)) == AfterRefusal(Own(s), msg, ctx, now)
  {
    SameNextNick(s, ctx);
    hide BuildEntry;
    hide NextNick;
    assert Ascii(".") == [DOT];
  }

  lemma StandingBrings(s: Network, msg: Message, ctx: Context, now: int)
    requires IsStanding(VerbFor(msg.command))
    ensures Own(Standing(s, msg, ctx, now).state) == AfterNews(Own(s), msg, ctx, now)
  {
    hide VerbFor;
    hide BuildEntry;
  }

  // ---------- Every message ----------

  lemma EventBrings(s: Network, msg: Message, ctx: Context, now: int)
    requires IsEvent(VerbFor(msg.command))
    ensures OwnPart(Apply(s, msg, ctx, now)) == Brings(Own(s), msg, ctx, now)
  {
    EventsElsewhere(s, msg, ctx, now);
    ModeBrings(s, msg, ctx, now);
    hide VerbFor;
    hide Own;
    hide Joined;
    hide Parted;
    hide Quitted;
    hide Kicked;
    hide TopicSet;
    hide Moded;
    hide Renamed;
    hide BuildEntry;
    hide UserModesAfter;
    hide Same;
    hide PlaceOf;
  }

  predicate IsNews(verb: Verb) {
    verb.AwayVerb? || verb.AccountVerb? || verb.ChghostVerb? || verb.SetnameVerb?
  }

  predicate IsStanding(verb: Verb) {
    verb.AwayStateVerb? || verb.LoggedInVerb? || verb.LoggedOutVerb? || verb.MotdEndVerb? || verb.ErrorVerb?
  }

  lemma NewsBrings(s: Network, msg: Message, ctx: Context, now: int)
    requires IsNews(VerbFor(msg.command))
    ensures OwnPart(Apply(s, msg, ctx, now)) == Brings(Own(s), msg, ctx, now)
  {
    HeardBrings(s, msg, ctx, now);
    hide VerbFor;
    hide Own;
    hide Heard;
    hide AfterNews;
  }

  lemma StandingRaises(s: Network, msg: Message, ctx: Context, now: int)
    ensures Standing(s, msg, ctx, now).send == []
    ensures Standing(s, msg, ctx, now).effects
         == if VerbFor(msg.command).MotdEndVerb? then [RegistrationDone] else []
  {
    hide VerbFor;
    hide PhaseAfter;
    hide AccountAfter;
    hide PartingWords;
  }

  lemma StandingApplies(own: Network, s: Network, msg: Message, ctx: Context, now: int)
    requires IsStanding(VerbFor(msg.command))
    ensures Apply(s, msg, ctx, now) == Standing(s, msg, ctx, now)
    ensures Brings(own, msg, ctx, now)
         == Reduction(AfterNews(own, msg, ctx, now), [],
                      if VerbFor(msg.command).MotdEndVerb? then [RegistrationDone] else [])
  {
    hide VerbFor;
    hide AfterNews;
    hide Standing;
  }

  lemma OwnStandingBrings(s: Network, msg: Message, ctx: Context, now: int)
    requires IsStanding(VerbFor(msg.command))
    ensures OwnPart(Apply(s, msg, ctx, now)) == Brings(Own(s), msg, ctx, now)
  {
    StandingBrings(s, msg, ctx, now);
    StandingRaises(s, msg, ctx, now);
    StandingApplies(Own(s), s, msg, ctx, now);
    hide VerbFor;
    hide Own;
    hide AfterNews;
    hide Standing;
    hide Apply;
    hide Brings;
  }

  lemma OtherBrings(s: Network, msg: Message, ctx: Context, now: int)
    requires var verb := VerbFor(msg.command); !IsEvent(verb) && !Says(msg) && !IsNews(verb) && !IsStanding(verb)
    ensures OwnPart(Apply(s, msg, ctx, now)) == Brings(Own(s), msg, ctx, now)
  {
    RepliesElsewhere(s, msg, ctx);
    WhoElsewhere(s, msg, ctx);
    RefusalBrings(s, msg, ctx, now);
    WelcomeBrings(s, msg, ctx);
    hide VerbFor;
    hide Own;
    hide Named;
    hide NamesEnded;
    hide Replied;
    hide WhoHeard;
    hide NickRefused;
    hide AfterRefusal;
    hide Welcomed;
  }

  lemma WelcomeBrings(s: Network, msg: Message, ctx: Context)
    ensures Own(Welcomed(s, msg)) == Own(s).(phase := Registered, nick := Arg(msg, 0))
  {
  }

  lemma ApplyBrings(s: Network, msg: Message, ctx: Context, now: int)
    ensures OwnPart(Apply(s, msg, ctx, now)) == Brings(Own(s), msg, ctx, now)
  {
    hide VerbFor;
    hide Own;
    hide Spoken;
    hide AfterTalk;
    var verb := VerbFor(msg.command);
    if Says(msg) {
      TalkBrings(s, msg, ctx, now);
    } else {
      hide Apply;
      hide Brings;
      if IsEvent(verb) {
        EventBrings(s, msg, ctx, now);
      } else if IsNews(verb) {
        NewsBrings(s, msg, ctx, now);
      } else if IsStanding(verb) {
        OwnStandingBrings(s, msg, ctx, now);
      } else {
        OtherBrings(s, msg, ctx, now);
      }
    }
  }

  lemma KeptOwn(before: Network, after: Network)
    ensures Own(KeepingBuffers(before, after)) == Own(after).(notices := before.notices)
  {
    hide BuffersOf;
  }

  lemma BatchesElsewhere(s: Network, msg: Message, ctx: Context)
    ensures Own(BatchHandled(s, msg, ctx)) == Own(s)
  {
    hide LiveOldest;
    hide PageDone;
    hide Batches.MarkOf;
    hide Batches.Marked;
    hide IsHistoryKind;
  }

  lemma EventsShowNothing(own: Network, msg: Message, ctx: Context, now: int)
    requires PartFor(VerbFor(msg.command)) == Some(EventsPart)
    ensures Brings(own, msg, ctx, now).state.notices == own.notices
  {
    hide VerbFor;
    hide UserModesAfter;
    hide Same;
    hide PlaceOf;
  }

  lemma SilentBringsNothing(own: Network, msg: Message, ctx: Context, now: int)
    requires var verb := VerbFor(msg.command); verb.BatchVerb? || verb.TagmsgVerb? || verb.InviteVerb?
    ensures Brings(own, msg, ctx, now) == Quiet(own)
  {
    hide VerbFor;
  }

  /** Taking back the lines of a muted event takes nothing of ours back. */
  lemma MutedEventBrings(s: Network, msg: Message, ctx: Context, now: int)
    requires PartFor(VerbFor(msg.command)) == Some(EventsPart)
    ensures var applied := Apply(s, msg, ctx, now);
            OwnPart(applied.(state := KeepingBuffers(s, applied.state))) == Brings(Own(s), msg, ctx, now)
  {
    hide VerbFor;
    hide Apply;
    hide KeepingBuffers;
    hide Brings;
    var applied := Apply(s, msg, ctx, now);
    ApplyBrings(s, msg, ctx, now);
    KeptOwn(s, applied.state);
    EventsShowNothing(Own(s), msg, ctx, now);
    assert Own(applied.state).(notices := s.notices) == Own(applied.state);
  }

  lemma CountedOwn(s: Network, msg: Message, ctx: Context, now: int)
    ensures var counted := Counted(s, msg, ctx, now);
            Own(counted) == Own(s) && (Suppressed(counted, msg, ctx, now) <==> Muted(s, msg, ctx, now))
  {
    var counted := Counted(s, msg, ctx, now);
    CountedIsAlike(s, msg, PlaceOf([], ctx), ctx, now);
    SuppressedInWords(counted, msg, ctx, now);
    hide Muted;
    hide Suppressed;
    hide VerbFor;
  }

  /**
    * Every message: our own part of the state depends on nothing else of it, and
    * a mute holds back only what is said - a muted event still tells of us.
    */
  lemma OutcomesFollowMessages(s: Network, msg: Message, ctx: Context, now: int)
    ensures OwnPart(Reduce(s, msg, ctx, now))
         == if Says(msg) && Muted(s, msg, ctx, now) then Quiet(Own(s)) else Brings(Own(s), msg, ctx, now)
  {
    hide VerbFor;
    hide Apply;
    hide BatchHandled;
    hide KeepingBuffers;
    hide Suppressed;
    hide Muted;
    hide Counted;
    hide Brings;
    hide Own;
    var counted := Counted(s, msg, ctx, now);
    CountedOwn(s, msg, ctx, now);
    MutedHasPart(counted, msg, ctx, now);
    ApplyBrings(counted, msg, ctx, now);
    BatchesElsewhere(counted, msg, ctx);
    var verb := VerbFor(msg.command);
    if PartFor(verb) == Some(EventsPart) {
      MutedEventBrings(counted, msg, ctx, now);
    } else if verb.BatchVerb? || verb.TagmsgVerb? || verb.InviteVerb? {
      SilentBringsNothing(Own(s), msg, ctx, now);
    }
  }
}
