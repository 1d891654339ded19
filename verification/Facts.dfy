/**
  * What is known of each conversation besides its people and its lines: what
  * one message does to that, and that the reducer does exactly that.
  */
module ChannelFacts {
  import opened Units
  import opened CaseFolding
  import opened Messages
  import opened Members
  import opened Modes
  import opened MuteList
  import opened MessageBuffer
  import opened NetworkState
  import opened Reducer
  import opened Delivery
  import Batches
  import CtcpCodec

  /** A conversation without its people and its lines. */
  function Bare(channel: Channel): Channel {
    channel.(members := map[], messages := [])
  }

  function FactsAt(s: Network, place: Place): Option<Channel> {
    var channel := At(s, place);
    if channel.Some? then Some(Bare(channel.value)) else None
  }

  /** What is known of a conversation, or, if nothing is, that it bears this name. */
  function FactsOf(facts: Option<Channel>, name: Text): Channel {
    if facts.Some? then facts.value
    else Channel(name, false, None, ChannelModes({}, map[]), map[], false, [], [], false, false, None)
  }

  /** The place of a channel known under this name. */
  predicate IsKnown(facts: Option<Channel>, place: Place, name: Text, ctx: Context) {
    facts.Some? && place == Place(true, Fold(name, ctx.support.caseMapping))
  }

  /** Modes, and the prefix changes to be replayed when NAMES ends. */
  function BareModed(facts: Channel, msg: Message, ctx: Context): Channel {
    facts.(modes := ApplyModes(facts.modes, ModeChanges(msg, ctx)),
           pendingPrefixChanges :=
             if facts.namesLoading then facts.pendingPrefixChanges + PrefixKindOnly(ModeChanges(msg, ctx))
             else facts.pendingPrefixChanges)
  }

  function AfterMode(before: Option<Channel>, msg: Message, place: Place, ctx: Context): Option<Channel> {
    if IsKnown(before, place, Arg(msg, 0), ctx) && PlaceOf(Arg(msg, 0), ctx).isChannel
    then Some(BareModed(before.value, msg, ctx)) else before
  }

  function AfterPart(before: Option<Channel>, own: Text, leaver: Text, msg: Message, place: Place, ctx: Context)
    : Option<Channel>
  {
    if IsKnown(before, place, Arg(msg, 0), ctx) && Same(leaver, own, ctx) then Some(before.value.(joined := false))
    else before
  }

  /** JOIN, PART, KICK, TOPIC and MODE. */
  function AfterEvent(
      before: Option<Channel>, own: Text, msg: Message, place: Place, ctx: Context, now: int): Option<Channel>
  {
    var name := Arg(msg, 0);
    var known, facts := IsKnown(before, place, name, ctx), FactsOf(before, name);
    match VerbFor(msg.command)
    case JoinVerb =>
      if place != PlaceOf(name, ctx) then before
      else Some(facts.(name := name, joined := facts.joined || Same(SenderOf(msg), own, ctx)))
    case PartVerb => AfterPart(before, own, SenderOf(msg), msg, place, ctx)
    case KickVerb => AfterPart(before, own, Arg(msg, 1), msg, place, ctx)
    case TopicVerb =>
      var setBy := if msg.source.Some? then Some(msg.source.value.nick) else None;
      if known then Some(facts.(topic := Some(Topic(Arg(msg, 1), setBy, Some(TimeOf(msg, ctx, now)))))) else before
    case ModeVerb => AfterMode(before, msg, place, ctx)
    case _ => before
  }

  /** Something said makes its conversation known, and our own words give it the name we wrote. */
  function AfterSpeech(before: Option<Channel>, own: Text, msg: Message, place: Place, ctx: Context): Option<Channel> {
    var subject := Subject(own, msg, ctx);
    var facts := FactsOf(before, subject);
    if IsRequest(own, msg, ctx) || IsServers(msg, ctx) || place != PlaceOf(subject, ctx) then before
    else Some(if Same(SenderOf(msg), own, ctx) then facts.(name := subject) else facts)
  }

  /** The replies that come with a join: names, topic and modes. */
  function AfterReply(before: Option<Channel>, msg: Message, place: Place, ctx: Context): Option<Channel> {
    var verb := VerbFor(msg.command);
    var name := Arg(msg, if verb.NamesVerb? then 2 else 1);
    var facts := FactsOf(before, name).(name := name);
    var topic := if facts.topic.Some? then facts.topic.value else Topic([], None, None);
    if place != PlaceOf(name, ctx) then before
    else
      match verb
      case NamesVerb => Some(facts.(namesLoading := true))
      case NamesEndVerb => Some(facts.(namesLoading := false, pendingPrefixChanges := []))
      case NoTopicVerb => Some(facts.(topic := None))
      case TopicReplyVerb => Some(facts.(topic := Some(Topic(LastArg(msg), topic.setBy, topic.at))))
      case TopicSetterVerb => Some(facts.(topic := Some(Topic(topic.text, Some(Arg(msg, 2)), ToDate(Arg(msg, 3))))))
      case ModeReplyVerb =>
        var changes := ParseModes(Arg(msg, 2), Batches.ParamsFrom(msg, 3), ctx.support).changes;
        Some(facts.(modes := ApplyModes(facts.modes, changes)))
      case _ => Some(facts)
  }

  /** What a finished page of history settles: whether there is more before it, and whether it left a gap. */
  function AfterPage(facts: Channel, page: Batches.Count): Channel {
    if facts.historyPending.None? then facts
    else
      var asked := facts.historyPending.value;
      var full, done := page.count >= asked.limit, facts.(historyPending := None);
      if asked.kind.MissedPage? then done.(historyGap := full)
      else
        var short := full && asked.kind.LatestPage? && page.newest.Some? && page.liveOldest.Some?
                     && page.liveOldest.value > page.newest.value;
        done.(historyComplete := facts.historyComplete || !full, historyGap := short)
  }

  predicate IsHistory(kind: Text) {
    kind == Ascii("chathistory") || kind == Ascii("draft/chathistory")
  }

  /** The reference a BATCH command closes, if it is that of a page of history. */
  predicate ClosesPage(batches: Batches.Counts, msg: Message, r: Text) {
    Batches.Closing(msg, r) && r in batches && IsHistory(batches[r].kind)
  }

  /** A page is about the channel of that name, or else about the person. */
  predicate IsPageOf(s: Network, page: Batches.Count, place: Place, ctx: Context) {
    var target := if page.params == [] then [] else page.params[0];
    && place.key == Fold(target, ctx.support.caseMapping)
    && (place.isChannel || place.key !in s.channels)
  }

  // ---------- Command by command ----------

  lemma FiledFacts(s: Network, target: Text, channel: Channel, place: Place, ctx: Context)
    ensures FactsAt(WithConversation(s, target, channel, ctx), place)
         == if place == PlaceOf(target, ctx) then Some(Bare(channel)) else FactsAt(s, place)
    ensures Bare(Conversation(s, target, ctx)) == FactsOf(FactsAt(s, PlaceOf(target, ctx)), target)
  {
  }

  lemma AddedFacts(channel: Channel, entry: Entry)
    ensures Bare(Added(channel, entry)) == Bare(channel)
  {
    hide Insert;
  }

  lemma JoinFacts(s: Network, msg: Message, place: Place, ctx: Context, now: int)
    requires VerbFor(msg.command).JoinVerb?
    ensures FactsAt(Joined(s, msg, ctx, now), place) == AfterEvent(FactsAt(s, place), s.nick, msg, place, ctx, now)
  {
    hide VerbFor;
    hide WithConversation;
    hide Conversation;
    hide Added;
    hide BuildEntry;
    hide ArrivalOf;
    hide Upsert;
    hide FactsAt;
    var channel := Conversation(s, Arg(msg, 0), ctx);
    FiledFacts(s, Arg(msg, 0), JoinedChannel(s, channel, msg, ctx, now), place, ctx);
    forall c: Channel, entry: Entry ensures Bare(Added(c, entry)) == Bare(c) {
      AddedFacts(c, entry);
    }
  }

  lemma DepartedFacts(channel: Channel, self: bool, nick: Text, entry: Entry, ctx: Context)
    ensures Bare(Added(Departed(channel, self, nick, ctx), entry))
         == if self then Bare(channel).(joined := false) else Bare(channel)
  {
    hide Insert;
    hide Remove;
  }

  lemma PutFacts(s: Network, key: Text, channel: Channel, place: Place)
    ensures FactsAt(s.(channels := s.channels[key := channel]), place)
         == if place == Place(true, key) then Some(Bare(channel)) else FactsAt(s, place)
    ensures FactsAt(s, Place(true, key)) == if key in s.channels then Some(Bare(s.channels[key])) else None
  {
    hide Bare;
  }

  lemma PartFacts(s: Network, msg: Message, place: Place, ctx: Context, now: int)
    ensures FactsAt(Parted(s, msg, ctx, now), place)
         == AfterPart(FactsAt(s, place), s.nick, SenderOf(msg), msg, place, ctx)
  {
    hide PartEntry;
    hide Departed;
    hide Added;
    hide Bare;
    hide FactsAt;
    var key, nick := KeyOf(Arg(msg, 0), ctx), SenderOf(msg);
    if key in s.channels {
      var c := s.channels[key];
      DepartedFacts(c, IsSelf(s, nick, ctx), nick, PartEntry(msg, ctx, now), ctx);
      PutFacts(s, key, PartedChannel(s, c, msg, ctx, now), place);
    } else {
      PutFacts(s, key, EmptyChannel(key), place);
    }
  }

  lemma KickFacts(s: Network, msg: Message, place: Place, ctx: Context, now: int)
    ensures FactsAt(Kicked(s, msg, ctx, now), place)
         == AfterPart(FactsAt(s, place), s.nick, Arg(msg, 1), msg, place, ctx)
  {
    hide KickEntry;
    hide Departed;
    hide Added;
    hide Bare;
    hide FactsAt;
    var key, nick := KeyOf(Arg(msg, 0), ctx), Arg(msg, 1);
    if key in s.channels {
      var c := s.channels[key];
      DepartedFacts(c, IsSelf(s, nick, ctx), nick, KickEntry(msg, ctx, now), ctx);
      PutFacts(s, key, KickedChannel(s, c, msg, ctx, now), place);
    } else {
      PutFacts(s, key, EmptyChannel(key), place);
    }
  }

  lemma TopicFacts(s: Network, msg: Message, place: Place, ctx: Context, now: int)
    requires VerbFor(msg.command).TopicVerb?
    ensures FactsAt(TopicSet(s, msg, ctx, now), place) == AfterEvent(FactsAt(s, place), s.nick, msg, place, ctx, now)
  {
    hide VerbFor;
    hide BuildEntry;
    hide Insert;
    hide TimeOf;
  }

  lemma ModeFacts(s: Network, msg: Message, place: Place, ctx: Context, now: int)
    ensures FactsAt(Moded(s, msg, ctx, now), place) == AfterMode(FactsAt(s, place), msg, place, ctx)
  {
    var key := KeyOf(Arg(msg, 0), ctx);
    PutFacts(s, key, EmptyChannel(key), place);
    OwnModesAreNoFacts(s, UserModesAfter(s.userModes, Arg(msg, 1), true), place);
    hide UserModesAfter;
    hide ModedChannel;
    hide BareModed;
    hide Bare;
    hide FactsAt;
    if key in s.channels {
      ModedFacts(s.channels[key], msg, ctx, now);
      PutFacts(s, key, ModedChannel(s.channels[key], msg, ctx, now), place);
    }
  }

  lemma OwnModesAreNoFacts(s: Network, modes: set<Unit>, place: Place)
    ensures FactsAt(s.(userModes := modes), place) == FactsAt(s, place)
  {
  }

  lemma ModedFacts(channel: Channel, msg: Message, ctx: Context, now: int)
    ensures Bare(ModedChannel(channel, msg, ctx, now)) == BareModed(Bare(channel), msg, ctx)
  {
    hide BuildEntry;
    hide Insert;
    hide PrefixesChanged;
    hide ModeChanges;
    hide ApplyModes;
    hide PrefixKindOnly;
  }

  /** People who leave or are renamed change nothing else. */
  lemma PeopleFacts(s: Network, msg: Message, place: Place, ctx: Context, now: int)
    ensures FactsAt(Quitted(s, msg, ctx, now), place) == FactsAt(s, place)
    ensures FactsAt(Renamed(s, msg, ctx, now), place) == FactsAt(s, place)
  {
    hide BuildEntry;
    hide Insert;
    hide IsSelf;
    hide Remove;
    hide Rename;
  }

  lemma AmendedFacts(s: Network, nick: Text, update: Update, place: Place, ctx: Context)
    ensures var hear := (c: Channel) => c.(members := Upsert(c.members, nick, MapOf(ctx), update));
            FactsAt(s.(channels := AmendedWhere(s.channels, nick, MapOf(ctx), hear)), place) == FactsAt(s, place)
  {
    hide Upsert;
    hide IsMember;
  }

  lemma HeardFacts(s: Network, msg: Message, place: Place, ctx: Context)
    ensures FactsAt(Heard(s, msg, ctx), place) == FactsAt(s, place)
    ensures FactsAt(WhoHeard(s, msg, ctx), place) == FactsAt(s, place)
  {
    AmendedFacts(s, SenderOf(msg), NewsOf(msg), place, ctx);
    AmendedFacts(s, Arg(msg, 5), WhoDetails(msg, ctx), place, ctx);
    hide VerbFor;
    hide NewsOf;
    hide Upsert;
    hide IsSelf;
    hide WhoDetails;
    hide KeyOf;
    hide AmendedWhere;
  }

  lemma LineTakenFacts(s: Network, msg: Message, place: Place, ctx: Context, now: int)
    ensures var subject := Subject(s.nick, msg, ctx);
            FactsAt(LineTaken(s, msg, ctx, now).state, place)
              == if place != PlaceOf(subject, ctx) then FactsAt(s, place)
                 else
                   var facts := FactsOf(FactsAt(s, place), subject);
                   Some(if Same(SenderOf(msg), s.nick, ctx) then facts.(name := subject) else facts)
  {
    SpeechIs(s, msg, ctx);
    hide VerbFor;
    hide BuildEntry;
    hide WithConversation;
    hide Conversation;
    hide ConversationName;
    hide Subject;
    hide CtcpCodec.DecodeAction;
    hide Speech;
    hide IsSelf;
    hide Same;
    hide LineEffects;
    hide Reconcile;
    hide FactsAt;
    hide FactsOf;
    hide PlaceOf;
    hide Added;
    var subject, line := Subject(s.nick, msg, ctx), SpeechLine(s.nick, msg, ctx, now);
    var channel := Conversation(s, subject, ctx);
    var echoed := channel.(name := subject, messages := Reconcile(channel.messages, line));
    FiledFacts(s, subject, echoed, place, ctx);
    FiledFacts(s, subject, Added(channel, line), place, ctx);
    AddedFacts(channel, line);
  }

  lemma SpokenFacts(s: Network, msg: Message, place: Place, ctx: Context, now: int)
    requires Says(msg)
    ensures FactsAt(Spoken(s, msg, ctx, now).state, place) == AfterSpeech(FactsAt(s, place), s.nick, msg, place, ctx)
  {
    SpeechIs(s, msg, ctx);
    LineTakenFacts(s, msg, place, ctx, now);
    hide VerbFor;
    hide BuildEntry;
    hide LineTaken;
    hide CtcpTaken;
    hide CtcpIn;
    hide IsRequest;
    hide IsServers;
    hide IsServerNotice;
    hide Subject;
    hide Same;
    hide FactsOf;
    hide PlaceOf;
    if CtcpIn(s, msg, ctx).Some? {
      CtcpFrame(s, CtcpIn(s, msg, ctx).value, msg, ctx, now);
    }
  }

  lemma NamesFacts(s: Network, msg: Message, place: Place, ctx: Context)
    ensures VerbFor(msg.command).NamesVerb? ==>
              FactsAt(Named(s, msg, ctx), place) == AfterReply(FactsAt(s, place), msg, place, ctx)
    ensures VerbFor(msg.command).NamesEndVerb? ==>
              FactsAt(NamesEnded(s, msg, ctx), place) == AfterReply(FactsAt(s, place), msg, place, ctx)
  {
    hide VerbFor;
    hide WithConversation;
    hide Conversation;
    hide FactsAt;
    hide EntriesListed;
    hide NamesEntries;
    hide PrefixesChanged;
    hide PlaceOf;
    var names, end := Arg(msg, 2), Arg(msg, 1);
    FiledFacts(s, names, NamesChannel(Conversation(s, names, ctx), names, NamesEntries(msg, ctx), ctx), place, ctx);
    FiledFacts(s, end, NamesEndChannel(Conversation(s, end, ctx), end, ctx), place, ctx);
  }

  lemma ReplyFacts(s: Network, msg: Message, place: Place, ctx: Context)
    requires VerbFor(msg.command) in {TopicReplyVerb, NoTopicVerb, TopicSetterVerb, ModeReplyVerb, DetailReplyVerb}
    ensures FactsAt(Replied(s, msg, ctx), place) == AfterReply(FactsAt(s, place), msg, place, ctx)
  {
    hide VerbFor;
    hide WithConversation;
    hide Conversation;
    hide FactsAt;
    hide PlaceOf;
    hide ToDate;
    hide ApplyModes;
    hide ParseModes;
    FiledFacts(s, Arg(msg, 1), RepliedChannel(Conversation(s, Arg(msg, 1), ctx), msg, ctx), place, ctx);
  }

  lemma StandingFacts(s: Network, msg: Message, place: Place, ctx: Context, now: int)
    ensures FactsAt(Welcomed(s, msg), place) == FactsAt(s, place)
    ensures FactsAt(NickRefused(s, msg, ctx, now).state, place) == FactsAt(s, place)
    ensures FactsAt(Standing(s, msg, ctx, now).state, place) == FactsAt(s, place)
  {
    hide VerbFor;
    hide BuildEntry;
    hide NextNick;
    hide PartingWords;
    hide PhaseAfter;
    hide AccountAfter;
    hide Bare;
  }

  lemma PageFacts(channel: Channel, page: Batches.Count)
    ensures Bare(PageDone(channel, page)) == AfterPage(Bare(channel), page)
  {
  }

  lemma PageAtKey(channels: Channels, key: Text, k: Text, page: Batches.Count)
    requires key in channels
    ensures var after := channels[key := PageDone(channels[key], page)];
            (k in after <==> k in channels)
            && (k in channels ==>
                  Bare(after[k]) == if k == key then AfterPage(Bare(channels[k]), page) else Bare(channels[k]))
  {
    PageFacts(channels[key], page);
    hide PageDone;
    hide AfterPage;
    hide Bare;
  }

  lemma HistoryFacts(s: Network, page: Batches.Count, place: Place, ctx: Context)
    ensures var target := if page.params == [] then [] else page.params[0];
            FactsAt(HistoryDone(s, target, page, ctx), place)
              == if IsPageOf(s, page, place, ctx) && FactsAt(s, place).Some?
                 then Some(AfterPage(FactsAt(s, place).value, page)) else FactsAt(s, place)
  {
    var key := KeyOf(if page.params == [] then [] else page.params[0], ctx);
    if key in s.channels {
      PageAtKey(s.channels, key, place.key, page);
    } else if key in s.queries {
      PageAtKey(s.queries, key, place.key, page);
    }
    hide PageDone;
    hide AfterPage;
    hide Bare;
    hide Fold;
  }

  /** A BATCH command, on a state whose counts already include it. */
  function AfterBatch(s: Network, msg: Message, place: Place, ctx: Context): Option<Channel> {
    var before := FactsAt(s, place);
    if before.None? || msg.params == [] || msg.params[0] == [] then before
    else
      var r := msg.params[0][1..];
      if ClosesPage(s.batches, msg, r) && IsPageOf(s, s.batches[r], place, ctx)
      then Some(AfterPage(before.value, s.batches[r])) else before
  }

  lemma BatchFacts(s: Network, msg: Message, place: Place, ctx: Context)
    ensures FactsAt(BatchHandled(s, msg, ctx), place) == AfterBatch(s, msg, place, ctx)
  {
    hide LiveOldest;
    hide AfterPage;
    hide PageDone;
    hide HistoryDone;
    hide Batches.Marked;
    hide Batches.Closing;
    var mark := Batches.MarkOf(msg);
    var marked := s.(batches := Batches.Marked(s.batches, msg, LiveOldest(s, msg, ctx)));
    assert FactsAt(marked, place) == FactsAt(s, place);
    if mark.Closes? {
      Batches.MarksInWords(msg, mark.reference);
      assert msg.params[0][1..] == mark.reference;
      if mark.reference in s.batches {
        HistoryFacts(marked, s.batches[mark.reference], place, ctx);
      }
    } else if msg.params != [] && msg.params[0] != [] {
      Batches.MarksInWords(msg, msg.params[0][1..]);
    }
  }

  // ---------- Every message ----------

  /** What is known of a conversation after an unmuted message that is no BATCH command. */
  function FactsAfter(
      before: Option<Channel>, own: Text, msg: Message, place: Place, ctx: Context, now: int): Option<Channel>
  {
    match VerbFor(msg.command)
    case PrivmsgVerb | NoticeVerb => AfterSpeech(before, own, msg, place, ctx)
    case NamesVerb | NamesEndVerb => AfterReply(before, msg, place, ctx)
    case TopicReplyVerb | NoTopicVerb | TopicSetterVerb | ModeReplyVerb | DetailReplyVerb =>
      AfterReply(before, msg, place, ctx)
    case _ => AfterEvent(before, own, msg, place, ctx, now)
  }

  lemma DepartureFacts(s: Network, msg: Message, place: Place, ctx: Context, now: int)
    requires VerbFor(msg.command) in {PartVerb, KickVerb, ModeVerb}
    ensures FactsAt(Apply(s, msg, ctx, now).state, place) == AfterEvent(FactsAt(s, place), s.nick, msg, place, ctx, now)
  {
    PartFacts(s, msg, place, ctx, now);
    KickFacts(s, msg, place, ctx, now);
    ModeFacts(s, msg, place, ctx, now);
    hide VerbFor;
    hide FactsAt;
    hide AfterPart;
    hide AfterMode;
    hide Parted;
    hide Kicked;
    hide Moded;
  }

  lemma EventFacts(s: Network, msg: Message, place: Place, ctx: Context, now: int)
    requires VerbFor(msg.command) in {JoinVerb, PartVerb, KickVerb, TopicVerb, ModeVerb}
    ensures FactsAt(Apply(s, msg, ctx, now).state, place) == AfterEvent(FactsAt(s, place), s.nick, msg, place, ctx, now)
  {
    hide VerbFor;
    hide FactsAt;
    hide AfterEvent;
    hide Joined;
    hide Parted;
    hide Kicked;
    hide Moded;
    hide TopicSet;
    match VerbFor(msg.command)
    case JoinVerb => JoinFacts(s, msg, place, ctx, now);
    case PartVerb | KickVerb | ModeVerb => DepartureFacts(s, msg, place, ctx, now);
    case _ => TopicFacts(s, msg, place, ctx, now);
  }

  lemma OtherFacts(s: Network, msg: Message, place: Place, ctx: Context, now: int)
    requires VerbFor(msg.command) !in {JoinVerb, PartVerb, KickVerb, TopicVerb, ModeVerb, NamesVerb, NamesEndVerb,
                                       PrivmsgVerb, NoticeVerb}
    requires VerbFor(msg.command) !in {TopicReplyVerb, NoTopicVerb, TopicSetterVerb, ModeReplyVerb, DetailReplyVerb}
    ensures FactsAt(Apply(s, msg, ctx, now).state, place) == FactsAt(s, place)
    ensures AfterEvent(FactsAt(s, place), s.nick, msg, place, ctx, now) == FactsAt(s, place)
  {
    PeopleFacts(s, msg, place, ctx, now);
    HeardFacts(s, msg, place, ctx);
    StandingFacts(s, msg, place, ctx, now);
    hide VerbFor;
    hide FactsAt;
    hide Quitted;
    hide Renamed;
    hide Heard;
    hide WhoHeard;
    hide Welcomed;
    hide NickRefused;
    hide Standing;
  }

  lemma ApplyFacts(s: Network, msg: Message, place: Place, ctx: Context, now: int)
    ensures FactsAt(Apply(s, msg, ctx, now).state, place) == FactsAfter(FactsAt(s, place), s.nick, msg, place, ctx, now)
  {
    hide VerbFor;
    hide FactsAt;
    hide AfterEvent;
    hide AfterSpeech;
    hide AfterReply;
    hide Spoken;
    hide Named;
    hide NamesEnded;
    hide Replied;
    match VerbFor(msg.command)
    case JoinVerb | PartVerb | KickVerb | TopicVerb | ModeVerb => EventFacts(s, msg, place, ctx, now);
    case PrivmsgVerb | NoticeVerb => SpokenFacts(s, msg, place, ctx, now);
    case NamesVerb | NamesEndVerb => NamesFacts(s, msg, place, ctx);
    case TopicReplyVerb | NoTopicVerb | TopicSetterVerb | ModeReplyVerb | DetailReplyVerb =>
      ReplyFacts(s, msg, place, ctx);
    case _ => OtherFacts(s, msg, place, ctx, now);
  }

  lemma KeptFacts(before: Network, after: Network, place: Place)
    ensures FactsAt(KeepingBuffers(before, after), place) == FactsAt(after, place)
  {
  }

  lemma MutedHasPart(s: Network, msg: Message, ctx: Context, now: int)
    ensures Suppressed(s, msg, ctx, now) ==> PartFor(VerbFor(msg.command)).Some?
  {
    hide VerbFor;
    hide IsIgnored;
  }

  /**
    * Every message and every conversation. A mute holds back what is said, but
    * not what an event tells of a channel.
    */
  lemma FactsFollowMessages(s: Network, msg: Message, place: Place, ctx: Context, now: int)
    ensures FactsAt(Reduce(s, msg, ctx, now).state, place)
         == if VerbFor(msg.command).BatchVerb? then AfterBatch(Counted(s, msg, ctx, now), msg, place, ctx)
            else if Says(msg) && Muted(s, msg, ctx, now) then FactsAt(s, place)
            else FactsAfter(FactsAt(s, place), s.nick, msg, place, ctx, now)
  {
    hide VerbFor;
    hide Apply;
    hide BatchHandled;
    hide KeepingBuffers;
    hide Suppressed;
    hide Muted;
    hide At;
    hide Bare;
    hide FactsAfter;
    hide AfterBatch;
    hide Counted;
    var counted := Counted(s, msg, ctx, now);
    CountedIsAlike(s, msg, place, ctx, now);
    MutedHasPart(counted, msg, ctx, now);
    SuppressedInWords(counted, msg, ctx, now);
    ApplyFacts(counted, msg, place, ctx, now);
    BatchFacts(counted, msg, place, ctx);
    KeptFacts(counted, Apply(counted, msg, ctx, now).state, place);
    if VerbFor(msg.command) in {TagmsgVerb, InviteVerb} {
      SideFacts(s, msg, place, ctx, now);
    }
  }

  lemma SideFacts(s: Network, msg: Message, place: Place, ctx: Context, now: int)
    requires VerbFor(msg.command) in {TagmsgVerb, InviteVerb}
    ensures FactsAfter(FactsAt(s, place), s.nick, msg, place, ctx, now) == FactsAt(s, place)
  {
    hide VerbFor;
  }

  // ---------- The anchor of a page ----------

  /** The first line the server stamped. */
  predicate IsFirstStamped(lines: Buffer, i: nat) {
    i < |lines| && lines[i].fromServerTime && forall k | 0 <= k < i :: !lines[k].fromServerTime
  }

  lemma {:induction false} AnchorIsFirst(lines: Buffer, i: nat, from: nat)
    requires IsFirstStamped(lines, i) && from <= i
    ensures AnchorFrom(lines, from) == Some(lines[i].at)
    decreases i - from
  {
    if from < i {
      AnchorIsFirst(lines, i, from + 1);
    }
  }

  lemma {:induction false} NothingStamped(lines: Buffer, from: nat)
    requires from <= |lines| && forall k | from <= k < |lines| :: !lines[k].fromServerTime
    ensures AnchorFrom(lines, from) == None
    decreases |lines| - from
  {
    if from < |lines| {
      NothingStamped(lines, from + 1);
    }
  }

  /** What is noted when a page of history opens: the time of the first stamped line of the conversation it is about. */
  lemma AnchorInWords(s: Network, msg: Message, ctx: Context)
    ensures var key := Fold(Arg(msg, 2), ctx.support.caseMapping);
            var lines := Lines(s, Place(key in s.channels, key));
            && (!IsHistory(Arg(msg, 1)) ==> LiveOldest(s, msg, ctx) == None)
            && (IsHistory(Arg(msg, 1)) ==> forall i: nat | IsFirstStamped(lines, i) ::
                  LiveOldest(s, msg, ctx) == Some(lines[i].at))
            && ((forall k | 0 <= k < |lines| :: !lines[k].fromServerTime) ==> LiveOldest(s, msg, ctx) == None)
  {
    var key := Fold(Arg(msg, 2), ctx.support.caseMapping);
    var lines := Lines(s, Place(key in s.channels, key));
    assert IsHistory(Arg(msg, 1)) <==> IsHistoryKind(Arg(msg, 1));
    hide IsHistory;
    hide IsHistoryKind;
    forall i: nat | IsFirstStamped(lines, i) ensures AnchorFrom(lines, 0) == Some(lines[i].at) {
      AnchorIsFirst(lines, i, 0);
    }
    if forall k | 0 <= k < |lines| :: !lines[k].fromServerTime {
      NothingStamped(lines, 0);
    }
    hide AnchorFrom;
    hide IsFirstStamped;
  }

  /** Dates as the server writes them: seconds in decimal, as long as the milliseconds are a safe integer. */
  lemma DatesInWords(seconds: nat, raw: Text)
    ensures ToDate(Decimal(seconds))
         == if seconds * 1000 < 0x20_0000_0000_0000 then Some(seconds * 1000) else None
    ensures raw == [] || !AllDigits(raw) ==> ToDate(raw) == None
  {
    DecimalRoundTrip(seconds);
  }
}
