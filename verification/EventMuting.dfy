/**
  * Muting someone's joins, parts, quits, renames and mode changes hides lines
  * and nothing else: the world the client believes in is the one it would have
  * seen without the mute.
  */
module EventMuting {
  import opened Units
  import opened ISupport
  import opened Messages
  import opened Members
  import opened Modes
  import opened MuteList
  import opened MessageBuffer
  import opened NetworkState
  import opened Reducer
  import opened DccOffers
  import CtcpCodec
  import Batches

  // ---------- The world ----------

  /** Two conversations that differ at most in their buffers and in the gap derived from them. */
  predicate AlikeChannel(a: Channel, b: Channel) {
    a.(messages := [], historyGap := false) == b.(messages := [], historyGap := false)
  }

  predicate AlikeChannels(a: Channels, b: Channels) {
    a.Keys == b.Keys && forall k | k in a :: AlikeChannel(a[k], b[k])
  }

  /** The same open batches, up to the anchor read off a buffer. */
  predicate AlikeCounts(a: Batches.Counts, b: Batches.Counts) {
    a.Keys == b.Keys && forall r | r in a :: a[r].(liveOldest := None) == b[r].(liveOldest := None)
  }

  /** What remains of the state when conversations, notices, mute list and batches are set aside. */
  function Rest(s: Network): Network {
    s.(channels := map[], queries := map[], notices := [], ignores := [], batches := map[])
  }

  /**
    * The same world: nick, phase, refused nicks, modes, account and away state;
    * the same channels and queries, with the same members, topics, modes,
    * joined flags, NAMES bursts and pending pages; the same batches.
    */
  predicate SameWorld(a: Network, b: Network) {
    && Rest(a) == Rest(b)
    && AlikeChannels(a.channels, b.channels) && AlikeChannels(a.queries, b.queries)
    && AlikeCounts(a.batches, b.batches)
  }

  /** The same world, the same lines to send, the same effects. */
  predicate SameOutcome(a: Reduction, b: Reduction) {
    SameWorld(a.state, b.state) && a.send == b.send && a.effects == b.effects
  }

  // ---------- Conversations ----------

  lemma AlikeAdded(a: Channel, b: Channel, entryA: Entry, entryB: Entry)
    requires AlikeChannel(a, b)
    ensures AlikeChannel(Added(a, entryA), Added(b, entryB))
  {
    hide Insert;
  }

  lemma AlikePut(a: Channels, b: Channels, key: Text, channelA: Channel, channelB: Channel)
    requires AlikeChannels(a, b) && AlikeChannel(channelA, channelB)
    ensures AlikeChannels(a[key := channelA], b[key := channelB])
  {
  }

  lemma AlikeConversation(a: Network, b: Network, target: Text, ctx: Context)
    requires SameWorld(a, b)
    ensures AlikeChannel(Conversation(a, target, ctx), Conversation(b, target, ctx))
  {
    hide IsChannel;
  }

  lemma AlikeFiled(a: Network, b: Network, target: Text, channelA: Channel, channelB: Channel, ctx: Context)
    requires SameWorld(a, b) && AlikeChannel(channelA, channelB)
    ensures SameWorld(WithConversation(a, target, channelA, ctx), WithConversation(b, target, channelB, ctx))
  {
    var key := KeyOf(target, ctx);
    AlikePut(a.channels, b.channels, key, channelA, channelB);
    AlikePut(a.queries, b.queries, key, channelA, channelB);
    AlikeRekeyed(a, b, a.channels[key := channelA], b.channels[key := channelB]);
    AlikeRequeried(a, b, a.queries[key := channelA], b.queries[key := channelB]);
    hide SameWorld;
    hide IsChannel;
  }

  lemma AlikeRequeried(a: Network, b: Network, queriesA: Channels, queriesB: Channels)
    requires SameWorld(a, b) && AlikeChannels(queriesA, queriesB)
    ensures SameWorld(a.(queries := queriesA), b.(queries := queriesB))
  {
    hide AlikeChannels;
    hide AlikeCounts;
  }

  /** The same channel key, in a state whose channels have been replaced. */
  lemma AlikeRekeyed(a: Network, b: Network, channelsA: Channels, channelsB: Channels)
    requires SameWorld(a, b) && AlikeChannels(channelsA, channelsB)
    ensures SameWorld(a.(channels := channelsA), b.(channels := channelsB))
  {
    hide AlikeChannels;
    hide AlikeCounts;
  }

  lemma AlikeAmended(
      a: Channels, b: Channels, nick: Text, mapping: CaseMapping,
      amendA: Channel -> Channel, amendB: Channel -> Channel)
    requires AlikeChannels(a, b)
    requires forall k | k in a :: AlikeChannel(amendA(a[k]), amendB(b[k]))
    ensures AlikeChannels(AmendedWhere(a, nick, mapping, amendA), AmendedWhere(b, nick, mapping, amendB))
  {
  }

  // ---------- Commands ----------

  lemma SelfAlike(a: Network, b: Network, ctx: Context)
    requires SameWorld(a, b)
    ensures a.nick == b.nick && a.phase == b.phase && a.ctcpVersions == b.ctcpVersions && a.triedNicks == b.triedNicks
    ensures forall nick :: IsSelf(a, nick, ctx) == IsSelf(b, nick, ctx)
    ensures forall msg :: ConversationName(a, msg, ctx) == ConversationName(b, msg, ctx)
  {
    hide AlikeChannels;
    hide AlikeCounts;
    hide IsChannel;
  }

  lemma JoinAlike(a: Network, b: Network, msg: Message, ctx: Context, now: int)
    requires SameWorld(a, b)
    ensures SameWorld(Joined(a, msg, ctx, now), Joined(b, msg, ctx, now))
  {
    hide WithConversation;
    hide Conversation;
    hide BuildEntry;
    hide Insert;
    hide Upsert;
    hide AlikeChannels;
    hide AlikeCounts;
    var name := Arg(msg, 0);
    var x, y := Conversation(a, name, ctx), Conversation(b, name, ctx);
    AlikeConversation(a, b, name, ctx);
    AlikeFiled(a, b, name, JoinedChannel(a, x, msg, ctx, now), JoinedChannel(b, y, msg, ctx, now), ctx);
  }

  /** Putting an alike channel under the same key of both states. */
  lemma AlikeReplaced(a: Network, b: Network, key: Text, channelA: Channel, channelB: Channel)
    requires SameWorld(a, b) && AlikeChannel(channelA, channelB)
    ensures SameWorld(a.(channels := a.channels[key := channelA]), b.(channels := b.channels[key := channelB]))
  {
    hide AlikeChannel;
    hide AlikeCounts;
    AlikePut(a.channels, b.channels, key, channelA, channelB);
    AlikeRekeyed(a, b, a.channels[key := channelA], b.channels[key := channelB]);
  }

  lemma DepartedAlike(a: Channel, b: Channel, self: bool, nick: Text, ctx: Context)
    requires AlikeChannel(a, b)
    ensures AlikeChannel(Departed(a, self, nick, ctx), Departed(b, self, nick, ctx))
  {
  }

  lemma PartedChannelAlike(a: Network, b: Network, x: Channel, y: Channel, msg: Message, ctx: Context, now: int)
    requires SameWorld(a, b) && AlikeChannel(x, y)
    ensures AlikeChannel(PartedChannel(a, x, msg, ctx, now), PartedChannel(b, y, msg, ctx, now))
    ensures AlikeChannel(KickedChannel(a, x, msg, ctx, now), KickedChannel(b, y, msg, ctx, now))
  {
    hide SameWorld;
    hide AlikeChannel;
    hide Departed;
    hide Added;
    hide PartEntry;
    hide KickEntry;
    hide IsSelf;
    SelfAlike(a, b, ctx);
    forall self: bool, nick: Text, entry: Entry
      ensures AlikeChannel(Added(Departed(x, self, nick, ctx), entry), Added(Departed(y, self, nick, ctx), entry))
    {
      DepartedAlike(x, y, self, nick, ctx);
      AlikeAdded(Departed(x, self, nick, ctx), Departed(y, self, nick, ctx), entry, entry);
    }
  }

  lemma PartAlike(a: Network, b: Network, msg: Message, ctx: Context, now: int)
    requires SameWorld(a, b)
    ensures SameWorld(Parted(a, msg, ctx, now), Parted(b, msg, ctx, now))
    ensures SameWorld(Kicked(a, msg, ctx, now), Kicked(b, msg, ctx, now))
  {
    hide PartedChannel;
    hide KickedChannel;
    hide AlikeChannel;
    hide AlikeCounts;
    var key := KeyOf(Arg(msg, 0), ctx);
    if key in a.channels {
      var x, y := a.channels[key], b.channels[key];
      PartedChannelAlike(a, b, x, y, msg, ctx, now);
      AlikeReplaced(a, b, key, PartedChannel(a, x, msg, ctx, now), PartedChannel(b, y, msg, ctx, now));
      AlikeReplaced(a, b, key, KickedChannel(a, x, msg, ctx, now), KickedChannel(b, y, msg, ctx, now));
    }
  }

  lemma QuitAlike(a: Network, b: Network, msg: Message, ctx: Context, now: int)
    requires SameWorld(a, b)
    ensures SameWorld(Quitted(a, msg, ctx, now), Quitted(b, msg, ctx, now))
  {
    hide BuildEntry;
    hide Insert;
    hide AmendedWhere;
    hide AlikeCounts;
    var quit := (c: Channel) => QuitChannel(c, msg, ctx, now);
    AlikeAmended(a.channels, b.channels, SenderOf(msg), MapOf(ctx), quit, quit);
  }

  lemma NickAlike(a: Network, b: Network, msg: Message, ctx: Context, now: int)
    requires SameWorld(a, b)
    ensures SameWorld(Renamed(a, msg, ctx, now), Renamed(b, msg, ctx, now))
  {
    hide BuildEntry;
    hide Insert;
    hide AmendedWhere;
    hide AlikeCounts;
    var rename := (c: Channel) => RenamedChannel(c, msg, ctx, now);
    AlikeAmended(a.channels, b.channels, SenderOf(msg), MapOf(ctx), rename, rename);
  }

  lemma HeardAlike(a: Network, b: Network, msg: Message, ctx: Context)
    requires SameWorld(a, b)
    ensures SameWorld(Heard(a, msg, ctx), Heard(b, msg, ctx))
  {
    hide VerbFor;
    hide NewsOf;
    hide AmendedWhere;
    hide AlikeCounts;
    var nick, update := SenderOf(msg), NewsOf(msg);
    var hear := (c: Channel) => c.(members := Upsert(c.members, nick, MapOf(ctx), update));
    AlikeAmended(a.channels, b.channels, nick, MapOf(ctx), hear, hear);
  }

  lemma ModedChannelsAlike(a: Channel, b: Channel, msg: Message, ctx: Context, now: int)
    requires AlikeChannel(a, b)
    ensures AlikeChannel(ModedChannel(a, msg, ctx, now), ModedChannel(b, msg, ctx, now))
    ensures AlikeChannel(TopicChannel(a, msg, ctx, now), TopicChannel(b, msg, ctx, now))
  {
    hide BuildEntry;
    hide Insert;
    hide ModeChanges;
    hide PrefixKindOnly;
    hide PrefixesChanged;
    hide ApplyModes;
    hide TimeOf;
  }

  lemma UserModesAlike(a: Network, b: Network, modes: set<Unit>)
    requires SameWorld(a, b)
    ensures SameWorld(a.(userModes := modes), b.(userModes := modes)) && a.userModes == b.userModes
  {
    hide AlikeChannels;
    hide AlikeCounts;
  }

  lemma ModeAlike(a: Network, b: Network, msg: Message, ctx: Context, now: int)
    requires SameWorld(a, b)
    ensures SameWorld(Moded(a, msg, ctx, now), Moded(b, msg, ctx, now))
    ensures SameWorld(TopicSet(a, msg, ctx, now), TopicSet(b, msg, ctx, now))
  {
    var key := KeyOf(Arg(msg, 0), ctx);
    assert a.channels.Keys == b.channels.Keys;
    assert key in a.channels ==> AlikeChannel(a.channels[key], b.channels[key]);
    hide SameWorld;
    hide ModedChannel;
    hide TopicChannel;
    hide UserModesAfter;
    hide IsChannel;
    hide AlikeChannel;
    UserModesAlike(a, b, UserModesAfter(a.userModes, Arg(msg, 1), true));
    if key in a.channels {
      var x, y := a.channels[key], b.channels[key];
      ModedChannelsAlike(x, y, msg, ctx, now);
      AlikeReplaced(a, b, key, ModedChannel(x, msg, ctx, now), ModedChannel(y, msg, ctx, now));
      AlikeReplaced(a, b, key, TopicChannel(x, msg, ctx, now), TopicChannel(y, msg, ctx, now));
    }
  }

  lemma NamesAlike(a: Network, b: Network, msg: Message, ctx: Context)
    requires SameWorld(a, b)
    ensures SameWorld(Named(a, msg, ctx), Named(b, msg, ctx))
  {
    hide WithConversation;
    hide Conversation;
    hide NamesEntries;
    hide EntriesListed;
    hide AlikeChannels;
    hide AlikeCounts;
    var name, entries := Arg(msg, 2), NamesEntries(msg, ctx);
    var x, y := Conversation(a, name, ctx), Conversation(b, name, ctx);
    AlikeConversation(a, b, name, ctx);
    AlikeFiled(a, b, name, NamesChannel(x, name, entries, ctx), NamesChannel(y, name, entries, ctx), ctx);
  }

  lemma NamesEndAlike(a: Network, b: Network, msg: Message, ctx: Context)
    requires SameWorld(a, b)
    ensures SameWorld(NamesEnded(a, msg, ctx), NamesEnded(b, msg, ctx))
  {
    hide WithConversation;
    hide Conversation;
    hide PrefixesChanged;
    hide AlikeChannels;
    hide AlikeCounts;
    var name := Arg(msg, 1);
    var x, y := Conversation(a, name, ctx), Conversation(b, name, ctx);
    AlikeConversation(a, b, name, ctx);
    AlikeFiled(a, b, name, NamesEndChannel(x, name, ctx), NamesEndChannel(y, name, ctx), ctx);
  }

  lemma NoticedAlike(a: Network, b: Network, entryA: Entry, entryB: Entry, versions: map<Text, Text>)
    requires SameWorld(a, b)
    ensures SameWorld(Noticed(a, entryA), Noticed(b, entryB))
    ensures SameWorld(Noticed(a, entryA).(ctcpVersions := versions), Noticed(b, entryB).(ctcpVersions := versions))
  {
    hide AlikeChannels;
    hide AlikeCounts;
  }

  lemma CtcpAlike(a: Network, b: Network, ctcp: CtcpCodec.Ctcp, msg: Message, ctx: Context, now: int)
    requires SameWorld(a, b)
    ensures SameOutcome(CtcpTaken(a, ctcp, msg, ctx, now), CtcpTaken(b, ctcp, msg, ctx, now))
  {
    SelfAlike(a, b, ctx);
    var sender := SenderOf(msg);
    var notice := BuildEntry(msg, ServerLine, ConversationName(a, msg, ctx), ctx.wording(msg), ctx, now);
    hide SameWorld;
    hide BuildEntry;
    hide VerbFor;
    hide IsDccSendOffer;
    hide ReplyLine;
    hide ParseDccSend;
    hide ConversationName;
    hide SenderOf;
    hide KeyOf;
    hide Noticed;
    NoticedAlike(a, b, notice, notice, a.ctcpVersions);
    NoticedAlike(a, b, notice, notice, a.ctcpVersions[KeyOf(sender, ctx) := ctcp.params]);
  }

  lemma LineAlike(a: Network, b: Network, msg: Message, ctx: Context, now: int)
    requires SameWorld(a, b)
    ensures SameOutcome(LineTaken(a, msg, ctx, now), LineTaken(b, msg, ctx, now))
  {
    hide WithConversation;
    hide Conversation;
    hide BuildEntry;
    hide Insert;
    hide Reconcile;
    hide CtcpCodec.DecodeAction;
    hide VerbFor;
    hide IsChannel;
    hide AlikeChannels;
    hide AlikeCounts;
    var conversation := ConversationName(a, msg, ctx);
    AlikeConversation(a, b, conversation, ctx);
    var x, y := Conversation(a, conversation, ctx), Conversation(b, conversation, ctx);
    forall entry: Entry
      ensures SameWorld(WithConversation(a, conversation, Added(x, entry), ctx),
                        WithConversation(b, conversation, Added(y, entry), ctx))
      ensures SameWorld(
        WithConversation(a, conversation, x.(name := conversation, messages := Reconcile(x.messages, entry)), ctx),
        WithConversation(b, conversation, y.(name := conversation, messages := Reconcile(y.messages, entry)), ctx))
    {
      AlikeFiled(a, b, conversation, Added(x, entry), Added(y, entry), ctx);
      AlikeFiled(a, b, conversation,
        x.(name := conversation, messages := Reconcile(x.messages, entry)),
        y.(name := conversation, messages := Reconcile(y.messages, entry)), ctx);
    }
  }

  lemma SpokenAlike(a: Network, b: Network, msg: Message, ctx: Context, now: int)
    requires SameWorld(a, b)
    ensures SameOutcome(Spoken(a, msg, ctx, now), Spoken(b, msg, ctx, now))
  {
    hide BuildEntry;
    hide VerbFor;
    hide CtcpTaken;
    hide LineTaken;
    hide IsServerNotice;
    hide IsChannel;
    hide CtcpCodec.DecodeAction;
    hide CtcpCodec.Decode;
    hide AlikeChannels;
    hide AlikeCounts;
    var ctcp := CtcpIn(a, msg, ctx);
    assert ctcp == CtcpIn(b, msg, ctx);
    if ctcp.Some? {
      CtcpAlike(a, b, ctcp.value, msg, ctx, now);
    }
    LineAlike(a, b, msg, ctx, now);
  }

  lemma RepliedChannelAlike(a: Channel, b: Channel, msg: Message, ctx: Context)
    requires AlikeChannel(a, b)
    ensures AlikeChannel(RepliedChannel(a, msg, ctx), RepliedChannel(b, msg, ctx))
  {
    hide RepliedTopic;
    hide RepliedModes;
  }

  lemma ReplyAlike(a: Network, b: Network, msg: Message, ctx: Context)
    requires SameWorld(a, b)
    ensures SameWorld(Replied(a, msg, ctx), Replied(b, msg, ctx))
  {
    hide SameWorld;
    hide AlikeChannel;
    hide WithConversation;
    hide Conversation;
    hide RepliedChannel;
    var name := Arg(msg, 1);
    var x, y := Conversation(a, name, ctx), Conversation(b, name, ctx);
    AlikeConversation(a, b, name, ctx);
    RepliedChannelAlike(x, y, msg, ctx);
    AlikeFiled(a, b, name, RepliedChannel(x, msg, ctx), RepliedChannel(y, msg, ctx), ctx);
  }

  lemma WhoAlike(a: Network, b: Network, msg: Message, ctx: Context)
    requires SameWorld(a, b)
    ensures SameWorld(WhoHeard(a, msg, ctx), WhoHeard(b, msg, ctx))
  {
    var key, nick, details := KeyOf(Arg(msg, 1), ctx), Arg(msg, 5), WhoDetails(msg, ctx);
    var hear := (c: Channel) => c.(members := Upsert(c.members, nick, MapOf(ctx), details));
    AlikeAmended(a.channels, b.channels, nick, MapOf(ctx), hear, hear);
    AlikeRekeyed(a, b, AmendedWhere(a.channels, nick, MapOf(ctx), hear),
                 AmendedWhere(b.channels, nick, MapOf(ctx), hear));
    hide AmendedWhere;
    hide AlikeCounts;
    hide WhoDetails;
    if key in a.channels {
      assert AlikeChannel(a.channels[key], b.channels[key]);
      AlikeReplaced(a, b, key, hear(a.channels[key]), hear(b.channels[key]));
    }
  }

  lemma StandingAlike(a: Network, b: Network, msg: Message, ctx: Context, now: int)
    requires SameWorld(a, b)
    ensures SameOutcome(Standing(a, msg, ctx, now), Standing(b, msg, ctx, now))
  {
    hide VerbFor;
    hide PartingWords;
    hide PhaseAfter;
    hide AccountAfter;
    hide AlikeChannels;
    hide AlikeCounts;
  }

  lemma WelcomeAlike(a: Network, b: Network, msg: Message)
    requires SameWorld(a, b)
    ensures SameWorld(Welcomed(a, msg), Welcomed(b, msg))
  {
    hide AlikeChannels;
    hide AlikeCounts;
  }

  lemma RetriedAlike(a: Network, b: Network, entry: Entry, next: Text, tried: seq<Text>)
    requires SameWorld(a, b)
    ensures SameWorld(Noticed(a, entry).(nick := next, triedNicks := tried),
                      Noticed(b, entry).(nick := next, triedNicks := tried))
  {
    hide AlikeChannels;
    hide AlikeCounts;
  }

  lemma RefusalAlike(a: Network, b: Network, msg: Message, ctx: Context, now: int)
    requires SameWorld(a, b)
    ensures SameOutcome(NickRefused(a, msg, ctx, now), NickRefused(b, msg, ctx, now))
  {
    SelfAlike(a, b, ctx);
    assert NextNick(a, ctx) == NextNick(b, ctx);
    hide SameWorld;
    hide BuildEntry;
    hide NextNick;
    hide Noticed;
    var next := NextNick(a, ctx);
    var text := ctx.wording(msg) + Ascii(" Trying ") + next + [DOT];
    var refused := BuildEntry(msg, ErrorLine, [], ctx.wording(msg), ctx, now);
    NoticedAlike(a, b, refused, refused, map[]);
    RetriedAlike(a, b, BuildEntry(msg, ServerLine, [], text, ctx, now), next, a.triedNicks + [next]);
  }

  /** A command does to the same world the same thing. */
  lemma ApplyAlike(a: Network, b: Network, msg: Message, ctx: Context, now: int)
    requires SameWorld(a, b)
    ensures SameOutcome(Apply(a, msg, ctx, now), Apply(b, msg, ctx, now))
  {
    hide SameWorld;
    hide VerbFor;
    hide Joined;
    hide Parted;
    hide Quitted;
    hide Renamed;
    hide Kicked;
    hide Moded;
    hide TopicSet;
    hide Spoken;
    hide Heard;
    hide Named;
    hide NamesEnded;
    hide Welcomed;
    hide NickRefused;
    hide Replied;
    hide WhoHeard;
    hide Standing;
    JoinAlike(a, b, msg, ctx, now);
    PartAlike(a, b, msg, ctx, now);
    QuitAlike(a, b, msg, ctx, now);
    NickAlike(a, b, msg, ctx, now);
    ModeAlike(a, b, msg, ctx, now);
    SpokenAlike(a, b, msg, ctx, now);
    HeardAlike(a, b, msg, ctx);
    NamesAlike(a, b, msg, ctx);
    NamesEndAlike(a, b, msg, ctx);
    ReplyAlike(a, b, msg, ctx);
    WhoAlike(a, b, msg, ctx);
    StandingAlike(a, b, msg, ctx, now);
    WelcomeAlike(a, b, msg);
    RefusalAlike(a, b, msg, ctx, now);
  }

  // ---------- Batches ----------

  lemma PageAlike(a: Channel, b: Channel, batchA: Batches.Count, batchB: Batches.Count)
    requires AlikeChannel(a, b) && batchA.(liveOldest := None) == batchB.(liveOldest := None)
    ensures AlikeChannel(PageDone(a, batchA), PageDone(b, batchB))
  {
  }

  lemma HistoryAlike(a: Network, b: Network, target: Text, batchA: Batches.Count, batchB: Batches.Count, ctx: Context)
    requires SameWorld(a, b) && batchA.(liveOldest := None) == batchB.(liveOldest := None)
    ensures SameWorld(HistoryDone(a, target, batchA, ctx), HistoryDone(b, target, batchB, ctx))
  {
    hide AlikeChannel;
    hide PageDone;
    hide AlikeCounts;
    var key := KeyOf(target, ctx);
    if key in a.channels {
      PageAlike(a.channels[key], b.channels[key], batchA, batchB);
      AlikePut(a.channels, b.channels, key, PageDone(a.channels[key], batchA), PageDone(b.channels[key], batchB));
    } else if key in a.queries {
      PageAlike(a.queries[key], b.queries[key], batchA, batchB);
      AlikePut(a.queries, b.queries, key, PageDone(a.queries[key], batchA), PageDone(b.queries[key], batchB));
    }
  }

  lemma MarkedAlike(a: Batches.Counts, b: Batches.Counts, msg: Message, liveA: Option<int>, liveB: Option<int>)
    requires AlikeCounts(a, b)
    ensures AlikeCounts(Batches.Marked(a, msg, liveA), Batches.Marked(b, msg, liveB))
  {
    hide Batches.MarkOf;
  }

  lemma BatchAlike(a: Network, b: Network, msg: Message, ctx: Context)
    requires SameWorld(a, b)
    ensures SameWorld(BatchHandled(a, msg, ctx), BatchHandled(b, msg, ctx))
  {
    hide LiveOldest;
    hide HistoryDone;
    hide IsHistoryKind;
    hide Batches.Marked;
    hide Batches.MarkOf;
    hide AlikeChannels;
    MarkedAlike(a.batches, b.batches, msg, LiveOldest(a, msg, ctx), LiveOldest(b, msg, ctx));
    var x := a.(batches := Batches.Marked(a.batches, msg, LiveOldest(a, msg, ctx)));
    var y := b.(batches := Batches.Marked(b.batches, msg, LiveOldest(b, msg, ctx)));
    assert SameWorld(x, y);
    match Batches.MarkOf(msg)
    case Closes(r) =>
      if r in a.batches {
        HistoryAlike(x, y, if a.batches[r].params == [] then [] else a.batches[r].params[0],
                     a.batches[r], b.batches[r], ctx);
      }
    case _ =>
  }

  lemma CountedAlike(a: Network, b: Network, msg: Message, ctx: Context, now: int)
    requires SameWorld(a, b)
    ensures SameWorld(Counted(a, msg, ctx, now), Counted(b, msg, ctx, now))
  {
    hide TimeOf;
    hide AlikeChannels;
    hide Batches.Earlier;
    hide Batches.Later;
    hide Batches.Enclosing;
  }

  // ---------- Muting ----------

  lemma BuffersAlike(before: Channels, after: Channels)
    ensures AlikeChannels(BuffersOf(before, after), after)
  {
  }

  /** Taking the lines back out leaves the world alone. */
  lemma KeptAlike(before: Network, after: Network)
    ensures SameWorld(KeepingBuffers(before, after), after)
  {
    hide AlikeChannels;
    hide BuffersOf;
    BuffersAlike(before.channels, after.channels);
    BuffersAlike(before.queries, after.queries);
  }

  lemma AlikeTransitive(a: Network, b: Network, c: Network)
    requires SameWorld(a, b) && SameWorld(b, c)
    ensures SameWorld(a, c)
  {
  }

  /** With rules that cover events only, a message that is muted is an event. */
  lemma MutedIsEvent(s: Network, msg: Message, ctx: Context, now: int)
    requires EventsOnly(s.ignores) && Suppressed(s, msg, ctx, now)
    ensures PartFor(VerbFor(msg.command)) == Some(EventsPart)
  {
    hide VerbFor;
    hide Glob;
    hide CompleteMask;
    hide HostmaskOf;
    hide IsSelf;
  }

  /** One message, reduced as it would be without a mute list. */
  function ReduceOpenly(s: Network, msg: Message, ctx: Context, now: int): Reduction {
    var counted := Counted(s, msg, ctx, now);
    if VerbFor(msg.command).BatchVerb? then Quiet(BatchHandled(counted, msg, ctx)) else Apply(counted, msg, ctx, now)
  }

  lemma ReduceIsOpen(s: Network, msg: Message, ctx: Context, now: int)
    requires EventsOnly(s.ignores)
    ensures SameOutcome(Reduce(s, msg, ctx, now), ReduceOpenly(s, msg, ctx, now))
  {
    hide AlikeChannels;
    hide AlikeCounts;
    hide BatchHandled;
    hide Apply;
    hide KeepingBuffers;
    hide Suppressed;
    hide PartFor;
    hide VerbFor;
    hide TimeOf;
    hide Batches.Recorded;
    var counted := Counted(s, msg, ctx, now);
    AlikeSelf(BatchHandled(counted, msg, ctx));
    AlikeSelf(Apply(counted, msg, ctx, now).state);
    KeptAlike(counted, Apply(counted, msg, ctx, now).state);
    if Suppressed(counted, msg, ctx, now) {
      MutedIsEvent(counted, msg, ctx, now);
    }
  }

  lemma AlikeSelf(s: Network)
    ensures SameWorld(s, s)
  {
  }

  lemma OpenAlike(a: Network, b: Network, msg: Message, ctx: Context, now: int)
    requires SameWorld(a, b)
    ensures SameOutcome(ReduceOpenly(a, msg, ctx, now), ReduceOpenly(b, msg, ctx, now))
  {
    hide SameWorld;
    hide BatchHandled;
    hide Apply;
    hide Counted;
    hide VerbFor;
    CountedAlike(a, b, msg, ctx, now);
    BatchAlike(Counted(a, msg, ctx, now), Counted(b, msg, ctx, now), msg, ctx);
    ApplyAlike(Counted(a, msg, ctx, now), Counted(b, msg, ctx, now), msg, ctx, now);
  }

  /** One message, in the same world, under any two mute lists that cover events only. */
  lemma StepAlike(a: Network, b: Network, msg: Message, ctx: Context, now: int)
    requires SameWorld(a, b) && EventsOnly(a.ignores) && EventsOnly(b.ignores)
    ensures SameOutcome(Reduce(a, msg, ctx, now), Reduce(b, msg, ctx, now))
  {
    hide SameWorld;
    hide Reduce;
    hide ReduceOpenly;
    var x, y := ReduceOpenly(a, msg, ctx, now), ReduceOpenly(b, msg, ctx, now);
    ReduceIsOpen(a, msg, ctx, now);
    ReduceIsOpen(b, msg, ctx, now);
    OpenAlike(a, b, msg, ctx, now);
    AlikeSymmetric(Reduce(b, msg, ctx, now).state, y.state);
    AlikeTransitive(Reduce(a, msg, ctx, now).state, x.state, y.state);
    AlikeTransitive(Reduce(a, msg, ctx, now).state, y.state, Reduce(b, msg, ctx, now).state);
  }

  lemma AlikeSymmetric(a: Network, b: Network)
    requires SameWorld(a, b)
    ensures SameWorld(b, a)
  {
  }

  lemma ReduceKeepsRules(s: Network, msg: Message, ctx: Context, now: int)
    ensures Reduce(s, msg, ctx, now).state.ignores == s.ignores
  {
    hide Apply;
    hide Suppressed;
    hide PartFor;
    hide VerbFor;
    hide LiveOldest;
    hide PageDone;
    hide BuffersOf;
    hide Batches.MarkOf;
    hide Batches.Marked;
    hide TimeOf;
    ApplyFrame(Counted(s, msg, ctx, now), msg, ctx, now);
  }

  /**
    * Muting events never changes the world. The same messages are reduced twice
    * from the same state, under any two mute lists that cover events only - one
    * of them empty, say. After every run the two are in the same world, and the
    * next message sends the same lines and raises the same effects in both.
    */
  lemma {:induction false} MutingEventsKeepsTheWorld(
      s: Network, rules: seq<Rule>, others: seq<Rule>, arrivals: seq<Arrived>, next: Arrived, ctx: Context)
    requires EventsOnly(rules) && EventsOnly(others)
    ensures var a := ReduceAll(s.(ignores := rules), arrivals, ctx);
            var b := ReduceAll(s.(ignores := others), arrivals, ctx);
            && a.ignores == rules && b.ignores == others && SameWorld(a, b)
            && SameOutcome(Reduce(a, next.msg, ctx, next.now), Reduce(b, next.msg, ctx, next.now))
    decreases |arrivals|
  {
    hide Reduce;
    hide EventsOnly;
    var a := ReduceAll(s.(ignores := rules), arrivals, ctx);
    var b := ReduceAll(s.(ignores := others), arrivals, ctx);
    if arrivals != [] {
      var last, before := arrivals[|arrivals| - 1], arrivals[..|arrivals| - 1];
      MutingEventsKeepsTheWorld(s, rules, others, before, last, ctx);
      ReduceKeepsRules(ReduceAll(s.(ignores := rules), before, ctx), last.msg, ctx, last.now);
      ReduceKeepsRules(ReduceAll(s.(ignores := others), before, ctx), last.msg, ctx, last.now);
    }
    StepAlike(a, b, next.msg, ctx, next.now);
  }

  /**
    * What it does change: a muted event adds no line anywhere. Every buffer that
    * was there is as it was, and a conversation the event created has none.
    */
  lemma MutedEventAddsNoLine(s: Network, msg: Message, ctx: Context, now: int)
    requires PartFor(VerbFor(msg.command)) == Some(EventsPart) && Suppressed(Counted(s, msg, ctx, now), msg, ctx, now)
    ensures var t := Reduce(s, msg, ctx, now).state;
            && t.notices == s.notices
            && (forall k | k in t.channels ::
                  t.channels[k].messages == if k in s.channels then s.channels[k].messages else [])
            && (forall k | k in t.queries ::
                  t.queries[k].messages == if k in s.queries then s.queries[k].messages else [])
  {
    hide Reduce;
    hide Counted;
    hide KeepingBuffers;
    CountedBuffers(s, msg, ctx, now);
    MutedEventIsKept(s, msg, ctx, now);
    KeptBuffers(Counted(s, msg, ctx, now), Apply(Counted(s, msg, ctx, now), msg, ctx, now).state);
  }

  lemma MutedEventIsKept(s: Network, msg: Message, ctx: Context, now: int)
    requires PartFor(VerbFor(msg.command)) == Some(EventsPart) && Suppressed(Counted(s, msg, ctx, now), msg, ctx, now)
    ensures var counted := Counted(s, msg, ctx, now);
            Reduce(s, msg, ctx, now).state == KeepingBuffers(counted, Apply(counted, msg, ctx, now).state)
  {
    hide Apply;
    hide VerbFor;
    hide Suppressed;
    hide Counted;
    hide KeepingBuffers;
    hide BatchHandled;
  }

  lemma CountedBuffers(s: Network, msg: Message, ctx: Context, now: int)
    ensures var t := Counted(s, msg, ctx, now);
            t.notices == s.notices && t.channels == s.channels && t.queries == s.queries
  {
  }

  lemma KeptBuffers(before: Network, after: Network)
    ensures var t := KeepingBuffers(before, after);
            && t.notices == before.notices
            && (forall k | k in t.channels ::
                  t.channels[k].messages == if k in before.channels then before.channels[k].messages else [])
            && (forall k | k in t.queries ::
                  t.queries[k].messages == if k in before.queries then before.queries[k].messages else [])
  {
  }
}
