/** What every run of the reducer keeps, whatever the messages are. */
module ReducerInvariants {
  import opened Units
  import opened ISupport
  import opened CaseFolding
  import opened Messages
  import opened Members
  import opened Modes
  import opened MuteList
  import opened MessageBuffer
  import opened NetworkState
  import opened Reducer
  import Batches
  import CtcpCodec

  /** No two entries share an id, and the buffer is within its limit. */
  ghost predicate SoundBuffer(buffer: Buffer) {
    DistinctIds(buffer) && |buffer| <= MESSAGE_LIMIT
  }

  /**
    * A conversation under its own key, its members under theirs, a sound buffer,
    * and changes waiting to be replayed only while NAMES is streaming.
    */
  ghost predicate SoundChannel(key: Text, channel: Channel, mapping: CaseMapping) {
    && key == Fold(channel.name, mapping)
    && Keyed(channel.members, mapping)
    && SoundBuffer(channel.messages)
    && (!channel.namesLoading ==> channel.pendingPrefixChanges == [])
  }

  ghost predicate SoundChannels(channels: Channels, mapping: CaseMapping) {
    forall k | k in channels :: SoundChannel(k, channels[k], mapping)
  }

  ghost predicate Sound(s: Network, ctx: Context) {
    SoundChannels(s.channels, MapOf(ctx)) && SoundChannels(s.queries, MapOf(ctx))
  }

  // ---------- Member lists ----------

  lemma {:induction false} PrefixesChangedKeyed(members: MemberMap, changes: seq<ModeChange>, ctx: Context)
    requires Keyed(members, MapOf(ctx))
    ensures Keyed(PrefixesChanged(members, changes, ctx), MapOf(ctx))
    decreases |changes|
  {
    if changes == [] {
    } else {
      PrefixesChangedKeyed(PrefixChanged(members, changes[0], ctx), changes[1..], ctx);
    }
  }

  lemma {:induction false} EntriesListedKeyed(members: MemberMap, entries: seq<NamesEntry>, ctx: Context)
    requires Keyed(members, MapOf(ctx))
    ensures Keyed(EntriesListed(members, entries, ctx), MapOf(ctx))
    decreases |entries|
  {
    if entries == [] {
    } else {
      EntriesListedKeyed(EntryListed(members, entries[0], ctx), entries[1..], ctx);
    }
  }

  // ---------- One channel ----------

  lemma AddedSound(key: Text, channel: Channel, entry: Entry, mapping: CaseMapping)
    requires SoundChannel(key, channel, mapping)
    ensures SoundChannel(key, Added(channel, entry), mapping)
  {
    InsertKeepsIds(channel.messages, entry, MESSAGE_LIMIT);
  }

  lemma ConversationSound(s: Network, target: Text, ctx: Context)
    requires Sound(s, ctx)
    ensures SoundChannel(KeyOf(target, ctx), Conversation(s, target, ctx), MapOf(ctx))
  {
  }

  /** Putting a sound conversation under its key. */
  lemma PutSound(channels: Channels, key: Text, channel: Channel, mapping: CaseMapping)
    requires SoundChannels(channels, mapping) && SoundChannel(key, channel, mapping)
    ensures SoundChannels(channels[key := channel], mapping)
  {
  }

  // ---------- One command ----------

  lemma FiledSound(s: Network, target: Text, channel: Channel, ctx: Context)
    requires Sound(s, ctx) && SoundChannel(KeyOf(target, ctx), channel, MapOf(ctx))
    ensures Sound(WithConversation(s, target, channel, ctx), ctx)
  {
    PutSound(s.channels, KeyOf(target, ctx), channel, MapOf(ctx));
    PutSound(s.queries, KeyOf(target, ctx), channel, MapOf(ctx));
  }

  lemma AnyAddedSound(key: Text, channel: Channel, mapping: CaseMapping)
    requires SoundChannel(key, channel, mapping)
    ensures forall entry :: SoundChannel(key, Added(channel, entry), mapping)
  {
    forall entry ensures SoundChannel(key, Added(channel, entry), mapping) {
      AddedSound(key, channel, entry, mapping);
    }
  }

  lemma JoinedChannelSound(s: Network, channel: Channel, msg: Message, ctx: Context, now: int)
    requires SoundChannel(KeyOf(Arg(msg, 0), ctx), channel, MapOf(ctx))
    ensures SoundChannel(KeyOf(Arg(msg, 0), ctx), JoinedChannel(s, channel, msg, ctx, now), MapOf(ctx))
  {
    hide Added;
    hide BuildEntry;
    hide SoundBuffer;
    var name, nick := Arg(msg, 0), SenderOf(msg);
    AnyAddedSound(KeyOf(name, ctx),
      channel.(name := name, joined := IsSelf(s, nick, ctx) || channel.joined,
               members := Upsert(channel.members, nick, MapOf(ctx), ArrivalOf(msg))), MapOf(ctx));
  }

  lemma JoinSound(s: Network, msg: Message, ctx: Context, now: int)
    requires Sound(s, ctx)
    ensures Sound(Joined(s, msg, ctx, now), ctx)
  {
    hide Sound;
    hide SoundChannel;
    hide JoinedChannel;
    hide WithConversation;
    hide Conversation;
    var channel := Conversation(s, Arg(msg, 0), ctx);
    ConversationSound(s, Arg(msg, 0), ctx);
    JoinedChannelSound(s, channel, msg, ctx, now);
    FiledSound(s, Arg(msg, 0), JoinedChannel(s, channel, msg, ctx, now), ctx);
  }

  lemma DepartureSound(key: Text, channel: Channel, self: bool, nick: Text, ctx: Context)
    requires SoundChannel(key, channel, MapOf(ctx))
    ensures forall entry :: SoundChannel(key, Added(Departed(channel, self, nick, ctx), entry), MapOf(ctx))
  {
    AnyAddedSound(key, Departed(channel, self, nick, ctx), MapOf(ctx));
  }

  lemma PartSound(s: Network, msg: Message, ctx: Context, now: int)
    requires Sound(s, ctx)
    ensures Sound(Parted(s, msg, ctx, now), ctx)
  {
    hide SoundChannel;
    hide Added;
    hide Departed;
    hide PartEntry;
    var key := KeyOf(Arg(msg, 0), ctx);
    if key in s.channels {
      DepartureSound(key, s.channels[key], IsSelf(s, SenderOf(msg), ctx), SenderOf(msg), ctx);
      PutSound(s.channels, key, PartedChannel(s, s.channels[key], msg, ctx, now), MapOf(ctx));
    }
  }

  lemma KickSound(s: Network, msg: Message, ctx: Context, now: int)
    requires Sound(s, ctx)
    ensures Sound(Kicked(s, msg, ctx, now), ctx)
  {
    hide SoundChannel;
    hide Added;
    hide Departed;
    hide KickEntry;
    var key := KeyOf(Arg(msg, 0), ctx);
    if key in s.channels {
      DepartureSound(key, s.channels[key], IsSelf(s, Arg(msg, 1), ctx), Arg(msg, 1), ctx);
      PutSound(s.channels, key, KickedChannel(s, s.channels[key], msg, ctx, now), MapOf(ctx));
    }
  }

  lemma QuitSound(s: Network, msg: Message, ctx: Context, now: int)
    requires Sound(s, ctx)
    ensures Sound(Quitted(s, msg, ctx, now), ctx)
  {
    forall k | k in s.channels
      ensures SoundChannel(k, QuitChannel(s.channels[k], msg, ctx, now), MapOf(ctx))
    {
      var left := s.channels[k].(members := Remove(s.channels[k].members, SenderOf(msg), MapOf(ctx)));
      forall entry ensures SoundChannel(k, Added(left, entry), MapOf(ctx)) {
        AddedSound(k, left, entry, MapOf(ctx));
      }
    }
  }

  lemma NickSound(s: Network, msg: Message, ctx: Context, now: int)
    requires Sound(s, ctx)
    ensures Sound(Renamed(s, msg, ctx, now), ctx)
  {
    forall k | k in s.channels
      ensures SoundChannel(k, RenamedChannel(s.channels[k], msg, ctx, now), MapOf(ctx))
    {
      var moved := s.channels[k].(members := Rename(s.channels[k].members, SenderOf(msg), Arg(msg, 0), MapOf(ctx)));
      forall entry ensures SoundChannel(k, Added(moved, entry), MapOf(ctx)) {
        AddedSound(k, moved, entry, MapOf(ctx));
      }
    }
  }

  lemma HeardSound(s: Network, msg: Message, ctx: Context)
    requires Sound(s, ctx)
    ensures Sound(Heard(s, msg, ctx), ctx)
  {
    hide SoundBuffer;
    hide VerbFor;
    assert NewsOf(msg).nick.None?;
    forall k | k in s.channels
      ensures Keyed(Upsert(s.channels[k].members, SenderOf(msg), MapOf(ctx), NewsOf(msg)), MapOf(ctx))
    {
      OperationsKeepKeys(s.channels[k].members, SenderOf(msg), [], MapOf(ctx), NewsOf(msg));
    }
  }

  lemma ModeSound(s: Network, msg: Message, ctx: Context, now: int)
    requires Sound(s, ctx)
    ensures Sound(Moded(s, msg, ctx, now), ctx)
  {
    var key := KeyOf(Arg(msg, 0), ctx);
    if IsChannel(Arg(msg, 0), ctx.support) && key in s.channels {
      var channel := s.channels[key];
      PrefixesChangedKeyed(channel.members, ModeChanges(msg, ctx), ctx);
      var entry := BuildEntry(msg, ModeLine, Arg(msg, 0), ModeLineText(msg), ctx, now);
      InsertKeepsIds(channel.messages, entry, MESSAGE_LIMIT);
      PutSound(s.channels, key, ModedChannel(channel, msg, ctx, now), MapOf(ctx));
    }
  }

  lemma TopicSound(s: Network, msg: Message, ctx: Context, now: int)
    requires Sound(s, ctx)
    ensures Sound(TopicSet(s, msg, ctx, now), ctx)
  {
    var key := KeyOf(Arg(msg, 0), ctx);
    if key in s.channels {
      forall entry ensures SoundBuffer(Insert(s.channels[key].messages, entry, MESSAGE_LIMIT)) {
        InsertKeepsIds(s.channels[key].messages, entry, MESSAGE_LIMIT);
      }
      PutSound(s.channels, key, TopicChannel(s.channels[key], msg, ctx, now), MapOf(ctx));
    }
  }

  lemma NamesSound(s: Network, msg: Message, ctx: Context)
    requires Sound(s, ctx)
    ensures Sound(Named(s, msg, ctx), ctx)
  {
    hide Sound;
    hide SoundBuffer;
    hide Conversation;
    hide WithConversation;
    hide EntriesListed;
    var name := Arg(msg, 2);
    var channel := Conversation(s, name, ctx);
    ConversationSound(s, name, ctx);
    EntriesListedKeyed(if channel.namesLoading then channel.members else map[], NamesEntries(msg, ctx), ctx);
    FiledSound(s, name, NamesChannel(channel, name, NamesEntries(msg, ctx), ctx), ctx);
  }

  lemma NamesEndSound(s: Network, msg: Message, ctx: Context)
    requires Sound(s, ctx)
    ensures Sound(NamesEnded(s, msg, ctx), ctx)
  {
    hide Sound;
    hide SoundBuffer;
    hide Conversation;
    hide WithConversation;
    hide PrefixesChanged;
    var name := Arg(msg, 1);
    var channel := Conversation(s, name, ctx);
    ConversationSound(s, name, ctx);
    PrefixesChangedKeyed(channel.members, channel.pendingPrefixChanges, ctx);
    FiledSound(s, name, NamesEndChannel(channel, name, ctx), ctx);
  }

  lemma EchoedSound(key: Text, channel: Channel, name: Text, entry: Entry, mapping: CaseMapping)
    requires SoundChannel(key, channel, mapping) && key == Fold(name, mapping)
    ensures SoundChannel(key, channel.(name := name, messages := Reconcile(channel.messages, entry)), mapping)
  {
    ReconcileKeepsIds(channel.messages, entry);
  }

  lemma LineSound(s: Network, msg: Message, ctx: Context, now: int)
    requires Sound(s, ctx)
    ensures Sound(LineTaken(s, msg, ctx, now).state, ctx)
  {
    hide Sound;
    hide SoundChannel;
    hide Conversation;
    hide WithConversation;
    hide Added;
    hide Reconcile;
    hide BuildEntry;
    hide CtcpCodec.DecodeAction;
    hide LineEffects;
    hide VerbFor;
    var conversation := ConversationName(s, msg, ctx);
    var channel := Conversation(s, conversation, ctx);
    ConversationSound(s, conversation, ctx);
    forall entry
      ensures Sound(WithConversation(s, conversation, Added(channel, entry), ctx), ctx)
      ensures Sound(WithConversation(s, conversation,
                channel.(name := conversation, messages := Reconcile(channel.messages, entry)), ctx), ctx)
    {
      AddedSound(KeyOf(conversation, ctx), channel, entry, MapOf(ctx));
      FiledSound(s, conversation, Added(channel, entry), ctx);
      EchoedSound(KeyOf(conversation, ctx), channel, conversation, entry, MapOf(ctx));
      FiledSound(s, conversation, channel.(name := conversation, messages := Reconcile(channel.messages, entry)), ctx);
    }
  }

  lemma SpokenSound(s: Network, msg: Message, ctx: Context, now: int)
    requires Sound(s, ctx)
    ensures Sound(Spoken(s, msg, ctx, now).state, ctx)
  {
    hide Sound;
    hide LineTaken;
    hide BuildEntry;
    hide VerbFor;
    hide CtcpIn;
    hide CtcpTaken;
    hide IsServerNotice;
    LineSound(s, msg, ctx, now);
    var after := Spoken(s, msg, ctx, now).state;
    if CtcpIn(s, msg, ctx).Some? {
      CtcpFrame(s, CtcpIn(s, msg, ctx).value, msg, ctx, now);
    }
    if after != LineTaken(s, msg, ctx, now).state {
      SameConversationsSound(s, after, ctx);
    }
  }

  lemma RepliedChannelSound(key: Text, channel: Channel, msg: Message, ctx: Context)
    requires SoundChannel(key, channel, MapOf(ctx)) && key == KeyOf(Arg(msg, 1), ctx)
    ensures SoundChannel(key, RepliedChannel(channel, msg, ctx), MapOf(ctx))
  {
    hide SoundBuffer;
    hide RepliedTopic;
    hide RepliedModes;
  }

  lemma ReplySound(s: Network, msg: Message, ctx: Context)
    requires Sound(s, ctx)
    ensures Sound(Replied(s, msg, ctx), ctx)
  {
    hide Sound;
    hide SoundChannel;
    hide Conversation;
    hide WithConversation;
    hide RepliedChannel;
    var name := Arg(msg, 1);
    ConversationSound(s, name, ctx);
    RepliedChannelSound(KeyOf(name, ctx), Conversation(s, name, ctx), msg, ctx);
    FiledSound(s, name, RepliedChannel(Conversation(s, name, ctx), msg, ctx), ctx);
  }

  lemma WhoSound(s: Network, msg: Message, ctx: Context)
    requires Sound(s, ctx)
    ensures Sound(WhoHeard(s, msg, ctx), ctx)
  {
    hide SoundBuffer;
    hide WhoDetails;
    hide Upsert;
    forall k | k in s.channels
      ensures Keyed(Upsert(s.channels[k].members, Arg(msg, 5), MapOf(ctx), WhoDetails(msg, ctx)), MapOf(ctx))
    {
      WhoNamesThem(msg, ctx);
      OperationsKeepKeys(s.channels[k].members, Arg(msg, 5), [], MapOf(ctx), WhoDetails(msg, ctx));
    }
  }

  lemma WhoNamesThem(msg: Message, ctx: Context)
    ensures WhoDetails(msg, ctx).nick == Some(Arg(msg, 5))
  {
    hide AdvertisedIn;
  }

  lemma StandingFrame(s: Network, msg: Message, ctx: Context, now: int)
    ensures var t := Standing(s, msg, ctx, now).state;
            t.channels == s.channels && t.queries == s.queries
  {
    hide VerbFor;
    hide PartingWords;
    hide PhaseAfter;
    hide AccountAfter;
  }

  /** A step that leaves the conversations alone. */
  lemma SameConversationsSound(s: Network, t: Network, ctx: Context)
    requires Sound(s, ctx) && t.channels == s.channels && t.queries == s.queries
    ensures Sound(t, ctx)
  {
  }

  lemma QuietSound(s: Network, msg: Message, ctx: Context, now: int)
    requires Sound(s, ctx)
    ensures Sound(Welcomed(s, msg), ctx)
    ensures Sound(NickRefused(s, msg, ctx, now).state, ctx)
    ensures Sound(Standing(s, msg, ctx, now).state, ctx)
  {
    hide Sound;
    hide Standing;
    hide BuildEntry;
    hide NextNick;
    StandingFrame(s, msg, ctx, now);
    SameConversationsSound(s, Welcomed(s, msg), ctx);
    SameConversationsSound(s, NickRefused(s, msg, ctx, now).state, ctx);
    SameConversationsSound(s, Standing(s, msg, ctx, now).state, ctx);
  }

  lemma ApplySound(s: Network, msg: Message, ctx: Context, now: int)
    requires Sound(s, ctx)
    ensures Sound(Apply(s, msg, ctx, now).state, ctx)
  {
    hide Sound;
    hide VerbFor;
    hide Joined;
    hide Parted;
    hide Quitted;
    hide Renamed;
    hide Kicked;
    hide Moded;
    hide TopicSet;
    hide Spoken;
    hide Heard;
    hide Named;
    hide NamesEnded;
    hide Replied;
    hide WhoHeard;
    hide Standing;
    hide NextNick;
    hide BuildEntry;
    hide Welcomed;
    hide NickRefused;
    JoinSound(s, msg, ctx, now);
    PartSound(s, msg, ctx, now);
    QuitSound(s, msg, ctx, now);
    NickSound(s, msg, ctx, now);
    KickSound(s, msg, ctx, now);
    ModeSound(s, msg, ctx, now);
    TopicSound(s, msg, ctx, now);
    SpokenSound(s, msg, ctx, now);
    HeardSound(s, msg, ctx);
    NamesSound(s, msg, ctx);
    NamesEndSound(s, msg, ctx);
    ReplySound(s, msg, ctx);
    WhoSound(s, msg, ctx);
    QuietSound(s, msg, ctx, now);
  }

  lemma HistorySound(s: Network, target: Text, batch: Batches.Count, ctx: Context)
    requires Sound(s, ctx)
    ensures Sound(HistoryDone(s, target, batch, ctx), ctx)
  {
    hide SoundBuffer;
    hide PageDone;
    var key := KeyOf(target, ctx);
    forall k, channel: Channel | SoundChannel(k, channel, MapOf(ctx))
      ensures SoundChannel(k, PageDone(channel, batch), MapOf(ctx))
    {
      PageDoneSound(k, channel, batch, MapOf(ctx));
    }
  }

  lemma PageDoneSound(key: Text, channel: Channel, batch: Batches.Count, mapping: CaseMapping)
    requires SoundChannel(key, channel, mapping)
    ensures SoundChannel(key, PageDone(channel, batch), mapping)
  {
  }

  lemma BatchSound(s: Network, msg: Message, ctx: Context)
    requires Sound(s, ctx)
    ensures Sound(BatchHandled(s, msg, ctx), ctx)
  {
    hide SoundBuffer;
    hide LiveOldest;
    hide Batches.MarkOf;
    hide Batches.Marked;
    hide IsHistoryKind;
    match Batches.MarkOf(msg)
    case Closes(r) =>
      if r in s.batches {
        HistorySound(s, if s.batches[r].params == [] then [] else s.batches[r].params[0], s.batches[r], ctx);
      }
    case _ =>
  }

  lemma KeepingBuffersSound(before: Network, after: Network, ctx: Context)
    requires Sound(before, ctx) && Sound(after, ctx)
    ensures Sound(KeepingBuffers(before, after), ctx)
  {
  }

  /** Every message keeps the state sound: modelled command or not, well-formed or not, muted or not. */
  lemma ReduceKeepsSound(s: Network, msg: Message, ctx: Context, now: int)
    requires Sound(s, ctx)
    ensures Sound(Reduce(s, msg, ctx, now).state, ctx)
  {
    hide Sound;
    hide Apply;
    hide BatchHandled;
    hide KeepingBuffers;
    var counted := Counted(s, msg, ctx, now);
    SameConversationsSound(s, counted, ctx);
    BatchSound(counted, msg, ctx);
    ApplySound(counted, msg, ctx, now);
    KeepingBuffersSound(counted, Apply(counted, msg, ctx, now).state, ctx);
  }

  /**
    * Over every run from a fresh state: every channel, query and member is under
    * its folded name, ids in a buffer are unique and its length bounded, and
    * mode changes wait for a replay only while NAMES is streaming.
    */
  lemma {:induction false} RunsStaySound(nick: Text, rules: seq<Rule>, arrivals: seq<Arrived>, ctx: Context)
    ensures Sound(ReduceAll(StartRegistration(InitialNetwork(nick), nick).(ignores := rules), arrivals, ctx), ctx)
    decreases |arrivals|
  {
    hide Reduce;
    if arrivals == [] {
    } else {
      var last := arrivals[|arrivals| - 1];
      var start := StartRegistration(InitialNetwork(nick), nick).(ignores := rules);
      RunsStaySound(nick, rules, arrivals[..|arrivals| - 1], ctx);
      ReduceKeepsSound(ReduceAll(start, arrivals[..|arrivals| - 1], ctx), last.msg, ctx, last.now);
    }
  }

  // ---------- When the server changes its casemapping ----------

  /** Every name the conversations hold folds the same way under both mappings. */
  ghost predicate FoldAlike(channels: Channels, a: CaseMapping, b: CaseMapping) {
    forall k | k in channels ::
      && Fold(channels[k].name, a) == Fold(channels[k].name, b)
      && forall n | n in channels[k].members ::
           Fold(channels[k].members[n].nick, a) == Fold(channels[k].members[n].nick, b)
  }

  ghost predicate AllFoldAlike(s: Network, a: CaseMapping, b: CaseMapping) {
    FoldAlike(s.channels, a, b) && FoldAlike(s.queries, a, b)
  }

  lemma RemappedChannels(channels: Channels, a: CaseMapping, b: CaseMapping)
    requires SoundChannels(channels, a)
    ensures SoundChannels(channels, b) <==> FoldAlike(channels, a, b)
  {
    hide Fold;
    hide SoundBuffer;
    if SoundChannels(channels, b) {
      forall k | k in channels
        ensures Fold(channels[k].name, a) == Fold(channels[k].name, b)
        ensures forall n | n in channels[k].members ::
                  Fold(channels[k].members[n].nick, a) == Fold(channels[k].members[n].nick, b)
      {
        assert SoundChannel(k, channels[k], a) && SoundChannel(k, channels[k], b);
      }
    }
    if FoldAlike(channels, a, b) {
      forall k | k in channels ensures SoundChannel(k, channels[k], b) {
        assert SoundChannel(k, channels[k], a);
      }
    }
  }

  /** The maps keep their keys when the mapping changes, so they are right under the new one exactly then. */
  lemma RemappingKeepsSound(s: Network, a: Context, b: Context)
    requires Sound(s, a)
    ensures Sound(s, b) <==> AllFoldAlike(s, MapOf(a), MapOf(b))
  {
    RemappedChannels(s.channels, MapOf(a), MapOf(b));
    RemappedChannels(s.queries, MapOf(a), MapOf(b));
  }

  /** A message as it is reduced, under what the server advertises by then. */
  datatype Situated = Situated(msg: Message, now: int, ctx: Context)

  /** Before every message of the run the state is sound under what the server advertises by then. */
  ghost predicate AlwaysSound(s: Network, run: seq<Situated>)
    decreases |run|
  {
    run == [] || (
      && Sound(s, run[0].ctx)
      && AlwaysSound(Reduce(s, run[0].msg, run[0].ctx, run[0].now).state, run[1..]))
  }

  /** At every change of mapping the names known by then fold the same way under both. */
  ghost predicate ChangesFoldAlike(s: Network, ctx: Context, run: seq<Situated>)
    decreases |run|
  {
    run == [] || (
      && AllFoldAlike(s, MapOf(ctx), MapOf(run[0].ctx))
      && ChangesFoldAlike(Reduce(s, run[0].msg, run[0].ctx, run[0].now).state, run[0].ctx, run[1..]))
  }

  /**
    * Over every run in which the server may change what it advertises at any
    * point: the state stays sound exactly when each change of mapping leaves the
    * fold of every known name as it was.
    */
  lemma {:induction false} ChangingRunsStaySound(s: Network, ctx: Context, run: seq<Situated>)
    requires Sound(s, ctx)
    ensures AlwaysSound(s, run) <==> ChangesFoldAlike(s, ctx, run)
    decreases |run|
  {
    hide Reduce;
    hide Sound;
    hide AllFoldAlike;
    if run == [] {
      assert AlwaysSound(s, run) && ChangesFoldAlike(s, ctx, run);
    } else {
      var next := Reduce(s, run[0].msg, run[0].ctx, run[0].now).state;
      RemappingKeepsSound(s, ctx, run[0].ctx);
      if Sound(s, run[0].ctx) {
        ReduceKeepsSound(s, run[0].msg, run[0].ctx, run[0].now);
        ChangingRunsStaySound(next, run[0].ctx, run[1..]);
      }
    }
  }
}
