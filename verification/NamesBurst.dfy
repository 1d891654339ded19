/**
  * NAMES and MODE interleaved: the member list after a burst is the one that
  * all the names followed by all the mode changes would give.
  */
module NamesBurst {
  import opened Units
  import opened ISupport
  import opened Messages
  import opened Members
  import opened Modes
  import opened MuteList
  import opened MessageBuffer
  import opened NetworkState
  import opened Reducer
  import opened ReducerInvariants
  import Batches
  import CtcpCodec

  // ---------- One member at a time ----------

  function At(members: MemberMap, key: Text): Option<Member> {
    if key in members then Some(members[key]) else None
  }

  predicate Targets(change: ModeChange, key: Text, ctx: Context) {
    change.kind == PrefixKind && change.parameter.Some? && KeyOf(change.parameter.value, ctx) == key
  }

  /** One prefix change, seen by the member under `key`. */
  function MemberChanged(m: Option<Member>, change: ModeChange, key: Text, ctx: Context): Option<Member> {
    if !Targets(change, key, ctx) then m
    else
      var member := Or(m, EmptyMember(change.parameter.value));
      Some(member.(prefixes := ApplyPrefixes(member.prefixes, [change], ctx.support)))
  }

  function MemberChangedAll(m: Option<Member>, changes: seq<ModeChange>, key: Text, ctx: Context): Option<Member> {
    if changes == [] then m
    else MemberChanged(MemberChangedAll(m, changes[..|changes| - 1], key, ctx), changes[|changes| - 1], key, ctx)
  }

  lemma PrefixChangedAt(members: MemberMap, change: ModeChange, key: Text, ctx: Context)
    ensures At(PrefixChanged(members, change, ctx), key) == MemberChanged(At(members, key), change, key, ctx)
  {
    hide ApplyPrefixes;
  }

  lemma {:induction false} PrefixesChangedSnoc(
      members: MemberMap, changes: seq<ModeChange>, change: ModeChange, ctx: Context)
    ensures PrefixesChanged(members, changes + [change], ctx)
         == PrefixChanged(PrefixesChanged(members, changes, ctx), change, ctx)
    decreases |changes|
  {
    hide PrefixChanged;
    if changes == [] {
      assert ([change])[1..] == [];
      assert changes + [change] == [change];
    } else {
      assert (changes + [change])[1..] == changes[1..] + [change];
      PrefixesChangedSnoc(PrefixChanged(members, changes[0], ctx), changes[1..], change, ctx);
    }
  }

  lemma {:induction false} PrefixesChangedAt(members: MemberMap, changes: seq<ModeChange>, key: Text, ctx: Context)
    ensures At(PrefixesChanged(members, changes, ctx), key) == MemberChangedAll(At(members, key), changes, key, ctx)
    decreases |changes|
  {
    hide PrefixChanged;
    hide MemberChanged;
    if changes == [] {
    } else {
      var before, last := changes[..|changes| - 1], changes[|changes| - 1];
      assert changes == before + [last];
      PrefixesChangedSnoc(members, before, last, ctx);
      PrefixesChangedAt(members, before, key, ctx);
      PrefixChangedAt(PrefixesChanged(members, before, ctx), last, key, ctx);
    }
  }

  lemma {:induction false} EntriesListedSnoc(
      members: MemberMap, entries: seq<NamesEntry>, entry: NamesEntry, ctx: Context)
    ensures EntriesListed(members, entries + [entry], ctx)
         == EntryListed(EntriesListed(members, entries, ctx), entry, ctx)
    decreases |entries|
  {
    hide EntryListed;
    if entries == [] {
      assert entries + [entry] == [entry];
    } else {
      assert (entries + [entry])[1..] == entries[1..] + [entry];
      EntriesListedSnoc(EntryListed(members, entries[0], ctx), entries[1..], entry, ctx);
    }
  }

  // ---------- What a replay depends on ----------

  /** Two held sets that agree on every advertised prefix, except perhaps one. */
  ghost predicate AgreeExcept(a: set<Unit>, b: set<Unit>, except: Option<Unit>, prefixes: seq<PrefixEntry>) {
    forall e | e in prefixes && Some(e.prefix) != except :: e.prefix in a <==> e.prefix in b
  }

  /** The prefixes one change leaves, as a set. */
  function Leaves(current: Text, change: ModeChange, ctx: Context): set<Unit> {
    HeldAfter(UnitsIn(current), change, ctx.support)
  }

  lemma OneChange(current: Text, change: ModeChange, ctx: Context)
    ensures ApplyPrefixes(current, [change], ctx.support) == Ordered(Leaves(current, change, ctx), ctx.support.prefixes)
  {
    assert [change][1..] == [];
    assert HeldAfterAll(UnitsIn(current), [change], ctx.support)
        == HeldAfterAll(HeldAfter(UnitsIn(current), change, ctx.support), [], ctx.support);
  }

  lemma ChangeKeepsAgreement(a: Text, b: Text, change: ModeChange, except: Option<Unit>, ctx: Context)
    requires AgreeExcept(UnitsIn(a), UnitsIn(b), except, ctx.support.prefixes)
    ensures AgreeExcept(UnitsIn(ApplyPrefixes(a, [change], ctx.support)),
                        UnitsIn(ApplyPrefixes(b, [change], ctx.support)), except, ctx.support.prefixes)
  {
    var prefixes := ctx.support.prefixes;
    OneChange(a, change, ctx);
    OneChange(b, change, ctx);
    forall e | e in prefixes && Some(e.prefix) != except
      ensures e.prefix in Ordered(Leaves(a, change, ctx), prefixes) <==>
                e.prefix in Ordered(Leaves(b, change, ctx), prefixes)
    {
      OrderedShows(Leaves(a, change, ctx), prefixes, e.prefix);
      OrderedShows(Leaves(b, change, ctx), prefixes, e.prefix);
    }
  }

  /** A change makes two prefix texts equal when they differ at most in the prefix it sets. */
  lemma ChangeSettles(a: Text, b: Text, change: ModeChange, ctx: Context)
    requires change.kind == PrefixKind
    requires AgreeExcept(UnitsIn(a), UnitsIn(b), PrefixOf(change.mode, ctx.support.prefixes), ctx.support.prefixes)
    ensures ApplyPrefixes(a, [change], ctx.support) == ApplyPrefixes(b, [change], ctx.support)
  {
    OneChange(a, change, ctx);
    OneChange(b, change, ctx);
    OrderedDependsOn(Leaves(a, change, ctx), Leaves(b, change, ctx), ctx.support.prefixes);
  }

  /** The same person with prefixes that agree except on one. */
  ghost predicate AgreeMember(a: Option<Member>, b: Option<Member>, except: Option<Unit>, ctx: Context) {
    && a.Some? && b.Some? && a.value.(prefixes := []) == b.value.(prefixes := [])
    && AgreeExcept(UnitsIn(a.value.prefixes), UnitsIn(b.value.prefixes), except, ctx.support.prefixes)
  }

  lemma {:induction false} ChangesKeepAgreement(
      a: Option<Member>, b: Option<Member>, changes: seq<ModeChange>, key: Text, except: Option<Unit>, ctx: Context)
    requires AgreeMember(a, b, except, ctx)
    ensures AgreeMember(MemberChangedAll(a, changes, key, ctx), MemberChangedAll(b, changes, key, ctx), except, ctx)
  {
    hide ApplyPrefixes;
    hide AgreeExcept;
    if changes == [] {
    } else {
      var before, last := changes[..|changes| - 1], changes[|changes| - 1];
      ChangesKeepAgreement(a, b, before, key, except, ctx);
      var x, y := MemberChangedAll(a, before, key, ctx), MemberChangedAll(b, before, key, ctx);
      ChangeKeepsAgreement(x.value.prefixes, y.value.prefixes, last, except, ctx);
    }
  }

  lemma ChangeAgrees(member: Member, change: ModeChange, ctx: Context)
    ensures AgreeExcept(UnitsIn(ApplyPrefixes(member.prefixes, [change], ctx.support)), UnitsIn(member.prefixes),
                        PrefixOf(change.mode, ctx.support.prefixes), ctx.support.prefixes)
  {
    var prefixes := ctx.support.prefixes;
    OneChange(member.prefixes, change, ctx);
    forall e | e in prefixes && Some(e.prefix) != PrefixOf(change.mode, prefixes)
      ensures e.prefix in Ordered(Leaves(member.prefixes, change, ctx), prefixes) <==> e.prefix in member.prefixes
    {
      OrderedShows(Leaves(member.prefixes, change, ctx), prefixes, e.prefix);
    }
  }

  /**
    * A change that will be replayed anyway may as well not have been made: its
    * effect on a listed member does not outlive a replay that ends with it.
    */
  lemma ReplayAbsorbs(m: Option<Member>, changes: seq<ModeChange>, change: ModeChange, key: Text, ctx: Context)
    requires m.None? ==> forall c | c in changes :: !Targets(c, key, ctx)
    ensures MemberChangedAll(MemberChanged(m, change, key, ctx), changes + [change], key, ctx)
         == MemberChangedAll(m, changes + [change], key, ctx)
  {
    assert (changes + [change])[..|changes|] == changes;
    if Targets(change, key, ctx) {
      var done := MemberChanged(m, change, key, ctx);
      var except := PrefixOf(change.mode, ctx.support.prefixes);
      var base := Or(m, EmptyMember(change.parameter.value));
      ChangeAgrees(base, change, ctx);
      hide ApplyPrefixes;
      ChangesKeepAgreement(done, Some(base), changes, key, except, ctx);
      if m.None? {
        UntargetedStays(m, changes, key, ctx);
        UntargetedStays(Some(base), changes, key, ctx);
      }
      var x, y := MemberChangedAll(done, changes, key, ctx), MemberChangedAll(Some(base), changes, key, ctx);
      ChangeSettles(x.value.prefixes, y.value.prefixes, change, ctx);
    }
  }

  lemma {:induction false} UntargetedStays(m: Option<Member>, changes: seq<ModeChange>, key: Text, ctx: Context)
    requires forall c | c in changes :: !Targets(c, key, ctx)
    ensures MemberChangedAll(m, changes, key, ctx) == m
  {
    if changes == [] {
    } else {
      UntargetedStays(m, changes[..|changes| - 1], key, ctx);
      assert changes[|changes| - 1] in changes;
    }
  }

  // ---------- Any interleaving ----------

  /** One step of a burst: a name from a NAMES reply, or a change from a MODE. */
  datatype BurstEvent = Listed(entry: NamesEntry) | Changed(change: ModeChange)

  function AfterEvent(members: MemberMap, event: BurstEvent, ctx: Context): MemberMap {
    match event
    case Listed(entry) => EntryListed(members, entry, ctx)
    case Changed(change) => PrefixChanged(members, change, ctx)
  }

  /** The member list as the events come, starting from nothing. */
  function Mixed(events: seq<BurstEvent>, ctx: Context): MemberMap {
    if events == [] then map[]
    else AfterEvent(Mixed(events[..|events| - 1], ctx), events[|events| - 1], ctx)
  }

  function EntriesOf(events: seq<BurstEvent>): seq<NamesEntry> {
    if events == [] then []
    else
      var last := events[|events| - 1];
      EntriesOf(events[..|events| - 1]) + if last.Listed? then [last.entry] else []
  }

  function ChangesOf(events: seq<BurstEvent>): seq<ModeChange> {
    if events == [] then []
    else
      var last := events[|events| - 1];
      ChangesOf(events[..|events| - 1]) + if last.Changed? then [last.change] else []
  }

  /** A member that only NAMES and MODE have spoken of. */
  predicate Bare(m: Option<Member>) {
    m.Some? ==> m.value == EmptyMember(m.value.nick).(prefixes := m.value.prefixes)
  }

  function NamesOnly(events: seq<BurstEvent>, ctx: Context): MemberMap {
    EntriesListed(map[], EntriesOf(events), ctx)
  }

  /** What the induction keeps for one member: replaying the changes gives the same either way. */
  ghost predicate ReplaysAlike(
      mixed: Option<Member>, names: Option<Member>, changes: seq<ModeChange>, key: Text, ctx: Context)
  {
    && MemberChangedAll(mixed, changes, key, ctx) == MemberChangedAll(names, changes, key, ctx)
    && Bare(mixed) && Bare(names)
    && (mixed.None? ==> forall c | c in changes :: !Targets(c, key, ctx))
  }

  lemma ListingReplaysAlike(
      mixed: MemberMap, names: MemberMap, changes: seq<ModeChange>, entry: NamesEntry, key: Text, ctx: Context)
    requires ReplaysAlike(At(mixed, key), At(names, key), changes, key, ctx)
    ensures ReplaysAlike(At(EntryListed(mixed, entry, ctx), key), At(EntryListed(names, entry, ctx), key),
                         changes, key, ctx)
  {
    hide MemberChangedAll;
  }

  lemma ChangingReplaysAlike(
      mixed: Option<Member>, names: Option<Member>, changes: seq<ModeChange>, change: ModeChange,
      key: Text, ctx: Context)
    requires ReplaysAlike(mixed, names, changes, key, ctx)
    ensures ReplaysAlike(MemberChanged(mixed, change, key, ctx), names, changes + [change], key, ctx)
  {
    hide ApplyPrefixes;
    ReplayAbsorbs(mixed, changes, change, key, ctx);
    assert (changes + [change])[..|changes|] == changes;
  }

  lemma {:induction false} BurstReplaysAlike(events: seq<BurstEvent>, key: Text, ctx: Context)
    ensures ReplaysAlike(At(Mixed(events, ctx), key), At(NamesOnly(events, ctx), key), ChangesOf(events), key, ctx)
  {
    if events == [] {
    } else {
      var before := events[..|events| - 1];
      BurstReplaysAlike(before, key, ctx);
      hide ReplaysAlike;
      match events[|events| - 1]
      case Listed(entry) =>
        EntriesListedSnoc(map[], EntriesOf(before), entry, ctx);
        assert ChangesOf(events) == ChangesOf(before);
        ListingReplaysAlike(Mixed(before, ctx), NamesOnly(before, ctx), ChangesOf(before), entry, key, ctx);
      case Changed(change) =>
        PrefixChangedAt(Mixed(before, ctx), change, key, ctx);
        assert EntriesOf(events) == EntriesOf(before);
        ChangingReplaysAlike(At(Mixed(before, ctx), key), At(NamesOnly(before, ctx), key), ChangesOf(before),
                             change, key, ctx);
    }
  }

  /**
    * For any interleaving, replaying the changes over the mixed list gives what
    * all the names and then all the changes, each in its order, would give.
    */
  lemma ReplayIsConfluent(events: seq<BurstEvent>, ctx: Context)
    ensures PrefixesChanged(Mixed(events, ctx), ChangesOf(events), ctx)
         == PrefixesChanged(EntriesListed(map[], EntriesOf(events), ctx), ChangesOf(events), ctx)
  {
    var mixed := PrefixesChanged(Mixed(events, ctx), ChangesOf(events), ctx);
    var ordered := PrefixesChanged(NamesOnly(events, ctx), ChangesOf(events), ctx);
    forall key: Text ensures At(mixed, key) == At(ordered, key) {
      BurstReplaysAlike(events, key, ctx);
      PrefixesChangedAt(Mixed(events, ctx), ChangesOf(events), key, ctx);
      PrefixesChangedAt(NamesOnly(events, ctx), ChangesOf(events), key, ctx);
    }
    SameEverywhere(mixed, ordered);
  }

  lemma SameEverywhere(a: MemberMap, b: MemberMap)
    requires forall key :: At(a, key) == At(b, key)
    ensures a == b
  {
    assert forall key :: key in a <==> At(a, key).Some?;
    assert forall key :: key in b <==> At(b, key).Some?;
    assert forall key | key in a :: a[key] == At(a, key).value;
    assert forall key | key in b :: b[key] == At(b, key).value;
  }

  // ---------- The reducer during a burst ----------

  predicate NamesFor(msg: Message, key: Text, ctx: Context) {
    VerbFor(msg.command).NamesVerb? && IsChannel(Arg(msg, 2), ctx.support) && KeyOf(Arg(msg, 2), ctx) == key
  }

  predicate ModesFor(msg: Message, key: Text, ctx: Context) {
    VerbFor(msg.command).ModeVerb? && IsChannel(Arg(msg, 0), ctx.support) && KeyOf(Arg(msg, 0), ctx) == key
  }

  predicate EndFor(msg: Message, key: Text, ctx: Context) {
    VerbFor(msg.command).NamesEndVerb? && IsChannel(Arg(msg, 1), ctx.support) && KeyOf(Arg(msg, 1), ctx) == key
  }

  /**
    * A message that is not about the channel's member list: anything said, any
    * topic or batch, and joins, parts, kicks, modes and names elsewhere. What
    * follows a person into every channel - QUIT, NICK and the news of them - is
    * not among these.
    */
  predicate Elsewhere(msg: Message, key: Text, ctx: Context) {
    match VerbFor(msg.command)
    case JoinVerb | PartVerb | KickVerb => KeyOf(Arg(msg, 0), ctx) != key
    case ModeVerb => !ModesFor(msg, key, ctx)
    case NamesVerb => !NamesFor(msg, key, ctx)
    case NamesEndVerb => !EndFor(msg, key, ctx)
    case QuitVerb | NickVerb | AwayVerb | AccountVerb | ChghostVerb | SetnameVerb | WhoVerb => false
    case _ => true
  }

  predicate InBurst(msg: Message, key: Text, ctx: Context) {
    NamesFor(msg, key, ctx) || ModesFor(msg, key, ctx) || Elsewhere(msg, key, ctx)
  }

  function ListedEvents(entries: seq<NamesEntry>): seq<BurstEvent> {
    seq(|entries|, i requires 0 <= i < |entries| => Listed(entries[i]))
  }

  function ChangedEvents(changes: seq<ModeChange>): seq<BurstEvent> {
    seq(|changes|, i requires 0 <= i < |changes| => Changed(changes[i]))
  }

  function EventsIn(msg: Message, key: Text, ctx: Context): seq<BurstEvent> {
    if NamesFor(msg, key, ctx) then ListedEvents(NamesEntries(msg, ctx))
    else if ModesFor(msg, key, ctx) then ChangedEvents(ModeChanges(msg, ctx))
    else []
  }

  /** The events of a run that concern the channel, in order of arrival. */
  function EventsOf(arrivals: seq<Arrived>, key: Text, ctx: Context): seq<BurstEvent> {
    if arrivals == [] then []
    else EventsOf(arrivals[..|arrivals| - 1], key, ctx) + EventsIn(arrivals[|arrivals| - 1].msg, key, ctx)
  }

  /** The part of a channel that a burst is about. */
  datatype Burst = Burst(members: MemberMap, loading: bool, pending: seq<ModeChange>)

  function BurstOf(channel: Channel): Burst {
    Burst(channel.members, channel.namesLoading, channel.pendingPrefixChanges)
  }

  function BurstAt(s: Network, key: Text): Option<Burst> {
    if key in s.channels then Some(BurstOf(s.channels[key])) else None
  }

  /** What one message does to a burst that is under way. */
  function BurstAfter(burst: Burst, msg: Message, key: Text, ctx: Context): Burst {
    if NamesFor(msg, key, ctx) then burst.(members := EntriesListed(burst.members, NamesEntries(msg, ctx), ctx))
    else if ModesFor(msg, key, ctx) then
      burst.(members := PrefixesChanged(burst.members, ModeChanges(msg, ctx), ctx),
             pending := burst.pending + PrefixKindOnly(ModeChanges(msg, ctx)))
    else burst
  }

  lemma FiledBurst(s: Network, target: Text, channel: Channel, key: Text, ctx: Context)
    ensures BurstAt(WithConversation(s, target, channel, ctx), key)
         == if IsChannel(target, ctx.support) && KeyOf(target, ctx) == key then Some(BurstOf(channel))
            else BurstAt(s, key)
  {
    hide IsChannel;
  }

  lemma AddedBurst(channel: Channel, entry: Entry)
    ensures BurstOf(Added(channel, entry)) == BurstOf(channel)
  {
    hide Insert;
  }

  lemma SaidElsewhere(s: Network, msg: Message, key: Text, ctx: Context, now: int)
    requires key in s.channels
    ensures BurstAt(Spoken(s, msg, ctx, now).state, key) == BurstAt(s, key)
  {
    hide BuildEntry;
    hide VerbFor;
    hide CtcpIn;
    hide IsServerNotice;
    hide Added;
    hide Reconcile;
    hide LineEffects;
    hide ConversationName;
    hide CtcpTaken;
    hide WithConversation;
    hide CtcpCodec.DecodeAction;
    hide IsSelf;
    hide BurstOf;
    var ctcp, conversation := CtcpIn(s, msg, ctx), ConversationName(s, msg, ctx);
    if ctcp.Some? {
      CtcpFrame(s, ctcp.value, msg, ctx, now);
    }
    var channel := Conversation(s, conversation, ctx);
    forall entry: Entry
      ensures BurstAt(WithConversation(s, conversation, Added(channel, entry), ctx), key) == BurstAt(s, key)
      ensures BurstAt(WithConversation(s, conversation,
                channel.(name := conversation, messages := Reconcile(channel.messages, entry)), ctx), key)
              == BurstAt(s, key)
    {
      FiledBurst(s, conversation, Added(channel, entry), key, ctx);
      var echoed := channel.(name := conversation, messages := Reconcile(channel.messages, entry));
      FiledBurst(s, conversation, echoed, key, ctx);
      AddedBurst(channel, entry);
      EchoedBurst(channel, conversation, Reconcile(channel.messages, entry));
    }
  }

  lemma EchoedBurst(channel: Channel, name: Text, buffer: Buffer)
    ensures BurstOf(channel.(name := name, messages := buffer)) == BurstOf(channel)
  {
  }

  lemma JoinElsewhere(s: Network, msg: Message, key: Text, ctx: Context, now: int)
    requires KeyOf(Arg(msg, 0), ctx) != key
    ensures BurstAt(Joined(s, msg, ctx, now), key) == BurstAt(s, key)
    ensures BurstAt(Parted(s, msg, ctx, now), key) == BurstAt(s, key)
    ensures BurstAt(Kicked(s, msg, ctx, now), key) == BurstAt(s, key)
  {
    hide JoinedChannel;
    hide PartedChannel;
    hide KickedChannel;
    hide WithConversation;
    hide Conversation;
    FiledBurst(s, Arg(msg, 0), JoinedChannel(s, Conversation(s, Arg(msg, 0), ctx), msg, ctx, now), key, ctx);
  }

  lemma TopicElsewhere(s: Network, msg: Message, key: Text, ctx: Context, now: int)
    ensures BurstAt(TopicSet(s, msg, ctx, now), key) == BurstAt(s, key)
  {
    hide BuildEntry;
    hide TimeOf;
    hide Insert;
  }

  lemma HistoryElsewhere(s: Network, msg: Message, key: Text, ctx: Context)
    ensures BurstAt(BatchHandled(s, msg, ctx), key) == BurstAt(s, key)
  {
    hide LiveOldest;
    hide IsHistoryKind;
    hide Batches.MarkOf;
    hide Batches.Marked;
    hide KeyOf;
    forall c: Channel, batch: Batches.Count ensures BurstOf(PageDone(c, batch)) == BurstOf(c) {
    }
    hide PageDone;
    hide BurstOf;
  }

  lemma ModeInBurst(s: Network, msg: Message, key: Text, ctx: Context, now: int)
    requires key in s.channels && s.channels[key].namesLoading && VerbFor(msg.command).ModeVerb?
    ensures BurstAt(Moded(s, msg, ctx, now), key) == Some(BurstAfter(BurstOf(s.channels[key]), msg, key, ctx))
  {
    hide VerbFor;
    hide BuildEntry;
    hide Insert;
    hide ModeChanges;
    hide ApplyModes;
    hide PrefixesChanged;
    hide PrefixKindOnly;
    hide UserModesAfter;
    hide IsChannel;
  }

  lemma NamesInBurst(s: Network, msg: Message, key: Text, ctx: Context)
    requires key in s.channels && s.channels[key].namesLoading && VerbFor(msg.command).NamesVerb?
    ensures BurstAt(Named(s, msg, ctx), key) == Some(BurstAfter(BurstOf(s.channels[key]), msg, key, ctx))
  {
    hide VerbFor;
    hide NamesEntries;
    hide EntriesListed;
    hide WithConversation;
    hide IsChannel;
    var name := Arg(msg, 2);
    FiledBurst(s, name, NamesChannel(Conversation(s, name, ctx), name, NamesEntries(msg, ctx), ctx), key, ctx);
  }

  lemma EndElsewhere(s: Network, msg: Message, key: Text, ctx: Context)
    requires VerbFor(msg.command).NamesEndVerb? && !EndFor(msg, key, ctx)
    ensures BurstAt(NamesEnded(s, msg, ctx), key) == BurstAt(s, key)
  {
    hide VerbFor;
    hide NamesEndChannel;
    hide WithConversation;
    hide Conversation;
    hide IsChannel;
    FiledBurst(s, Arg(msg, 1), NamesEndChannel(Conversation(s, Arg(msg, 1), ctx), Arg(msg, 1), ctx), key, ctx);
  }

  lemma RepliedBurst(channel: Channel, msg: Message, ctx: Context)
    ensures BurstOf(RepliedChannel(channel, msg, ctx)) == BurstOf(channel)
  {
    hide RepliedTopic;
    hide RepliedModes;
  }

  lemma RepliedElsewhere(s: Network, msg: Message, key: Text, ctx: Context)
    requires key in s.channels
    ensures BurstAt(Replied(s, msg, ctx), key) == BurstAt(s, key)
  {
    hide IsChannel;
    hide WithConversation;
    hide RepliedChannel;
    hide BurstOf;
    var name := Arg(msg, 1);
    var channel := RepliedChannel(Conversation(s, name, ctx), msg, ctx);
    FiledBurst(s, name, channel, key, ctx);
    RepliedBurst(Conversation(s, name, ctx), msg, ctx);
  }

  lemma RegisteredElsewhere(s: Network, msg: Message, ctx: Context, now: int)
    ensures Welcomed(s, msg).channels == s.channels && NickRefused(s, msg, ctx, now).state.channels == s.channels
    ensures Standing(s, msg, ctx, now).state.channels == s.channels
  {
    hide VerbFor;
    hide PartingWords;
    hide PhaseAfter;
    hide AccountAfter;
    hide BuildEntry;
    hide NextNick;
  }

  lemma ApplyInBurst(s: Network, msg: Message, key: Text, ctx: Context, now: int)
    requires key in s.channels && s.channels[key].namesLoading && InBurst(msg, key, ctx)
    ensures BurstAt(Apply(s, msg, ctx, now).state, key) == Some(BurstAfter(BurstOf(s.channels[key]), msg, key, ctx))
  {
    hide VerbFor;
    hide Joined;
    hide Parted;
    hide Quitted;
    hide Renamed;
    hide Kicked;
    hide Moded;
    hide TopicSet;
    hide Spoken;
    hide Heard;
    hide Named;
    hide NamesEnded;
    hide Welcomed;
    hide NickRefused;
    hide Replied;
    hide WhoHeard;
    hide Standing;
    hide PrefixesChanged;
    hide EntriesListed;
    hide IsChannel;
    hide KeyOf;
    var verb := VerbFor(msg.command);
    RepliedElsewhere(s, msg, key, ctx);
    SaidElsewhere(s, msg, key, ctx, now);
    TopicElsewhere(s, msg, key, ctx, now);
    RegisteredElsewhere(s, msg, ctx, now);
    if verb.ModeVerb? {
      ModeInBurst(s, msg, key, ctx, now);
    } else if verb.NamesVerb? {
      NamesInBurst(s, msg, key, ctx);
    } else if verb.NamesEndVerb? {
      EndElsewhere(s, msg, key, ctx);
    } else if verb.JoinVerb? || verb.PartVerb? || verb.KickVerb? {
      JoinElsewhere(s, msg, key, ctx, now);
    }
  }

  lemma KeptBurst(before: Network, after: Network, key: Text)
    ensures BurstAt(KeepingBuffers(before, after), key) == BurstAt(after, key)
  {
  }

  lemma CountedBurst(s: Network, msg: Message, ctx: Context, now: int)
    ensures Counted(s, msg, ctx, now).channels == s.channels
  {
  }

  /** A muted message is no exception: only its line is taken back. */
  lemma ReduceBurst(s: Network, msg: Message, key: Text, ctx: Context, now: int)
    ensures var counted := Counted(s, msg, ctx, now);
            var after := BurstAt(Reduce(s, msg, ctx, now).state, key);
            && (VerbFor(msg.command).BatchVerb? ==> after == BurstAt(s, key))
            && (PartFor(VerbFor(msg.command)) in {None, Some(EventsPart)} && !VerbFor(msg.command).BatchVerb? ==>
                  after == BurstAt(Apply(counted, msg, ctx, now).state, key))
            && (PartFor(VerbFor(msg.command)) !in {None, Some(EventsPart)} ==>
                  after == BurstAt(s, key) || after == BurstAt(Apply(counted, msg, ctx, now).state, key))
  {
    hide VerbFor;
    hide BurstAt;
    hide Apply;
    hide BatchHandled;
    hide KeepingBuffers;
    hide Counted;
    hide IsIgnored;
    hide HostmaskOf;
    hide IsSelf;
    var counted := Counted(s, msg, ctx, now);
    CountedBurst(s, msg, ctx, now);
    SameBurst(s, counted, key);
    HistoryElsewhere(counted, msg, key, ctx);
    KeptBurst(counted, Apply(counted, msg, ctx, now).state, key);
  }

  lemma SameBurst(s: Network, t: Network, key: Text)
    requires s.channels == t.channels
    ensures BurstAt(s, key) == BurstAt(t, key)
  {
  }

  lemma StepInBurst(s: Network, msg: Message, key: Text, ctx: Context, now: int)
    requires key in s.channels && s.channels[key].namesLoading && InBurst(msg, key, ctx)
    ensures BurstAt(Reduce(s, msg, ctx, now).state, key) == Some(BurstAfter(BurstOf(s.channels[key]), msg, key, ctx))
  {
    hide VerbFor;
    hide Reduce;
    hide Apply;
    hide Counted;
    hide IsChannel;
    hide KeyOf;
    hide PrefixesChanged;
    hide EntriesListed;
    var counted := Counted(s, msg, ctx, now);
    CountedBurst(s, msg, ctx, now);
    ReduceBurst(s, msg, key, ctx, now);
    ApplyInBurst(counted, msg, key, ctx, now);
  }

  // ---------- A whole burst ----------

  lemma EventSnoc(events: seq<BurstEvent>, event: BurstEvent, ctx: Context)
    ensures Mixed(events + [event], ctx) == AfterEvent(Mixed(events, ctx), event, ctx)
    ensures ChangesOf(events + [event]) == ChangesOf(events) + if event.Changed? then [event.change] else []
  {
    hide AfterEvent;
    assert (events + [event])[..|events|] == events;
  }

  lemma {:induction false} MixedListed(events: seq<BurstEvent>, entries: seq<NamesEntry>, ctx: Context)
    ensures Mixed(events + ListedEvents(entries), ctx) == EntriesListed(Mixed(events, ctx), entries, ctx)
    ensures ChangesOf(events + ListedEvents(entries)) == ChangesOf(events)
    decreases |entries|
  {
    hide EntryListed;
    hide Mixed;
    hide ChangesOf;
    if entries == [] {
      assert events + ListedEvents(entries) == events;
    } else {
      var before, last := entries[..|entries| - 1], entries[|entries| - 1];
      MixedListed(events, before, ctx);
      assert events + ListedEvents(entries) == (events + ListedEvents(before)) + [Listed(last)];
      EventSnoc(events + ListedEvents(before), Listed(last), ctx);
      EntriesListedSnoc(Mixed(events, ctx), before, last, ctx);
      assert entries == before + [last];
    }
  }

  lemma {:induction false} MixedChanged(events: seq<BurstEvent>, changes: seq<ModeChange>, ctx: Context)
    ensures Mixed(events + ChangedEvents(changes), ctx) == PrefixesChanged(Mixed(events, ctx), changes, ctx)
    ensures ChangesOf(events + ChangedEvents(changes)) == ChangesOf(events) + changes
    decreases |changes|
  {
    hide PrefixChanged;
    hide Mixed;
    hide ChangesOf;
    if changes == [] {
      assert events + ChangedEvents(changes) == events && ChangesOf(events) + changes == ChangesOf(events);
    } else {
      var before, last := changes[..|changes| - 1], changes[|changes| - 1];
      MixedChanged(events, before, ctx);
      assert events + ChangedEvents(changes) == (events + ChangedEvents(before)) + [Changed(last)];
      EventSnoc(events + ChangedEvents(before), Changed(last), ctx);
      PrefixesChangedSnoc(Mixed(events, ctx), before, last, ctx);
      assert changes == before + [last];
      assert ChangesOf(events) + before + [last] == ChangesOf(events) + changes;
    }
  }

  lemma {:induction false} PrefixKindAppend(first: seq<ModeChange>, second: seq<ModeChange>)
    ensures PrefixKindOnly(first + second) == PrefixKindOnly(first) + PrefixKindOnly(second)
  {
    if first == [] {
      assert first + second == second;
    } else {
      assert (first + second)[1..] == first[1..] + second;
      PrefixKindAppend(first[1..], second);
    }
  }

  /** Only prefix changes are kept for the replay, and only they would do anything in it. */
  lemma {:induction false} ReplayOfPrefixKind(members: MemberMap, changes: seq<ModeChange>, ctx: Context)
    ensures PrefixesChanged(members, PrefixKindOnly(changes), ctx) == PrefixesChanged(members, changes, ctx)
    decreases |changes|
  {
    hide ApplyPrefixes;
    if changes == [] {
    } else {
      ReplayOfPrefixKind(PrefixChanged(members, changes[0], ctx), changes[1..], ctx);
      if changes[0].kind == PrefixKind {
        assert PrefixKindOnly(changes)[1..] == PrefixKindOnly(changes[1..]);
      } else {
        assert PrefixKindOnly(changes) == PrefixKindOnly(changes[1..]);
      }
    }
  }

  /** The channel in mid-burst: the members are the mix so far, and every prefix change so far waits. */
  ghost predicate Tracks(s: Network, events: seq<BurstEvent>, key: Text, ctx: Context) {
    BurstAt(s, key) == Some(Burst(Mixed(events, ctx), true, PrefixKindOnly(ChangesOf(events))))
  }

  lemma StepTracks(s: Network, events: seq<BurstEvent>, msg: Message, key: Text, ctx: Context, now: int)
    requires Tracks(s, events, key, ctx) && InBurst(msg, key, ctx)
    ensures Tracks(Reduce(s, msg, ctx, now).state, events + EventsIn(msg, key, ctx), key, ctx)
  {
    hide Reduce;
    hide InBurst;
    hide NamesFor;
    hide ModesFor;
    hide PrefixesChanged;
    hide EntriesListed;
    hide Mixed;
    hide ChangesOf;
    StepInBurst(s, msg, key, ctx, now);
    MixedListed(events, NamesEntries(msg, ctx), ctx);
    MixedChanged(events, ModeChanges(msg, ctx), ctx);
    PrefixKindAppend(ChangesOf(events), ModeChanges(msg, ctx));
    assert events + [] == events;
  }

  /** Nothing is streaming for the channel, and so nothing waits; it may not exist yet. */
  predicate AtRest(s: Network, key: Text) {
    key in s.channels ==> !s.channels[key].namesLoading && s.channels[key].pendingPrefixChanges == []
  }

  lemma ReduceNames(s: Network, msg: Message, key: Text, ctx: Context, now: int)
    requires VerbFor(msg.command).NamesVerb? || VerbFor(msg.command).NamesEndVerb?
    ensures var counted := Counted(s, msg, ctx, now);
            BurstAt(Reduce(s, msg, ctx, now).state, key)
              == BurstAt(if VerbFor(msg.command).NamesVerb? then Named(counted, msg, ctx)
                         else NamesEnded(counted, msg, ctx), key)
  {
    hide VerbFor;
    hide Reduce;
    hide Counted;
    hide Named;
    hide NamesEnded;
    ReduceBurst(s, msg, key, ctx, now);
  }

  lemma FirstNames(s: Network, msg: Message, key: Text, ctx: Context, now: int)
    requires AtRest(s, key) && NamesFor(msg, key, ctx)
    ensures Tracks(Reduce(s, msg, ctx, now).state, EventsIn(msg, key, ctx), key, ctx)
  {
    hide EntriesListed;
    hide Reduce;
    hide Counted;
    hide VerbFor;
    hide Named;
    hide NamesEnded;
    hide NamesEntries;
    hide ListedEvents;
    hide IsChannel;
    hide KeyOf;
    var counted := Counted(s, msg, ctx, now);
    var entries := NamesEntries(msg, ctx);
    CountedBurst(s, msg, ctx, now);
    FirstNamed(counted, msg, key, ctx);
    ReduceNames(s, msg, key, ctx, now);
    MixedListed([], entries, ctx);
    assert [] + ListedEvents(entries) == ListedEvents(entries);
  }

  lemma FirstNamed(s: Network, msg: Message, key: Text, ctx: Context)
    requires AtRest(s, key) && NamesFor(msg, key, ctx)
    ensures BurstAt(Named(s, msg, ctx), key) == Some(Burst(EntriesListed(map[], NamesEntries(msg, ctx), ctx), true, []))
  {
    hide VerbFor;
    hide NamesEntries;
    hide EntriesListed;
    hide WithConversation;
    hide IsChannel;
    var name := Arg(msg, 2);
    FiledBurst(s, name, NamesChannel(Conversation(s, name, ctx), name, NamesEntries(msg, ctx), ctx), key, ctx);
  }

  /** A run that opens with a NAMES reply for the channel and stays within the burst. */
  predicate IsBurst(arrivals: seq<Arrived>, key: Text, ctx: Context) {
    && arrivals != [] && NamesFor(arrivals[0].msg, key, ctx)
    && forall a | a in arrivals :: InBurst(a.msg, key, ctx)
  }

  lemma {:induction false} BurstTracks(s: Network, arrivals: seq<Arrived>, key: Text, ctx: Context)
    requires AtRest(s, key) && IsBurst(arrivals, key, ctx)
    ensures Tracks(ReduceAll(s, arrivals, ctx), EventsOf(arrivals, key, ctx), key, ctx)
    decreases |arrivals|
  {
    hide Reduce;
    hide Tracks;
    hide InBurst;
    hide NamesFor;
    hide EventsIn;
    var before, last := arrivals[..|arrivals| - 1], arrivals[|arrivals| - 1];
    assert last in arrivals;
    if before == [] {
      FirstNames(s, last.msg, key, ctx, last.now);
      assert EventsOf(before, key, ctx) + EventsIn(last.msg, key, ctx) == EventsIn(last.msg, key, ctx);
      assert ReduceAll(s, before, ctx) == s;
    } else {
      BurstTracks(s, before, key, ctx);
      StepTracks(ReduceAll(s, before, ctx), EventsOf(before, key, ctx), last.msg, key, ctx, last.now);
    }
  }

  lemma EndOfBurst(s: Network, msg: Message, key: Text, ctx: Context, now: int)
    requires key in s.channels && EndFor(msg, key, ctx)
    ensures BurstAt(Reduce(s, msg, ctx, now).state, key)
         == Some(Burst(PrefixesChanged(s.channels[key].members, s.channels[key].pendingPrefixChanges, ctx), false, []))
  {
    hide Reduce;
    hide Counted;
    hide VerbFor;
    hide Named;
    hide NamesEnded;
    hide PrefixesChanged;
    hide IsChannel;
    hide KeyOf;
    CountedBurst(s, msg, ctx, now);
    ReduceNames(s, msg, key, ctx, now);
    EndNamed(Counted(s, msg, ctx, now), msg, key, ctx);
  }

  lemma EndNamed(s: Network, msg: Message, key: Text, ctx: Context)
    requires key in s.channels && EndFor(msg, key, ctx)
    ensures BurstAt(NamesEnded(s, msg, ctx), key)
         == Some(Burst(PrefixesChanged(s.channels[key].members, s.channels[key].pendingPrefixChanges, ctx), false, []))
  {
    hide VerbFor;
    hide PrefixesChanged;
    hide WithConversation;
    hide IsChannel;
    var name := Arg(msg, 1);
    FiledBurst(s, name, NamesEndChannel(Conversation(s, name, ctx), name, ctx), key, ctx);
  }

  /**
    * NAMES and MODE are confluent. However the replies of a NAMES burst and
    * prefix-changing modes interleave, and whatever else that is not about the
    * channel's members arrives among them, the members after the end of NAMES
    * are those given by all the names followed by all the modes, each in order
    * of arrival: no mode is lost, none applied twice.
    */
  lemma BurstIsConfluent(s: Network, arrivals: seq<Arrived>, end: Arrived, key: Text, ctx: Context)
    requires AtRest(s, key) && IsBurst(arrivals, key, ctx) && EndFor(end.msg, key, ctx)
    ensures var events := EventsOf(arrivals, key, ctx);
            var after := Reduce(ReduceAll(s, arrivals, ctx), end.msg, ctx, end.now).state;
            && AtRest(after, key) && key in after.channels
            && after.channels[key].members
                 == PrefixesChanged(EntriesListed(map[], EntriesOf(events), ctx), ChangesOf(events), ctx)
  {
    hide Reduce;
    hide IsBurst;
    hide EndFor;
    hide PrefixesChanged;
    hide EntriesListed;
    var events := EventsOf(arrivals, key, ctx);
    BurstTracks(s, arrivals, key, ctx);
    EndOfBurst(ReduceAll(s, arrivals, ctx), end.msg, key, ctx, end.now);
    ReplayOfPrefixKind(Mixed(events, ctx), ChangesOf(events), ctx);
    ReplayIsConfluent(events, ctx);
  }

  /**
    * The same from any state the client can be in: after any history at all, a
    * channel that is not streaming names has nothing waiting, so a burst that
    * starts then is confluent.
    */
  lemma BurstAfterAnyHistory(
      nick: Text, rules: seq<Rule>, history: seq<Arrived>, arrivals: seq<Arrived>, end: Arrived,
      key: Text, ctx: Context)
    requires var s := ReduceAll(StartRegistration(InitialNetwork(nick), nick).(ignores := rules), history, ctx);
             key in s.channels ==> !s.channels[key].namesLoading
    requires IsBurst(arrivals, key, ctx) && EndFor(end.msg, key, ctx)
    ensures var s := ReduceAll(StartRegistration(InitialNetwork(nick), nick).(ignores := rules), history, ctx);
            var after := Reduce(ReduceAll(s, arrivals, ctx), end.msg, ctx, end.now).state;
            var events := EventsOf(arrivals, key, ctx);
            key in after.channels
            && after.channels[key].members
                 == PrefixesChanged(EntriesListed(map[], EntriesOf(events), ctx), ChangesOf(events), ctx)
  {
    hide Reduce;
    hide ReduceAll;
    hide IsBurst;
    hide EndFor;
    var s := ReduceAll(StartRegistration(InitialNetwork(nick), nick).(ignores := rules), history, ctx);
    RunsStaySound(nick, rules, history, ctx);
    BurstIsConfluent(s, arrivals, end, key, ctx);
  }

  /**
    * Why a PART, a QUIT or a NICK is not allowed in the burst: whoever a waiting
    * change names is in the list after the replay, whether or not they were
    * still there before it - and nobody else comes or goes.
    */
  lemma {:induction false} ReplayBringsBack(members: MemberMap, pending: seq<ModeChange>, key: Text, ctx: Context)
    ensures key in PrefixesChanged(members, pending, ctx) <==>
              key in members || exists c :: c in pending && Targets(c, key, ctx)
    decreases |pending|
  {
    hide ApplyPrefixes;
    if pending == [] {
    } else {
      ReplayBringsBack(PrefixChanged(members, pending[0], ctx), pending[1..], key, ctx);
      assert forall c :: c in pending <==> c == pending[0] || c in pending[1..];
      assert key in PrefixChanged(members, pending[0], ctx) <==> key in members || Targets(pending[0], key, ctx);
    }
  }
}
