/**
  * What reaches a conversation's buffer: for every message and every
  * conversation the line the message writes there, if any, and that the reducer
  * writes that line and no other.
  */
module Delivery {
  import opened Units
  import opened ISupport
  import opened CaseFolding
  import opened MessageTags
  import opened Messages
  import opened CtcpCodec
  import opened Members
  import opened MuteList
  import opened MessageBuffer
  import opened NetworkState
  import opened Reducer
  import Batches
  import CommandWords

  /** A place where lines can go: a channel or a private conversation, under its folded name. */
  datatype Place = Place(isChannel: bool, key: Text)

  /** A name that begins with one of the server's channel types is a channel's. */
  function PlaceOf(name: Text, ctx: Context): Place {
    Place(name != [] && name[0] in ctx.support.chanTypes, Fold(name, ctx.support.caseMapping))
  }

  function At(s: Network, place: Place): Option<Channel> {
    var all := if place.isChannel then s.channels else s.queries;
    if place.key in all then Some(all[place.key]) else None
  }

  function LinesIn(channel: Option<Channel>): Buffer {
    if channel.Some? then channel.value.messages else []
  }

  function Lines(s: Network, place: Place): Buffer {
    LinesIn(At(s, place))
  }

  /** Two names for the same person. */
  predicate Same(a: Text, b: Text, ctx: Context) {
    Fold(a, ctx.support.caseMapping) == Fold(b, ctx.support.caseMapping)
  }

  predicate Has(channel: Option<Channel>, nick: Text, ctx: Context) {
    channel.Some? && Fold(nick, ctx.support.caseMapping) in channel.value.members
  }

  // ---------- What the line is ----------

  /** The server's time where it gives one that can be read, and otherwise the time of arrival. */
  predicate IsStamped(e: Entry, msg: Message, ctx: Context, now: int) {
    var stamp := GetTag(msg.tags, Ascii("time"));
    var stamped := stamp.Some? && stamp.value != [] && ctx.readTime(stamp.value).Some?;
    e.fromServerTime == stamped && e.at == if stamped then ctx.readTime(stamp.value).value else now
  }

  /** The server's account for the sender; a star is none. */
  function AccountOf(msg: Message): Option<Text> {
    var account := GetTag(msg.tags, Ascii("account"));
    if account == Some([0x2a]) then None else account
  }

  /** The entry for a message, field by field. */
  predicate IsEntryOf(e: Entry, msg: Message, kind: EntryKind, target: Text, text: Text, ctx: Context, now: int) {
    var id := GetTag(msg.tags, Ascii("msgid"));
    && e.kind == kind && e.target == target && e.text == text
    && e.source == msg.source && e.tags == msg.tags && !e.pending && IsStamped(e, msg, ctx, now)
    && e.id == (if id.Some? && id.value != [] then id.value
                else DerivedId(e.at, if msg.source.Some? then msg.source.value.nick else [], target, text))
    && e.account == AccountOf(msg)
    && e.replyTo == GetTag(msg.tags, Ascii("+draft/reply"))
  }

  lemma EntryInWords(msg: Message, kind: EntryKind, target: Text, text: Text, ctx: Context, now: int)
    ensures IsEntryOf(BuildEntry(msg, kind, target, text, ctx, now), msg, kind, target, text, ctx, now)
  {
  }

  // ---------- Which line goes where ----------

  predicate Says(msg: Message) {
    VerbFor(msg.command).PrivmsgVerb? || VerbFor(msg.command).NoticeVerb?
  }

  predicate IsAction(ctcp: Ctcp) {
    ctcp.command == Ascii("ACTION")
  }

  /** What was said, without the mark of a `/me`. */
  function Speech(msg: Message): (bool, Text) {
    var ctcp := Decode(Arg(msg, 1));
    if ctcp.Some? && IsAction(ctcp.value) then (true, ctcp.value.params) else (false, Arg(msg, 1))
  }

  /** A CTCP request or answer from somebody else, which is not conversation. */
  predicate IsRequest(own: Text, msg: Message, ctx: Context) {
    && Decode(Arg(msg, 1)).Some? && !Speech(msg).0
    && SenderOf(msg) != [] && !Same(SenderOf(msg), own, ctx)
  }

  /** The server's own words to us, which go to its tab. */
  predicate IsServers(msg: Message, ctx: Context) {
    && VerbFor(msg.command).NoticeVerb? && !PlaceOf(Arg(msg, 0), ctx).isChannel
    && (|| Arg(msg, 0) == Ascii("*")
        || msg.source.None?
        || (msg.source.value.user == [] && msg.source.value.host == [] && DOT in msg.source.value.nick))
  }

  /** Where something said belongs: a private message with the person, whoever of the two wrote it. */
  function Subject(own: Text, msg: Message, ctx: Context): Text {
    if !PlaceOf(Arg(msg, 0), ctx).isChannel && Same(Arg(msg, 0), own, ctx) then SenderOf(msg) else Arg(msg, 0)
  }

  function SpeechLine(own: Text, msg: Message, ctx: Context, now: int): Entry {
    var (isAction, text) := Speech(msg);
    var kind := if VerbFor(msg.command).NoticeVerb? then NoticeLine else if isAction then ActionLine else PrivmsgLine;
    BuildEntry(msg, kind, Subject(own, msg, ctx), text, ctx, now)
  }

  function AfterColon(reason: Text): Text {
    if reason == [] then [] else Ascii(": ") + reason
  }

  function Setter(msg: Message): Text {
    if msg.source.Some? then msg.source.value.nick else Ascii("someone")
  }

  /** What the line about someone coming or going says. */
  function ComingText(verb: Verb, msg: Message): Text {
    match verb
    case JoinVerb => SenderOf(msg) + Ascii(" joined")
    case PartVerb => SenderOf(msg) + Ascii(" left") + AfterColon(Arg(msg, 1))
    case _ => SenderOf(msg) + Ascii(" disconnected") + AfterColon(Arg(msg, 0))
  }

  function EventText(verb: Verb, msg: Message): Text {
    match verb
    case KickVerb => Arg(msg, 1) + Ascii(" was removed by ") + Setter(msg) + AfterColonIfGiven(msg)
    case NickVerb => SenderOf(msg) + Ascii(" is now known as ") + Arg(msg, 0)
    case ModeVerb => Trim(Join(if |msg.params| > 1 then msg.params[1..] else [], SPACE))
    case TopicVerb => Setter(msg) + Ascii(" changed the topic to: ") + Arg(msg, 1)
    case _ => ComingText(verb, msg)
  }

  /** A kick's reason is shown even when it is empty. */
  function AfterColonIfGiven(msg: Message): Text {
    if |msg.params| > 2 then Ascii(": ") + msg.params[2] else []
  }

  /** An event's line in one place, if it has one there. */
  function EventLine(before: Option<Channel>, msg: Message, place: Place, ctx: Context, now: int): Option<Entry> {
    var name := Arg(msg, 0);
    var about := before.Some? && place == Place(true, Fold(name, ctx.support.caseMapping));
    var present := place.isChannel && Has(before, SenderOf(msg), ctx);
    var text := EventText(VerbFor(msg.command), msg);
    match VerbFor(msg.command)
    case JoinVerb => if place == PlaceOf(name, ctx) then Some(BuildEntry(msg, JoinLine, name, text, ctx, now)) else None
    case PartVerb => if about then Some(BuildEntry(msg, PartLine, name, text, ctx, now)) else None
    case KickVerb => if about then Some(BuildEntry(msg, KickLine, name, text, ctx, now)) else None
    case TopicVerb => if about then Some(BuildEntry(msg, TopicLine, name, text, ctx, now)) else None
    case ModeVerb =>
      if about && PlaceOf(name, ctx).isChannel then Some(BuildEntry(msg, ModeLine, name, text, ctx, now)) else None
    case QuitVerb =>
      if present then Some(BuildEntry(msg, QuitLine, before.value.name, text, ctx, now)) else None
    case NickVerb =>
      if present then Some(BuildEntry(msg, NickLine, before.value.name, text, ctx, now)) else None
    case _ => None
  }

  /** The lines of a conversation after an unmuted message: they depend on the conversation and our own nick alone. */
  function LinesAfter(before: Option<Channel>, own: Text, msg: Message, place: Place, ctx: Context, now: int): Buffer {
    var lines, event, subject := LinesIn(before), EventLine(before, msg, place, ctx, now), Subject(own, msg, ctx);
    if event.Some? then Insert(lines, event.value, 10_000)
    else if !Says(msg) || IsRequest(own, msg, ctx) || IsServers(msg, ctx) || place != PlaceOf(subject, ctx) then lines
    else if Same(SenderOf(msg), own, ctx) then Reconcile(lines, SpeechLine(own, msg, ctx, now))
    else Insert(lines, SpeechLine(own, msg, ctx, now), 10_000)
  }

  // ---------- Command by command ----------

  lemma FiledLines(s: Network, target: Text, channel: Channel, place: Place, ctx: Context)
    ensures Lines(WithConversation(s, target, channel, ctx), place)
         == if place == PlaceOf(target, ctx) then channel.messages else Lines(s, place)
    ensures Conversation(s, target, ctx).messages == Lines(s, PlaceOf(target, ctx))
  {
  }

  lemma AddedLines(channel: Channel, entry: Entry)
    ensures Added(channel, entry).messages == Insert(channel.messages, entry, 10_000)
  {
  }

  /** The reducer's words for an event are these. */
  lemma EventTexts(msg: Message)
    ensures EventText(JoinVerb, msg) == SenderOf(msg) + Ascii(" joined")
    ensures EventText(PartVerb, msg) == Reasoned(SenderOf(msg) + Ascii(" left"), Arg(msg, 1))
    ensures EventText(QuitVerb, msg) == Reasoned(SenderOf(msg) + Ascii(" disconnected"), Arg(msg, 0))
    ensures EventText(ModeVerb, msg) == ModeLineText(msg)
  {
    assert forall t: Text :: t + [] == t;
    if |msg.params| > 1 {
      assert msg.params[1..] == [msg.params[1]] + if |msg.params| > 2 then msg.params[2..] else [];
    }
  }

  lemma JoinLines(s: Network, msg: Message, place: Place, ctx: Context, now: int)
    requires VerbFor(msg.command).JoinVerb?
    ensures Lines(Joined(s, msg, ctx, now), place) == LinesAfter(At(s, place), s.nick, msg, place, ctx, now)
  {
    hide VerbFor;
    hide WithConversation;
    hide Conversation;
    hide Added;
    hide BuildEntry;
    hide Insert;
    hide IsSelf;
    hide LinesIn;
    hide At;
    hide ArrivalOf;
    hide Upsert;
    var channel := Conversation(s, Arg(msg, 0), ctx);
    EventTexts(msg);
    FiledLines(s, Arg(msg, 0), JoinedChannel(s, channel, msg, ctx, now), place, ctx);
    forall c: Channel, entry: Entry ensures Added(c, entry).messages == Insert(c.messages, entry, 10_000) {
      AddedLines(c, entry);
    }
  }

  lemma PartLines(s: Network, msg: Message, place: Place, ctx: Context, now: int)
    requires VerbFor(msg.command).PartVerb?
    ensures Lines(Parted(s, msg, ctx, now), place) == LinesAfter(At(s, place), s.nick, msg, place, ctx, now)
  {
    EventTexts(msg);
    hide VerbFor;
    hide BuildEntry;
    hide Insert;
    hide IsSelf;
    hide Remove;
    hide EventText;
    hide Reasoned;
  }

  lemma KickLines(s: Network, msg: Message, place: Place, ctx: Context, now: int)
    requires VerbFor(msg.command).KickVerb?
    ensures Lines(Kicked(s, msg, ctx, now), place) == LinesAfter(At(s, place), s.nick, msg, place, ctx, now)
  {
    hide VerbFor;
    hide BuildEntry;
    hide Insert;
    hide IsSelf;
    hide Remove;
  }

  lemma QuitLines(s: Network, msg: Message, place: Place, ctx: Context, now: int)
    requires VerbFor(msg.command).QuitVerb?
    ensures Lines(Quitted(s, msg, ctx, now), place) == LinesAfter(At(s, place), s.nick, msg, place, ctx, now)
  {
    EventTexts(msg);
    hide VerbFor;
    hide BuildEntry;
    hide Insert;
    hide Remove;
    hide EventText;
    hide Reasoned;
  }

  lemma NickLines(s: Network, msg: Message, place: Place, ctx: Context, now: int)
    requires VerbFor(msg.command).NickVerb?
    ensures Lines(Renamed(s, msg, ctx, now), place) == LinesAfter(At(s, place), s.nick, msg, place, ctx, now)
  {
    hide VerbFor;
    hide BuildEntry;
    hide Insert;
    hide IsSelf;
    hide Rename;
  }

  lemma ModeLines(s: Network, msg: Message, place: Place, ctx: Context, now: int)
    requires VerbFor(msg.command).ModeVerb?
    ensures Lines(Moded(s, msg, ctx, now), place) == LinesAfter(At(s, place), s.nick, msg, place, ctx, now)
  {
    EventTexts(msg);
    hide VerbFor;
    hide BuildEntry;
    hide Insert;
    hide PrefixesChanged;
    hide ModeChanges;
    hide UserModesAfter;
    hide EventText;
    hide ModeLineText;
  }

  lemma TopicLines(s: Network, msg: Message, place: Place, ctx: Context, now: int)
    requires VerbFor(msg.command).TopicVerb?
    ensures Lines(TopicSet(s, msg, ctx, now), place) == LinesAfter(At(s, place), s.nick, msg, place, ctx, now)
  {
    hide VerbFor;
    hide BuildEntry;
    hide Insert;
    hide TimeOf;
  }

  lemma SpeechIs(s: Network, msg: Message, ctx: Context)
    ensures ConversationName(s, msg, ctx) == Subject(s.nick, msg, ctx)
    ensures CtcpIn(s, msg, ctx).Some? <==> IsRequest(s.nick, msg, ctx)
    ensures DecodeAction(Arg(msg, 1)) == if Speech(msg).0 then Some(Speech(msg).1) else None
    ensures !Speech(msg).0 ==> Speech(msg).1 == Arg(msg, 1)
    ensures IsSelf(s, SenderOf(msg), ctx) <==> Same(SenderOf(msg), s.nick, ctx)
    ensures IsServers(msg, ctx) <==>
              (VerbFor(msg.command).NoticeVerb? && !IsChannel(Arg(msg, 0), ctx.support)
               && IsServerNotice(msg, Arg(msg, 0)))
  {
    hide VerbFor;
    hide Decode;
    assert Ascii("*") == [STAR];
  }

  lemma LineTakenLines(s: Network, msg: Message, place: Place, ctx: Context, now: int)
    ensures Lines(LineTaken(s, msg, ctx, now).state, place)
         == if place != PlaceOf(Subject(s.nick, msg, ctx), ctx) then Lines(s, place)
            else if Same(SenderOf(msg), s.nick, ctx) then Reconcile(Lines(s, place), SpeechLine(s.nick, msg, ctx, now))
            else Insert(Lines(s, place), SpeechLine(s.nick, msg, ctx, now), 10_000)
  {
    SpeechIs(s, msg, ctx);
    hide VerbFor;
    hide BuildEntry;
    hide WithConversation;
    hide Conversation;
    hide ConversationName;
    hide Subject;
    hide DecodeAction;
    hide Speech;
    hide IsSelf;
    hide Same;
    hide LineEffects;
    hide Insert;
    hide Reconcile;
    hide Lines;
    hide PlaceOf;
    var subject, line := Subject(s.nick, msg, ctx), SpeechLine(s.nick, msg, ctx, now);
    var channel := Conversation(s, subject, ctx);
    var echoed := channel.(name := subject, messages := Reconcile(channel.messages, line));
    FiledLines(s, subject, echoed, place, ctx);
    FiledLines(s, subject, Added(channel, line), place, ctx);
    AddedLines(channel, line);
  }

  lemma RequestLines(s: Network, msg: Message, place: Place, ctx: Context, now: int)
    requires CtcpIn(s, msg, ctx).Some?
    ensures Lines(Spoken(s, msg, ctx, now).state, place) == Lines(s, place)
  {
    hide VerbFor;
    hide BuildEntry;
    hide LineTaken;
    hide CtcpTaken;
    hide CtcpIn;
    hide Lines;
    CtcpFrame(s, CtcpIn(s, msg, ctx).value, msg, ctx, now);
    SameChannelsSameLines(s, Spoken(s, msg, ctx, now).state, place);
  }

  lemma ServersLines(s: Network, entry: Entry, place: Place)
    ensures Lines(Noticed(s, entry), place) == Lines(s, place)
  {
  }

  lemma SpokenLines(s: Network, msg: Message, place: Place, ctx: Context, now: int)
    requires Says(msg)
    ensures Lines(Spoken(s, msg, ctx, now).state, place) == LinesAfter(At(s, place), s.nick, msg, place, ctx, now)
  {
    SpeechIs(s, msg, ctx);
    LineTakenLines(s, msg, place, ctx, now);
    SaidIsNoEvent(s, msg, place, ctx, now);
    ServersLines(s, BuildEntry(msg, ServerLine, [], Arg(msg, 1), ctx, now), place);
    hide Says;
    hide VerbFor;
    hide BuildEntry;
    hide LineTaken;
    hide CtcpTaken;
    hide CtcpIn;
    hide IsRequest;
    hide IsServers;
    hide IsServerNotice;
    hide Subject;
    hide Same;
    hide SpeechLine;
    hide Speech;
    hide EventLine;
    hide Insert;
    hide Reconcile;
    hide PlaceOf;
    hide At;
    hide LinesIn;
    hide Noticed;
    if CtcpIn(s, msg, ctx).Some? {
      RequestLines(s, msg, place, ctx, now);
    }
  }

  lemma SameChannelsSameLines(s: Network, t: Network, place: Place)
    requires s.channels == t.channels && s.queries == t.queries
    ensures Lines(s, place) == Lines(t, place)
  {
  }

  /** News of a person, wherever they are, writes no line. */
  lemma AmendedLines(s: Network, nick: Text, update: Update, place: Place, ctx: Context)
    ensures var hear := (c: Channel) => c.(members := Upsert(c.members, nick, MapOf(ctx), update));
            Lines(s.(channels := AmendedWhere(s.channels, nick, MapOf(ctx), hear)), place) == Lines(s, place)
  {
    hide Upsert;
    hide IsMember;
  }

  lemma HeardLines(s: Network, msg: Message, place: Place, ctx: Context)
    ensures Lines(Heard(s, msg, ctx), place) == Lines(s, place)
  {
    AmendedLines(s, SenderOf(msg), NewsOf(msg), place, ctx);
    hide VerbFor;
    hide NewsOf;
    hide Upsert;
    hide IsSelf;
    hide AmendedWhere;
  }

  lemma WhoLines(s: Network, msg: Message, place: Place, ctx: Context)
    ensures Lines(WhoHeard(s, msg, ctx), place) == Lines(s, place)
  {
    AmendedLines(s, Arg(msg, 5), WhoDetails(msg, ctx), place, ctx);
    hide Upsert;
    hide WhoDetails;
    hide AmendedWhere;
    hide KeyOf;
  }

  lemma FiledSilently(s: Network, name: Text, channel: Channel, place: Place, ctx: Context)
    requires channel.messages == Conversation(s, name, ctx).messages
    ensures Lines(WithConversation(s, name, channel, ctx), place) == Lines(s, place)
  {
    FiledLines(s, name, channel, place, ctx);
  }

  lemma ReplyLines(s: Network, msg: Message, place: Place, ctx: Context, now: int)
    ensures Lines(Named(s, msg, ctx), place) == Lines(s, place)
    ensures Lines(NamesEnded(s, msg, ctx), place) == Lines(s, place)
    ensures Lines(Replied(s, msg, ctx), place) == Lines(s, place)
  {
    hide VerbFor;
    hide WithConversation;
    hide Conversation;
    hide Lines;
    hide EntriesListed;
    hide NamesEntries;
    hide PrefixesChanged;
    hide RepliedTopic;
    hide RepliedModes;
    var names, end, reply := Arg(msg, 2), Arg(msg, 1), Arg(msg, 1);
    FiledSilently(s, names, NamesChannel(Conversation(s, names, ctx), names, NamesEntries(msg, ctx), ctx), place, ctx);
    FiledSilently(s, end, NamesEndChannel(Conversation(s, end, ctx), end, ctx), place, ctx);
    FiledSilently(s, reply, RepliedChannel(Conversation(s, reply, ctx), msg, ctx), place, ctx);
  }

  lemma StandingLines(s: Network, msg: Message, place: Place, ctx: Context, now: int)
    ensures Lines(Welcomed(s, msg), place) == Lines(s, place)
    ensures Lines(NickRefused(s, msg, ctx, now).state, place) == Lines(s, place)
    ensures Lines(Standing(s, msg, ctx, now).state, place) == Lines(s, place)
  {
    hide VerbFor;
    hide BuildEntry;
    hide NextNick;
    hide PartingWords;
    hide PhaseAfter;
    hide AccountAfter;
  }

  predicate IsEvent(verb: Verb) {
    verb in {JoinVerb, PartVerb, QuitVerb, NickVerb, KickVerb, ModeVerb, TopicVerb}
  }

  lemma QuietLines(s: Network, msg: Message, place: Place, ctx: Context, now: int)
    requires !IsEvent(VerbFor(msg.command)) && !Says(msg)
    ensures Lines(Apply(s, msg, ctx, now).state, place) == Lines(s, place)
    ensures LinesAfter(At(s, place), s.nick, msg, place, ctx, now) == Lines(s, place)
  {
    HeardLines(s, msg, place, ctx);
    WhoLines(s, msg, place, ctx);
    ReplyLines(s, msg, place, ctx, now);
    StandingLines(s, msg, place, ctx, now);
    hide VerbFor;
    hide LinesIn;
    hide At;
    hide Heard;
    hide WhoHeard;
    hide Named;
    hide NamesEnded;
    hide Replied;
    hide Welcomed;
    hide NickRefused;
    hide Standing;
    hide BuildEntry;
  }

  lemma EventLines(s: Network, msg: Message, place: Place, ctx: Context, now: int)
    requires IsEvent(VerbFor(msg.command))
    ensures Lines(Apply(s, msg, ctx, now).state, place) == LinesAfter(At(s, place), s.nick, msg, place, ctx, now)
  {
    hide VerbFor;
    hide Lines;
    hide LinesAfter;
    hide Joined;
    hide Parted;
    hide Quitted;
    hide Renamed;
    hide Kicked;
    hide Moded;
    hide TopicSet;
    match VerbFor(msg.command)
    case JoinVerb => JoinLines(s, msg, place, ctx, now);
    case PartVerb => PartLines(s, msg, place, ctx, now);
    case KickVerb => KickLines(s, msg, place, ctx, now);
    case QuitVerb => QuitLines(s, msg, place, ctx, now);
    case NickVerb => NickLines(s, msg, place, ctx, now);
    case ModeVerb => ModeLines(s, msg, place, ctx, now);
    case _ => TopicLines(s, msg, place, ctx, now);
  }

  lemma ApplyLines(s: Network, msg: Message, place: Place, ctx: Context, now: int)
    ensures Lines(Apply(s, msg, ctx, now).state, place) == LinesAfter(At(s, place), s.nick, msg, place, ctx, now)
  {
    hide VerbFor;
    hide Lines;
    hide LinesAfter;
    hide Spoken;
    if IsEvent(VerbFor(msg.command)) {
      EventLines(s, msg, place, ctx, now);
    } else if Says(msg) {
      SpokenLines(s, msg, place, ctx, now);
    } else {
      QuietLines(s, msg, place, ctx, now);
    }
  }

  // ---------- Mutes ----------

  /** Whether a rule's scope covers this message. */
  predicate Includes(scope: Scope, msg: Message) {
    match VerbFor(msg.command)
    case PrivmsgVerb | TagmsgVerb =>
      if Arg(msg, 1) != [] && Arg(msg, 1)[0] == 0x01 then scope.ctcp else scope.messages
    case NoticeVerb => scope.notices
    case InviteVerb => scope.invites
    case JoinVerb | PartVerb | QuitVerb | NickVerb | ModeVerb => scope.events
    case _ => false
  }

  /** Who wrote it, as a mask is matched against: a star for what is not known. */
  function WrittenBy(source: Source): Text {
    var user, host := if source.user == [] then Ascii("*") else source.user, source.host;
    source.nick + Ascii("!") + user + Ascii("@") + if host == [] then Ascii("*") else host
  }

  /** Some rule in force covers the message, and its mask, completed, matches the sender - who is not us. */
  predicate Muted(s: Network, msg: Message, ctx: Context, now: int) {
    && msg.source.Some? && msg.source.value.nick != [] && !Same(msg.source.value.nick, s.nick, ctx)
    && exists rule | rule in s.ignores ::
         && Includes(rule.scope, msg)
         && (rule.expiresAt.None? || rule.expiresAt.value > now)
         && Glob(Fold(CompleteMask(rule.mask), MapOf(ctx)), Fold(WrittenBy(msg.source.value), MapOf(ctx)))
  }

  lemma SuppressedInWords(s: Network, msg: Message, ctx: Context, now: int)
    ensures Suppressed(s, msg, ctx, now) <==> Muted(s, msg, ctx, now)
  {
    hide VerbFor;
    hide Glob;
    hide CompleteMask;
    assert Ascii("*") == [STAR] && Ascii("!") == [BANG] && Ascii("@") == [AT];
    if msg.source.Some? {
      assert WrittenBy(msg.source.value) == HostmaskOf(msg.source.value);
    }
    hide WrittenBy;
    hide HostmaskOf;
    hide Fold;
  }

  // ---------- Every message ----------

  /** Nothing said of a person or a channel makes a conversation disappear. */
  lemma EventsKeepPlaces(s: Network, msg: Message, place: Place, ctx: Context, now: int)
    requires PartFor(VerbFor(msg.command)) == Some(EventsPart) && At(s, place).Some?
    ensures At(Apply(s, msg, ctx, now).state, place).Some?
  {
    hide VerbFor;
    hide At;
    hide Apply;
    hide Joined;
    hide Parted;
    hide Quitted;
    hide Renamed;
    hide Moded;
    EventsApply(s, msg, ctx, now);
    KeepsPlaces(s, msg, place, ctx, now);
    match VerbFor(msg.command)
    case JoinVerb =>
    case PartVerb =>
    case QuitVerb =>
    case NickVerb =>
    case _ =>
  }

  lemma EventsApply(s: Network, msg: Message, ctx: Context, now: int)
    requires PartFor(VerbFor(msg.command)) == Some(EventsPart)
    ensures var t := Apply(s, msg, ctx, now).state;
            && (VerbFor(msg.command).JoinVerb? ==> t == Joined(s, msg, ctx, now))
            && (VerbFor(msg.command).PartVerb? ==> t == Parted(s, msg, ctx, now))
            && (VerbFor(msg.command).QuitVerb? ==> t == Quitted(s, msg, ctx, now))
            && (VerbFor(msg.command).NickVerb? ==> t == Renamed(s, msg, ctx, now))
            && (VerbFor(msg.command).ModeVerb? ==> t == Moded(s, msg, ctx, now))
  {
    hide VerbFor;
    hide Joined;
    hide Parted;
    hide Quitted;
    hide Renamed;
    hide Moded;
  }

  lemma KeepsPlaces(s: Network, msg: Message, place: Place, ctx: Context, now: int)
    requires At(s, place).Some?
    ensures At(Joined(s, msg, ctx, now), place).Some? && At(Parted(s, msg, ctx, now), place).Some?
    ensures At(Quitted(s, msg, ctx, now), place).Some? && At(Renamed(s, msg, ctx, now), place).Some?
    ensures At(Moded(s, msg, ctx, now), place).Some?
  {
    hide BuildEntry;
    hide IsSelf;
    hide IsChannel;
    hide Conversation;
    hide JoinedChannel;
    hide PartedChannel;
    hide QuitChannel;
    hide RenamedChannel;
    hide AmendedIf;
    hide ModedChannel;
    hide UserModesAfter;
    hide KeyOf;
  }

  lemma KeptLines(before: Network, after: Network, place: Place)
    requires At(before, place).Some? ==> At(after, place).Some?
    ensures Lines(KeepingBuffers(before, after), place) == Lines(before, place)
  {
  }

  lemma CountedIsAlike(s: Network, msg: Message, place: Place, ctx: Context, now: int)
    ensures var counted := Counted(s, msg, ctx, now);
            && At(counted, place) == At(s, place) && counted.nick == s.nick
            && (Muted(counted, msg, ctx, now) <==> Muted(s, msg, ctx, now))
  {
    hide Includes;
    hide Glob;
    hide WrittenBy;
    hide CompleteMask;
    hide Fold;
  }

  lemma PageKeepsLines(channel: Channel, batch: Batches.Count)
    ensures PageDone(channel, batch).messages == channel.messages
  {
  }

  lemma HistoryLines(s: Network, target: Text, batch: Batches.Count, place: Place, ctx: Context)
    ensures Lines(HistoryDone(s, target, batch, ctx), place) == Lines(s, place)
  {
    var key := KeyOf(target, ctx);
    if key in s.channels {
      PageKeepsLines(s.channels[key], batch);
    } else if key in s.queries {
      PageKeepsLines(s.queries[key], batch);
    }
    hide PageDone;
    hide KeyOf;
  }

  lemma BatchLines(s: Network, msg: Message, place: Place, ctx: Context)
    ensures Lines(BatchHandled(s, msg, ctx), place) == Lines(s, place)
  {
    hide HistoryDone;
    hide LiveOldest;
    hide Batches.MarkOf;
    hide Batches.Marked;
    var marked := s.(batches := Batches.Marked(s.batches, msg, LiveOldest(s, msg, ctx)));
    forall target: Text, batch: Batches.Count
      ensures Lines(HistoryDone(marked, target, batch, ctx), place) == Lines(s, place)
    {
      HistoryLines(marked, target, batch, place, ctx);
    }
  }

  lemma BatchWritesNothing(s: Network, msg: Message, place: Place, ctx: Context, now: int)
    requires VerbFor(msg.command).BatchVerb?
    ensures LinesAfter(At(s, place), s.nick, msg, place, ctx, now) == Lines(s, place)
  {
    hide VerbFor;
  }

  /**
    * Every message and every conversation: the lines there are what the message
    * makes of them - unless a rule mutes it, and then they are as they were.
    */
  lemma LinesFollowMessages(s: Network, msg: Message, place: Place, ctx: Context, now: int)
    ensures Lines(Reduce(s, msg, ctx, now).state, place)
         == if Muted(s, msg, ctx, now) then Lines(s, place) else LinesAfter(At(s, place), s.nick, msg, place, ctx, now)
  {
    hide VerbFor;
    hide Apply;
    hide BatchHandled;
    hide KeepingBuffers;
    hide Suppressed;
    hide Muted;
    hide LinesIn;
    hide LinesAfter;
    hide At;
    hide Counted;
    var counted := Counted(s, msg, ctx, now);
    CountedIsAlike(s, msg, place, ctx, now);
    SuppressedInWords(counted, msg, ctx, now);
    ApplyLines(counted, msg, place, ctx, now);
    if VerbFor(msg.command).BatchVerb? {
      BatchLines(counted, msg, place, ctx);
      BatchWritesNothing(s, msg, place, ctx, now);
    } else if PartFor(VerbFor(msg.command)) == Some(EventsPart) {
      if At(counted, place).Some? {
        EventsKeepPlaces(counted, msg, place, ctx, now);
      }
      KeptLines(counted, Apply(counted, msg, ctx, now).state, place);
    }
  }

  /** The line of a PRIVMSG or NOTICE: its kind, and its text without the marks of a `/me`. */
  predicate IsLineFor(e: Entry, s: Network, msg: Message, ctx: Context, now: int) {
    var notice := msg.command == Ascii("NOTICE");
    var kind := if notice then NoticeLine else if Speech(msg).0 then ActionLine else PrivmsgLine;
    IsEntryOf(e, msg, kind, Subject(s.nick, msg, ctx), Speech(msg).1, ctx, now)
  }

  lemma SpeechLineInWords(s: Network, msg: Message, ctx: Context, now: int)
    requires msg.command == Ascii("PRIVMSG") || msg.command == Ascii("NOTICE")
    ensures Says(msg) && IsLineFor(SpeechLine(s.nick, msg, ctx, now), s, msg, ctx, now)
  {
    CommandWords.Speaking(msg.command);
    assert Ascii("NOTICE")[0] != Ascii("PRIVMSG")[0];
    hide VerbFor;
    hide BuildEntry;
    hide IsEntryOf;
    hide Subject;
    hide Speech;
    forall kind ensures IsEntryOf(BuildEntry(msg, kind, Subject(s.nick, msg, ctx), Speech(msg).1, ctx, now), msg, kind,
                                  Subject(s.nick, msg, ctx), Speech(msg).1, ctx, now)
    {
      EntryInWords(msg, kind, Subject(s.nick, msg, ctx), Speech(msg).1, ctx, now);
    }
  }

  lemma SaidIsNoEvent(s: Network, msg: Message, place: Place, ctx: Context, now: int)
    requires Says(msg)
    ensures EventLine(At(s, place), msg, place, ctx, now).None?
  {
    hide VerbFor;
  }

  lemma EntriesAreUnique(e: Entry, f: Entry, s: Network, msg: Message, ctx: Context, now: int)
    requires IsLineFor(e, s, msg, ctx, now) && IsLineFor(f, s, msg, ctx, now)
    ensures e == f
  {
    hide Subject;
    hide Speech;
  }

  /**
    * A line somebody says, to a channel or to us, is put in the buffer of that
    * channel or of that person, under the kind and text it has, and in no other:
    * an unmuted PRIVMSG or NOTICE that is no CTCP request and not the server's.
    */
  lemma SpokenLineArrives(s: Network, msg: Message, place: Place, e: Entry, ctx: Context, now: int)
    requires msg.command == Ascii("PRIVMSG") || msg.command == Ascii("NOTICE")
    requires !Muted(s, msg, ctx, now) && !IsRequest(s.nick, msg, ctx) && !IsServers(msg, ctx)
    requires IsLineFor(e, s, msg, ctx, now)
    ensures Lines(Reduce(s, msg, ctx, now).state, place)
         == if place != PlaceOf(Subject(s.nick, msg, ctx), ctx) then Lines(s, place)
            else if Same(SenderOf(msg), s.nick, ctx) then Reconcile(Lines(s, place), e)
            else Insert(Lines(s, place), e, 10_000)
  {
    SpeechLineInWords(s, msg, ctx, now);
    EntriesAreUnique(e, SpeechLine(s.nick, msg, ctx, now), s, msg, ctx, now);
    SaidIsNoEvent(s, msg, place, ctx, now);
    LinesFollowMessages(s, msg, place, ctx, now);
    hide Says;
    hide Reduce;
    hide Muted;
    hide IsRequest;
    hide IsServers;
    hide IsLineFor;
    hide SpeechLine;
    hide Insert;
    hide Reconcile;
    hide EventLine;
    hide Lines;
    hide Subject;
    hide PlaceOf;
  }
}
