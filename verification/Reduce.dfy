/**
  * The reducer: one parsed message in, the new state, lines to send and effects
  * out. Batch bookkeeping and the mute list come first, then one case a command.
  */
module Reducer {
  import opened Units
  import opened ISupport
  import opened CaseFolding
  import opened MessageTags
  import opened Messages
  import Escapes
  import opened CtcpCodec
  import opened DccOffers
  import opened Members
  import opened Modes
  import opened MuteList
  import opened MessageBuffer
  import opened NetworkState
  import Batches

  // ---------- Commands ----------

  datatype Verb =
    | PingVerb | PongVerb | JoinVerb | PartVerb | QuitVerb | NickVerb | KickVerb | ModeVerb | TopicVerb
    | PrivmsgVerb | NoticeVerb | TagmsgVerb | InviteVerb | AwayVerb | AccountVerb | ChghostVerb | SetnameVerb
    | BatchVerb | WelcomeVerb | NamesVerb | NamesEndVerb | NickRefusedVerb
    | WhoVerb | TopicReplyVerb | NoTopicVerb | TopicSetterVerb | ModeReplyVerb | DetailReplyVerb
    | AwayStateVerb | LoggedInVerb | LoggedOutVerb | MotdEndVerb | ErrorVerb | OtherVerb

  function MembershipVerb(command: Text): Option<Verb> {
    if command == Ascii("JOIN") then Some(JoinVerb)
    else if command == Ascii("PART") then Some(PartVerb)
    else if command == Ascii("QUIT") then Some(QuitVerb)
    else if command == Ascii("NICK") then Some(NickVerb)
    else if command == Ascii("KICK") then Some(KickVerb)
    else if command == Ascii("MODE") then Some(ModeVerb)
    else if command == Ascii("TOPIC") then Some(TopicVerb)
    else None
  }

  function SpeechVerb(command: Text): Option<Verb> {
    if command == Ascii("PING") then Some(PingVerb)
    else if command == Ascii("PONG") then Some(PongVerb)
    else if command == Ascii("PRIVMSG") then Some(PrivmsgVerb)
    else if command == Ascii("NOTICE") then Some(NoticeVerb)
    else if command == Ascii("TAGMSG") then Some(TagmsgVerb)
    else if command == Ascii("INVITE") then Some(InviteVerb)
    else None
  }

  function NewsVerb(command: Text): Option<Verb> {
    if command == Ascii("AWAY") then Some(AwayVerb)
    else if command == Ascii("ACCOUNT") then Some(AccountVerb)
    else if command == Ascii("CHGHOST") then Some(ChghostVerb)
    else if command == Ascii("SETNAME") then Some(SetnameVerb)
    else None
  }

  function NumericVerb(command: Text): Option<Verb> {
    if command == Ascii("001") then Some(WelcomeVerb)
    else if command == Ascii("353") then Some(NamesVerb)
    else if command == Ascii("366") then Some(NamesEndVerb)
    else if command in {Ascii("432"), Ascii("433"), Ascii("436"), Ascii("437")} then Some(NickRefusedVerb)
    else None
  }

  /** Replies about a channel that the server sends on a join or when asked. */
  function ReplyVerb(command: Text): Option<Verb> {
    if command == Ascii("324") then Some(ModeReplyVerb)
    else if command == Ascii("331") then Some(NoTopicVerb)
    else if command == Ascii("332") then Some(TopicReplyVerb)
    else if command == Ascii("333") then Some(TopicSetterVerb)
    else if command == Ascii("352") then Some(WhoVerb)
    else if IsDetailReply(command) then Some(DetailReplyVerb)
    else None
  }

  /** The creation time and the four mask lists, whose contents are not modelled. */
  predicate IsDetailReply(command: Text) {
    || command in {Ascii("329"), Ascii("367"), Ascii("368"), Ascii("728"), Ascii("729")}
    || command in {Ascii("346"), Ascii("347"), Ascii("348"), Ascii("349")}
  }

  function StatusVerb(command: Text): Option<Verb> {
    if command == Ascii("ERROR") then Some(ErrorVerb)
    else if command in {Ascii("305"), Ascii("306")} then Some(AwayStateVerb)
    else if command == Ascii("900") then Some(LoggedInVerb)
    else if command == Ascii("901") then Some(LoggedOutVerb)
    else if command in {Ascii("376"), Ascii("422")} then Some(MotdEndVerb)
    else None
  }

  function VerbFor(command: Text): Verb {
    if command == Batches.BATCH then BatchVerb
    else if MembershipVerb(command).Some? then MembershipVerb(command).value
    else if SpeechVerb(command).Some? then SpeechVerb(command).value
    else if NewsVerb(command).Some? then NewsVerb(command).value
    else if NumericVerb(command).Some? then NumericVerb(command).value
    else if ReplyVerb(command).Some? then ReplyVerb(command).value
    else if StatusVerb(command).Some? then StatusVerb(command).value
    else OtherVerb
  }

  function Arg(msg: Message, i: nat): Text {
    Batches.Param(msg, i)
  }

  function LastArg(msg: Message): Text {
    if msg.params == [] then [] else msg.params[|msg.params| - 1]
  }

  function SenderOf(msg: Message): Text {
    if msg.source.Some? then msg.source.value.nick else []
  }

  // ---------- Beginning ----------

  function InitialNetwork(nick: Text): Network {
    Network(Disconnected, nick, [], {}, None, false, map[], map[], [], [], map[], map[])
  }

  function StartRegistration(s: Network, nick: Text): Network {
    s.(phase := Registering, nick := nick, triedNicks := [nick])
  }

  // ---------- Building entries ----------

  function ServerTime(tags: Tags, ctx: Context): Option<int> {
    match GetTag(tags, Ascii("time"))
    case None => None
    case Some(raw) => if raw == [] then None else ctx.readTime(raw)
  }

  function TimeOf(msg: Message, ctx: Context, now: int): int {
    var time := ServerTime(msg.tags, ctx);
    if time.Some? then time.value else now
  }

  function BuildEntry(msg: Message, kind: EntryKind, target: Text, text: Text, ctx: Context, now: int): Entry {
    var at := TimeOf(msg, ctx, now);
    var given := GetTag(msg.tags, Ascii("msgid"));
    var account := GetTag(msg.tags, Ascii("account"));
    Entry(
      if given.Some? && given.value != [] then given.value else DerivedId(at, SenderOf(msg), target, text),
      kind, at, ServerTime(msg.tags, ctx).Some?, msg.source, target, text,
      if account == Some([STAR]) then None else account,
      GetTag(msg.tags, Ascii("+draft/reply")), false, msg.tags)
  }

  function Added(channel: Channel, entry: Entry): Channel {
    channel.(messages := Insert(channel.messages, entry, MESSAGE_LIMIT))
  }

  // ---------- Conversations ----------

  function MapOf(ctx: Context): CaseMapping {
    ctx.support.caseMapping
  }

  function KeyOf(name: Text, ctx: Context): Text {
    Fold(name, MapOf(ctx))
  }

  predicate IsSelf(s: Network, nick: Text, ctx: Context) {
    SameTarget(nick, s.nick, MapOf(ctx))
  }

  function Lookup(channels: Channels, name: Text, ctx: Context): Channel {
    if KeyOf(name, ctx) in channels then channels[KeyOf(name, ctx)] else EmptyChannel(name)
  }

  function Conversation(s: Network, target: Text, ctx: Context): Channel {
    Lookup(if IsChannel(target, ctx.support) then s.channels else s.queries, target, ctx)
  }

  function WithConversation(s: Network, target: Text, channel: Channel, ctx: Context): Network {
    if IsChannel(target, ctx.support) then s.(channels := s.channels[KeyOf(target, ctx) := channel])
    else s.(queries := s.queries[KeyOf(target, ctx) := channel])
  }

  function AmendedIf(channel: Channel, nick: Text, mapping: CaseMapping, amend: Channel -> Channel): Channel {
    if IsMember(channel.members, nick, mapping) then amend(channel) else channel
  }

  /** A change to every channel a person is in; the others stay as they are. */
  function AmendedWhere(channels: Channels, nick: Text, mapping: CaseMapping, amend: Channel -> Channel): Channels {
    map k | k in channels :: AmendedIf(channels[k], nick, mapping, amend)
  }

  lemma AmendedOrNot(channel: Channel, nick: Text, mapping: CaseMapping, amend: Channel -> Channel)
    ensures AmendedIf(channel, nick, mapping, amend)
         == if IsMember(channel.members, nick, mapping) then amend(channel) else channel
  {
  }

  method AmendWhere(channels: Channels, nick: Text, mapping: CaseMapping, amend: Channel -> Channel)
    returns (r: Channels)
    ensures r == AmendedWhere(channels, nick, mapping, amend)
  {
    hide IsMember;
    hide AmendedIf;
    r := channels;
    var left := channels.Keys;
    while left != {}
      invariant left <= channels.Keys && r.Keys == channels.Keys
      invariant forall k | k in left :: r[k] == channels[k]
      invariant forall k | k in channels && k !in left :: r[k] == AmendedIf(channels[k], nick, mapping, amend)
      decreases |left|
    {
      var key :| key in left;
      AmendedOrNot(channels[key], nick, mapping, amend);
      if IsMember(channels[key].members, nick, mapping) {
        r := r[key := amend(channels[key])];
      }
      left := left - {key};
    }
    assert left == {};
  }

  // ---------- Membership ----------

  /** What a join says of a person; `extended-join` adds the account and the real name. */
  function ArrivalOf(msg: Message): Update {
    var source := Or(msg.source, Source([], [], [], []));
    NO_UPDATE.(
      nick := Some(SenderOf(msg)), user := Some(source.user), host := Some(source.host),
      account := if |msg.params| > 1 then Some(if msg.params[1] == [STAR] then None else Some(msg.params[1])) else None,
      realname := if |msg.params| > 2 then Some(msg.params[2]) else None)
  }

  function JoinedChannel(s: Network, channel: Channel, msg: Message, ctx: Context, now: int): Channel {
    var name, nick := Arg(msg, 0), SenderOf(msg);
    Added(channel.(name := name, joined := IsSelf(s, nick, ctx) || channel.joined,
                   members := Upsert(channel.members, nick, MapOf(ctx), ArrivalOf(msg))),
          BuildEntry(msg, JoinLine, name, nick + Ascii(" joined"), ctx, now))
  }

  function Joined(s: Network, msg: Message, ctx: Context, now: int): Network {
    var name := Arg(msg, 0);
    WithConversation(s, name, JoinedChannel(s, Conversation(s, name, ctx), msg, ctx, now), ctx)
  }

  function Reasoned(text: Text, reason: Text): Text {
    if reason == [] then text else text + Ascii(": ") + reason
  }

  /** Our own departure empties the member list; anyone else's takes one person off it. */
  function Departed(channel: Channel, self: bool, nick: Text, ctx: Context): Channel {
    if self then channel.(joined := false, members := map[])
    else channel.(members := Remove(channel.members, nick, MapOf(ctx)))
  }

  function PartEntry(msg: Message, ctx: Context, now: int): Entry {
    BuildEntry(msg, PartLine, Arg(msg, 0), Reasoned(SenderOf(msg) + Ascii(" left"), Arg(msg, 1)), ctx, now)
  }

  function PartedChannel(s: Network, channel: Channel, msg: Message, ctx: Context, now: int): Channel {
    Added(Departed(channel, IsSelf(s, SenderOf(msg), ctx), SenderOf(msg), ctx), PartEntry(msg, ctx, now))
  }

  function Parted(s: Network, msg: Message, ctx: Context, now: int): Network {
    var key := KeyOf(Arg(msg, 0), ctx);
    if key !in s.channels then s
    else s.(channels := s.channels[key := PartedChannel(s, s.channels[key], msg, ctx, now)])
  }

  function QuitChannel(channel: Channel, msg: Message, ctx: Context, now: int): Channel {
    var nick := SenderOf(msg);
    var text := Reasoned(nick + Ascii(" disconnected"), Arg(msg, 0));
    Added(channel.(members := Remove(channel.members, nick, MapOf(ctx))),
          BuildEntry(msg, QuitLine, channel.name, text, ctx, now))
  }

  function Quitted(s: Network, msg: Message, ctx: Context, now: int): Network {
    s.(channels := AmendedWhere(s.channels, SenderOf(msg), MapOf(ctx), c => QuitChannel(c, msg, ctx, now)))
  }

  function RenamedChannel(channel: Channel, msg: Message, ctx: Context, now: int): Channel {
    var from, to := SenderOf(msg), Arg(msg, 0);
    Added(channel.(members := Rename(channel.members, from, to, MapOf(ctx))),
          BuildEntry(msg, NickLine, channel.name, from + Ascii(" is now known as ") + to, ctx, now))
  }

  function Renamed(s: Network, msg: Message, ctx: Context, now: int): Network {
    var from := SenderOf(msg);
    var channels := AmendedWhere(s.channels, from, MapOf(ctx), c => RenamedChannel(c, msg, ctx, now));
    s.(channels := channels, nick := if IsSelf(s, from, ctx) then Arg(msg, 0) else s.nick)
  }

  function KickEntry(msg: Message, ctx: Context, now: int): Entry {
    var setter := if msg.source.Some? then msg.source.value.nick else Ascii("someone");
    var reason := if |msg.params| > 2 then Ascii(": ") + msg.params[2] else [];
    BuildEntry(msg, KickLine, Arg(msg, 0), Arg(msg, 1) + Ascii(" was removed by ") + setter + reason, ctx, now)
  }

  function KickedChannel(s: Network, channel: Channel, msg: Message, ctx: Context, now: int): Channel {
    Added(Departed(channel, IsSelf(s, Arg(msg, 1), ctx), Arg(msg, 1), ctx), KickEntry(msg, ctx, now))
  }

  function Kicked(s: Network, msg: Message, ctx: Context, now: int): Network {
    var key := KeyOf(Arg(msg, 0), ctx);
    if key !in s.channels then s
    else s.(channels := s.channels[key := KickedChannel(s, s.channels[key], msg, ctx, now)])
  }

  /** `updateMemberEverywhere`, for the four commands that report news of a person. */
  function NewsOf(msg: Message): Update {
    match VerbFor(msg.command)
    case AwayVerb => NO_UPDATE.(away := Some(Arg(msg, 0) != []))
    case AccountVerb => NO_UPDATE.(account := Some(NewAccount(msg)))
    case ChghostVerb => NO_UPDATE.(user := Some(Arg(msg, 0)), host := Some(Arg(msg, 1)))
    case _ => NO_UPDATE.(realname := Some(Arg(msg, 0)))
  }

  function NewAccount(msg: Message): Option<Text> {
    if msg.params == [] || msg.params[0] == [STAR] then None else Some(msg.params[0])
  }

  function Heard(s: Network, msg: Message, ctx: Context): Network {
    var nick := SenderOf(msg);
    var update := NewsOf(msg);
    var channels := AmendedWhere(s.channels, nick, MapOf(ctx),
      (c: Channel) => c.(members := Upsert(c.members, nick, MapOf(ctx), update)));
    var self := IsSelf(s, nick, ctx);
    s.(channels := channels,
       away := if VerbFor(msg.command).AwayVerb? && self then Arg(msg, 0) != [] else s.away,
       account := if VerbFor(msg.command).AccountVerb? && self then NewAccount(msg) else s.account)
  }

  // ---------- Modes, topic ----------

  /** One prefix change to a member list; a change without a nick does nothing. */
  function PrefixChanged(members: MemberMap, change: ModeChange, ctx: Context): MemberMap {
    if change.kind != PrefixKind || change.parameter.None? then members
    else
      var nick := change.parameter.value;
      var held := Existing(members, KeyOf(nick, ctx), nick).prefixes;
      Upsert(members, nick, MapOf(ctx), NO_UPDATE.(prefixes := Some(ApplyPrefixes(held, [change], ctx.support))))
  }

  function PrefixesChanged(members: MemberMap, changes: seq<ModeChange>, ctx: Context): MemberMap
    decreases |changes|
  {
    if changes == [] then members else PrefixesChanged(PrefixChanged(members, changes[0], ctx), changes[1..], ctx)
  }

  method ChangePrefixes(members: MemberMap, changes: seq<ModeChange>, ctx: Context) returns (r: MemberMap)
    ensures r == PrefixesChanged(members, changes, ctx)
  {
    r := members;
    for i := 0 to |changes|
      invariant PrefixesChanged(r, changes[i..], ctx) == PrefixesChanged(members, changes, ctx)
    {
      assert changes[i..][1..] == changes[i + 1..];
      var change := changes[i];
      if change.kind != PrefixKind || change.parameter.None? {
        continue;
      }
      var nick := change.parameter.value;
      var prefixes := ApplyPrefixChanges(Existing(r, KeyOf(nick, ctx), nick).prefixes, [change], ctx.support);
      r := Upsert(r, nick, MapOf(ctx), NO_UPDATE.(prefixes := Some(prefixes)));
    }
  }

  function PrefixKindOnly(changes: seq<ModeChange>): seq<ModeChange> {
    if changes == [] then []
    else (if changes[0].kind == PrefixKind then [changes[0]] else []) + PrefixKindOnly(changes[1..])
  }

  function ModeChanges(msg: Message, ctx: Context): seq<ModeChange> {
    ParseModes(Arg(msg, 1), Batches.ParamsFrom(msg, 2), ctx.support).changes
  }

  /** The words of a mode line, one space apart. */
  function ModeLineText(msg: Message): Text {
    Trim(Join([Arg(msg, 1)] + Batches.ParamsFrom(msg, 2), SPACE))
  }

  function ModedChannel(channel: Channel, msg: Message, ctx: Context, now: int): Channel {
    var changes := ModeChanges(msg, ctx);
    Added(channel.(
            modes := ApplyModes(channel.modes, changes),
            members := PrefixesChanged(channel.members, changes, ctx),
            pendingPrefixChanges :=
              if channel.namesLoading then channel.pendingPrefixChanges + PrefixKindOnly(changes)
              else channel.pendingPrefixChanges),
          BuildEntry(msg, ModeLine, Arg(msg, 0), ModeLineText(msg), ctx, now))
  }

  function UserModesAfter(modes: set<Unit>, text: Text, add: bool): set<Unit>
    decreases |text|
  {
    if text == [] then modes
    else if text[0] == PLUS then UserModesAfter(modes, text[1..], true)
    else if text[0] == MINUS then UserModesAfter(modes, text[1..], false)
    else UserModesAfter(if add then modes + {text[0]} else modes - {text[0]}, text[1..], add)
  }

  function Moded(s: Network, msg: Message, ctx: Context, now: int): Network {
    var target := Arg(msg, 0);
    var key := KeyOf(target, ctx);
    if !IsChannel(target, ctx.support) then s.(userModes := UserModesAfter(s.userModes, Arg(msg, 1), true))
    else if key !in s.channels then s
    else s.(channels := s.channels[key := ModedChannel(s.channels[key], msg, ctx, now)])
  }

  function TopicChannel(channel: Channel, msg: Message, ctx: Context, now: int): Channel {
    var setter := if msg.source.Some? then msg.source.value.nick else Ascii("someone");
    var text := setter + Ascii(" changed the topic to: ") + Arg(msg, 1);
    var setBy := if msg.source.Some? then Some(msg.source.value.nick) else None;
    Added(channel.(topic := Some(Topic(Arg(msg, 1), setBy, Some(TimeOf(msg, ctx, now))))),
          BuildEntry(msg, TopicLine, Arg(msg, 0), text, ctx, now))
  }

  function TopicSet(s: Network, msg: Message, ctx: Context, now: int): Network {
    var key := KeyOf(Arg(msg, 0), ctx);
    if key !in s.channels then s
    else s.(channels := s.channels[key := TopicChannel(s.channels[key], msg, ctx, now)])
  }

  // ---------- NAMES ----------

  datatype NamesEntry = NamesEntry(prefixes: Text, nick: Text)

  predicate IsPrefixUnit(u: Unit, support: Support) {
    exists e | e in support.prefixes :: e.prefix == u
  }

  function PrefixRun(entry: Text, i: nat, support: Support): (n: nat)
    requires i <= |entry|
    ensures i <= n <= |entry|
    decreases |entry| - i
  {
    if i == |entry| || !IsPrefixUnit(entry[i], support) then i else PrefixRun(entry, i + 1, support)
  }

  function SplitPrefixes(entry: Text, support: Support): NamesEntry {
    NamesEntry(entry[..PrefixRun(entry, 0, support)], entry[PrefixRun(entry, 0, support)..])
  }

  function ReadEntries(words: seq<Text>, support: Support): seq<NamesEntry> {
    if words == [] then []
    else (if words[0] == [] then [] else [SplitPrefixes(words[0], support)]) + ReadEntries(words[1..], support)
  }

  function NamesEntries(msg: Message, ctx: Context): seq<NamesEntry> {
    ReadEntries(Split(LastArg(msg), SPACE), ctx.support)
  }

  function EntryListed(members: MemberMap, entry: NamesEntry, ctx: Context): MemberMap {
    Upsert(members, entry.nick, MapOf(ctx), NO_UPDATE.(nick := Some(entry.nick), prefixes := Some(entry.prefixes)))
  }

  function EntriesListed(members: MemberMap, entries: seq<NamesEntry>, ctx: Context): MemberMap
    decreases |entries|
  {
    if entries == [] then members else EntriesListed(EntryListed(members, entries[0], ctx), entries[1..], ctx)
  }

  method ListEntries(members: MemberMap, entries: seq<NamesEntry>, ctx: Context) returns (r: MemberMap)
    ensures r == EntriesListed(members, entries, ctx)
  {
    r := members;
    for i := 0 to |entries|
      invariant EntriesListed(r, entries[i..], ctx) == EntriesListed(members, entries, ctx)
    {
      assert entries[i..][1..] == entries[i + 1..];
      r := EntryListed(r, entries[i], ctx);
    }
  }

  function NamesChannel(channel: Channel, name: Text, entries: seq<NamesEntry>, ctx: Context): Channel {
    channel.(name := name, namesLoading := true,
             members := EntriesListed(if channel.namesLoading then channel.members else map[], entries, ctx))
  }

  function Named(s: Network, msg: Message, ctx: Context): Network {
    var name := Arg(msg, 2);
    WithConversation(s, name, NamesChannel(Conversation(s, name, ctx), name, NamesEntries(msg, ctx), ctx), ctx)
  }

  function NamesEndChannel(channel: Channel, name: Text, ctx: Context): Channel {
    channel.(name := name, namesLoading := false, pendingPrefixChanges := [],
             members := PrefixesChanged(channel.members, channel.pendingPrefixChanges, ctx))
  }

  function NamesEnded(s: Network, msg: Message, ctx: Context): Network {
    var name := Arg(msg, 1);
    WithConversation(s, name, NamesEndChannel(Conversation(s, name, ctx), name, ctx), ctx)
  }

  // ---------- Replies about a channel ----------

  /** Seconds as the server writes them, in milliseconds. */
  function ToDate(seconds: Text): Option<int> {
    if IsNumber(seconds) && DecimalValue(seconds) * 1000 <= MAX_SAFE_INTEGER then Some(DecimalValue(seconds) * 1000)
    else None
  }

  function RepliedTopic(topic: Option<Topic>, msg: Message): Option<Topic> {
    var known := Or(topic, Topic([], None, None));
    match VerbFor(msg.command)
    case TopicReplyVerb => Some(known.(text := LastArg(msg)))
    case TopicSetterVerb => Some(Topic(known.text, Some(Arg(msg, 2)), ToDate(Arg(msg, 3))))
    case NoTopicVerb => None
    case _ => topic
  }

  function RepliedModes(modes: ChannelModes, msg: Message, ctx: Context): ChannelModes {
    if VerbFor(msg.command).ModeReplyVerb?
    then ApplyModes(modes, ParseModes(Arg(msg, 2), Batches.ParamsFrom(msg, 3), ctx.support).changes)
    else modes
  }

  function RepliedChannel(channel: Channel, msg: Message, ctx: Context): Channel {
    channel.(name := Arg(msg, 1), topic := RepliedTopic(channel.topic, msg),
             modes := RepliedModes(channel.modes, msg, ctx))
  }

  function Replied(s: Network, msg: Message, ctx: Context): Network {
    var name := Arg(msg, 1);
    WithConversation(s, name, RepliedChannel(Conversation(s, name, ctx), msg, ctx), ctx)
  }

  function AdvertisedIn(flags: Text, support: Support): Text {
    if flags == [] then []
    else (if IsPrefixUnit(flags[0], support) then [flags[0]] else []) + AdvertisedIn(flags[1..], support)
  }

  /** What a WHO reply says of a person. */
  function WhoDetails(msg: Message, ctx: Context): Update {
    var flags, trailing := Arg(msg, 6), Arg(msg, 7);
    var prefixes := AdvertisedIn(flags, ctx.support);
    var space := Find(trailing, SPACE);
    Update(
      Some(Arg(msg, 5)), Some(Arg(msg, 2)), Some(Arg(msg, 3)), None,
      Some(if space == |trailing| then [] else trailing[space + 1..]),
      Some(flags != [] && flags[0] == 0x47), Some(0x42 in flags),
      if prefixes == [] then None else Some(prefixes))
  }

  /** A WHO reply adds to the channel it names; about a channel we do not have, it only brings news. */
  function WhoHeard(s: Network, msg: Message, ctx: Context): Network {
    var key, nick, details := KeyOf(Arg(msg, 1), ctx), Arg(msg, 5), WhoDetails(msg, ctx);
    var hear := (c: Channel) => c.(members := Upsert(c.members, nick, MapOf(ctx), details));
    if key in s.channels then s.(channels := s.channels[key := hear(s.channels[key])])
    else s.(channels := AmendedWhere(s.channels, nick, MapOf(ctx), hear))
  }

  // ---------- Our own standing ----------

  function PhaseAfter(phase: Phase, msg: Message): Phase {
    match VerbFor(msg.command)
    case MotdEndVerb => Registered
    case ErrorVerb => Disconnected
    case _ => phase
  }

  function AccountAfter(account: Option<Text>, msg: Message): Option<Text> {
    match VerbFor(msg.command)
    case LoggedInVerb => if |msg.params| > 2 then Some(msg.params[2]) else account
    case LoggedOutVerb => None
    case _ => account
  }

  /** The server's parting words, when it has any. */
  function PartingWords(msg: Message, ctx: Context, now: int): Buffer {
    if VerbFor(msg.command).ErrorVerb? && LastArg(msg) != []
    then [BuildEntry(msg, ErrorLine, [], LastArg(msg), ctx, now)] else []
  }

  function Standing(s: Network, msg: Message, ctx: Context, now: int): Reduction {
    var verb := VerbFor(msg.command);
    Reduction(
      s.(phase := PhaseAfter(s.phase, msg),
         away := if verb.AwayStateVerb? then msg.command == Ascii("306") else s.away,
         account := AccountAfter(s.account, msg),
         notices := s.notices + PartingWords(msg, ctx, now)),
      [], if verb.MotdEndVerb? then [RegistrationDone] else [])
  }

  // ---------- Conversation ----------

  function Noticed(s: Network, entry: Entry): Network {
    s.(notices := s.notices + [entry])
  }

  predicate IsServerNotice(msg: Message, target: Text) {
    || target == [STAR]
    || msg.source.None?
    || (msg.source.value.user == [] && msg.source.value.host == [] && DOT in msg.source.value.nick)
  }

  /** A private message is filed under its sender. */
  function ConversationName(s: Network, msg: Message, ctx: Context): Text {
    var target := Arg(msg, 0);
    if IsChannel(target, ctx.support) then target
    else if IsSelf(s, target, ctx) then SenderOf(msg)
    else target
  }

  /** The CTCP request or reply in the body, unless it is an ACTION or our own. */
  function CtcpIn(s: Network, msg: Message, ctx: Context): Option<Ctcp> {
    var body := Arg(msg, 1);
    if DecodeAction(body).None? && !IsSelf(s, SenderOf(msg), ctx) && SenderOf(msg) != [] then Decode(body) else None
  }

  predicate IsDccSendOffer(ctcp: Ctcp) {
    ctcp.command == DCC && VariantOf(UpperAscii(ctcp.params[..Find(ctcp.params, SPACE)])).Some?
  }

  function ReplyLine(sender: Text, answer: Text): Text {
    var space := Find(answer, SPACE);
    Ascii("NOTICE ") + sender + [SPACE, COLON]
      + Encode(answer[..space], if space == |answer| then [] else answer[space + 1..])
  }

  function CtcpTaken(s: Network, ctcp: Ctcp, msg: Message, ctx: Context, now: int): Reduction {
    var sender, conversation := SenderOf(msg), ConversationName(s, msg, ctx);
    var notice := BuildEntry(msg, ServerLine, conversation, ctx.wording(msg), ctx, now);
    var privmsg := VerbFor(msg.command).PrivmsgVerb?;
    var host := if msg.source.Some? then Some(msg.source.value.host) else None;
    if privmsg && ctcp.command == DCC && ctx.isDccAccept(ctcp) then
      Reduction(s, [], [DccAccepted(sender, ctcp.params)])
    else if privmsg && ctcp.command == DCC && ParseDccSend(ctcp).Some? then
      Reduction(Noticed(s, notice), [], [DccOffered(sender, conversation, ParseDccSend(ctcp).value, host)])
    else if privmsg && IsDccSendOffer(ctcp) then
      Reduction(s, [], [DccUnreadable(sender, conversation, ctcp.params)])
    else
      var answer := if privmsg then ctx.ctcpAnswer(ctcp, now) else None;
      var versions :=
        if !privmsg && ctcp.command == Ascii("VERSION") && ctcp.params != []
        then s.ctcpVersions[KeyOf(sender, ctx) := ctcp.params] else s.ctcpVersions;
      Reduction(Noticed(s, notice).(ctcpVersions := versions),
                if answer.Some? then [ReplyLine(sender, answer.value)] else [], [])
  }

  /** Effects of an ordinary line: a catalogue entry, or a bot's answer. */
  function LineEffects(s: Network, msg: Message, ctx: Context): seq<Effect> {
    var sender, body, conversation := SenderOf(msg), Arg(msg, 1), ConversationName(s, msg, ctx);
    if DecodeAction(body).Some? then []
    else
      (if ctx.isXdccOffer(body) then [XdccOffered(sender, conversation, body)] else [])
        + (if VerbFor(msg.command).NoticeVerb? && ctx.isXdccAnswer(body)
           then [XdccAnswered(sender, conversation, body)] else [])
  }

  function LineTaken(s: Network, msg: Message, ctx: Context, now: int): Reduction {
    var body, conversation := Arg(msg, 1), ConversationName(s, msg, ctx);
    var action := DecodeAction(body);
    var kind := if VerbFor(msg.command).NoticeVerb? then NoticeLine
                else if action.None? then PrivmsgLine else ActionLine;
    var entry := BuildEntry(msg, kind, conversation, if action.Some? then action.value else body, ctx, now);
    var channel := Conversation(s, conversation, ctx);
    if IsSelf(s, SenderOf(msg), ctx) then
      Reduction(WithConversation(s, conversation,
                  channel.(name := conversation, messages := Reconcile(channel.messages, entry)), ctx), [], [])
    else
      Reduction(WithConversation(s, conversation, Added(channel, entry), ctx), [], LineEffects(s, msg, ctx))
  }

  function Spoken(s: Network, msg: Message, ctx: Context, now: int): Reduction {
    var ctcp := CtcpIn(s, msg, ctx);
    var target := Arg(msg, 0);
    if ctcp.Some? then CtcpTaken(s, ctcp.value, msg, ctx, now)
    else if VerbFor(msg.command).NoticeVerb? && !IsChannel(target, ctx.support) && IsServerNotice(msg, target) then
      Reduction(Noticed(s, BuildEntry(msg, ServerLine, [], Arg(msg, 1), ctx, now)), [], [])
    else LineTaken(s, msg, ctx, now)
  }

  // ---------- Nick collisions ----------

  function TriedKeys(tried: seq<Text>, mapping: CaseMapping): set<Text> {
    set nick | nick in tried :: Fold(nick, mapping)
  }

  function FirstUntried(candidates: seq<Text>, tried: set<Text>, mapping: CaseMapping): Option<Text> {
    if candidates == [] then None
    else if Fold(candidates[0], mapping) !in tried then Some(candidates[0])
    else FirstUntried(candidates[1..], tried, mapping)
  }

  function AtLeast(tried: set<Text>, length: nat): set<Text> {
    set t | t in tried && |t| >= length
  }

  /** Each underscore leaves one refused nick of the old length behind, so they run out. */
  lemma FewerRemain(candidate: Text, tried: set<Text>, mapping: CaseMapping)
    requires Fold(candidate, mapping) in tried
    ensures |AtLeast(tried, |candidate| + 1)| < |AtLeast(tried, |candidate|)|
  {
    var key := Fold(candidate, mapping);
    assert key in AtLeast(tried, |candidate|) && key !in AtLeast(tried, |candidate| + 1);
    assert AtLeast(tried, |candidate| + 1) <= AtLeast(tried, |candidate|) - {key};
    SubsetSize(AtLeast(tried, |candidate| + 1), AtLeast(tried, |candidate|) - {key});
  }

  lemma {:induction false} SubsetSize<T>(a: set<T>, b: set<T>)
    requires a <= b
    ensures |a| <= |b|
  {
    if x :| x in a {
      SubsetSize(a - {x}, b - {x});
    }
  }

  /** The candidate with underscores until it is none of the refused. */
  function Underscored(candidate: Text, tried: set<Text>, mapping: CaseMapping): (r: Text)
    ensures Fold(r, mapping) !in tried
    decreases |AtLeast(tried, |candidate|)|
  {
    if Fold(candidate, mapping) !in tried then candidate
    else
      FewerRemain(candidate, tried, mapping);
      Underscored(candidate + [UNDERSCORE], tried, mapping)
  }

  function NickLimit(ctx: Context): nat {
    if ctx.support.maxNickLength.Some? then ctx.support.maxNickLength.value else 30
  }

  function Cut(nick: Text, limit: nat): Text {
    if |nick| > limit then nick[..limit] else nick
  }

  function NextNick(s: Network, ctx: Context): Text {
    var tried := TriedKeys(s.triedNicks, MapOf(ctx));
    var alternative := FirstUntried(ctx.altNicks, tried, MapOf(ctx));
    if alternative.Some? then alternative.value
    else Cut(Underscored(s.nick + [UNDERSCORE], tried, MapOf(ctx)), NickLimit(ctx))
  }

  method ChooseNick(s: Network, ctx: Context) returns (nick: Text)
    ensures nick == NextNick(s, ctx)
  {
    var mapping := MapOf(ctx);
    var tried := TriedKeys(s.triedNicks, mapping);
    for i := 0 to |ctx.altNicks|
      invariant FirstUntried(ctx.altNicks, tried, mapping) == FirstUntried(ctx.altNicks[i..], tried, mapping)
    {
      assert ctx.altNicks[i..][1..] == ctx.altNicks[i + 1..];
      if Fold(ctx.altNicks[i], mapping) !in tried {
        return ctx.altNicks[i];
      }
    }
    var candidate := s.nick + [UNDERSCORE];
    while Fold(candidate, mapping) in tried
      invariant Underscored(s.nick + [UNDERSCORE], tried, mapping) == Underscored(candidate, tried, mapping)
      decreases |AtLeast(tried, |candidate|)|
    {
      FewerRemain(candidate, tried, mapping);
      candidate := candidate + [UNDERSCORE];
    }
    nick := Cut(candidate, NickLimit(ctx));
  }

  function NickRefused(s: Network, msg: Message, ctx: Context, now: int): Reduction {
    if !s.phase.Registering? then
      Reduction(Noticed(s, BuildEntry(msg, ErrorLine, [], ctx.wording(msg), ctx, now)), [], [])
    else
      var next := NextNick(s, ctx);
      var text := ctx.wording(msg) + Ascii(" Trying ") + next + [DOT];
      var noticed := Noticed(s, BuildEntry(msg, ServerLine, [], text, ctx, now));
      Reduction(noticed.(nick := next, triedNicks := s.triedNicks + [next]), [Ascii("NICK ") + next], [])
  }

  // ---------- Batches ----------

  predicate IsHistoryKind(kind: Text) {
    kind == Ascii("chathistory") || kind == Ascii("draft/chathistory")
  }

  /** The time of the oldest entry stamped by the server. */
  function AnchorFrom(buffer: Buffer, i: nat): Option<int>
    requires i <= |buffer|
    decreases |buffer| - i
  {
    if i == |buffer| then None
    else if buffer[i].fromServerTime then Some(buffer[i].at)
    else AnchorFrom(buffer, i + 1)
  }

  function LiveOldest(s: Network, msg: Message, ctx: Context): Option<int> {
    var key := KeyOf(Arg(msg, 2), ctx);
    if !IsHistoryKind(Arg(msg, 1)) then None
    else if key in s.channels then AnchorFrom(s.channels[key].messages, 0)
    else if key in s.queries then AnchorFrom(s.queries[key].messages, 0)
    else None
  }

  /** What a finished page of history says about a conversation. */
  function PageDone(channel: Channel, batch: Batches.Count): Channel {
    if channel.historyPending.None? then channel
    else
      var pending := channel.historyPending.value;
      var short := batch.count < pending.limit;
      if pending.kind.MissedPage? then channel.(historyPending := None, historyGap := !short)
      else
        var disjoint :=
          && !short && pending.kind.LatestPage? && batch.newest.Some? && batch.liveOldest.Some?
          && batch.newest.value < batch.liveOldest.value;
        channel.(historyPending := None, historyComplete := short || channel.historyComplete, historyGap := disjoint)
  }

  function HistoryDone(s: Network, target: Text, batch: Batches.Count, ctx: Context): Network {
    var key := KeyOf(target, ctx);
    if key in s.channels then s.(channels := s.channels[key := PageDone(s.channels[key], batch)])
    else if key in s.queries then s.(queries := s.queries[key := PageDone(s.queries[key], batch)])
    else s
  }

  /** `handleBatch`, on a state whose counts already include the message. */
  function BatchHandled(s: Network, msg: Message, ctx: Context): Network {
    var marked := s.(batches := Batches.Marked(s.batches, msg, LiveOldest(s, msg, ctx)));
    match Batches.MarkOf(msg)
    case Closes(r) =>
      if r in s.batches && IsHistoryKind(s.batches[r].kind)
      then HistoryDone(marked, if s.batches[r].params == [] then [] else s.batches[r].params[0], s.batches[r], ctx)
      else marked
    case _ => marked
  }

  // ---------- One message ----------

  function Welcomed(s: Network, msg: Message): Network {
    s.(phase := Registered, nick := Arg(msg, 0))
  }

  function Pong(msg: Message): Text {
    Ascii("PONG :") + Arg(msg, 0)
  }

  function Quiet(s: Network): Reduction {
    Reduction(s, [], [])
  }

  /** `applyMessage`; the commands that are not modelled change nothing the state here holds, but for notices. */
  function Apply(s: Network, msg: Message, ctx: Context, now: int): Reduction {
    match VerbFor(msg.command)
    case PingVerb => Reduction(s, [Pong(msg)], [])
    case JoinVerb => Quiet(Joined(s, msg, ctx, now))
    case PartVerb => Quiet(Parted(s, msg, ctx, now))
    case QuitVerb => Quiet(Quitted(s, msg, ctx, now))
    case NickVerb => Quiet(Renamed(s, msg, ctx, now))
    case KickVerb => Quiet(Kicked(s, msg, ctx, now))
    case ModeVerb => Quiet(Moded(s, msg, ctx, now))
    case TopicVerb => Quiet(TopicSet(s, msg, ctx, now))
    case PrivmsgVerb | NoticeVerb => Spoken(s, msg, ctx, now)
    case AwayVerb | AccountVerb | ChghostVerb | SetnameVerb => Quiet(Heard(s, msg, ctx))
    case WelcomeVerb => Quiet(Welcomed(s, msg))
    case NamesVerb => Quiet(Named(s, msg, ctx))
    case NamesEndVerb => Quiet(NamesEnded(s, msg, ctx))
    case NickRefusedVerb => NickRefused(s, msg, ctx, now)
    case TopicReplyVerb | NoTopicVerb | TopicSetterVerb | ModeReplyVerb | DetailReplyVerb => Quiet(Replied(s, msg, ctx))
    case WhoVerb => Quiet(WhoHeard(s, msg, ctx))
    case AwayStateVerb | LoggedInVerb | LoggedOutVerb | MotdEndVerb | ErrorVerb => Standing(s, msg, ctx, now)
    case _ => Quiet(s)
  }

  /** The parts of the state that only a refused nick or a batch command changes. */
  predicate SameBookkeeping(s: Network, t: Network) {
    t.batches == s.batches && t.ignores == s.ignores && t.triedNicks == s.triedNicks
  }

  lemma CtcpFrame(s: Network, ctcp: Ctcp, msg: Message, ctx: Context, now: int)
    ensures var t := CtcpTaken(s, ctcp, msg, ctx, now).state;
            SameBookkeeping(s, t) && t.channels == s.channels && t.queries == s.queries
  {
    hide BuildEntry;
    hide VerbFor;
    hide IsDccSendOffer;
    hide ReplyLine;
    hide DccOffers.ParseDccSend;
    hide ConversationName;
    hide SenderOf;
    hide KeyOf;
  }

  lemma FiledFrame(s: Network, target: Text, channel: Channel, ctx: Context)
    ensures SameBookkeeping(s, WithConversation(s, target, channel, ctx))
  {
  }

  lemma SpokenFrame(s: Network, msg: Message, ctx: Context, now: int)
    ensures SameBookkeeping(s, Spoken(s, msg, ctx, now).state)
  {
    hide BuildEntry;
    hide VerbFor;
    hide CtcpIn;
    hide CtcpTaken;
    hide IsServerNotice;
    hide WithConversation;
    hide Added;
    hide Reconcile;
    hide ConversationName;
    hide Conversation;
    hide LineEffects;
    hide IsSelf;
    hide DecodeAction;
    var ctcp := CtcpIn(s, msg, ctx);
    if ctcp.Some? {
      CtcpFrame(s, ctcp.value, msg, ctx, now);
    }
    forall target, channel ensures SameBookkeeping(s, WithConversation(s, target, channel, ctx)) {
      FiledFrame(s, target, channel, ctx);
    }
  }

  lemma MembershipFrame(s: Network, msg: Message, ctx: Context, now: int)
    ensures SameBookkeeping(s, Joined(s, msg, ctx, now))
    ensures SameBookkeeping(s, Parted(s, msg, ctx, now))
    ensures SameBookkeeping(s, Quitted(s, msg, ctx, now))
    ensures SameBookkeeping(s, Renamed(s, msg, ctx, now))
    ensures SameBookkeeping(s, Kicked(s, msg, ctx, now))
  {
    hide WithConversation;
    hide Conversation;
    hide BuildEntry;
    hide Added;
    hide Upsert;
    hide IsSelf;
    hide JoinedChannel;
    hide PartedChannel;
    hide KickedChannel;
    hide AmendedWhere;
    forall target, channel ensures SameBookkeeping(s, WithConversation(s, target, channel, ctx)) {
      FiledFrame(s, target, channel, ctx);
    }
  }

  lemma NewsFrame(s: Network, msg: Message, ctx: Context, now: int)
    ensures SameBookkeeping(s, Moded(s, msg, ctx, now))
    ensures SameBookkeeping(s, TopicSet(s, msg, ctx, now))
    ensures SameBookkeeping(s, Heard(s, msg, ctx))
    ensures SameBookkeeping(s, Named(s, msg, ctx))
    ensures SameBookkeeping(s, NamesEnded(s, msg, ctx))
  {
    hide VerbFor;
    hide NewsOf;
    hide IsSelf;
    hide AmendedWhere;
    hide UserModesAfter;
    hide WithConversation;
    hide Conversation;
    hide ModedChannel;
    hide TopicChannel;
    hide NamesChannel;
    hide NamesEndChannel;
    hide NamesEntries;
    forall target, channel ensures SameBookkeeping(s, WithConversation(s, target, channel, ctx)) {
      FiledFrame(s, target, channel, ctx);
    }
  }

  lemma ReplyFrame(s: Network, msg: Message, ctx: Context, now: int)
    ensures SameBookkeeping(s, Replied(s, msg, ctx))
    ensures SameBookkeeping(s, WhoHeard(s, msg, ctx))
    ensures SameBookkeeping(s, Standing(s, msg, ctx, now).state)
  {
    hide VerbFor;
    hide PartingWords;
    hide PhaseAfter;
    hide AccountAfter;
    hide AmendedWhere;
    hide WithConversation;
    hide Conversation;
    hide RepliedChannel;
    hide WhoDetails;
    FiledFrame(s, Arg(msg, 1), RepliedChannel(Conversation(s, Arg(msg, 1), ctx), msg, ctx), ctx);
  }

  lemma RegistrationFrame(s: Network, msg: Message, ctx: Context, now: int)
    ensures SameBookkeeping(s, Welcomed(s, msg))
    ensures var t := NickRefused(s, msg, ctx, now).state;
            && SameBookkeeping(s.(triedNicks := t.triedNicks), t)
            && t.triedNicks == if s.phase.Registering? then s.triedNicks + [NextNick(s, ctx)] else s.triedNicks
  {
    hide BuildEntry;
    hide NextNick;
  }

  /** What no command touches, and the one that adds to the refused nicks. */
  lemma ApplyFrame(s: Network, msg: Message, ctx: Context, now: int)
    ensures var t := Apply(s, msg, ctx, now).state;
            && t.batches == s.batches && t.ignores == s.ignores
            && t.triedNicks == if VerbFor(msg.command).NickRefusedVerb? && s.phase.Registering?
                               then s.triedNicks + [NextNick(s, ctx)] else s.triedNicks
  {
    hide VerbFor;
    hide Joined;
    hide Parted;
    hide Quitted;
    hide Renamed;
    hide Kicked;
    hide Moded;
    hide TopicSet;
    hide Spoken;
    hide Heard;
    hide Named;
    hide NamesEnded;
    hide Welcomed;
    hide NickRefused;
    hide NextNick;
    hide Replied;
    hide WhoHeard;
    hide Standing;
    ReplyFrame(s, msg, ctx, now);
    SpokenFrame(s, msg, ctx, now);
    MembershipFrame(s, msg, ctx, now);
    NewsFrame(s, msg, ctx, now);
    RegistrationFrame(s, msg, ctx, now);
  }

  function PartFor(verb: Verb): Option<Part> {
    match verb
    case PrivmsgVerb | TagmsgVerb => Some(MessagesPart)
    case NoticeVerb => Some(NoticesPart)
    case InviteVerb => Some(InvitesPart)
    case JoinVerb | PartVerb | QuitVerb | NickVerb | ModeVerb => Some(EventsPart)
    case _ => None
  }

  /** `suppressedBy`: whether some rule mutes this message. */
  predicate Suppressed(s: Network, msg: Message, ctx: Context, now: int) {
    var part := PartFor(VerbFor(msg.command));
    && part.Some?
    && msg.source.Some? && msg.source.value.nick != [] && !IsSelf(s, msg.source.value.nick, ctx)
    && (var isCtcp := Arg(msg, 1) != [] && Arg(msg, 1)[0] == Escapes.CTCP_DELIMITER;
        var resolved := if part == Some(MessagesPart) && isCtcp then CtcpPart else part.value;
        IsIgnored(s.ignores, HostmaskOf(msg.source.value), resolved, MapOf(ctx), now))
  }

  /** The second map of conversations with every buffer taken from the first. */
  function BuffersOf(before: Channels, after: Channels): Channels {
    map k | k in after :: after[k].(messages := if k in before then before[k].messages else [])
  }

  function KeepingBuffers(before: Network, after: Network): Network {
    after.(channels := BuffersOf(before.channels, after.channels),
           queries := BuffersOf(before.queries, after.queries),
           notices := before.notices)
  }

  function Counted(s: Network, msg: Message, ctx: Context, now: int): Network {
    s.(batches := Batches.Recorded(s.batches, msg, TimeOf(msg, ctx, now)))
  }

  /** One message, arriving at the time `now`. */
  function Reduce(s: Network, msg: Message, ctx: Context, now: int): Reduction {
    var counted := Counted(s, msg, ctx, now);
    if VerbFor(msg.command).BatchVerb? then Quiet(BatchHandled(counted, msg, ctx))
    else if !Suppressed(counted, msg, ctx, now) then Apply(counted, msg, ctx, now)
    else if PartFor(VerbFor(msg.command)) == Some(EventsPart) then
      var applied := Apply(counted, msg, ctx, now);
      applied.(state := KeepingBuffers(counted, applied.state))
    else Quiet(counted)
  }

  datatype Arrived = Arrived(msg: Message, now: int)

  /** The state after a run of messages. */
  function ReduceAll(s: Network, arrivals: seq<Arrived>, ctx: Context): Network
    decreases |arrivals|
  {
    if arrivals == [] then s
    else
      var last := arrivals[|arrivals| - 1];
      Reduce(ReduceAll(s, arrivals[..|arrivals| - 1], ctx), last.msg, ctx, last.now).state
  }
}
