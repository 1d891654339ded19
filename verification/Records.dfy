/**
  * What is known of each person in each channel: what one message does to one
  * person's record, and that the reducer does exactly that, muted or not.
  */
module Records {
  import opened Units
  import opened ISupport
  import opened CaseFolding
  import opened Messages
  import opened Members
  import opened Modes
  import opened MessageBuffer
  import opened NetworkState
  import opened Reducer
  import opened NamesBurst
  import opened MuteList
  import CtcpCodec

  /** The record of the person under the folded nick `n` in the channel under `key`. */
  function RecordAt(s: Network, key: Text, n: Text): Option<Member> {
    if key in s.channels then NamesBurst.At(s.channels[key].members, n) else None
  }

  /** Somebody nothing is known of but their nick. */
  function Known(record: Option<Member>, nick: Text): Member {
    if record.Some? then record.value else Member(nick, [], [], None, [], false, false, [])
  }

  /** `account`, as the protocol writes it: a star is nobody's. */
  function AccountNamed(name: Text): Option<Text> {
    if name == Ascii("*") then None else Some(name)
  }

  /** Joining tells nick, user and host, and with `extended-join` the account and the real name. */
  function JoinedRecord(record: Option<Member>, msg: Message): Member {
    var known, nick := Known(record, SenderOf(msg)), SenderOf(msg);
    Member(nick,
           if msg.source.Some? then msg.source.value.user else [],
           if msg.source.Some? then msg.source.value.host else [],
           if |msg.params| > 1 then AccountNamed(msg.params[1]) else known.account,
           if |msg.params| > 2 then msg.params[2] else known.realname,
           known.away, known.bot, known.prefixes)
  }

  function NewsRecord(known: Member, msg: Message): Member {
    match VerbFor(msg.command)
    case AwayVerb => known.(away := Arg(msg, 0) != [])
    case AccountVerb => known.(account := if msg.params == [] then None else AccountNamed(msg.params[0]))
    case ChghostVerb => known.(user := Arg(msg, 0), host := Arg(msg, 1))
    case _ => known.(realname := Arg(msg, 0))
  }

  /** The last entry of a NAMES reply about `n`. */
  function LastListed(entries: seq<NamesEntry>, n: Text, ctx: Context): Option<NamesEntry> {
    if entries == [] then None
    else
      var last := entries[|entries| - 1];
      if Fold(last.nick, ctx.support.caseMapping) == n then Some(last)
      else LastListed(entries[..|entries| - 1], n, ctx)
  }

  function ListedRecord(record: Option<Member>, entries: seq<NamesEntry>, n: Text, ctx: Context): Option<Member> {
    var last := LastListed(entries, n, ctx);
    if last.None? then record
    else Some(Known(record, last.value.nick).(nick := last.value.nick, prefixes := last.value.prefixes))
  }

  /** The letters of a WHO reply's flags that are prefixes the server advertises. */
  function WhoPrefixes(msg: Message, ctx: Context): Text {
    AdvertisedIn(Arg(msg, 6), ctx.support)
  }

  /** A WHO reply tells everything but the account; flags without a prefix leave the prefixes as they were. */
  function WhoRecord(record: Option<Member>, msg: Message, ctx: Context): Member {
    var known, flags, trailing := Known(record, Arg(msg, 5)), Arg(msg, 6), Arg(msg, 7);
    var space := Find(trailing, SPACE);
    Member(Arg(msg, 5), Arg(msg, 2), Arg(msg, 3), known.account,
           if space < |trailing| then trailing[space + 1..] else [],
           flags != [] && [flags[0]] == Ascii("G"), Ascii("B")[0] in flags,
           if WhoPrefixes(msg, ctx) == [] then known.prefixes else WhoPrefixes(msg, ctx))
  }

  predicate Folds(name: Text, key: Text, ctx: Context) {
    Fold(name, ctx.support.caseMapping) == key
  }

  /** A reply about a channel we do not have still brings news of the person, wherever they are. */
  function AfterWho(s: Network, msg: Message, key: Text, n: Text, ctx: Context): Option<Member> {
    var record := RecordAt(s, key, n);
    if key !in s.channels || !Folds(Arg(msg, 5), n, ctx) then record
    else if Folds(Arg(msg, 1), key, ctx) || (KeyOf(Arg(msg, 1), ctx) !in s.channels && record.Some?)
    then Some(WhoRecord(record, msg, ctx)) else record
  }

  /** What is known of one person in one channel after a message, from what was. */
  function RecordAfter(s: Network, msg: Message, key: Text, n: Text, ctx: Context): Option<Member> {
    var record, here := RecordAt(s, key, n), Folds(Arg(msg, 0), key, ctx);
    match VerbFor(msg.command)
    case JoinVerb =>
      if IsChannel(Arg(msg, 0), ctx.support) && here && Folds(SenderOf(msg), n, ctx)
      then Some(JoinedRecord(record, msg)) else record
    case PartVerb => if here && (IsSelf(s, SenderOf(msg), ctx) || Folds(SenderOf(msg), n, ctx)) then None else record
    case KickVerb => if here && (IsSelf(s, Arg(msg, 1), ctx) || Folds(Arg(msg, 1), n, ctx)) then None else record
    case QuitVerb => if Folds(SenderOf(msg), n, ctx) then None else record
    case NickVerb =>
      var leaving := RecordAt(s, key, KeyOf(SenderOf(msg), ctx));
      if leaving.None? then record
      else if Folds(Arg(msg, 0), n, ctx) then Some(leaving.value.(nick := Arg(msg, 0)))
      else if Folds(SenderOf(msg), n, ctx) then None else record
    case ModeVerb =>
      if IsChannel(Arg(msg, 0), ctx.support) && here && key in s.channels
      then MemberChangedAll(record, ModeChanges(msg, ctx), n, ctx) else record
    case AwayVerb | AccountVerb | ChghostVerb | SetnameVerb =>
      if record.Some? && Folds(SenderOf(msg), n, ctx) then Some(NewsRecord(record.value, msg)) else record
    case NamesVerb =>
      if IsChannel(Arg(msg, 2), ctx.support) && Folds(Arg(msg, 2), key, ctx)
      then ListedRecord(if key in s.channels && s.channels[key].namesLoading then record else None,
                        NamesEntries(msg, ctx), n, ctx)
      else record
    case NamesEndVerb =>
      if IsChannel(Arg(msg, 1), ctx.support) && Folds(Arg(msg, 1), key, ctx) && key in s.channels
      then MemberChangedAll(record, s.channels[key].pendingPrefixChanges, n, ctx) else record
    case WhoVerb => AfterWho(s, msg, key, n, ctx)
    case _ => record
  }

  // ---------- Command by command ----------

  lemma FiledRecord(s: Network, target: Text, channel: Channel, key: Text, n: Text, ctx: Context)
    ensures RecordAt(WithConversation(s, target, channel, ctx), key, n)
         == if IsChannel(target, ctx.support) && KeyOf(target, ctx) == key then NamesBurst.At(channel.members, n)
            else RecordAt(s, key, n)
    ensures IsChannel(target, ctx.support) ==>
              NamesBurst.At(Conversation(s, target, ctx).members, n) == RecordAt(s, KeyOf(target, ctx), n)
  {
  }

  lemma AddedRecord(channel: Channel, entry: Entry)
    ensures Added(channel, entry).members == channel.members
  {
    hide Insert;
  }

  lemma JoinRecord(s: Network, msg: Message, key: Text, n: Text, ctx: Context, now: int)
    requires VerbFor(msg.command).JoinVerb?
    ensures RecordAt(Joined(s, msg, ctx, now), key, n) == RecordAfter(s, msg, key, n, ctx)
  {
    hide VerbFor;
    hide IsChannel;
    hide WithConversation;
    hide Conversation;
    hide BuildEntry;
    hide Added;
    hide IsSelf;
    hide RecordAt;
    assert Ascii("*") == [STAR];
    var channel := Conversation(s, Arg(msg, 0), ctx);
    FiledRecord(s, Arg(msg, 0), JoinedChannel(s, channel, msg, ctx, now), key, n, ctx);
    forall c: Channel, entry: Entry ensures Added(c, entry).members == c.members {
      AddedRecord(c, entry);
    }
  }

  lemma PartRecord(s: Network, msg: Message, key: Text, n: Text, ctx: Context, now: int)
    requires VerbFor(msg.command).PartVerb?
    ensures RecordAt(Parted(s, msg, ctx, now), key, n) == RecordAfter(s, msg, key, n, ctx)
  {
    hide VerbFor;
    hide PartEntry;
    hide Insert;
    hide IsSelf;
  }

  lemma KickRecord(s: Network, msg: Message, key: Text, n: Text, ctx: Context, now: int)
    requires VerbFor(msg.command).KickVerb?
    ensures RecordAt(Kicked(s, msg, ctx, now), key, n) == RecordAfter(s, msg, key, n, ctx)
  {
    hide VerbFor;
    hide KickEntry;
    hide Insert;
    hide IsSelf;
  }

  lemma QuitRecord(s: Network, msg: Message, key: Text, n: Text, ctx: Context, now: int)
    requires VerbFor(msg.command).QuitVerb?
    ensures RecordAt(Quitted(s, msg, ctx, now), key, n) == RecordAfter(s, msg, key, n, ctx)
  {
    hide VerbFor;
    hide BuildEntry;
    hide Insert;
  }

  lemma NickRecord(s: Network, msg: Message, key: Text, n: Text, ctx: Context, now: int)
    requires VerbFor(msg.command).NickVerb?
    ensures RecordAt(Renamed(s, msg, ctx, now), key, n) == RecordAfter(s, msg, key, n, ctx)
  {
    hide VerbFor;
    hide BuildEntry;
    hide Insert;
    hide IsSelf;
  }

  lemma ModeRecord(s: Network, msg: Message, key: Text, n: Text, ctx: Context, now: int)
    requires VerbFor(msg.command).ModeVerb?
    ensures RecordAt(Moded(s, msg, ctx, now), key, n) == RecordAfter(s, msg, key, n, ctx)
  {
    hide VerbFor;
    hide IsChannel;
    hide BuildEntry;
    hide Insert;
    hide PrefixesChanged;
    hide ModeChanges;
    hide ApplyModes;
    hide UserModesAfter;
    hide MemberChangedAll;
    if key in s.channels {
      PrefixesChangedAt(s.channels[key].members, ModeChanges(msg, ctx), n, ctx);
    }
  }

  lemma NewsUpdate(known: Member, msg: Message)
    requires VerbFor(msg.command) in {AwayVerb, AccountVerb, ChghostVerb, SetnameVerb}
    ensures Updated(known, NewsOf(msg)) == NewsRecord(known, msg)
  {
    hide VerbFor;
    assert Ascii("*") == [STAR];
  }

  /** News of a person, wherever they are, changes their record there and no other. */
  lemma AmendedRecord(s: Network, nick: Text, update: Update, key: Text, n: Text, ctx: Context)
    ensures var hear := (c: Channel) => c.(members := Upsert(c.members, nick, MapOf(ctx), update));
            RecordAt(s.(channels := AmendedWhere(s.channels, nick, MapOf(ctx), hear)), key, n)
              == if RecordAt(s, key, n).Some? && KeyOf(nick, ctx) == n
                 then Some(Updated(RecordAt(s, key, n).value, update)) else RecordAt(s, key, n)
  {
    hide Updated;
  }

  lemma RecordAfterNews(s: Network, msg: Message, key: Text, n: Text, ctx: Context)
    requires VerbFor(msg.command) in {AwayVerb, AccountVerb, ChghostVerb, SetnameVerb}
    ensures var record := RecordAt(s, key, n);
            RecordAfter(s, msg, key, n, ctx)
              == if record.Some? && Folds(SenderOf(msg), n, ctx) then Some(NewsRecord(record.value, msg)) else record
  {
    hide VerbFor;
    hide RecordAt;
    hide Folds;
    hide NewsRecord;
  }

  lemma HeardRecord(s: Network, msg: Message, key: Text, n: Text, ctx: Context)
    requires VerbFor(msg.command) in {AwayVerb, AccountVerb, ChghostVerb, SetnameVerb}
    ensures RecordAt(Heard(s, msg, ctx), key, n) == RecordAfter(s, msg, key, n, ctx)
  {
    RecordAfterNews(s, msg, key, n, ctx);
    AmendedRecord(s, SenderOf(msg), NewsOf(msg), key, n, ctx);
    if RecordAt(s, key, n).Some? {
      NewsUpdate(RecordAt(s, key, n).value, msg);
    }
    hide VerbFor;
    hide RecordAfter;
    hide NewsOf;
    hide NewsRecord;
    hide Updated;
    hide IsSelf;
    hide AmendedWhere;
    hide NamesBurst.At;
  }

  lemma {:induction false} LastListedHolds(members: MemberMap, entries: seq<NamesEntry>, n: Text, ctx: Context)
    ensures NamesBurst.At(EntriesListed(members, entries, ctx), n)
         == ListedRecord(NamesBurst.At(members, n), entries, n, ctx)
    decreases |entries|
  {
    if entries == [] {
    } else {
      hide EntriesListed;
      var before, last := entries[..|entries| - 1], entries[|entries| - 1];
      assert entries == before + [last];
      LastListedHolds(members, before, n, ctx);
      EntriesListedSnoc(members, before, last, ctx);
    }
  }

  lemma NamesRecord(s: Network, msg: Message, key: Text, n: Text, ctx: Context)
    requires VerbFor(msg.command).NamesVerb?
    ensures RecordAt(Named(s, msg, ctx), key, n) == RecordAfter(s, msg, key, n, ctx)
  {
    hide VerbFor;
    hide IsChannel;
    hide WithConversation;
    hide NamesEntries;
    hide EntriesListed;
    hide ListedRecord;
    var name, entries := Arg(msg, 2), NamesEntries(msg, ctx);
    var channel := Conversation(s, name, ctx);
    FiledRecord(s, name, NamesChannel(channel, name, entries, ctx), key, n, ctx);
    LastListedHolds(if channel.namesLoading then channel.members else map[], entries, n, ctx);
  }

  lemma EndRecord(s: Network, msg: Message, key: Text, n: Text, ctx: Context)
    requires VerbFor(msg.command).NamesEndVerb?
    ensures RecordAt(NamesEnded(s, msg, ctx), key, n) == RecordAfter(s, msg, key, n, ctx)
  {
    hide VerbFor;
    hide IsChannel;
    hide WithConversation;
    hide PrefixesChanged;
    hide MemberChanged;
    var name := Arg(msg, 1);
    var channel := Conversation(s, name, ctx);
    FiledRecord(s, name, NamesEndChannel(channel, name, ctx), key, n, ctx);
    PrefixesChangedAt(channel.members, channel.pendingPrefixChanges, n, ctx);
  }

  lemma WhoUpdate(record: Option<Member>, msg: Message, ctx: Context)
    ensures Updated(Known(record, Arg(msg, 5)), WhoDetails(msg, ctx)) == WhoRecord(record, msg, ctx)
  {
    assert Ascii("G") == [0x47] && Ascii("B") == [0x42];
  }

  lemma UpsertedRecord(s: Network, at: Text, nick: Text, update: Update, key: Text, n: Text, ctx: Context)
    requires at in s.channels
    ensures var channel := s.channels[at].(members := Upsert(s.channels[at].members, nick, MapOf(ctx), update));
            RecordAt(s.(channels := s.channels[at := channel]), key, n)
              == if key == at && KeyOf(nick, ctx) == n then Some(Updated(Known(RecordAt(s, key, n), nick), update))
                 else RecordAt(s, key, n)
  {
    hide Updated;
  }

  lemma WhoRecordAt(s: Network, msg: Message, key: Text, n: Text, ctx: Context)
    ensures RecordAt(WhoHeard(s, msg, ctx), key, n) == AfterWho(s, msg, key, n, ctx)
  {
    var details := WhoDetails(msg, ctx);
    AmendedRecord(s, Arg(msg, 5), details, key, n, ctx);
    WhoUpdate(RecordAt(s, key, n), msg, ctx);
    if KeyOf(Arg(msg, 1), ctx) in s.channels {
      UpsertedRecord(s, KeyOf(Arg(msg, 1), ctx), Arg(msg, 5), details, key, n, ctx);
    }
    hide WhoDetails;
    hide WhoRecord;
    hide Updated;
    hide AmendedWhere;
    hide Upsert;
    hide NamesBurst.At;
    hide Fold;
    assert key !in s.channels ==> RecordAt(s, key, n).None?;
    hide RecordAt;
  }

  /** The commands that change nobody's record. */
  predicate LeavesRecords(verb: Verb) {
    match verb
    case JoinVerb | PartVerb | QuitVerb | NickVerb | KickVerb | ModeVerb | NamesVerb | NamesEndVerb | WhoVerb => false
    case AwayVerb | AccountVerb | ChghostVerb | SetnameVerb => false
    case _ => true
  }

  /** A conversation filed with the members it had. */
  lemma FiledUnchanged(s: Network, name: Text, channel: Channel, key: Text, n: Text, ctx: Context)
    requires channel.members == Conversation(s, name, ctx).members
    ensures RecordAt(WithConversation(s, name, channel, ctx), key, n) == RecordAt(s, key, n)
  {
    FiledRecord(s, name, channel, key, n, ctx);
  }

  lemma SaidRecord(s: Network, msg: Message, key: Text, n: Text, ctx: Context, now: int)
    ensures RecordAt(Spoken(s, msg, ctx, now).state, key, n) == RecordAt(s, key, n)
  {
    hide BuildEntry;
    hide VerbFor;
    hide CtcpIn;
    hide IsServerNotice;
    hide Added;
    hide Reconcile;
    hide LineEffects;
    hide ConversationName;
    hide CtcpTaken;
    hide WithConversation;
    hide Conversation;
    hide CtcpCodec.DecodeAction;
    hide IsSelf;
    hide IsChannel;
    var ctcp, conversation := CtcpIn(s, msg, ctx), ConversationName(s, msg, ctx);
    if ctcp.Some? {
      CtcpFrame(s, ctcp.value, msg, ctx, now);
    }
    var channel := Conversation(s, conversation, ctx);
    forall entry: Entry
      ensures RecordAt(WithConversation(s, conversation, Added(channel, entry), ctx), key, n) == RecordAt(s, key, n)
      ensures RecordAt(WithConversation(s, conversation,
                channel.(name := conversation, messages := Reconcile(channel.messages, entry)), ctx), key, n)
                == RecordAt(s, key, n)
    {
      AddedRecord(channel, entry);
      FiledUnchanged(s, conversation, Added(channel, entry), key, n, ctx);
      var echoed := channel.(name := conversation, messages := Reconcile(channel.messages, entry));
      FiledUnchanged(s, conversation, echoed, key, n, ctx);
    }
  }

  lemma RepliedRecord(s: Network, msg: Message, key: Text, n: Text, ctx: Context)
    ensures RecordAt(Replied(s, msg, ctx), key, n) == RecordAt(s, key, n)
  {
    hide IsChannel;
    hide WithConversation;
    hide Conversation;
    hide RepliedTopic;
    hide RepliedModes;
    hide VerbFor;
    FiledUnchanged(s, Arg(msg, 1), RepliedChannel(Conversation(s, Arg(msg, 1), ctx), msg, ctx), key, n, ctx);
  }

  lemma TopicRecord(s: Network, msg: Message, key: Text, n: Text, ctx: Context, now: int)
    ensures RecordAt(TopicSet(s, msg, ctx, now), key, n) == RecordAt(s, key, n)
  {
    hide BuildEntry;
    hide TimeOf;
    hide Insert;
  }

  lemma OtherRecord(s: Network, msg: Message, key: Text, n: Text, ctx: Context, now: int)
    requires LeavesRecords(VerbFor(msg.command))
    ensures RecordAt(Apply(s, msg, ctx, now).state, key, n) == RecordAt(s, key, n)
  {
    RegisteredElsewhere(s, msg, ctx, now);
    hide VerbFor;
    hide TopicSet;
    hide Spoken;
    hide Heard;
    hide Welcomed;
    hide NickRefused;
    hide Replied;
    hide Standing;
    RepliedRecord(s, msg, key, n, ctx);
    SaidRecord(s, msg, key, n, ctx, now);
    TopicRecord(s, msg, key, n, ctx, now);
  }

  lemma RecordAfterWho(s: Network, msg: Message, key: Text, n: Text, ctx: Context)
    requires VerbFor(msg.command).WhoVerb?
    ensures RecordAfter(s, msg, key, n, ctx) == AfterWho(s, msg, key, n, ctx)
  {
    hide VerbFor;
    hide AfterWho;
    hide RecordAt;
    hide Folds;
    hide JoinedRecord;
    hide NewsRecord;
    hide ListedRecord;
    hide IsChannel;
    hide IsSelf;
  }

  lemma ApplyRecord(s: Network, msg: Message, key: Text, n: Text, ctx: Context, now: int)
    ensures RecordAt(Apply(s, msg, ctx, now).state, key, n) == RecordAfter(s, msg, key, n, ctx)
  {
    hide VerbFor;
    hide Joined;
    hide Parted;
    hide Quitted;
    hide Renamed;
    hide Kicked;
    hide Moded;
    hide Heard;
    hide Named;
    hide NamesEnded;
    hide WhoHeard;
    hide RecordAt;
    if LeavesRecords(VerbFor(msg.command)) {
      OtherRecord(s, msg, key, n, ctx, now);
    } else {
      if VerbFor(msg.command).WhoVerb? {
        RecordAfterWho(s, msg, key, n, ctx);
      }
      hide RecordAfter;
      match VerbFor(msg.command)
      case JoinVerb => JoinRecord(s, msg, key, n, ctx, now);
      case PartVerb => PartRecord(s, msg, key, n, ctx, now);
      case KickVerb => KickRecord(s, msg, key, n, ctx, now);
      case QuitVerb => QuitRecord(s, msg, key, n, ctx, now);
      case NickVerb => NickRecord(s, msg, key, n, ctx, now);
      case ModeVerb => ModeRecord(s, msg, key, n, ctx, now);
      case NamesVerb => NamesRecord(s, msg, key, n, ctx);
      case NamesEndVerb => EndRecord(s, msg, key, n, ctx);
      case WhoVerb => WhoRecordAt(s, msg, key, n, ctx);
      case _ => HeardRecord(s, msg, key, n, ctx);
    }
  }

  // ---------- Every message ----------

  lemma SameBurstSameRecord(s: Network, t: Network, key: Text, n: Text)
    requires BurstAt(s, key) == BurstAt(t, key)
    ensures RecordAt(s, key, n) == RecordAt(t, key, n)
  {
  }

  lemma RecordAfterReads(s: Network, t: Network, msg: Message, key: Text, n: Text, ctx: Context)
    requires s.channels == t.channels && s.nick == t.nick
    ensures RecordAfter(s, msg, key, n, ctx) == RecordAfter(t, msg, key, n, ctx)
  {
    hide VerbFor;
    hide KeyOf;
    hide IsChannel;
    hide JoinedRecord;
    hide NewsRecord;
    hide WhoRecord;
    hide ListedRecord;
    hide MemberChangedAll;
    hide Folds;
  }

  lemma CountedReads(s: Network, msg: Message, ctx: Context, now: int)
    ensures Counted(s, msg, ctx, now).channels == s.channels && Counted(s, msg, ctx, now).nick == s.nick
  {
  }

  /** A message that a mute can drop altogether changes no record anyway. */
  lemma DroppableIsNotAboutPeople(s: Network, msg: Message, key: Text, n: Text, ctx: Context)
    requires VerbFor(msg.command).BatchVerb? || PartFor(VerbFor(msg.command)) !in {None, Some(EventsPart)}
    ensures RecordAfter(s, msg, key, n, ctx) == RecordAt(s, key, n)
  {
    hide VerbFor;
    hide KeyOf;
    hide IsChannel;
  }

  /** After any message at all, muted or not, each person's record in each channel is what the message makes of it. */
  lemma RecordsFollowMessages(s: Network, msg: Message, key: Text, n: Text, ctx: Context, now: int)
    ensures RecordAt(Reduce(s, msg, ctx, now).state, key, n) == RecordAfter(s, msg, key, n, ctx)
  {
    hide VerbFor;
    hide Reduce;
    hide Apply;
    hide Counted;
    hide RecordAt;
    hide RecordAfter;
    hide BurstAt;
    var counted := Counted(s, msg, ctx, now);
    var after, applied := Reduce(s, msg, ctx, now).state, Apply(counted, msg, ctx, now).state;
    CountedReads(s, msg, ctx, now);
    RecordAfterReads(s, counted, msg, key, n, ctx);
    ApplyRecord(counted, msg, key, n, ctx, now);
    ReduceBurst(s, msg, key, ctx, now);
    if BurstAt(after, key) == BurstAt(applied, key) {
      SameBurstSameRecord(after, applied, key, n);
    }
    if BurstAt(after, key) == BurstAt(s, key) {
      SameBurstSameRecord(after, s, key, n);
    }
    if VerbFor(msg.command).BatchVerb? || PartFor(VerbFor(msg.command)) !in {None, Some(EventsPart)} {
      DroppableIsNotAboutPeople(s, msg, key, n, ctx);
    }
  }

  // ---------- The words of a NAMES reply ----------

  /** Prefixes the server advertises, and a nick that begins with none of them. */
  predicate IsListing(entry: NamesEntry, support: Support) {
    && (forall u | u in entry.prefixes :: exists e | e in support.prefixes :: e.prefix == u)
    && (entry.nick != [] ==> forall e | e in support.prefixes :: e.prefix != entry.nick[0])
    && SPACE !in entry.prefixes && SPACE !in entry.nick
  }

  lemma {:induction false} PrefixesEnd(entry: NamesEntry, i: nat, support: Support)
    requires IsListing(entry, support) && i <= |entry.prefixes|
    ensures PrefixRun(entry.prefixes + entry.nick, i, support) == |entry.prefixes|
    decreases |entry.prefixes| - i
  {
    var word := entry.prefixes + entry.nick;
    if i < |entry.prefixes| {
      assert word[i] in entry.prefixes;
      PrefixesEnd(entry, i + 1, support);
    }
  }

  function ListingWords(entries: seq<NamesEntry>): (words: seq<Text>)
    ensures |words| == |entries| && forall i | 0 <= i < |words| :: words[i] == entries[i].prefixes + entries[i].nick
  {
    seq(|entries|, i requires 0 <= i < |entries| => entries[i].prefixes + entries[i].nick)
  }

  lemma EntryIsSplit(entry: NamesEntry, support: Support)
    requires IsListing(entry, support)
    ensures SplitPrefixes(entry.prefixes + entry.nick, support) == entry
  {
    PrefixesEnd(entry, 0, support);
    var word := entry.prefixes + entry.nick;
    assert word[..|entry.prefixes|] == entry.prefixes && word[|entry.prefixes|..] == entry.nick;
  }

  lemma {:induction false} EntriesAreRead(entries: seq<NamesEntry>, support: Support)
    requires forall e | e in entries :: IsListing(e, support)
    ensures ReadEntries(ListingWords(entries), support) == NonEmptyEntries(entries)
  {
    hide IsListing;
    hide SplitPrefixes;
    if entries == [] {
    } else {
      var first, rest := entries[0], entries[1..];
      assert first in entries && forall e | e in rest :: e in entries;
      EntryIsSplit(first, support);
      EntriesAreRead(rest, support);
      assert ListingWords(entries)[1..] == ListingWords(rest);
    }
  }

  /** The entries that are not empty: a run of spaces has empty words in it. */
  function NonEmptyEntries(entries: seq<NamesEntry>): seq<NamesEntry> {
    if entries == [] then []
    else
      var empty := entries[0].prefixes == [] && entries[0].nick == [];
      (if empty then [] else [entries[0]]) + NonEmptyEntries(entries[1..])
  }

  /** A NAMES reply lists its words, each with the prefixes before the nick. */
  lemma NamesAreRead(msg: Message, entries: seq<NamesEntry>, ctx: Context)
    requires entries != [] && forall e | e in entries :: IsListing(e, ctx.support)
    requires msg.params != [] && msg.params[|msg.params| - 1] == Join(ListingWords(entries), SPACE)
    ensures NamesEntries(msg, ctx) == NonEmptyEntries(entries)
  {
    var words := ListingWords(entries);
    forall w | w in words ensures SPACE !in w {
      var i :| 0 <= i < |words| && words[i] == w;
      assert entries[i] in entries;
    }
    SplitJoin(words, SPACE);
    EntriesAreRead(entries, ctx.support);
  }

  /** Of a WHO reply's flags exactly the advertised prefixes are kept, each as often as it stands there. */
  lemma {:induction false} FlagsAreKept(flags: Text, support: Support, u: Unit)
    ensures multiset(AdvertisedIn(flags, support))[u]
         == if exists e | e in support.prefixes :: e.prefix == u then multiset(flags)[u] else 0
  {
    if flags == [] {
    } else {
      FlagsAreKept(flags[1..], support, u);
      assert flags == [flags[0]] + flags[1..];
    }
  }
}
