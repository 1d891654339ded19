/**
  * Who is in a channel, said without member records, buffers or mutes: what one
  * message does to the set of people, and that the reducer does exactly that.
  */
module Membership {
  import opened Units
  import opened ISupport
  import opened Messages
  import opened Members
  import opened Modes
  import opened NetworkState
  import opened Reducer
  import opened NamesBurst
  import opened Records

  /** Whether the person under the folded nick `n` is in the channel under `key`. */
  predicate IsIn(s: Network, key: Text, n: Text) {
    key in s.channels && n in s.channels[key].members
  }

  predicate IsLoading(s: Network, key: Text) {
    key in s.channels && s.channels[key].namesLoading
  }

  /** Some prefix change names the person. */
  ghost predicate Mentions(changes: seq<ModeChange>, n: Text, ctx: Context) {
    exists c :: c in changes && Targets(c, n, ctx)
  }

  ghost predicate ListedIn(entries: seq<NamesEntry>, n: Text, ctx: Context) {
    exists e :: e in entries && KeyOf(e.nick, ctx) == n
  }

  /** Someone leaves one channel; when it is us, so does everyone. */
  predicate StaysAfter(s: Network, msg: Message, leaver: Text, key: Text, n: Text, ctx: Context) {
    IsIn(s, key, n) && (KeyOf(Arg(msg, 0), ctx) == key ==> !IsSelf(s, leaver, ctx) && n != KeyOf(leaver, ctx))
  }

  /** Who is in the channel after a message, from who was. */
  ghost predicate IsInAfter(s: Network, msg: Message, key: Text, n: Text, ctx: Context) {
    match VerbFor(msg.command)
    case JoinVerb =>
      IsIn(s, key, n)
      || (IsChannel(Arg(msg, 0), ctx.support) && KeyOf(Arg(msg, 0), ctx) == key && n == KeyOf(SenderOf(msg), ctx))
    case PartVerb => StaysAfter(s, msg, SenderOf(msg), key, n, ctx)
    case KickVerb => StaysAfter(s, msg, Arg(msg, 1), key, n, ctx)
    case QuitVerb => IsIn(s, key, n) && n != KeyOf(SenderOf(msg), ctx)
    case NickVerb =>
      var from := KeyOf(SenderOf(msg), ctx);
      if IsIn(s, key, from) then n == KeyOf(Arg(msg, 0), ctx) || (IsIn(s, key, n) && n != from) else IsIn(s, key, n)
    case ModeVerb =>
      IsIn(s, key, n) || (ModesFor(msg, key, ctx) && key in s.channels && Mentions(ModeChanges(msg, ctx), n, ctx))
    case NamesVerb =>
      if NamesFor(msg, key, ctx) then ListedIn(NamesEntries(msg, ctx), n, ctx) || (IsLoading(s, key) && IsIn(s, key, n))
      else IsIn(s, key, n)
    case NamesEndVerb =>
      IsIn(s, key, n)
      || (EndFor(msg, key, ctx) && key in s.channels && Mentions(s.channels[key].pendingPrefixChanges, n, ctx))
    case WhoVerb =>
      IsIn(s, key, n) || (key in s.channels && KeyOf(Arg(msg, 1), ctx) == key && n == KeyOf(Arg(msg, 5), ctx))
    case _ => IsIn(s, key, n)
  }

  lemma InIsRecorded(s: Network, key: Text, n: Text)
    ensures IsIn(s, key, n) <==> RecordAt(s, key, n).Some?
  {
  }

  lemma {:induction false} ListedIsRecorded(
      record: Option<Member>, entries: seq<NamesEntry>, n: Text, ctx: Context)
    ensures ListedRecord(record, entries, n, ctx).Some? <==> record.Some? || ListedIn(entries, n, ctx)
  {
    if entries == [] {
    } else {
      var before, last := entries[..|entries| - 1], entries[|entries| - 1];
      ListedIsRecorded(record, before, n, ctx);
      assert forall e :: e in entries <==> e == last || e in before;
    }
  }

  lemma {:induction false} MentionedIsRecorded(m: Option<Member>, changes: seq<ModeChange>, n: Text, ctx: Context)
    ensures MemberChangedAll(m, changes, n, ctx).Some? <==> m.Some? || Mentions(changes, n, ctx)
  {
    hide Targets;
    if changes == [] {
    } else {
      var before, last := changes[..|changes| - 1], changes[|changes| - 1];
      MentionedIsRecorded(m, before, n, ctx);
      assert forall c :: c in changes <==> c == last || c in before;
    }
  }

  /** People who come, leave or are renamed, and news of them. */
  lemma PersonRecorded(s: Network, msg: Message, key: Text, n: Text, ctx: Context)
    requires VerbFor(msg.command) !in {ModeVerb, NamesVerb, NamesEndVerb, WhoVerb}
    ensures RecordAfter(s, msg, key, n, ctx).Some? <==> IsInAfter(s, msg, key, n, ctx)
  {
    InIsRecorded(s, key, n);
    InIsRecorded(s, key, KeyOf(SenderOf(msg), ctx));
    hide VerbFor;
    hide IsChannel;
    hide JoinedRecord;
    hide NewsRecord;
    hide RecordAt;
    hide IsIn;
    hide IsSelf;
  }

  lemma ModesRecorded(s: Network, msg: Message, key: Text, n: Text, ctx: Context)
    requires VerbFor(msg.command).ModeVerb?
    ensures RecordAfter(s, msg, key, n, ctx).Some? <==> IsInAfter(s, msg, key, n, ctx)
  {
    InIsRecorded(s, key, n);
    MentionedIsRecorded(RecordAt(s, key, n), ModeChanges(msg, ctx), n, ctx);
    hide VerbFor;
    hide IsChannel;
    hide ModeChanges;
    hide MemberChangedAll;
    hide Mentions;
    hide RecordAt;
    hide IsIn;
    hide StaysAfter;
    hide AfterWho;
    hide ListedIn;
    hide JoinedRecord;
    hide NewsRecord;
    hide ListedRecord;
  }

  lemma EndRecorded(s: Network, msg: Message, key: Text, n: Text, ctx: Context)
    requires VerbFor(msg.command).NamesEndVerb?
    ensures RecordAfter(s, msg, key, n, ctx).Some? <==> IsInAfter(s, msg, key, n, ctx)
  {
    InIsRecorded(s, key, n);
    if key in s.channels {
      MentionedIsRecorded(RecordAt(s, key, n), s.channels[key].pendingPrefixChanges, n, ctx);
    }
    hide VerbFor;
    hide IsChannel;
    hide ModeChanges;
    hide MemberChangedAll;
    hide Mentions;
    hide RecordAt;
    hide IsIn;
    hide StaysAfter;
    hide AfterWho;
    hide ListedIn;
    hide JoinedRecord;
    hide NewsRecord;
    hide ListedRecord;
  }

  lemma NamesRecorded(s: Network, msg: Message, key: Text, n: Text, ctx: Context)
    requires VerbFor(msg.command).NamesVerb?
    ensures RecordAfter(s, msg, key, n, ctx).Some? <==> IsInAfter(s, msg, key, n, ctx)
  {
    InIsRecorded(s, key, n);
    ListedIsRecorded(if IsLoading(s, key) then RecordAt(s, key, n) else None, NamesEntries(msg, ctx), n, ctx);
    hide VerbFor;
    hide IsChannel;
    hide NamesEntries;
    hide ListedRecord;
    hide ListedIn;
    hide RecordAt;
    hide IsIn;
  }

  lemma WhoAdds(s: Network, msg: Message, key: Text, n: Text, ctx: Context)
    ensures AfterWho(s, msg, key, n, ctx).Some? <==>
              RecordAt(s, key, n).Some?
              || (key in s.channels && KeyOf(Arg(msg, 1), ctx) == key && n == KeyOf(Arg(msg, 5), ctx))
  {
    hide WhoRecord;
  }

  lemma WhoRecorded(s: Network, msg: Message, key: Text, n: Text, ctx: Context)
    requires VerbFor(msg.command).WhoVerb?
    ensures RecordAfter(s, msg, key, n, ctx).Some? <==> IsInAfter(s, msg, key, n, ctx)
  {
    InIsRecorded(s, key, n);
    RecordAfterWho(s, msg, key, n, ctx);
    WhoAdds(s, msg, key, n, ctx);
    hide VerbFor;
    hide RecordAfter;
    hide AfterWho;
    hide IsIn;
    hide RecordAt;
    hide KeyOf;
    hide StaysAfter;
    hide ListedIn;
    hide Mentions;
  }

  lemma RecordedAfter(s: Network, msg: Message, key: Text, n: Text, ctx: Context)
    ensures RecordAfter(s, msg, key, n, ctx).Some? <==> IsInAfter(s, msg, key, n, ctx)
  {
    hide VerbFor;
    hide RecordAfter;
    hide IsInAfter;
    match VerbFor(msg.command)
    case ModeVerb => ModesRecorded(s, msg, key, n, ctx);
    case NamesEndVerb => EndRecorded(s, msg, key, n, ctx);
    case NamesVerb => NamesRecorded(s, msg, key, n, ctx);
    case WhoVerb => WhoRecorded(s, msg, key, n, ctx);
    case _ => PersonRecorded(s, msg, key, n, ctx);
  }

  /**
    * The member lists say what the messages say: after any message at all, muted
    * or not, a person is in a channel exactly when they were and nothing took
    * them out, or something put them in.
    */
  lemma MembershipFollowsMessages(s: Network, msg: Message, key: Text, n: Text, ctx: Context, now: int)
    ensures IsIn(Reduce(s, msg, ctx, now).state, key, n) <==> IsInAfter(s, msg, key, n, ctx)
  {
    hide Reduce;
    hide RecordAfter;
    hide IsInAfter;
    RecordsFollowMessages(s, msg, key, n, ctx, now);
    RecordedAfter(s, msg, key, n, ctx);
    InIsRecorded(Reduce(s, msg, ctx, now).state, key, n);
  }
}
