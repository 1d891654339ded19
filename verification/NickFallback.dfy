/** Which nick is tried after a refusal, and over a whole registration. */
module NickFallback {
  import opened Units
  import opened ISupport
  import opened CaseFolding
  import opened Messages
  import opened MuteList
  import opened NetworkState
  import opened Reducer

  function Underscores(n: nat): Text {
    seq(n, _ => UNDERSCORE)
  }

  /** The loop appends as few underscores as make the candidate new: every shorter one was refused. */
  lemma {:induction false} UnderscoredIsShortest(candidate: Text, tried: set<Text>, mapping: CaseMapping)
    ensures var r := Underscored(candidate, tried, mapping);
            && |candidate| <= |r| && r == candidate + Underscores(|r| - |candidate|)
            && Fold(r, mapping) !in tried
            && forall n: nat | n < |r| - |candidate| :: Fold(candidate + Underscores(n), mapping) in tried
    decreases |AtLeast(tried, |candidate|)|
  {
    if Fold(candidate, mapping) in tried {
      var longer := candidate + [UNDERSCORE];
      FewerRemain(candidate, tried, mapping);
      UnderscoredIsShortest(longer, tried, mapping);
      var r := Underscored(candidate, tried, mapping);
      assert longer + Underscores(|r| - |longer|) == candidate + Underscores(|r| - |candidate|);
      forall n: nat | n < |r| - |candidate| ensures Fold(candidate + Underscores(n), mapping) in tried {
        if n == 0 {
          assert candidate + Underscores(0) == candidate;
        } else {
          assert longer + Underscores(n - 1) == candidate + Underscores(n);
        }
      }
    } else {
      assert candidate + Underscores(0) == candidate;
    }
  }

  /** The first candidate that was not refused. */
  predicate IsFirstNew(candidates: seq<Text>, tried: set<Text>, mapping: CaseMapping, i: nat) {
    && i < |candidates| && Fold(candidates[i], mapping) !in tried
    && forall j | 0 <= j < i :: Fold(candidates[j], mapping) in tried
  }

  lemma {:induction false} FirstUntriedIsFirst(candidates: seq<Text>, tried: set<Text>, mapping: CaseMapping)
    ensures var r := FirstUntried(candidates, tried, mapping);
            && (r.Some? ==> r.value in candidates && Fold(r.value, mapping) !in tried)
            && (r.None? ==> forall c | c in candidates :: Fold(c, mapping) in tried)
            && forall i: nat | IsFirstNew(candidates, tried, mapping, i) :: r == Some(candidates[i])
  {
    if candidates == [] {
    } else {
      var rest := candidates[1..];
      FirstUntriedIsFirst(rest, tried, mapping);
      forall i: nat | IsFirstNew(candidates, tried, mapping, i)
        ensures FirstUntried(candidates, tried, mapping) == Some(candidates[i])
      {
        if i > 0 {
          forall j | 0 <= j < i - 1 ensures Fold(rest[j], mapping) in tried {
            assert rest[j] == candidates[j + 1];
          }
          assert Fold(candidates[0], mapping) in tried && IsFirstNew(rest, tried, mapping, i - 1);
        }
      }
    }
  }

  /** Whether the candidate the loop ends on is longer than the server allows. */
  predicate IsCut(s: Network, ctx: Context) {
    var tried := TriedKeys(s.triedNicks, MapOf(ctx));
    && FirstUntried(ctx.altNicks, tried, MapOf(ctx)).None?
    && |Underscored(s.nick + [UNDERSCORE], tried, MapOf(ctx))| > NickLimit(ctx)
  }

  /** The next nick has not been refused yet, up to case. */
  predicate IsFresh(nick: Text, s: Network, ctx: Context) {
    Fold(nick, MapOf(ctx)) !in TriedKeys(s.triedNicks, MapOf(ctx))
  }

  /** A cut candidate is the nick filled up with underscores to the limit, or the nick cut down to it. */
  lemma CutCandidate(s: Network, ctx: Context)
    requires IsCut(s, ctx)
    ensures |s.nick| < NickLimit(ctx) ==> NextNick(s, ctx) == s.nick + Underscores(NickLimit(ctx) - |s.nick|)
    ensures |s.nick| >= NickLimit(ctx) ==> NextNick(s, ctx) == s.nick[..NickLimit(ctx)]
  {
    var tried := TriedKeys(s.triedNicks, MapOf(ctx));
    UnderscoredIsShortest(s.nick + [UNDERSCORE], tried, MapOf(ctx));
  }

  /**
    * What decides whether the next nick is a new one: the limit does not cut it,
    * or the current nick reaches the limit by itself and is new cut down to it.
    */
  predicate LeavesRoom(s: Network, ctx: Context) {
    var limit := NickLimit(ctx);
    !IsCut(s, ctx) || (|s.nick| >= limit && IsFresh(s.nick[..limit], s, ctx))
  }

  /**
    * In any state at all the next nick is new exactly then. Filled up with
    * underscores to the limit, a cut nick is one the loop has already passed
    * over, so it is sent again.
    */
  lemma FreshExactlyWithRoom(s: Network, ctx: Context)
    ensures IsFresh(NextNick(s, ctx), s, ctx) <==> LeavesRoom(s, ctx)
  {
    var mapping := MapOf(ctx);
    var tried := TriedKeys(s.triedNicks, mapping);
    var limit := NickLimit(ctx);
    FirstUntriedIsFirst(ctx.altNicks, tried, mapping);
    UnderscoredIsShortest(s.nick + [UNDERSCORE], tried, mapping);
    if IsCut(s, ctx) {
      CutCandidate(s, ctx);
      if |s.nick| < limit {
        assert s.nick + [UNDERSCORE] + Underscores(limit - |s.nick| - 1) == s.nick + Underscores(limit - |s.nick|);
      }
    }
  }

  /** The nick with `n` underscores is new, and with fewer - but at least one - it is not. */
  ghost predicate IsFewestNew(nick: Text, tried: set<Text>, mapping: CaseMapping, n: nat) {
    && n > 0 && Fold(nick + Underscores(n), mapping) !in tried
    && forall k: nat | 0 < k < n :: Fold(nick + Underscores(k), mapping) in tried
  }

  /**
    * Which nick that is: the first of the profile's alternatives not refused yet,
    * or else the current nick with as few underscores as make it new, cut to
    * the length the server allows, or thirty.
    */
  lemma NextNickIsChosen(s: Network, ctx: Context)
    ensures var tried, mapping := TriedKeys(s.triedNicks, ctx.support.caseMapping), ctx.support.caseMapping;
            && (forall i: nat | IsFirstNew(ctx.altNicks, tried, mapping, i) :: NextNick(s, ctx) == ctx.altNicks[i])
            && ((forall nick | nick in ctx.altNicks :: Fold(nick, mapping) in tried) ==>
                  exists n :: IsFewestNew(s.nick, tried, mapping, n) && NextNick(s, ctx) == Shortened(s.nick, n, ctx))
  {
    var mapping := MapOf(ctx);
    var tried := TriedKeys(s.triedNicks, mapping);
    FirstUntriedIsFirst(ctx.altNicks, tried, mapping);
    UnderscoredIsShortest(s.nick + [UNDERSCORE], tried, mapping);
    var candidate := Underscored(s.nick + [UNDERSCORE], tried, mapping);
    var n := |candidate| - |s.nick|;
    MoreUnderscores(s.nick, n);
    forall k: nat | 0 < k < n ensures Fold(s.nick + Underscores(k), mapping) in tried {
      MoreUnderscores(s.nick, k);
    }
    assert IsFewestNew(s.nick, tried, mapping, n);
  }

  function Shortened(nick: Text, n: nat, ctx: Context): Text {
    var limit := if ctx.support.maxNickLength.None? then 30 else ctx.support.maxNickLength.value;
    var candidate := nick + Underscores(n);
    if |candidate| <= limit then candidate else candidate[..limit]
  }

  lemma MoreUnderscores(nick: Text, n: nat)
    requires n > 0
    ensures nick + [UNDERSCORE] + Underscores(n - 1) == nick + Underscores(n)
  {
  }

  ghost predicate Distinct(nicks: seq<Text>, mapping: CaseMapping) {
    forall i, j | 0 <= i < j < |nicks| :: !SameTarget(nicks[i], nicks[j], mapping)
  }

  lemma DistinctSnoc(nicks: seq<Text>, next: Text, mapping: CaseMapping)
    requires Distinct(nicks, mapping)
    ensures Distinct(nicks + [next], mapping) <==> Fold(next, mapping) !in TriedKeys(nicks, mapping)
  {
    var all := nicks + [next];
    if Fold(next, mapping) in TriedKeys(nicks, mapping) {
      var nick :| nick in nicks && Fold(nick, mapping) == Fold(next, mapping);
      var i :| 0 <= i < |nicks| && nicks[i] == nick;
      assert SameTarget(all[i], all[|nicks|], mapping);
    }
  }

  lemma HandledFrame(s: Network, msg: Message, ctx: Context)
    ensures BatchHandled(s, msg, ctx).triedNicks == s.triedNicks
  {
    hide LiveOldest;
    hide PageDone;
  }

  lemma KeptFrame(before: Network, after: Network)
    ensures KeepingBuffers(before, after).triedNicks == after.triedNicks
  {
  }

  lemma RefusalIsNotMuted(s: Network, msg: Message, ctx: Context, now: int)
    requires VerbFor(msg.command).NickRefusedVerb?
    ensures !Suppressed(s, msg, ctx, now)
  {
    hide VerbFor;
    hide IsIgnored;
    hide HostmaskOf;
  }

  lemma CountedFrame(s: Network, msg: Message, ctx: Context, now: int)
    ensures var counted := Counted(s, msg, ctx, now);
            && counted.phase == s.phase && counted.triedNicks == s.triedNicks
            && NextNick(counted, ctx) == NextNick(s, ctx)
  {
  }

  /** Whether a message is a refusal that will be answered with another nick. */
  predicate IsAnswered(s: Network, msg: Message) {
    VerbFor(msg.command).NickRefusedVerb? && s.phase.Registering?
  }

  /** What one message does to the list of refused nicks, muted or not. */
  lemma TriedGrows(s: Network, msg: Message, ctx: Context, now: int)
    ensures Reduce(s, msg, ctx, now).state.triedNicks
         == if IsAnswered(s, msg) then s.triedNicks + [NextNick(s, ctx)] else s.triedNicks
  {
    hide Apply;
    hide BatchHandled;
    hide Counted;
    hide NextNick;
    hide VerbFor;
    hide KeepingBuffers;
    hide Suppressed;
    var counted := Counted(s, msg, ctx, now);
    CountedFrame(s, msg, ctx, now);
    HandledFrame(counted, msg, ctx);
    ApplyFrame(counted, msg, ctx, now);
    KeptFrame(counted, Apply(counted, msg, ctx, now).state);
    if VerbFor(msg.command).NickRefusedVerb? {
      RefusalIsNotMuted(counted, msg, ctx, now);
    }
  }

  /** At every refusal of the run there is room for a new nick. */
  ghost predicate AlwaysRoom(s: Network, arrivals: seq<Arrived>, ctx: Context)
    decreases |arrivals|
  {
    arrivals == [] ||
    var before := ReduceAll(s, arrivals[..|arrivals| - 1], ctx);
    && AlwaysRoom(s, arrivals[..|arrivals| - 1], ctx)
    && (IsAnswered(before, arrivals[|arrivals| - 1].msg) ==> LeavesRoom(before, ctx))
  }

  lemma DistinctPrefix(nicks: seq<Text>, next: Text, mapping: CaseMapping)
    requires Distinct(nicks + [next], mapping)
    ensures Distinct(nicks, mapping)
  {
    var all := nicks + [next];
    assert forall i | 0 <= i < |nicks| :: all[i] == nicks[i];
  }

  /**
    * Over every registration, whatever else the server sends, no nick is tried
    * twice - the tried nicks are pairwise different under the casemapping -
    * exactly when there is room for a new one at every refusal.
    */
  lemma {:induction false} TriedNicksStayDistinct(s: Network, arrivals: seq<Arrived>, ctx: Context)
    requires Distinct(s.triedNicks, MapOf(ctx))
    ensures Distinct(ReduceAll(s, arrivals, ctx).triedNicks, MapOf(ctx)) <==> AlwaysRoom(s, arrivals, ctx)
    decreases |arrivals|
  {
    hide Reduce;
    hide LeavesRoom;
    hide NextNick;
    hide Distinct;
    if arrivals == [] {
      assert ReduceAll(s, arrivals, ctx) == s;
    } else {
      var before, last := ReduceAll(s, arrivals[..|arrivals| - 1], ctx), arrivals[|arrivals| - 1];
      TriedNicksStayDistinct(s, arrivals[..|arrivals| - 1], ctx);
      TriedGrows(before, last.msg, ctx, last.now);
      if IsAnswered(before, last.msg) {
        var next := NextNick(before, ctx);
        FreshExactlyWithRoom(before, ctx);
        if Distinct(before.triedNicks, MapOf(ctx)) {
          DistinctSnoc(before.triedNicks, next, MapOf(ctx));
        } else if Distinct(before.triedNicks + [next], MapOf(ctx)) {
          DistinctPrefix(before.triedNicks, next, MapOf(ctx));
        }
      }
    }
  }

  /** The nicks a run answers refusals with, in order. */
  function Retries(s: Network, arrivals: seq<Arrived>, ctx: Context): seq<Text>
    decreases |arrivals|
  {
    if arrivals == [] then []
    else
      var before, last := ReduceAll(s, arrivals[..|arrivals| - 1], ctx), arrivals[|arrivals| - 1];
      Retries(s, arrivals[..|arrivals| - 1], ctx) + if IsAnswered(before, last.msg) then [NextNick(before, ctx)] else []
  }

  lemma {:induction false} RetriesAreTried(s: Network, arrivals: seq<Arrived>, ctx: Context)
    ensures ReduceAll(s, arrivals, ctx).triedNicks == s.triedNicks + Retries(s, arrivals, ctx)
    decreases |arrivals|
  {
    hide Reduce;
    hide NextNick;
    if arrivals == [] {
      assert s.triedNicks + [] == s.triedNicks;
    } else {
      var before, last := ReduceAll(s, arrivals[..|arrivals| - 1], ctx), arrivals[|arrivals| - 1];
      RetriesAreTried(s, arrivals[..|arrivals| - 1], ctx);
      TriedGrows(before, last.msg, ctx, last.now);
      var earlier := Retries(s, arrivals[..|arrivals| - 1], ctx);
      assert earlier + [] == earlier;
      Regroup(s.triedNicks, earlier, [NextNick(before, ctx)]);
    }
  }

  /** A registration has tried the nick it began with and every one it answered a refusal with, and no other. */
  lemma RegistrationTries(s: Network, nick: Text, arrivals: seq<Arrived>, ctx: Context)
    ensures var started := StartRegistration(s, nick);
            && started.nick == nick && started.phase == Registering
            && ReduceAll(started, arrivals, ctx).triedNicks == [nick] + Retries(started, arrivals, ctx)
  {
    RetriesAreTried(StartRegistration(s, nick), arrivals, ctx);
  }

  /** A limit as long as the nick itself: the same nick is sent again, after every refusal. */
  lemma FullLengthNickIsRepeated(s: Network, ctx: Context)
    requires !IsFresh(s.nick, s, ctx) && |s.nick| == NickLimit(ctx)
    requires FirstUntried(ctx.altNicks, TriedKeys(s.triedNicks, MapOf(ctx)), MapOf(ctx)).None?
    ensures NextNick(s, ctx) == s.nick
  {
    UnderscoredIsShortest(s.nick + [UNDERSCORE], TriedKeys(s.triedNicks, MapOf(ctx)), MapOf(ctx));
    CutCandidate(s, ctx);
  }
}
