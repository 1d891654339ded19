/** The client-side mute list: hostmask rules with a scope and an expiry. */
module MuteList {
  import opened Units
  import opened ISupport
  import opened CaseFolding
  import opened Messages

  const STAR: Unit := 0x2a
  const QUESTION: Unit := 0x3f

  datatype Part = MessagesPart | NoticesPart | CtcpPart | InvitesPart | EventsPart

  datatype Scope = Scope(messages: bool, notices: bool, ctcp: bool, invites: bool, events: bool)

  datatype Rule = Rule(mask: Text, scope: Scope, expiresAt: Option<int>)

  predicate Covers(scope: Scope, part: Part) {
    match part
    case MessagesPart => scope.messages
    case NoticesPart => scope.notices
    case CtcpPart => scope.ctcp
    case InvitesPart => scope.invites
    case EventsPart => scope.events
  }

  /** What `.` matches in a pattern: anything but a line terminator. */
  predicate AnyUnit(u: Unit) {
    u != LF && u != CR && u != 0x2028 && u != 0x2029
  }

  /** `*` matches any run, `?` one unit, everything else itself. */
  predicate Glob(mask: Text, s: Text)
    decreases |mask| + |s|
  {
    if mask == [] then s == []
    else if mask[0] == STAR then Glob(mask[1..], s) || (s != [] && AnyUnit(s[0]) && Glob(mask, s[1..]))
    else s != [] && (if mask[0] == QUESTION then AnyUnit(s[0]) else mask[0] == s[0]) && Glob(mask[1..], s[1..])
  }

  function CompleteMask(mask: Text): Text {
    var at := Find(mask, AT);
    var bang := Find(mask, BANG);
    if mask == [] then [STAR, BANG, STAR, AT, STAR]
    else if bang < |mask| && at < |mask| then mask
    else if at < |mask| then
      [STAR, BANG] + (if at == 0 then [STAR] else mask[..at]) + [AT] + mask[at + 1..]
    else if bang < |mask| then mask + [AT, STAR]
    else mask + [BANG, STAR, AT, STAR]
  }

  /** A completed mask always has both marks, and so is left alone from then on. */
  lemma CompleteMaskIsComplete(mask: Text)
    ensures BANG in CompleteMask(mask) && AT in CompleteMask(mask)
    ensures CompleteMask(CompleteMask(mask)) == CompleteMask(mask)
  {
    var full := CompleteMask(mask);
    var at, bang := Find(mask, AT), Find(mask, BANG);
    if mask != [] && at < |mask| && bang == |mask| {
      assert full[1] == BANG && full[2 + if at == 0 then 1 else at] == AT;
    } else if mask != [] && bang < |mask| && at == |mask| {
      assert full[bang] == BANG && full[|mask|] == AT;
    } else if mask != [] && bang < |mask| {
      assert full[bang] == BANG && full[at] == AT;
    } else {
      assert full[|mask| + if mask == [] then 1 else 0] == BANG;
      assert full[|full| - 2] == AT;
    }
    assert Find(full, AT) < |full| && Find(full, BANG) < |full|;
  }

  function HostmaskOf(source: Source): Text {
    source.nick + [BANG] + (if source.user == [] then [STAR] else source.user)
      + [AT] + (if source.host == [] then [STAR] else source.host)
  }

  predicate IsActive(rule: Rule, now: int) {
    rule.expiresAt.Some? ==> rule.expiresAt.value > now
  }

  predicate Matches(rule: Rule, hostmask: Text, part: Part, mapping: CaseMapping, now: int) {
    && Covers(rule.scope, part)
    && IsActive(rule, now)
    && Glob(Fold(CompleteMask(rule.mask), mapping), Fold(hostmask, mapping))
  }

  predicate IsIgnored(rules: seq<Rule>, hostmask: Text, part: Part, mapping: CaseMapping, now: int) {
    exists r | r in rules :: Matches(r, hostmask, part, mapping, now)
  }

  /** Rules that mute joins, parts, quits, renames and mode changes, and nothing else. */
  predicate EventsOnly(rules: seq<Rule>) {
    forall r | r in rules ::
      !r.scope.messages && !r.scope.notices && !r.scope.ctcp && !r.scope.invites
  }

  // ---------- Masks in full ----------

  /** What each kind of mask is completed to. */
  lemma MasksAreCompleted(nick: Text, user: Text, host: Text)
    requires BANG !in nick && AT !in nick && BANG !in user && AT !in user
    ensures CompleteMask([]) == Ascii("*!*@*")
    ensures nick != [] ==> CompleteMask(nick) == nick + Ascii("!*@*")
    ensures CompleteMask(nick + Ascii("!") + user) == nick + Ascii("!") + user + Ascii("@*")
    ensures BANG !in host ==>
              CompleteMask(user + Ascii("@") + host)
                == Ascii("*!") + (if user == [] then Ascii("*") else user) + Ascii("@") + host
    ensures var full := nick + Ascii("!") + user + Ascii("@") + host; CompleteMask(full) == full
  {
    assert Ascii("*!*@*") == [STAR, BANG, STAR, AT, STAR] && Ascii("!*@*") == [BANG, STAR, AT, STAR];
    assert Ascii("!") == [BANG] && Ascii("@") == [AT] && Ascii("@*") == [AT, STAR];
    assert Ascii("*!") == [STAR, BANG] && Ascii("*") == [STAR];
    NickMask(nick);
    NickUserMask(nick, user);
    if BANG !in host {
      UserHostMask(user, host);
    }
    FullMask(nick, user, host);
    hide CompleteMask;
  }

  lemma NickMask(nick: Text)
    requires BANG !in nick && AT !in nick
    ensures CompleteMask([]) == [STAR, BANG, STAR, AT, STAR]
    ensures nick != [] ==> CompleteMask(nick) == nick + [BANG, STAR, AT, STAR]
  {
  }

  lemma NickUserMask(nick: Text, user: Text)
    requires BANG !in nick && AT !in nick && AT !in user
    ensures CompleteMask(nick + [BANG] + user) == nick + [BANG] + user + [AT, STAR]
  {
    var mask := nick + [BANG] + user;
    FindUnique(mask, BANG, |nick|);
    FindUnique(mask, AT, |mask|);
  }

  lemma UserHostMask(user: Text, host: Text)
    requires BANG !in user && AT !in user && BANG !in host
    ensures CompleteMask(user + [AT] + host)
         == [STAR, BANG] + (if user == [] then [STAR] else user) + [AT] + host
  {
    var mask := user + [AT] + host;
    FindUnique(mask, AT, |user|);
    FindUnique(mask, BANG, |mask|);
    assert mask[..|user|] == user && mask[|user| + 1..] == host;
  }

  lemma FullMask(nick: Text, user: Text, host: Text)
    ensures var full := nick + [BANG] + user + [AT] + host; CompleteMask(full) == full
  {
    var full := nick + [BANG] + user + [AT] + host;
    assert full[|nick|] == BANG && full[|nick| + 1 + |user|] == AT;
    assert Find(full, BANG) < |full| && Find(full, AT) < |full|;
  }

  /** A run of what a wildcard can stand for: no line ends. */
  ghost predicate IsRun(s: Text, k: nat) {
    k <= |s| && forall i | 0 <= i < k :: s[i] !in {0x0a, 0x0d, 0x2028, 0x2029}
  }

  lemma {:induction false} StarMatchesRuns(mask: Text, s: Text)
    ensures Glob([STAR] + mask, s) <==> exists k: nat :: IsRun(s, k) && Glob(mask, s[k..])
    decreases |s|
  {
    var starred := [STAR] + mask;
    assert starred[1..] == mask;
    assert s[0..] == s;
    if s != [] && AnyUnit(s[0]) {
      StarMatchesRuns(mask, s[1..]);
      if k: nat :| IsRun(s[1..], k) && Glob(mask, s[1..][k..]) {
        assert s[1..][k..] == s[k + 1..] && IsRun(s, k + 1);
      }
      if k: nat :| IsRun(s, k) && Glob(mask, s[k..]) {
        if k > 0 {
          assert s[1..][k - 1..] == s[k..] && IsRun(s[1..], k - 1);
        }
      }
    }
    if Glob(mask, s) {
      assert IsRun(s, 0);
    }
  }

  /** A mask matches as its marks say: a star any run, a question mark any unit, the rest itself. */
  lemma MasksMatch(u: Unit, mask: Text, s: Text)
    ensures Glob([], s) <==> s == []
    ensures Glob([STAR] + mask, s) <==> exists k: nat :: IsRun(s, k) && Glob(mask, s[k..])
    ensures Glob([QUESTION] + mask, s) <==> s != [] && IsRun(s, 1) && Glob(mask, s[1..])
    ensures u != STAR && u != QUESTION ==> (Glob([u] + mask, s) <==> s != [] && s[0] == u && Glob(mask, s[1..]))
  {
    StarMatchesRuns(mask, s);
    assert ([QUESTION] + mask)[1..] == mask && ([u] + mask)[1..] == mask;
  }
}
