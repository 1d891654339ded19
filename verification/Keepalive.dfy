/**
  * Noticing a dead connection: one timer that first waits for silence and then
  * for an answer to a PING. The host's timers and clock are part of the state;
  * whether a PING could be sent is an input of the step that sends it.
  */
module Keepalive {
  import opened Units

  datatype AlarmKind = AskAlarm | DeadAlarm

  datatype Alarm = Alarm(kind: AlarmKind, due: nat)

  /** What happened, in order: everything a caller or the host did that had an effect. */
  datatype Event =
    | Started(at: nat)
    | Stopped(at: nat)
    | Heard(at: nat)
    | Pinged(at: nat, sent: bool)
    | Died(at: nat)

  datatype Watch = Watch(
    idleMs: nat, timeoutMs: nat,
    now: nat, alarms: map<nat, Alarm>, nextHandle: nat,
    timer: Option<nat>, running: bool, waiting: bool, dead: bool,
    log: seq<Event>)

  function Initial(idleMs: nat, timeoutMs: nat, now: nat): Watch {
    Watch(idleMs, timeoutMs, now, map[], 0, None, false, false, false, [])
  }

  // ---------- The functions the closures compute ----------

  function Logged(w: Watch, event: Event): Watch {
    w.(log := w.log + [event])
  }

  function Cancelled(w: Watch): Watch {
    if w.timer.None? then w else w.(alarms := w.alarms - {w.timer.value}, timer := None)
  }

  function Scheduled(w: Watch, kind: AlarmKind, ms: nat): Watch {
    w.(alarms := w.alarms[w.nextHandle := Alarm(kind, w.now + ms)],
       timer := Some(w.nextHandle), nextHandle := w.nextHandle + 1)
  }

  function DeclaredDead(w: Watch): Watch {
    if w.dead || !w.running then w
    else Logged(Cancelled(w.(dead := true, running := false, waiting := false)), Died(w.now))
  }

  function Asked(w: Watch, sent: bool): Watch {
    if !w.running then w
    else
      var asked := Logged(w.(waiting := true), Pinged(w.now, sent));
      if sent then Scheduled(asked, DeadAlarm, w.timeoutMs) else DeclaredDead(asked)
  }

  function WaitingForSilence(w: Watch): Watch {
    var cancelled := Cancelled(w);
    if !w.running then cancelled else Scheduled(cancelled.(waiting := false), AskAlarm, w.idleMs)
  }

  datatype Step =
    | Start | Stop | NoteActivity
    | ProbeNow(sent: bool)
    | Fire(handle: nat, sent: bool)
    | Tick(ms: nat)

  /** An alarm fires when it is due or later; a suspended machine may make it much later. */
  predicate Enabled(w: Watch, step: Step) {
    step.Fire? ==> step.handle in w.alarms && w.alarms[step.handle].due <= w.now
  }

  function Next(w: Watch, step: Step): Watch
    requires Enabled(w, step)
  {
    match step
    case Start =>
      if w.running then w
      else WaitingForSilence(Logged(w.(running := true, dead := false), Started(w.now)))
    case Stop => Logged(Cancelled(w.(running := false, waiting := false, dead := false)), Stopped(w.now))
    case NoteActivity => if !w.running then w else WaitingForSilence(Logged(w, Heard(w.now)))
    case ProbeNow(sent) => if !w.running || w.waiting then w else Asked(Cancelled(w), sent)
    case Fire(handle, sent) =>
      var fired := w.(alarms := w.alarms - {handle});
      if w.alarms[handle].kind == AskAlarm then Asked(fired, sent) else DeclaredDead(fired)
    case Tick(ms) => w.(now := w.now + ms)
  }

  // ---------- The machine itself ----------

  class KeepaliveTimer {
    const idleMs: nat
    const timeoutMs: nat
    var now: nat
    var alarms: map<nat, Alarm>
    var nextHandle: nat
    var timer: Option<nat>
    var running: bool
    var waiting: bool
    var dead: bool
    ghost var log: seq<Event>

    ghost function View(): Watch
      reads this
    {
      Watch(idleMs, timeoutMs, now, alarms, nextHandle, timer, running, waiting, dead, log)
    }

    constructor (idleMs: nat, timeoutMs: nat, now: nat)
      ensures View() == Initial(idleMs, timeoutMs, now)
    {
      this.idleMs, this.timeoutMs, this.now := idleMs, timeoutMs, now;
      alarms, nextHandle, timer := map[], 0, None;
      running, waiting, dead, log := false, false, false, [];
    }

    method Schedule(kind: AlarmKind, ms: nat)
      modifies this
      ensures View() == Scheduled(old(View()), kind, ms)
    {
      alarms := alarms[nextHandle := Alarm(kind, now + ms)];
      timer := Some(nextHandle);
      nextHandle := nextHandle + 1;
    }

    method Cancel()
      modifies this
      ensures View() == Cancelled(old(View()))
    {
      if timer.Some? {
        alarms := alarms - {timer.value};
        timer := None;
      }
    }

    method DeclareDead()
      modifies this
      ensures View() == DeclaredDead(old(View()))
    {
      if dead || !running {
        return;
      }
      dead := true;
      running := false;
      waiting := false;
      Cancel();
      log := log + [Died(now)];
    }

    method Ask(sent: bool)
      modifies this
      ensures View() == Asked(old(View()), sent)
    {
      if !running {
        return;
      }
      waiting := true;
      log := log + [Pinged(now, sent)];
      if !sent {
        DeclareDead();
        return;
      }
      Schedule(DeadAlarm, timeoutMs);
    }

    method WaitForSilence()
      modifies this
      ensures View() == WaitingForSilence(old(View()))
    {
      Cancel();
      if !running {
        return;
      }
      waiting := false;
      Schedule(AskAlarm, idleMs);
    }

    method StartWatching()
      modifies this
      ensures View() == Next(old(View()), Start)
    {
      if running {
        return;
      }
      running := true;
      dead := false;
      log := log + [Started(now)];
      WaitForSilence();
    }

    method Probe(sent: bool)
      modifies this
      ensures View() == Next(old(View()), ProbeNow(sent))
    {
      if !running || waiting {
        return;
      }
      Cancel();
      Ask(sent);
    }

    method Note()
      modifies this
      ensures View() == Next(old(View()), NoteActivity)
    {
      if !running {
        return;
      }
      log := log + [Heard(now)];
      WaitForSilence();
    }

    method StopWatching()
      modifies this
      ensures View() == Next(old(View()), Stop)
    {
      running := false;
      waiting := false;
      dead := false;
      Cancel();
      log := log + [Stopped(now)];
    }

    /** The host runs a due alarm: it is gone from the host, though `timer` still names it. */
    method AlarmFires(handle: nat, sent: bool)
      requires Enabled(View(), Fire(handle, sent))
      modifies this
      ensures View() == Next(old(View()), Fire(handle, sent))
    {
      var kind := alarms[handle].kind;
      alarms := alarms - {handle};
      if kind == AskAlarm {
        Ask(sent);
      } else {
        DeclareDead();
      }
    }

    method TimePasses(ms: nat)
      modifies this
      ensures View() == Next(old(View()), Tick(ms))
    {
      now := now + ms;
    }
  }

  // ---------- What every run keeps ----------

  predicate IsLife(event: Event) {
    event.Started? || event.Heard?
  }

  /** Whether the log leaves the watch running: its last start, stop or death is a start. */
  predicate Watching(log: seq<Event>) {
    if log == [] then false
    else
      match log[|log| - 1]
      case Started(_) => true
      case Stopped(_) | Died(_) => false
      case Heard(_) | Pinged(_, _) => Watching(log[..|log| - 1])
  }

  /**
    * How an event must be justified by those before it. A PING follows a sign
    * of life with nothing in between. A death follows a PING with nothing in
    * between: one that could not be sent, at once, or one that went unanswered
    * for the whole timeout; and it happens to a running watch only.
    */
  predicate Justified(log: seq<Event>, i: nat, timeoutMs: nat)
    requires i < |log|
  {
    match log[i]
    case Pinged(_, _) => i > 0 && IsLife(log[i - 1]) && Watching(log[..i])
    case Died(at) =>
      && i > 0 && log[i - 1].Pinged? && Watching(log[..i])
      && (if log[i - 1].sent then at >= log[i - 1].at + timeoutMs else at == log[i - 1].at)
    case Heard(_) => Watching(log[..i])
    case Started(_) => !Watching(log[..i])
    case Stopped(_) => true
  }

  /** Exactly one live timer while running, none otherwise, and what it waits for. */
  predicate OneTimer(w: Watch) {
    if w.running then
      && !w.dead && w.timer.Some? && w.alarms.Keys == {w.timer.value} && w.timer.value < w.nextHandle
      && w.log != []
      && var last := w.log[|w.log| - 1];
      && last.at <= w.now
      && w.alarms[w.timer.value] ==
           (if w.waiting then Alarm(DeadAlarm, last.at + w.timeoutMs) else Alarm(AskAlarm, last.at + w.idleMs))
      && (if w.waiting then last.Pinged? && last.sent else IsLife(last))
    else w.timer == None && w.alarms == map[] && !w.waiting
  }

  ghost predicate Sound(w: Watch) {
    && OneTimer(w)
    && (w.running <==> Watching(w.log))
    && forall i | 0 <= i < |w.log| :: Justified(w.log, i, w.timeoutMs)
  }

  lemma JustifiedSnoc(log: seq<Event>, event: Event, timeoutMs: nat)
    requires forall i | 0 <= i < |log| :: Justified(log, i, timeoutMs)
    requires Justified(log + [event], |log|, timeoutMs)
    ensures forall i | 0 <= i < |log + [event]| :: Justified(log + [event], i, timeoutMs)
  {
    forall i | 0 <= i < |log| ensures Justified(log + [event], i, timeoutMs) {
      assert Justified(log, i, timeoutMs);
      assert (log + [event])[..i] == log[..i];
    }
  }

  /** What may be logged next. */
  predicate MayFollow(w: Watch, event: Event) {
    match event
    case Started(_) => !Watching(w.log)
    case Stopped(_) => true
    case Heard(_) => Watching(w.log)
    case Pinged(_, _) => Watching(w.log) && w.log != [] && IsLife(w.log[|w.log| - 1])
    case Died(at) =>
      && Watching(w.log) && w.log != [] && w.log[|w.log| - 1].Pinged?
      && var p := w.log[|w.log| - 1];
         if p.sent then at >= p.at + w.timeoutMs else at == p.at
  }

  predicate WatchingAfter(log: seq<Event>, event: Event) {
    event.Started? || (!event.Stopped? && !event.Died? && Watching(log))
  }

  /** The log grows by at most a PING and a death in one step. */
  lemma LogGrows(w: Watch, event: Event)
    requires forall i | 0 <= i < |w.log| :: Justified(w.log, i, w.timeoutMs)
    requires MayFollow(w, event)
    ensures forall i | 0 <= i < |w.log + [event]| :: Justified(w.log + [event], i, w.timeoutMs)
    ensures Watching(w.log + [event]) <==> WatchingAfter(w.log, event)
  {
    assert (w.log + [event])[..|w.log|] == w.log;
    JustifiedSnoc(w.log, event, w.timeoutMs);
  }

  lemma AskedIsSound(w: Watch, sent: bool)
    requires w.running && !w.dead && Watching(w.log) && w.log != [] && IsLife(w.log[|w.log| - 1])
    requires w.log[|w.log| - 1].at <= w.now
    requires w.alarms == map[]
    requires forall i | 0 <= i < |w.log| :: Justified(w.log, i, w.timeoutMs)
    ensures Sound(Asked(w, sent))
  {
    LogGrows(w, Pinged(w.now, sent));
    var asked := Logged(w.(waiting := true), Pinged(w.now, sent));
    if !sent {
      LogGrows(asked, Died(w.now));
    }
  }

  /** The calls. */
  lemma CallKeepsSound(w: Watch, step: Step)
    requires Sound(w) && Enabled(w, step) && !step.Fire?
    ensures Sound(Next(w, step))
  {
    match step
    case Start => if !w.running { LogGrows(w, Started(w.now)); }
    case Stop => LogGrows(w, Stopped(w.now));
    case NoteActivity => if w.running { LogGrows(w, Heard(w.now)); }
    case ProbeNow(sent) => if w.running && !w.waiting { AskedIsSound(Cancelled(w), sent); }
    case Tick(ms) =>
  }

  /** The two timers. */
  lemma FireKeepsSound(w: Watch, handle: nat, sent: bool)
    requires Sound(w) && Enabled(w, Fire(handle, sent))
    ensures Sound(Next(w, Fire(handle, sent)))
  {
    var fired := w.(alarms := w.alarms - {handle});
    if w.alarms[handle].kind == AskAlarm {
      AskedIsSound(fired, sent);
    } else {
      LogGrows(w, Died(w.now));
    }
  }

  lemma StepKeepsSound(w: Watch, step: Step)
    requires Sound(w) && Enabled(w, step)
    ensures Sound(Next(w, step))
  {
    hide Sound;
    hide Next;
    hide Enabled;
    if step.Fire? {
      FireKeepsSound(w, step.handle, step.sent);
    } else {
      CallKeepsSound(w, step);
    }
  }

  /** A run: every step enabled where it is taken. */
  predicate IsRun(w: Watch, steps: seq<Step>)
    decreases |steps|
  {
    steps == [] || (Enabled(w, steps[0]) && IsRun(Next(w, steps[0]), steps[1..]))
  }

  function After(w: Watch, steps: seq<Step>): Watch
    requires IsRun(w, steps)
    decreases |steps|
  {
    if steps == [] then w else After(Next(w, steps[0]), steps[1..])
  }

  /**
    * Over every run, however late the host's timers: one live timer exactly
    * while running and `waiting` says which; and every PING and every death in
    * the log is justified.
    */
  lemma {:induction false} RunsAreSound(w: Watch, steps: seq<Step>)
    requires Sound(w) && IsRun(w, steps)
    ensures Sound(After(w, steps))
    decreases |steps|
  {
    if steps == [] {
    } else {
      StepKeepsSound(w, steps[0]);
      RunsAreSound(Next(w, steps[0]), steps[1..]);
    }
  }

  lemma InitialIsSound(idleMs: nat, timeoutMs: nat, now: nat)
    ensures Sound(Initial(idleMs, timeoutMs, now))
  {
  }

  lemma {:induction false} NotWatchingSince(log: seq<Event>, i: nat, j: nat)
    requires i < j <= |log|
    requires log[i].Died? || log[i].Stopped?
    requires forall k | i < k < j :: !log[k].Started?
    ensures !Watching(log[..j])
  {
    assert log[..j][..j - 1] == log[..j - 1];
    if j - 1 > i {
      NotWatchingSince(log, i, j - 1);
    }
  }

  /** Death is announced at most once per start, and never after a stop. */
  lemma DeathNeedsAStart(w: Watch, i: nat, j: nat)
    requires Sound(w) && i < j < |w.log|
    requires w.log[j].Died? && (w.log[i].Died? || w.log[i].Stopped?)
    ensures exists k :: i < k < j && w.log[k].Started?
  {
    assert Justified(w.log, j, w.timeoutMs);
    if forall k | i < k < j :: !w.log[k].Started? {
      NotWatchingSince(w.log, i, j);
    }
  }

  // ---------- Punctual hosts ----------

  /** Time does not pass over an alarm that is due: the host runs it first. */
  predicate Punctual(w: Watch, step: Step) {
    step.Tick? ==> forall h | h in w.alarms :: w.now + step.ms <= w.alarms[h].due
  }

  predicate IsPunctualRun(w: Watch, steps: seq<Step>)
    decreases |steps|
  {
    steps == [] || (Enabled(w, steps[0]) && Punctual(w, steps[0]) && IsPunctualRun(Next(w, steps[0]), steps[1..]))
  }

  /** The last sign of life before position `i`: a start, or something heard. */
  function LastLife(log: seq<Event>, i: nat): nat
    requires i <= |log|
  {
    if i == 0 then 0 else if IsLife(log[i - 1]) then log[i - 1].at else LastLife(log, i - 1)
  }

  ghost predicate OnTime(w: Watch) {
    && (forall h | h in w.alarms :: w.now <= w.alarms[h].due)
    && (forall i | 0 <= i < |w.log| && (w.log[i].Pinged? || w.log[i].Died?) ::
          w.log[i].at <= LastLife(w.log, i) + w.idleMs + if w.log[i].Died? then w.timeoutMs else 0)
  }

  lemma {:induction false} LastLifeSnoc(log: seq<Event>, event: Event, i: nat)
    requires i <= |log|
    ensures LastLife(log + [event], i) == LastLife(log, i)
  {
    if i > 0 {
      LastLifeSnoc(log, event, i - 1);
    }
  }

  lemma OnTimeSnoc(w: Watch, event: Event)
    requires forall i | 0 <= i < |w.log| && (w.log[i].Pinged? || w.log[i].Died?) ::
               w.log[i].at <= LastLife(w.log, i) + w.idleMs + if w.log[i].Died? then w.timeoutMs else 0
    requires event.Pinged? || event.Died? ==>
               event.at <= LastLife(w.log, |w.log|) + w.idleMs + if event.Died? then w.timeoutMs else 0
    ensures var log := w.log + [event];
            forall i | 0 <= i < |log| && (log[i].Pinged? || log[i].Died?) ::
              log[i].at <= LastLife(log, i) + w.idleMs + if log[i].Died? then w.timeoutMs else 0
  {
    var log := w.log + [event];
    forall i | 0 <= i < |log| && (log[i].Pinged? || log[i].Died?)
      ensures log[i].at <= LastLife(log, i) + w.idleMs + if log[i].Died? then w.timeoutMs else 0
    {
      LastLifeSnoc(w.log, event, i);
    }
  }

  lemma AskedIsOnTime(w: Watch, sent: bool)
    requires w.running && !w.dead && w.log != [] && IsLife(w.log[|w.log| - 1])
    requires w.now <= w.log[|w.log| - 1].at + w.idleMs
    requires w.alarms == map[] && OnTime(w)
    ensures OnTime(Asked(w, sent))
  {
    OnTimeSnoc(w, Pinged(w.now, sent));
    var asked := Logged(w.(waiting := true), Pinged(w.now, sent));
    LastLifeSnoc(w.log, Pinged(w.now, sent), |w.log|);
    if !sent {
      OnTimeSnoc(asked, Died(w.now));
    }
  }

  lemma CallKeepsTime(w: Watch, step: Step)
    requires Sound(w) && OnTime(w) && Enabled(w, step) && Punctual(w, step) && !step.Fire?
    ensures OnTime(Next(w, step))
  {
    match step
    case Start => OnTimeSnoc(w, Started(w.now));
    case Stop => OnTimeSnoc(w, Stopped(w.now));
    case NoteActivity => OnTimeSnoc(w, Heard(w.now));
    case ProbeNow(sent) => if w.running && !w.waiting { AskedIsOnTime(Cancelled(w), sent); }
    case Tick(ms) =>
  }

  lemma FireKeepsTime(w: Watch, handle: nat, sent: bool)
    requires Sound(w) && OnTime(w) && Enabled(w, Fire(handle, sent))
    ensures OnTime(Next(w, Fire(handle, sent)))
  {
    var fired := w.(alarms := w.alarms - {handle});
    if w.alarms[handle].kind == AskAlarm {
      AskedIsOnTime(fired, sent);
    } else {
      var ping := w.log[|w.log| - 1];
      assert ping.at <= LastLife(w.log, |w.log| - 1) + w.idleMs;
      OnTimeSnoc(w, Died(w.now));
    }
  }

  lemma StepKeepsTime(w: Watch, step: Step)
    requires Sound(w) && OnTime(w) && Enabled(w, step) && Punctual(w, step)
    ensures OnTime(Next(w, step))
  {
    hide Sound;
    hide OnTime;
    hide Next;
    hide Enabled;
    hide Punctual;
    if step.Fire? {
      FireKeepsTime(w, step.handle, step.sent);
    } else {
      CallKeepsTime(w, step);
    }
  }

  lemma RunningIsWithinTime(w: Watch)
    requires Sound(w) && OnTime(w) && w.running
    ensures w.now <= LastLife(w.log, |w.log|) + w.idleMs + w.timeoutMs
  {
    var last := w.log[|w.log| - 1];
    assert w.timer.value in w.alarms;
    assert w.waiting ==> LastLife(w.log, |w.log|) == LastLife(w.log, |w.log| - 1);
  }

  /**
    * On a punctual host every death comes within the idle and answer times of
    * the last sign of life, and a watch that is still running is within them:
    * with no activity the clock cannot get past them without a death.
    */
  lemma {:induction false} DeathIsTimely(w: Watch, steps: seq<Step>)
    requires Sound(w) && OnTime(w) && IsPunctualRun(w, steps)
    ensures IsRun(w, steps)
    ensures var end := After(w, steps);
            && OnTime(end)
            && (end.running ==> end.now <= LastLife(end.log, |end.log|) + w.idleMs + w.timeoutMs)
    decreases |steps|
  {
    if steps == [] {
      if w.running {
        RunningIsWithinTime(w);
      }
    } else {
      StepKeepsLimits(w, steps[0]);
      hide Sound;
      hide OnTime;
      hide Enabled;
      hide Punctual;
      hide Next;
      StepKeepsSound(w, steps[0]);
      StepKeepsTime(w, steps[0]);
      DeathIsTimely(Next(w, steps[0]), steps[1..]);
    }
  }

  lemma StepKeepsLimits(w: Watch, step: Step)
    requires Enabled(w, step)
    ensures Next(w, step).idleMs == w.idleMs && Next(w, step).timeoutMs == w.timeoutMs
  {
  }

  // ---------- What each step does, and what a run of steps cannot do ----------

  /** The host holds one alarm for the watch, of this kind and due then. */
  predicate OnlyAlarm(w: Watch, kind: AlarmKind, due: nat) {
    w.timer.Some? && w.alarms == map[w.timer.value := Alarm(kind, due)]
  }

  /** Watching in silence: nothing is asked before the idle time is over. */
  predicate InSilence(w: Watch) {
    w.running && !w.waiting && OnlyAlarm(w, AskAlarm, w.now + w.idleMs)
  }

  /** A PING went out just now, and the deadline for an answer is set. */
  predicate JustAsked(w: Watch) {
    w.running && w.waiting && OnlyAlarm(w, DeadAlarm, w.now + w.timeoutMs)
  }

  predicate AtRest(w: Watch) {
    !w.running && !w.waiting && w.alarms == map[]
  }

  /** What a PING leads to: waiting for the answer, or death where it could not be sent. */
  predicate AskingFrom(w: Watch, n: Watch, sent: bool) {
    if sent then JustAsked(n) && n.log == w.log + [Pinged(w.now, true)]
    else AtRest(n) && n.log == w.log + [Pinged(w.now, false), Died(w.now)]
  }

  /** Activity starts the silence over, whether or not an answer was outstanding; the other calls likewise. */
  lemma CallsSay(w: Watch)
    requires Sound(w)
    ensures w.running ==> InSilence(Next(w, NoteActivity)) && Next(w, NoteActivity).log == w.log + [Heard(w.now)]
    ensures !w.running ==> Next(w, NoteActivity) == w
    ensures !w.running ==> InSilence(Next(w, Start)) && Next(w, Start).log == w.log + [Started(w.now)]
    ensures w.running ==> Next(w, Start) == w
    ensures AtRest(Next(w, Stop)) && Next(w, Stop).log == w.log + [Stopped(w.now)]
    ensures forall sent :: if w.running && !w.waiting then AskingFrom(w, Next(w, ProbeNow(sent)), sent)
                           else Next(w, ProbeNow(sent)) == w
  {
  }

  /** The silence that runs out is asked about; a deadline that runs out is a death, told once. */
  lemma AlarmsSay(w: Watch, handle: nat, sent: bool)
    requires Sound(w) && Enabled(w, Fire(handle, sent))
    ensures w.running && w.timer == Some(handle)
    ensures !w.waiting ==> AskingFrom(w, Next(w, Fire(handle, sent)), sent)
    ensures w.waiting ==>
              AtRest(Next(w, Fire(handle, sent))) && Next(w, Fire(handle, sent)).log == w.log + [Died(w.now)]
  {
    assert handle in w.alarms.Keys;
  }

  /** The time that passes in a run. */
  function Elapsed(steps: seq<Step>): nat {
    if steps == [] then 0 else (if steps[0].Tick? then steps[0].ms else 0) + Elapsed(steps[1..])
  }

  /** No alarm of the watch is due before these times. */
  predicate NothingBefore(w: Watch, ask: nat, dead: nat) {
    forall h | h in w.alarms :: w.alarms[h].due >= if w.alarms[h].kind == AskAlarm then ask else dead
  }

  /** The watch lives on through the steps: nobody stops it or probes, and every PING that is due can be sent. */
  predicate LeftAlone(steps: seq<Step>) {
    forall step | step in steps :: !step.Stop? && !step.ProbeNow? && (step.Fire? ==> step.sent)
  }

  lemma StepKeepsAhead(w: Watch, step: Step, ask: nat, dead: nat)
    requires Sound(w) && Enabled(w, step) && w.running && NothingBefore(w, ask, dead) && dead <= ask + w.timeoutMs
    requires !step.Stop? && !step.ProbeNow? && (step.Fire? ==> step.sent)
    requires w.now < dead && (!step.Fire? && !step.Tick? ==> ask <= w.now + w.idleMs)
    ensures Next(w, step).running && NothingBefore(Next(w, step), ask, dead)
  {
    if step.Fire? {
      AlarmsSay(w, step.handle, step.sent);
    } else if !step.Tick? {
      CallsSay(w);
    }
  }

  lemma {:induction false} AliveUntil(w: Watch, steps: seq<Step>, since: nat)
    requires Sound(w) && w.running && IsRun(w, steps) && LeftAlone(steps)
    requires since <= w.now && NothingBefore(w, since + w.idleMs, since + w.idleMs + w.timeoutMs)
    requires w.now + Elapsed(steps) < since + w.idleMs + w.timeoutMs
    ensures After(w, steps).running && After(w, steps).now == w.now + Elapsed(steps)
    decreases |steps|
  {
    if steps == [] {
      assert After(w, steps) == w;
    } else {
      assert steps[0] in steps && forall step | step in steps[1..] :: step in steps;
      StepKeepsSound(w, steps[0]);
      StepKeepsLimits(w, steps[0]);
      StepMovesClock(w, steps[0]);
      StepKeepsAhead(w, steps[0], since + w.idleMs, since + w.idleMs + w.timeoutMs);
      AliveUntil(Next(w, steps[0]), steps[1..], since);
    }
  }

  lemma StepMovesClock(w: Watch, step: Step)
    requires Enabled(w, step)
    ensures Next(w, step).now == w.now + if step.Tick? then step.ms else 0
  {
  }

  /**
    * Whatever arrives answers whatever was outstanding. From a line received by a
    * running watch, waiting or not, nothing short of the idle and the answer
    * times together ends in a death, however the host's timers fire - as long as
    * PINGs can be sent and nobody stops the watch or probes.
    */
  lemma ActivityKeepsAlive(w: Watch, steps: seq<Step>)
    requires Sound(w) && w.running
    requires IsRun(Next(w, NoteActivity), steps) && LeftAlone(steps) && Elapsed(steps) < w.idleMs + w.timeoutMs
    ensures After(Next(w, NoteActivity), steps).running
  {
    CallsSay(w);
    StepKeepsSound(w, NoteActivity);
    StepKeepsLimits(w, NoteActivity);
    AliveUntil(Next(w, NoteActivity), steps, w.now);
  }

  /** No deadline is due before `dead`. */
  predicate NoDeadlineBefore(w: Watch, dead: nat) {
    forall h | h in w.alarms && w.alarms[h].kind == DeadAlarm :: w.alarms[h].due >= dead
  }

  lemma StepAddsLateDeadline(w: Watch, step: Step, dead: nat)
    requires Enabled(w, step) && NoDeadlineBefore(w, dead) && dead <= w.now + w.timeoutMs
    ensures NoDeadlineBefore(Next(w, step), dead)
  {
  }

  lemma {:induction false} DeadlinesAreLate(w: Watch, steps: seq<Step>, dead: nat)
    requires IsRun(w, steps) && NoDeadlineBefore(w, dead) && dead <= w.now + w.timeoutMs
    ensures NoDeadlineBefore(After(w, steps), dead) && After(w, steps).now == w.now + Elapsed(steps)
    decreases |steps|
  {
    if steps == [] {
      assert After(w, steps) == w;
    } else {
      StepAddsLateDeadline(w, steps[0], dead);
      StepKeepsLimits(w, steps[0]);
      StepMovesClock(w, steps[0]);
      DeadlinesAreLate(Next(w, steps[0]), steps[1..], dead);
    }
  }

  /**
    * A death by deadline follows a silence of at least the answer time: between a
    * line received while running and an enabled deadline, whatever else is
    * called in between, that much time has passed.
    */
  lemma DeadlineFollowsSilence(w: Watch, steps: seq<Step>, handle: nat, sent: bool)
    requires Sound(w) && w.running && IsRun(Next(w, NoteActivity), steps)
    requires var end := After(Next(w, NoteActivity), steps);
             Enabled(end, Fire(handle, sent)) && end.alarms[handle].kind == DeadAlarm
    ensures Elapsed(steps) >= w.timeoutMs
  {
    CallsSay(w);
    StepKeepsLimits(w, NoteActivity);
    DeadlinesAreLate(Next(w, NoteActivity), steps, w.now + w.timeoutMs);
  }

  /**
    * A probe is why nobody may ask in between: asked right after the line
    * received, the answer time alone is enough for a death.
    */
  lemma ProbeShortensTheWait(w: Watch)
    requires Sound(w) && w.running
    ensures var asked := Next(Next(Next(w, NoteActivity), ProbeNow(true)), Tick(w.timeoutMs));
            && asked.timer.Some? && Enabled(asked, Fire(asked.timer.value, true))
            && !Next(asked, Fire(asked.timer.value, true)).running
  {
    CallsSay(w);
    StepKeepsSound(w, NoteActivity);
    CallsSay(Next(w, NoteActivity));
  }
}
