/**
  * Reconnection over a list of endpoints. The wrapper's closures and fields, the
  * host's retry timers, and the transports it has created, as one machine whose
  * steps are the calls, the timers and the transports' own events.
  */
module Reconnection {
  import opened Units
  import opened Backoff

  datatype Reason = UserClose | ServerClose | TimeoutClose | TlsError | NetworkError

  predicate IsPermanent(reason: Reason) {
    reason == UserClose || reason == TlsError
  }

  const STABLE_CONNECTION_MS: int := 30_000

  datatype State =
    | Idle
    | Connecting(endpoint: nat, attempt: nat)
    | Connected(endpoint: nat)
    | Waiting(attempt: nat, delayMs: int, reason: Reason)
    | Stopped(reason: Reason)

  /** What listeners and transports see, in order. `Lasted` marks a connection that earned a fresh round. */
  datatype Event =
    | ConnectCalled
    | Created(transport: nat, attempt: nat, endpoint: nat)
    | Lasted
    | CloseEmitted(reason: Reason)

  datatype Options = Options(endpoints: nat, autoReconnect: bool, maxAttempts: Option<nat>, policy: Policy)

  datatype Machine = Machine(
    options: Options,
    state: State,
    active: Option<nat>,
    unsubscribe: Option<nat>,      // the transport whose listeners are held
    subscribed: set<nat>,          // transports whose close still reaches us
    handshakes: map<nat, nat>,     // unresolved connects, and the endpoint each is for
    live: set<nat>,                // transports whose connect resolved and that have not closed
    timers: set<nat>,              // the host's pending retry timers
    timer: Option<nat>,
    nextId: nat,
    attempt: nat,
    endpointIndex: nat,
    stopped: bool,
    connectedAt: Option<int>,
    log: seq<Event>)

  function Initial(options: Options): Machine {
    Machine(options, Idle, None, None, {}, map[], {}, {}, None, 0, 0, 0, false, None, [])
  }

  /** `Math.max(1, endpoints.length)`. */
  function Servers(options: Options): (n: nat)
    ensures n >= 1
  {
    if options.endpoints < 1 then 1 else options.endpoints
  }

  // ---------- The functions the closures compute ----------

  function Logged(m: Machine, event: Event): Machine {
    m.(log := m.log + [event])
  }

  function Detached(m: Machine): Machine {
    m.(subscribed := if m.unsubscribe.Some? then m.subscribed - {m.unsubscribe.value} else m.subscribed,
       unsubscribe := None, active := None)
  }

  function TimerCancelled(m: Machine): Machine {
    if m.timer.Some? then m.(timers := m.timers - {m.timer.value}, timer := None) else m
  }

  function Halted(m: Machine, reason: Reason): Machine {
    Logged(Detached(TimerCancelled(m.(stopped := true))).(state := Stopped(reason)), CloseEmitted(reason))
  }

  function TimerArmed(m: Machine): Machine {
    m.(timers := m.timers + {m.nextId}, timer := Some(m.nextId), nextId := m.nextId + 1)
  }

  function RetryScheduled(m: Machine, reason: Reason, random: real): Machine {
    var attempt := m.attempt + 1;
    if m.options.maxAttempts.Some? && attempt > m.options.maxAttempts.value
    then Halted(m.(attempt := attempt), reason)
    else
      TimerArmed(m.(attempt := attempt,
                    endpointIndex := (m.endpointIndex + 1) % Servers(m.options),
                    state := Waiting(attempt, Delay(attempt, m.options.policy, random), reason)))
  }

  function RetriedOrHalted(m: Machine, reason: Reason, random: real): Machine {
    if !m.options.autoReconnect || IsPermanent(reason) then Halted(m, reason) else RetryScheduled(m, reason, random)
  }

  function CloseHandled(m: Machine, reason: Reason, now: int, random: real): Machine {
    var d := Detached(m);
    var lasted := d.connectedAt.Some? && now - d.connectedAt.value >= STABLE_CONNECTION_MS;
    var r := if lasted then Logged(d.(attempt := 0, endpointIndex := 0), Lasted) else d;
    var c := r.(connectedAt := None);
    if c.stopped then c else RetriedOrHalted(c, reason, random)
  }

  function Attached(m: Machine, transport: nat): Machine {
    m.(active := Some(transport), unsubscribe := Some(transport), subscribed := m.subscribed + {transport})
  }

  /** A new transport, subscribed to, with its handshake under way. */
  function TransportCreated(m: Machine): Machine {
    Logged(
      Attached(m, m.nextId).(handshakes := m.handshakes[m.nextId := m.endpointIndex], nextId := m.nextId + 1),
      Created(m.nextId, m.attempt, m.endpointIndex))
  }

  function AttemptStarted(m: Machine): Machine {
    if m.stopped then m
    else if m.endpointIndex >= m.options.endpoints then Halted(m, NetworkError)
    else TransportCreated(m.(state := Connecting(m.endpointIndex, m.attempt)))
  }

  function HandshakeResolved(m: Machine, transport: nat, now: int): Machine
    requires transport in m.handshakes
  {
    var endpoint := m.handshakes[transport];
    var r := m.(handshakes := m.handshakes - {transport}, live := m.live + {transport});
    if r.stopped then r else r.(connectedAt := Some(now), state := Connected(endpoint))
  }

  function HandshakeRejected(m: Machine, transport: nat, reason: Reason, random: real): Machine {
    var d := Detached(m.(handshakes := m.handshakes - {transport}));
    if d.stopped then d else RetriedOrHalted(d, reason, random)
  }

  function ConnectIsCalled(m: Machine): Machine {
    AttemptStarted(Logged(m.(stopped := false, attempt := 0, endpointIndex := 0, connectedAt := None), ConnectCalled))
  }

  function DisconnectIsCalled(m: Machine): Machine {
    if m.stopped then m else Halted(m, UserClose)
  }

  datatype Step =
    | Connect
    | Disconnect
    | RetryNow
    | Dropped(reason: Reason, now: int, random: real)
    | TimerFires(handle: nat)
    | Resolved(transport: nat, now: int)
    | Rejected(transport: nat, reason: Reason, random: real)
    | Closed(transport: nat, reason: Reason, now: int, random: real)

  /**
    * What the environment may do. A transport either rejects its connect and
    * emits no close, or resolves it and then emits at most one close, after the
    * wrapper has seen the resolution. The caller connects only when the wrapper
    * is idle or stopped and no older handshake is unresolved.
    */
  predicate Enabled(m: Machine, step: Step) {
    match step
    case Connect => (m.state.Idle? || m.state.Stopped?) && m.handshakes == map[]
    case TimerFires(handle) => handle in m.timers
    case Resolved(transport, _) => transport in m.handshakes
    case Rejected(transport, _, _) => transport in m.handshakes
    case Closed(transport, _, _, _) => transport in m.live
    case _ => true
  }

  /** What may happen when the caller does not keep to its side of that. */
  predicate Possible(m: Machine, step: Step) {
    step.Connect? || Enabled(m, step)
  }

  function Next(m: Machine, step: Step): Machine
    requires Possible(m, step)
  {
    match step
    case Connect => ConnectIsCalled(m)
    case Disconnect => DisconnectIsCalled(m)
    case RetryNow => if m.stopped || !m.state.Waiting? then m else AttemptStarted(TimerCancelled(m))
    case Dropped(reason, now, random) =>
      if m.stopped || !m.state.Connected? then m else CloseHandled(Detached(m), reason, now, random)
    case TimerFires(handle) => AttemptStarted(m.(timers := m.timers - {handle}, timer := None))
    case Resolved(transport, now) => HandshakeResolved(m, transport, now)
    case Rejected(transport, reason, random) => HandshakeRejected(m, transport, reason, random)
    case Closed(transport, reason, now, random) =>
      var c := m.(live := m.live - {transport});
      if transport in m.subscribed then CloseHandled(c, reason, now, random) else c
  }

  // ---------- The wrapper itself ----------

  class ReconnectingTransport {
    const options: Options
    var state: State
    var active: Option<nat>
    var unsubscribe: Option<nat>
    var subscribed: set<nat>
    var handshakes: map<nat, nat>
    var live: set<nat>
    var timers: set<nat>
    var timer: Option<nat>
    var nextId: nat
    var attempt: nat
    var endpointIndex: nat
    var stopped: bool
    var connectedAt: Option<int>
    ghost var log: seq<Event>

    ghost function View(): Machine
      reads this
    {
      Machine(options, state, active, unsubscribe, subscribed, handshakes, live, timers, timer, nextId,
              attempt, endpointIndex, stopped, connectedAt, log)
    }

    constructor (options: Options)
      ensures View() == Initial(options)
    {
      this.options, state := options, Idle;
      active, unsubscribe, subscribed := None, None, {};
      handshakes, live, timers, timer := map[], {}, {}, None;
      nextId, attempt, endpointIndex, stopped, connectedAt, log := 0, 0, 0, false, None, [];
    }

    method Detach()
      modifies this
      ensures View() == Detached(old(View()))
    {
      if unsubscribe.Some? {
        subscribed := subscribed - {unsubscribe.value};
      }
      unsubscribe := None;
      active := None;
    }

    method CancelTimer()
      modifies this
      ensures View() == TimerCancelled(old(View()))
    {
      if timer.Some? {
        timers := timers - {timer.value};
        timer := None;
      }
    }

    method Stop(reason: Reason)
      modifies this
      ensures View() == Halted(old(View()), reason)
    {
      stopped := true;
      CancelTimer();
      Detach();
      state := Stopped(reason);
      log := log + [CloseEmitted(reason)];
    }

    method ArmTimer()
      modifies this
      ensures View() == TimerArmed(old(View()))
    {
      timers := timers + {nextId};
      timer := Some(nextId);
      nextId := nextId + 1;
    }

    method ScheduleRetry(reason: Reason, random: real)
      modifies this
      ensures View() == RetryScheduled(old(View()), reason, random)
    {
      hide Halted;
      hide TimerArmed;
      hide Delay;
      hide Servers;
      attempt := attempt + 1;
      if options.maxAttempts.Some? && attempt > options.maxAttempts.value {
        Stop(reason);
        return;
      }
      endpointIndex := (endpointIndex + 1) % Servers(options);
      state := Waiting(attempt, Delay(attempt, options.policy, random), reason);
      ArmTimer();
    }

    method StopOrRetry(reason: Reason, random: real)
      modifies this
      ensures View() == RetriedOrHalted(old(View()), reason, random)
    {
      hide Halted;
      hide RetryScheduled;
      if !options.autoReconnect || IsPermanent(reason) {
        Stop(reason);
        return;
      }
      ScheduleRetry(reason, random);
    }

    method HandleClose(reason: Reason, now: int, random: real)
      modifies this
      ensures View() == CloseHandled(old(View()), reason, now, random)
    {
      hide RetriedOrHalted;
      Detach();
      if connectedAt.Some? && now - connectedAt.value >= STABLE_CONNECTION_MS {
        attempt := 0;
        endpointIndex := 0;
        log := log + [Lasted];
      }
      connectedAt := None;
      if stopped {
        return;
      }
      StopOrRetry(reason, random);
    }

    method Attach(transport: nat)
      modifies this
      ensures View() == Attached(old(View()), transport)
    {
      active := Some(transport);
      unsubscribe := Some(transport);
      subscribed := subscribed + {transport};
    }

    method CreateTransport()
      modifies this
      ensures View() == TransportCreated(old(View()))
    {
      Attach(nextId);
      handshakes := handshakes[nextId := endpointIndex];
      log := log + [Created(nextId, attempt, endpointIndex)];
      nextId := nextId + 1;
    }

    /** Up to the point where it awaits the handshake. */
    method AttemptConnect()
      modifies this
      ensures View() == AttemptStarted(old(View()))
    {
      hide TransportCreated;
      hide Halted;
      if stopped {
        return;
      }
      if endpointIndex >= options.endpoints {
        Stop(NetworkError);
        return;
      }
      state := Connecting(endpointIndex, attempt);
      CreateTransport();
    }

    method OnResolved(transport: nat, now: int)
      requires transport in handshakes
      modifies this
      ensures View() == Next(old(View()), Resolved(transport, now))
    {
      var endpoint := handshakes[transport];
      handshakes := handshakes - {transport};
      live := live + {transport};
      if stopped {
        return;
      }
      connectedAt := Some(now);
      state := Connected(endpoint);
    }

    method OnRejected(transport: nat, reason: Reason, random: real)
      requires transport in handshakes
      modifies this
      ensures View() == Next(old(View()), Rejected(transport, reason, random))
    {
      handshakes := handshakes - {transport};
      Detach();
      if stopped {
        return;
      }
      StopOrRetry(reason, random);
    }

    method OnClosed(transport: nat, reason: Reason, now: int, random: real)
      requires transport in live
      modifies this
      ensures View() == Next(old(View()), Closed(transport, reason, now, random))
    {
      hide CloseHandled;
      live := live - {transport};
      if transport in subscribed {
        HandleClose(reason, now, random);
      }
    }

    method OnTimer(handle: nat)
      requires handle in timers
      modifies this
      ensures View() == Next(old(View()), TimerFires(handle))
    {
      timers := timers - {handle};
      timer := None;
      AttemptConnect();
    }

    method CallConnect()
      modifies this
      ensures View() == ConnectIsCalled(old(View()))
    {
      hide AttemptStarted;
      log := log + [ConnectCalled];
      stopped := false;
      attempt := 0;
      endpointIndex := 0;
      connectedAt := None;
      AttemptConnect();
    }

    method CallRetryNow()
      modifies this
      ensures View() == Next(old(View()), RetryNow)
    {
      if stopped || !state.Waiting? {
        return;
      }
      CancelTimer();
      AttemptConnect();
    }

    method CallDropped(reason: Reason, now: int, random: real)
      modifies this
      ensures View() == Next(old(View()), Dropped(reason, now, random))
    {
      if stopped || !state.Connected? {
        return;
      }
      Detach();
      HandleClose(reason, now, random);
    }

    method CallDisconnect()
      modifies this
      ensures View() == Next(old(View()), Disconnect)
    {
      if stopped {
        return;
      }
      stopped := true;
      CancelTimer();
      Detach();
      state := Stopped(UserClose);
      log := log + [CloseEmitted(UserClose)];
    }
  }

  // ---------- What every run keeps ----------

  datatype Word = Nothing | Called | Ended

  /** The last word of a log: a call to connect, or a close. */
  function LastWord(log: seq<Event>): Word {
    if log == [] then Nothing
    else
      match log[|log| - 1]
      case ConnectCalled => Called
      case CloseEmitted(_) => Ended
      case _ => LastWord(log[..|log| - 1])
  }

  /** The number of the attempt that would come next in the round the log describes. */
  function NextAttempt(log: seq<Event>): nat {
    if log == [] then 0
    else
      match log[|log| - 1]
      case ConnectCalled => 0
      case Lasted => 1
      case Created(_, attempt, _) => attempt + 1
      case CloseEmitted(_) => NextAttempt(log[..|log| - 1])
  }

  /**
    * A transport is created only between a connect and the close that ends it,
    * as the next attempt of its round and for the endpoint whose turn it is; a
    * close is emitted only when none has been since the last connect.
    */
  predicate Justified(log: seq<Event>, i: nat, endpoints: nat)
    requires i < |log| && endpoints >= 1
  {
    match log[i]
    case Created(_, attempt, endpoint) =>
      LastWord(log[..i]) == Called && attempt == NextAttempt(log[..i]) && endpoint == attempt % endpoints
    case CloseEmitted(_) => LastWord(log[..i]) != Ended
    case _ => true
  }

  ghost predicate AllJustified(log: seq<Event>, endpoints: nat)
    requires endpoints >= 1
  {
    forall i | 0 <= i < |log| :: Justified(log, i, endpoints)
  }

  /** Whether any failure at all is followed by a retry. */
  predicate Retries(options: Options) {
    options.autoReconnect && (options.maxAttempts.Some? ==> options.maxAttempts.value >= 1)
  }

  predicate TimersFit(m: Machine) {
    && (m.state.Waiting? ==> Retries(m.options))
    && (m.state.Waiting? <==> m.timer.Some?)
    && m.timers == (if m.timer.Some? then {m.timer.value} else {})
    && (m.timer.Some? ==> m.timer.value < m.nextId)
  }

  predicate TransportsFit(m: Machine) {
    && m.unsubscribe == m.active
    && m.subscribed == (if m.active.Some? then {m.active.value} else {})
    && (forall t | t in m.handshakes :: t < m.nextId && t !in m.live)
    && (forall t | t in m.live :: t < m.nextId)
    && (match m.state
        case Connecting(endpoint, _) => m.active.Some? && m.handshakes == map[m.active.value := endpoint]
        case Connected(_) => m.active.Some? && m.handshakes == map[] && m.active.value in m.live
        case Waiting(_, _, _) => m.active.None? && m.handshakes == map[]
        case Idle => m.active.None? && m.handshakes == map[] && m.live == {} && !m.stopped
        case Stopped(_) => m.active.None? && |m.handshakes| <= 1)
    && (m.options.endpoints == 0 ==> m.handshakes == map[] && (m.state.Idle? || m.state.Stopped?))
  }

  predicate RoundFits(m: Machine) {
    && (m.stopped <==> m.state.Stopped?)
    && (LastWord(m.log) == match m.state case Idle => Nothing case Stopped(_) => Ended case _ => Called)
    && (!m.stopped ==> m.endpointIndex == m.attempt % Servers(m.options))
    && (!m.stopped ==> (m.connectedAt.Some? <==> m.state.Connected?))
    && (!m.stopped && m.options.maxAttempts.Some? ==> m.attempt <= m.options.maxAttempts.value)
    && (m.state.Waiting? ==> m.attempt == NextAttempt(m.log) && m.state.attempt == m.attempt)
    && (m.state.Connecting? || m.state.Connected? ==> m.attempt + 1 == NextAttempt(m.log))
    && (m.state.Connecting? ==> m.state.endpoint == m.endpointIndex && m.state.attempt == m.attempt)
  }

  ghost predicate Sound(m: Machine) {
    TimersFit(m) && TransportsFit(m) && RoundFits(m) && AllJustified(m.log, Servers(m.options))
  }

  /** What may be logged next. */
  predicate MayFollow(log: seq<Event>, event: Event, endpoints: nat)
    requires endpoints >= 1
  {
    && (event.Created? ==>
          && LastWord(log) == Called && event.attempt == NextAttempt(log)
          && event.endpoint == event.attempt % endpoints)
    && (event.CloseEmitted? ==> LastWord(log) != Ended)
  }

  function WordAfter(log: seq<Event>, event: Event): Word {
    match event
    case ConnectCalled => Called
    case CloseEmitted(_) => Ended
    case _ => LastWord(log)
  }

  function AttemptAfter(log: seq<Event>, event: Event): nat {
    match event
    case ConnectCalled => 0
    case Lasted => 1
    case Created(_, attempt, _) => attempt + 1
    case CloseEmitted(_) => NextAttempt(log)
  }

  lemma LogGrows(log: seq<Event>, event: Event, endpoints: nat)
    requires endpoints >= 1 && AllJustified(log, endpoints) && MayFollow(log, event, endpoints)
    ensures AllJustified(log + [event], endpoints)
    ensures LastWord(log + [event]) == WordAfter(log, event)
    ensures NextAttempt(log + [event]) == AttemptAfter(log, event)
  {
    assert (log + [event])[..|log|] == log;
    forall i | 0 <= i < |log| ensures Justified(log + [event], i, endpoints) {
      assert Justified(log, i, endpoints);
      assert (log + [event])[..i] == log[..i];
    }
  }

  /** What is left of a machine once its connection is gone and before anything follows. */
  ghost predicate Adrift(m: Machine) {
    && m.options.endpoints > 0
    && !m.stopped && m.timers == {} && m.timer == None && m.connectedAt == None
    && m.active == None && m.unsubscribe == None && m.subscribed == {}
    && m.handshakes == map[] && (forall t | t in m.live :: t < m.nextId)
    && LastWord(m.log) == Called && m.attempt + 1 == NextAttempt(m.log)
    && m.endpointIndex == m.attempt % Servers(m.options)
    && (m.options.maxAttempts.Some? ==> m.attempt <= m.options.maxAttempts.value)
    && AllJustified(m.log, Servers(m.options))
  }

  lemma NextEndpoint(a: nat, n: nat)
    requires n >= 1
    ensures (a % n + 1) % n == (a + 1) % n
  {
    var q, r := a / n, a % n;
    assert a == q * n + r;
    if r + 1 < n {
      assert a + 1 == q * n + (r + 1);
      DivUnique(a + 1, n, q, r + 1);
      DivUnique(r + 1, n, 0, r + 1);
    } else {
      assert a + 1 == (q + 1) * n;
      DivUnique(a + 1, n, q + 1, 0);
      DivUnique(n, n, 1, 0);
    }
  }

  lemma Multiples(k: int, n: int)
    requires n >= 1
    ensures k >= 1 ==> k * n >= n
    ensures k <= -1 ==> k * n <= -n
  {
    if k >= 1 {
      assert (k - 1) * n >= 0;
    } else if k <= -1 {
      assert (-1 - k) * n >= 0;
    }
  }

  lemma DivUnique(x: int, n: int, q: int, r: int)
    requires n >= 1 && x == q * n + r && 0 <= r < n
    ensures x % n == r
  {
    var p := x / n;
    assert (q - p) * n == x % n - r;
    Multiples(q - p, n);
  }

  lemma AdriftHalts(m: Machine, reason: Reason)
    requires Adrift(m)
    ensures Sound(Halted(m, reason)) && Sound(Halted(m.(attempt := m.attempt + 1), reason))
  {
    LogGrows(m.log, CloseEmitted(reason), Servers(m.options));
  }

  lemma AdriftRetries(m: Machine, reason: Reason, random: real)
    requires Adrift(m) && m.options.autoReconnect
    requires m.options.maxAttempts.Some? ==> m.attempt + 1 <= m.options.maxAttempts.value
    ensures Sound(RetryScheduled(m, reason, random))
  {
    hide Delay;
    hide Servers;
    NextEndpoint(m.attempt, Servers(m.options));
  }

  lemma AdriftContinues(m: Machine, reason: Reason, random: real)
    requires Adrift(m)
    ensures Sound(RetriedOrHalted(m, reason, random))
  {
    AdriftHalts(m, reason);
    if m.options.autoReconnect && (m.options.maxAttempts.Some? ==> m.attempt + 1 <= m.options.maxAttempts.value) {
      AdriftRetries(m, reason, random);
    }
    hide Sound;
    hide Adrift;
    hide Halted;
    hide TimerArmed;
  }

  /** Ready for the next attempt of a round, with nothing else under way. */
  ghost predicate Ready(m: Machine) {
    && !m.stopped && m.timers == {} && m.timer == None && m.connectedAt == None
    && m.active == None && m.subscribed == {} && m.unsubscribe == None && m.handshakes == map[]
    && (forall t | t in m.live :: t < m.nextId)
    && LastWord(m.log) == Called && m.attempt == NextAttempt(m.log)
    && m.endpointIndex == m.attempt % Servers(m.options)
    && (m.options.maxAttempts.Some? ==> m.attempt <= m.options.maxAttempts.value)
    && AllJustified(m.log, Servers(m.options))
  }

  lemma CreatingIsSound(m: Machine)
    requires Ready(m) && m.endpointIndex < m.options.endpoints
    ensures Sound(TransportCreated(m.(state := Connecting(m.endpointIndex, m.attempt))))
  {
    LogGrows(m.log, Created(m.nextId, m.attempt, m.endpointIndex), Servers(m.options));
  }

  lemma NoEndpointIsSound(m: Machine)
    requires Ready(m)
    ensures Sound(Halted(m, NetworkError))
  {
    LogGrows(m.log, CloseEmitted(NetworkError), Servers(m.options));
  }

  lemma AttemptIsSound(m: Machine)
    requires Ready(m)
    ensures Sound(AttemptStarted(m))
  {
    NoEndpointIsSound(m);
    if m.endpointIndex < m.options.endpoints {
      CreatingIsSound(m);
    }
    hide Sound;
    hide TransportCreated;
    hide Halted;
  }

  /** What `handleClose` leaves before it retries or stops; a connection that lasted begins a new round. */
  function Abandoned(m: Machine, lasted: bool): Machine {
    var d := Detached(m);
    (if lasted then Logged(d.(attempt := 0, endpointIndex := 0), Lasted) else d).(connectedAt := None)
  }

  lemma ConnectedGoesAdrift(m: Machine, live: set<nat>, lasted: bool)
    requires Sound(m) && m.state.Connected? && live <= m.live
    ensures Adrift(Abandoned(m.(live := live), lasted))
    ensures Abandoned(Detached(m.(live := live)), lasted) == Abandoned(m.(live := live), lasted)
  {
    LogGrows(m.log, Lasted, Servers(m.options));
  }

  /** A close of a connected machine, whether or not the transport that closed still counts as live. */
  lemma CloseIsSound(m: Machine, live: set<nat>, reason: Reason, now: int, random: real)
    requires Sound(m) && m.state.Connected? && live <= m.live
    ensures Sound(CloseHandled(m.(live := live), reason, now, random))
    ensures Sound(CloseHandled(Detached(m.(live := live)), reason, now, random))
  {
    var lasted := m.connectedAt.Some? && now - m.connectedAt.value >= STABLE_CONNECTION_MS;
    assert !m.stopped;
    hide RetriedOrHalted;
    hide Sound;
    hide Adrift;
    ConnectedGoesAdrift(m, live, lasted);
    AdriftContinues(Abandoned(m.(live := live), lasted), reason, random);
  }

  lemma HaltIsSound(m: Machine, reason: Reason)
    requires Sound(m) && !m.stopped
    ensures Sound(Halted(m, reason))
  {
    LogGrows(m.log, CloseEmitted(reason), Servers(m.options));
  }

  lemma RejectIsSound(m: Machine, transport: nat, reason: Reason, random: real)
    requires Sound(m) && transport in m.handshakes
    ensures Sound(HandshakeRejected(m, transport, reason, random))
  {
    if !m.stopped {
      AdriftContinues(Detached(m.(handshakes := m.handshakes - {transport})), reason, random);
    } else {
      assert (m.handshakes - {transport}).Keys == m.handshakes.Keys - {transport};
    }
  }

  lemma ResolveIsSound(m: Machine, transport: nat, now: int)
    requires Sound(m) && transport in m.handshakes
    ensures Sound(HandshakeResolved(m, transport, now))
  {
    var left := m.handshakes - {transport};
    assert left.Keys == m.handshakes.Keys - {transport};
    if m.state.Connecting? {
      assert left == map[];
    } else {
      assert |left.Keys| <= |m.handshakes.Keys|;
    }
  }

  lemma ConnectIsSound(m: Machine)
    requires Sound(m) && Enabled(m, Connect)
    ensures Sound(ConnectIsCalled(m))
  {
    LogGrows(m.log, ConnectCalled, Servers(m.options));
    AttemptIsSound(Logged(m.(stopped := false, attempt := 0, endpointIndex := 0, connectedAt := None), ConnectCalled));
  }

  lemma StepKeepsSound(m: Machine, step: Step)
    requires Sound(m) && Enabled(m, step)
    ensures Sound(Next(m, step))
  {
    match step
    case Connect => ConnectIsSound(m);
    case Disconnect => if !m.stopped { HaltIsSound(m, UserClose); }
    case RetryNow => if m.state.Waiting? { AttemptIsSound(TimerCancelled(m)); }
    case Dropped(reason, now, random) => if m.state.Connected? { CloseIsSound(m, m.live, reason, now, random); }
    case TimerFires(handle) => AttemptIsSound(m.(timers := m.timers - {handle}, timer := None));
    case Resolved(transport, now) => ResolveIsSound(m, transport, now);
    case Rejected(transport, reason, random) => RejectIsSound(m, transport, reason, random);
    case Closed(transport, reason, now, random) =>
      if transport in m.subscribed {
        CloseIsSound(m, m.live - {transport}, reason, now, random);
      }
  }

  /** A run in which the caller too keeps the contract. */
  predicate IsRun(m: Machine, steps: seq<Step>)
    decreases |steps|
  {
    steps == [] || (Enabled(m, steps[0]) && IsRun(Next(m, steps[0]), steps[1..]))
  }

  /** A run in which the caller may connect at any time. */
  predicate IsLooseRun(m: Machine, steps: seq<Step>)
    decreases |steps|
  {
    steps == [] || (Possible(m, steps[0]) && IsLooseRun(Next(m, steps[0]), steps[1..]))
  }

  lemma {:induction false} RunsAreLoose(m: Machine, steps: seq<Step>)
    requires IsRun(m, steps)
    ensures IsLooseRun(m, steps)
    decreases |steps|
  {
    if steps == [] {
      assert IsLooseRun(m, steps);
    } else {
      RunsAreLoose(Next(m, steps[0]), steps[1..]);
    }
  }

  function After(m: Machine, steps: seq<Step>): Machine
    requires IsLooseRun(m, steps)
    decreases |steps|
  {
    if steps == [] then m else After(Next(m, steps[0]), steps[1..])
  }

  /**
    * Over every run that keeps the contract, from the start: it waits exactly
    * when one retry timer is pending; no transport is created after a stop until
    * the next connect; at most one close is emitted per connect; and while it is
    * not stopped the endpoint is the attempt modulo their number.
    */
  lemma {:induction false} RunsAreSound(m: Machine, steps: seq<Step>)
    requires Sound(m) && IsRun(m, steps)
    ensures IsLooseRun(m, steps) && Sound(After(m, steps))
    decreases |steps|
  {
    RunsAreLoose(m, steps);
    if steps == [] {
      assert After(m, steps) == m;
    } else {
      StepKeepsSound(m, steps[0]);
      RunsAreSound(Next(m, steps[0]), steps[1..]);
    }
  }

  lemma InitialIsSound(options: Options)
    ensures Sound(Initial(options))
  {
  }

  lemma {:induction false} EndedSince(log: seq<Event>, i: nat, j: nat)
    requires i < j <= |log| && log[i].CloseEmitted?
    requires forall k | i < k < j :: log[k] != ConnectCalled
    ensures LastWord(log[..j]) == Ended
  {
    assert log[..j][..j - 1] == log[..j - 1];
    if j - 1 > i {
      EndedSince(log, i, j - 1);
    }
  }

  /** Transports are created after a connect, and a close follows something other than a close. */
  predicate InPlace(log: seq<Event>, i: nat)
    requires i < |log|
  {
    match log[i]
    case Created(_, _, _) => LastWord(log[..i]) == Called
    case CloseEmitted(_) => LastWord(log[..i]) != Ended
    case _ => true
  }

  ghost predicate AllInPlace(log: seq<Event>) {
    forall i | 0 <= i < |log| :: InPlace(log, i)
  }

  /** After a close there is neither a transport nor another close before the next connect. */
  ghost predicate ClosedUntilConnect(log: seq<Event>) {
    forall i, j | 0 <= i < j < |log| && log[i].CloseEmitted? && (log[j].Created? || log[j].CloseEmitted?) ::
      exists k :: i < k < j && log[k] == ConnectCalled
  }

  lemma NothingAfterAClose(log: seq<Event>)
    requires AllInPlace(log)
    ensures ClosedUntilConnect(log)
  {
    forall i, j | 0 <= i < j < |log| && log[i].CloseEmitted? && (log[j].Created? || log[j].CloseEmitted?)
      ensures exists k :: i < k < j && log[k] == ConnectCalled
    {
      assert InPlace(log, j);
      if forall k | i < k < j :: log[k] != ConnectCalled {
        EndedSince(log, i, j);
      }
    }
  }

  /**
    * What the wrapper promises, as a user of it can see: it is waiting exactly
    * when one retry timer is pending and the host has no other; until it stops
    * the endpoint is the attempt modulo their number; and its log is in order.
    */
  ghost predicate KeepsPromises(m: Machine) {
    && (m.state.Waiting? <==> |m.timers| == 1) && |m.timers| <= 1
    && (!m.stopped ==> m.endpointIndex == m.attempt % Servers(m.options))
    && ClosedUntilConnect(m.log)
  }

  lemma SoundKeepsPromises(m: Machine)
    requires Sound(m)
    ensures KeepsPromises(m)
  {
    assert m.timer.Some? ==> |{m.timer.value}| == 1;
    forall i | 0 <= i < |m.log| ensures InPlace(m.log, i) {
      assert Justified(m.log, i, Servers(m.options));
    }
    NothingAfterAClose(m.log);
  }

  /** Over every run that keeps the contract, for a wrapper that starts idle, every promise is kept. */
  lemma ReconnectingIsSafe(options: Options, steps: seq<Step>)
    requires IsRun(Initial(options), steps)
    ensures IsLooseRun(Initial(options), steps) && KeepsPromises(After(Initial(options), steps))
  {
    InitialIsSound(options);
    RunsAreSound(Initial(options), steps);
    SoundKeepsPromises(After(Initial(options), steps));
  }

  /** Any `n` numbers in a row leave every remainder. */
  lemma RemaindersCycle(first: nat, n: nat, endpoint: nat) returns (k: nat)
    requires endpoint < n
    ensures k < n && (first + k) % n == endpoint
  {
    var r := first % n;
    k := if endpoint >= r then endpoint - r else endpoint + n - r;
    var q := first / n;
    assert first == q * n + r;
    if endpoint >= r {
      DivUnique(first + k, n, q, endpoint);
    } else {
      assert first + k == (q + 1) * n + endpoint;
      DivUnique(first + k, n, q + 1, endpoint);
    }
  }

  /** How many transports were created from position `i` up to `j`. */
  function Attempts(log: seq<Event>, i: nat, j: nat): nat
    requires i <= j <= |log|
  {
    if i == j then 0 else Attempts(log, i, j - 1) + if log[j - 1].Created? then 1 else 0
  }

  /** A stretch of the log within one round. */
  predicate OneRound(log: seq<Event>, i: nat, j: nat)
    requires i <= j <= |log|
  {
    forall k | i <= k < j :: log[k] != ConnectCalled && log[k] != Lasted
  }

  lemma {:induction false} AttemptsAreNumbered(log: seq<Event>, i: nat, j: nat, endpoints: nat)
    requires i <= j <= |log| && endpoints >= 1 && AllJustified(log, endpoints) && OneRound(log, i, j)
    ensures NextAttempt(log[..j]) == NextAttempt(log[..i]) + Attempts(log, i, j)
    decreases j
  {
    if i < j {
      AttemptsAreNumbered(log, i, j - 1, endpoints);
      assert log[..j][..j - 1] == log[..j - 1];
      assert Justified(log, j - 1, endpoints);
    }
  }

  lemma {:induction false} NthAttempt(log: seq<Event>, i: nat, j: nat, n: nat) returns (k: nat)
    requires i <= j <= |log| && n < Attempts(log, i, j)
    ensures i <= k < j && log[k].Created? && Attempts(log, i, k) == n
    decreases j
  {
    if n < Attempts(log, i, j - 1) {
      k := NthAttempt(log, i, j - 1, n);
    } else {
      k := j - 1;
    }
  }

  /**
    * Consecutive failures go through every server: in any stretch of one round
    * with at least as many attempts as there are endpoints, each endpoint is
    * tried.
    */
  lemma FailuresReachEveryEndpoint(m: Machine, i: nat, j: nat, endpoint: nat)
    requires Sound(m) && i <= j <= |m.log| && OneRound(m.log, i, j)
    requires Attempts(m.log, i, j) >= Servers(m.options) > endpoint
    ensures exists k :: i <= k < j && m.log[k].Created? && m.log[k].endpoint == endpoint
  {
    var n := Servers(m.options);
    var t := RemaindersCycle(NextAttempt(m.log[..i]), n, endpoint);
    var k := NthAttempt(m.log, i, j, t);
    AttemptsAreNumbered(m.log, i, k, n);
    assert Justified(m.log, k, n);
  }

  // ---------- The caller's side of the contract ----------

  /** What holds of a wrapper that never retries, whenever connect is called. */
  ghost predicate NeverWaits(m: Machine) {
    && !Retries(m.options)
    && m.timers == {} && m.timer == None && !m.state.Waiting?
    && (m.stopped <==> m.state.Stopped?)
    && (m.state.Idle? ==> m.handshakes == map[] && m.live == {})
    && (!m.stopped ==> m.endpointIndex == m.attempt % Servers(m.options))
    && LastWord(m.log) == (match m.state case Idle => Nothing case Stopped(_) => Ended case _ => Called)
    && AllInPlace(m.log)
  }

  lemma LogStaysInPlace(log: seq<Event>, event: Event)
    requires AllInPlace(log)
    requires event.Created? ==> LastWord(log) == Called
    requires event.CloseEmitted? ==> LastWord(log) != Ended
    ensures AllInPlace(log + [event])
    ensures LastWord(log + [event]) == WordAfter(log, event)
  {
    assert (log + [event])[..|log|] == log;
    forall i | 0 <= i < |log| ensures InPlace(log + [event], i) {
      assert InPlace(log, i);
      assert (log + [event])[..i] == log[..i];
    }
  }

  /** Without a retry a failure stops the wrapper. */
  lemma FailureHalts(m: Machine, reason: Reason, random: real)
    requires !Retries(m.options) && !m.stopped && m.timers == {} && m.timer == None
    requires AllInPlace(m.log) && LastWord(m.log) != Ended
    ensures NeverWaits(RetriedOrHalted(m, reason, random)) && NeverWaits(Halted(m, reason))
  {
    LogStaysInPlace(m.log, CloseEmitted(reason));
  }

  lemma CloseNeverWaits(m: Machine, reason: Reason, now: int, random: real)
    requires NeverWaits(m) && !m.state.Idle?
    ensures NeverWaits(CloseHandled(m, reason, now, random))
  {
    hide RetriedOrHalted;
    LogStaysInPlace(m.log, Lasted);
    var d := Detached(m);
    var lasted := d.connectedAt.Some? && now - d.connectedAt.value >= STABLE_CONNECTION_MS;
    var c := (if lasted then Logged(d.(attempt := 0, endpointIndex := 0), Lasted) else d).(connectedAt := None);
    if !c.stopped {
      FailureHalts(c, reason, random);
    }
  }

  lemma ConnectNeverWaits(m: Machine)
    requires NeverWaits(m)
    ensures NeverWaits(ConnectIsCalled(m))
  {
    LogStaysInPlace(m.log, ConnectCalled);
    var c := Logged(m.(stopped := false, attempt := 0, endpointIndex := 0, connectedAt := None), ConnectCalled);
    LogStaysInPlace(c.log, Created(c.nextId, 0, 0));
    FailureHalts(c, NetworkError, 0.0);
  }

  lemma StepNeverWaits(m: Machine, step: Step)
    requires NeverWaits(m) && Possible(m, step)
    ensures NeverWaits(Next(m, step))
  {
    match step
    case Connect => ConnectNeverWaits(m);
    case Disconnect => if !m.stopped { FailureHalts(m, UserClose, 0.0); }
    case Dropped(reason, now, random) => if m.state.Connected? { CloseNeverWaits(Detached(m), reason, now, random); }
    case Rejected(transport, reason, random) =>
      if !m.stopped {
        FailureHalts(Detached(m.(handshakes := m.handshakes - {transport})), reason, random);
      }
    case Closed(transport, reason, now, random) =>
      CloseNeverWaits(m.(live := m.live - {transport}), reason, now, random);
    case _ =>
  }

  lemma {:induction false} LooseRunsNeverWait(m: Machine, steps: seq<Step>)
    requires NeverWaits(m) && IsLooseRun(m, steps)
    ensures NeverWaits(After(m, steps)) && KeepsPromises(After(m, steps))
    decreases |steps|
  {
    if steps == [] {
      NothingAfterAClose(m.log);
    } else {
      StepNeverWaits(m, steps[0]);
      LooseRunsNeverWait(Next(m, steps[0]), steps[1..]);
    }
  }

  /** A wrapper that never retries keeps every promise however its caller connects. */
  lemma WithoutRetriesAlwaysSafe(options: Options, steps: seq<Step>)
    requires !Retries(options) && IsLooseRun(Initial(options), steps)
    ensures KeepsPromises(After(Initial(options), steps))
  {
    LooseRunsNeverWait(Initial(options), steps);
  }

  /** A pending retry timer that the wrapper is not waiting for. */
  predicate HasStrayTimer(m: Machine) {
    m.timers != {} && !m.state.Waiting?
  }

  lemma TwoSteps(m: Machine, first: Step, second: Step)
    requires Enabled(m, first) && Enabled(Next(m, first), second)
    ensures IsRun(m, [first, second]) && IsLooseRun(m, [first, second])
    ensures After(m, [first, second]) == Next(Next(m, first), second)
  {
    hide Next;
    hide Enabled;
    var n := Next(m, first);
    assert [first, second][1..] == [second] && [second][1..] == [];
    assert IsRun(n, [second]);
    RunsAreLoose(n, [second]);
    assert After(n, [second]) == Next(n, second);
    RunsAreLoose(m, [first, second]);
  }

  /** The old transport, still heard, closes: a retry is scheduled, and then the new handshake resolves. */
  lemma OldTransportCloses(m: Machine)
    requires Sound(m) && m.state.Connected? && Retries(m.options)
    ensures var c := ConnectIsCalled(m);
            var closed, resolved := Closed(m.active.value, NetworkError, 0, 0.0), Resolved(m.nextId, 0);
            && Enabled(c, closed) && Enabled(Next(c, closed), resolved)
            && HasStrayTimer(Next(Next(c, closed), resolved))
  {
  }

  /** An older handshake is rejected: the same, with the new one under way. */
  lemma OldHandshakeFails(m: Machine, older: nat)
    requires Sound(m) && older in m.handshakes && Retries(m.options)
    ensures var c := ConnectIsCalled(m);
            var rejected, resolved := Rejected(older, NetworkError, 0.0), Resolved(m.nextId, 0);
            && Enabled(c, rejected) && Enabled(Next(c, rejected), resolved)
            && HasStrayTimer(Next(Next(c, rejected), resolved))
  {
  }

  /** Where connecting breaks the contract and failures are retried, the environment can expose it in two steps. */
  lemma BreachLeavesStrayTimer(m: Machine) returns (steps: seq<Step>)
    requires Sound(m) && !Enabled(m, Connect) && Retries(m.options)
    ensures var c := ConnectIsCalled(m);
            IsRun(c, steps) && IsLooseRun(c, steps) && HasStrayTimer(After(c, steps))
  {
    var c := ConnectIsCalled(m);
    if m.state.Waiting? {
      steps := [];
    } else if m.state.Connected? {
      steps := [Closed(m.active.value, NetworkError, 0, 0.0), Resolved(m.nextId, 0)];
      OldTransportCloses(m);
      TwoSteps(c, steps[0], steps[1]);
    } else {
      assert m.handshakes != map[];
      var older :| older in m.handshakes;
      steps := [Rejected(older, NetworkError, 0.0), Resolved(m.nextId, 0)];
      OldHandshakeFails(m, older);
      TwoSteps(c, steps[0], steps[1]);
    }
  }

  /**
    * The caller's side of the contract is exact. Called in any state the machine
    * can be in, connect leaves every promise kept over everything that can
    * follow if and only if the contract allows it there, or the wrapper never
    * retries at all.
    */
  lemma ConnectContractIsExact(m: Machine)
    requires Sound(m)
    ensures (forall steps :: IsRun(ConnectIsCalled(m), steps) ==>
               IsLooseRun(ConnectIsCalled(m), steps) && KeepsPromises(After(ConnectIsCalled(m), steps)))
      <==> Enabled(m, Connect) || !Retries(m.options)
  {
    var c := ConnectIsCalled(m);
    if Enabled(m, Connect) || !Retries(m.options) {
      forall steps | IsRun(c, steps) ensures IsLooseRun(c, steps) && KeepsPromises(After(c, steps)) {
        RunsAreLoose(c, steps);
        if Enabled(m, Connect) {
          ConnectIsSound(m);
          RunsAreSound(c, steps);
          SoundKeepsPromises(After(c, steps));
        } else {
          SoundNeverWaits(m);
          ConnectNeverWaits(m);
          LooseRunsNeverWait(c, steps);
        }
      }
    } else {
      var steps := BreachLeavesStrayTimer(m);
      StrayTimerBreaksPromises(After(c, steps));
      assert IsRun(c, steps) && !KeepsPromises(After(c, steps));
    }
  }

  lemma SoundNeverWaits(m: Machine)
    requires Sound(m) && !Retries(m.options)
    ensures NeverWaits(m)
  {
    forall i | 0 <= i < |m.log| ensures InPlace(m.log, i) {
      assert Justified(m.log, i, Servers(m.options));
    }
  }

  lemma StrayTimerBreaksPromises(m: Machine)
    requires HasStrayTimer(m)
    ensures !KeepsPromises(m)
  {
    assert |m.timers| != 0;
  }

  /** Giving up counts one attempt more without moving on, so a stopped machine's indices part. */
  lemma GivingUpSkipsTheEndpoint(m: Machine, reason: Reason, random: real)
    requires Adrift(m) && m.options.autoReconnect && !IsPermanent(reason)
    requires m.options.maxAttempts == Some(m.attempt)
    ensures var h := RetriedOrHalted(m, reason, random);
            && h.stopped && h.attempt == m.attempt + 1 && h.endpointIndex == m.endpointIndex
            && (h.endpointIndex == h.attempt % Servers(h.options) <==> Servers(h.options) == 1)
  {
    NextEndpoint(m.attempt, Servers(m.options));
    if Servers(m.options) > 1 {
      if m.endpointIndex + 1 < Servers(m.options) {
        DivUnique(m.endpointIndex + 1, Servers(m.options), 0, m.endpointIndex + 1);
      } else {
        DivUnique(m.endpointIndex + 1, Servers(m.options), 1, 0);
      }
    }
  }

  // ---------- What each step does ----------

  /** Stopped for this reason, announced once, with nothing left to come of it. */
  predicate StopsWith(n: Machine, before: seq<Event>, reason: Reason) {
    && n.stopped && n.state == Stopped(reason) && n.timers == {} && n.subscribed == {}
    && n.log == before + [CloseEmitted(reason)]
  }

  /** Trying one endpoint as one attempt, over a new transport, with no retry pending. */
  predicate Tries(n: Machine, before: seq<Event>, transport: nat, attempt: nat, endpoint: nat) {
    && !n.stopped && n.state == Connecting(endpoint, attempt) && n.timers == {}
    && n.attempt == attempt && n.endpointIndex == endpoint
    && n.subscribed == {transport} && n.handshakes == map[transport := endpoint]
    && n.log == before + [Created(transport, attempt, endpoint)]
  }

  /**
    * What follows a failure: a stop when it is permanent or the attempts are
    * used up, otherwise the next endpoint after a wait.
    */
  predicate Fails(n: Machine, before: seq<Event>, reason: Reason, attempt: nat, endpoint: nat) {
    if reason.UserClose? || reason.TlsError? || !n.options.autoReconnect
       || (n.options.maxAttempts.Some? && attempt >= n.options.maxAttempts.value)
    then StopsWith(n, before, reason)
    else
      && !n.stopped && n.state.Waiting? && n.state.attempt == n.attempt == attempt + 1 && n.state.reason == reason
      && n.endpointIndex == (endpoint + 1) % Servers(n.options)
      && |n.timers| == 1 && n.subscribed == {} && n.log == before
  }

  /** A failure of a connection; one that stood for half a minute begins a new round. */
  predicate FailsConnected(m: Machine, n: Machine, reason: Reason, now: int) {
    if m.connectedAt.Some? && now - m.connectedAt.value >= 30_000 then Fails(n, m.log + [Lasted], reason, 0, 0)
    else Fails(n, m.log, reason, m.attempt, m.endpointIndex)
  }

  lemma FailureSays(m: Machine, reason: Reason, random: real)
    requires !m.stopped && m.timers == {} && m.timer == None && m.subscribed == {} && m.unsubscribe == None
    ensures Fails(RetriedOrHalted(m, reason, random), m.log, reason, m.attempt, m.endpointIndex)
  {
    hide Delay;
    hide Servers;
  }

  lemma CloseSays(m: Machine, live: set<nat>, reason: Reason, now: int, random: real)
    requires Sound(m) && m.state.Connected?
    ensures FailsConnected(m, CloseHandled(m.(live := live), reason, now, random), reason, now)
    ensures FailsConnected(m, CloseHandled(Detached(m.(live := live)), reason, now, random), reason, now)
  {
    hide RetriedOrHalted;
    hide Fails;
    var lasted := m.connectedAt.Some? && now - m.connectedAt.value >= STABLE_CONNECTION_MS;
    var a := Abandoned(m.(live := live), lasted);
    assert Abandoned(Detached(m.(live := live)), lasted) == a;
    assert !a.stopped && a.subscribed == {};
    FailureSays(a, reason, random);
  }

  /** Connecting as the contract allows: a first attempt, or a stop where there is nothing to connect to. */
  lemma ConnectSays(m: Machine)
    requires Sound(m) && Enabled(m, Connect)
    ensures var n := Next(m, Connect);
            if m.options.endpoints == 0 then StopsWith(n, m.log + [ConnectCalled], NetworkError)
            else Tries(n, m.log + [ConnectCalled], m.nextId, 0, 0)
  {
  }

  lemma DisconnectSays(m: Machine)
    requires Sound(m)
    ensures if m.stopped then Next(m, Disconnect) == m else StopsWith(Next(m, Disconnect), m.log, UserClose)
  {
  }

  /** Retrying now is the attempt that was being waited for, early. */
  lemma RetryNowSays(m: Machine)
    requires Sound(m)
    ensures if m.state.Waiting? then Tries(Next(m, RetryNow), m.log, m.nextId, m.attempt, m.endpointIndex)
            else Next(m, RetryNow) == m
  {
    if m.state.Waiting? {
      WaitingTries(m, TimerCancelled(m));
    }
  }

  lemma WaitingTries(m: Machine, c: Machine)
    requires Sound(m) && m.state.Waiting? && c == m.(timers := {}, timer := None)
    ensures Tries(AttemptStarted(c), m.log, m.nextId, m.attempt, m.endpointIndex)
  {
    assert m.attempt % Servers(m.options) < m.options.endpoints;
  }

  lemma DropSays(m: Machine, reason: Reason, now: int, random: real)
    requires Sound(m)
    ensures if m.state.Connected? then FailsConnected(m, Next(m, Dropped(reason, now, random)), reason, now)
            else Next(m, Dropped(reason, now, random)) == m
  {
    hide FailsConnected;
    if m.state.Connected? {
      CloseSays(m, m.live, reason, now, random);
    }
  }

  lemma TimerSays(m: Machine, handle: nat)
    requires Sound(m) && Enabled(m, TimerFires(handle))
    ensures m.state.Waiting? && Tries(Next(m, TimerFires(handle)), m.log, m.nextId, m.attempt, m.endpointIndex)
  {
    assert m.timers - {handle} == {};
    WaitingTries(m, m.(timers := m.timers - {handle}, timer := None));
  }

  lemma ResolvedSays(m: Machine, transport: nat, now: int)
    requires Sound(m) && transport in m.handshakes
    ensures var n := Next(m, Resolved(transport, now));
            && n.log == m.log && n.timers == m.timers && n.attempt == m.attempt && n.endpointIndex == m.endpointIndex
            && (if m.stopped then n.state == m.state
                else n.timers == {} && n.state == Connected(m.handshakes[transport]) && n.connectedAt == Some(now))
  {
  }

  lemma RejectedSays(m: Machine, transport: nat, reason: Reason, random: real)
    requires Sound(m) && transport in m.handshakes
    ensures var n := Next(m, Rejected(transport, reason, random));
            if m.stopped then n.state == m.state && n.log == m.log && n.timers == m.timers
            else Fails(n, m.log, reason, m.attempt, m.endpointIndex)
  {
    hide Fails;
    hide RetriedOrHalted;
    if !m.stopped {
      FailureSays(Detached(m.(handshakes := m.handshakes - {transport})), reason, random);
    }
  }

  /** A close of the transport in use is a failure; of one no longer listened to, nothing that shows. */
  lemma ClosedSays(m: Machine, transport: nat, reason: Reason, now: int, random: real)
    requires Sound(m) && transport in m.live
    ensures var n := Next(m, Closed(transport, reason, now, random));
            if m.active == Some(transport) then FailsConnected(m, n, reason, now)
            else n == m.(live := m.live - {transport})
  {
    hide FailsConnected;
    hide CloseHandled;
    if m.active == Some(transport) {
      CloseSays(m, m.live - {transport}, reason, now, random);
    }
  }

  // ---------- The waits ----------

  predicate Plausible(step: Step) {
    match step
    case Dropped(_, _, random) => 0.0 <= random <= 1.0
    case Rejected(_, _, random) => 0.0 <= random <= 1.0
    case Closed(_, _, _, random) => 0.0 <= random <= 1.0
    case _ => true
  }

  /** A wait that is announced is the one for the attempt it announces. */
  predicate WaitFits(m: Machine) {
    m.state.Waiting? ==> FitsAttempt(m.state.delayMs, m.state.attempt, m.options.policy)
  }

  lemma RetryFits(m: Machine, reason: Reason, random: real)
    requires Sensible(m.options.policy) && 0.0 <= random <= 1.0
    ensures WaitFits(RetriedOrHalted(m, reason, random))
  {
    DelayFitsAttempt(m.attempt + 1, m.options.policy, random);
    hide FitsAttempt;
    hide Delay;
  }

  lemma StepFits(m: Machine, step: Step)
    requires Sensible(m.options.policy) && WaitFits(m) && Possible(m, step) && Plausible(step)
    ensures WaitFits(Next(m, step)) && Next(m, step).options == m.options
  {
    hide FitsAttempt;
    hide RetriedOrHalted;
    match step
    case Dropped(reason, now, random) => CloseFits(Detached(m), reason, now, random);
    case Rejected(transport, reason, random) =>
      RetryFits(Detached(m.(handshakes := m.handshakes - {transport})), reason, random);
      SameOptions(Detached(m.(handshakes := m.handshakes - {transport})), reason, random);
    case Closed(transport, reason, now, random) =>
      CloseFits(m.(live := m.live - {transport}), reason, now, random);
    case _ =>
  }

  lemma SameOptions(m: Machine, reason: Reason, random: real)
    ensures RetriedOrHalted(m, reason, random).options == m.options
  {
    hide Delay;
  }

  lemma CloseFits(m: Machine, reason: Reason, now: int, random: real)
    requires Sensible(m.options.policy) && WaitFits(m) && 0.0 <= random <= 1.0
    ensures WaitFits(CloseHandled(m, reason, now, random)) && CloseHandled(m, reason, now, random).options == m.options
  {
    hide FitsAttempt;
    hide RetriedOrHalted;
    var lasted := m.connectedAt.Some? && now - m.connectedAt.value >= STABLE_CONNECTION_MS;
    RetryFits(Abandoned(m, lasted), reason, random);
    SameOptions(Abandoned(m, lasted), reason, random);
  }

  /**
    * Over every run, connects at any time included: whenever the wrapper waits,
    * the wait is within half the spread, up to rounding, of the capped one for
    * the attempt it announces - and the capped ones grow by the factor.
    */
  lemma {:induction false} WaitsFitTheirAttempt(m: Machine, steps: seq<Step>)
    requires Sensible(m.options.policy) && WaitFits(m) && IsLooseRun(m, steps)
    requires forall step | step in steps :: Plausible(step)
    ensures WaitFits(After(m, steps)) && After(m, steps).options == m.options
    decreases |steps|
  {
    hide WaitFits;
    hide Next;
    hide Possible;
    if steps == [] {
      assert After(m, steps) == m;
    } else {
      assert steps[0] in steps && forall step | step in steps[1..] :: step in steps;
      StepFits(m, steps[0]);
      WaitsFitTheirAttempt(Next(m, steps[0]), steps[1..]);
    }
  }

  /** For a wrapper that starts idle, in its own terms. */
  lemma ReconnectingBacksOff(options: Options, steps: seq<Step>)
    requires Sensible(options.policy) && IsLooseRun(Initial(options), steps)
    requires forall step | step in steps :: Plausible(step)
    ensures var m := After(Initial(options), steps);
            m.state.Waiting? ==>
              var capped := Capped(m.state.attempt, options.policy);
              var half := capped * options.policy.jitter / 2.0 + 0.5;
              capped - half <= m.state.delayMs as real <= capped + half
  {
    WaitsFitTheirAttempt(Initial(options), steps);
  }
}
