/** What the interleavings of `CoordProtocol` add up to: whose reply a caller gets, which pipes are used,
    what the config snapshot says, when bring-up settles, and the one way a restart never comes. */
module CoordTheorems {
  import opened Lru
  import opened Coord
  import opened CoordProtocol

  // ---------------------------------------------------------------- the main results

  /** In every interleaving, the reply a caller returns is the current child's answer to that very
      command. */
  lemma {:induction false} OwnAnswer(max: nat, handler: bool, steps: seq<Step>, m: Machine, c: nat)
    requires Reachable(max, handler, steps, m) && Enabled(m, GetReply(c))
    ensures var InFlight(command, xid, k) := m.callers[c];
            && m.cur == Hit(k) && !m.conns[k].lost
            && exists resp :: Next(m, GetReply(c)).callers[c] == Done(command, xid, Answered(Answer(xid, command, resp)))
  {
    hide Inv, Wire, Control, Reachable;
    ReachableInv(max, handler, steps, m);
    var InFlight(command, xid, k) := m.callers[c];
    InFlightOut(m, c);
    assert m.conns[k].outbox[0] == Answer(xid, command, m.conns[k].outbox[0].resp);
  }

  lemma {:induction false} InFlightOut(m: Machine, c: nat)
    requires Inv(m) && c in m.callers && m.callers[c].InFlight?
    ensures AtConn(m) && m.cur == Hit(m.callers[c].conn) && !m.conns[m.cur.value].lost
    ensures OneOut(m.conns[m.cur.value], m.callers[c].xid, m.callers[c].command)
  {
    hide Wire, Control, Truth, OneOut;
    NotLoop(m, c);
  }

  lemma {:induction false} TallyHolds(max: nat, handler: bool, steps: seq<Step>, m: Machine, k: nat)
    requires Reachable(max, handler, steps, m) && k < |m.conns|
    ensures m.conns[k].read <= m.conns[k].sent <= m.conns[k].read + 1
  {
    hide Reachable, BringWire, FlightWire, Control, Truth;
    ReachableInv(max, handler, steps, m);
  }

  predicate Sends(s: Step) {
    s.Acquire? || s.Resume? || s.GetHello?
  }

  /** No pipe goes away or is forgiven a loss, and nothing is sent. */
  ghost predicate Kept(a: seq<Conn>, b: seq<Conn>) {
    && |a| <= |b|
    && forall k :: 0 <= k < |a| ==> (a[k].lost ==> b[k].lost) && b[k].sent == a[k].sent
  }

  lemma {:induction false} CallerKept(m: Machine, s: Step)
    requires Enabled(m, s)
    requires s.Arrive? || s.GetReply? || s.LoseReply? || s.RestartLocks? || s.LoopTop?
    ensures Kept(m.conns, Next(m, s).conns)
  {
  }

  lemma {:induction false} BringKept(m: Machine, s: Step)
    requires Enabled(m, s)
    requires s.SleepOver? || s.ReapOver? || s.LoseHello? || s.GetReplay? || s.LoseReplay?
    ensures Kept(m.conns, Next(m, s).conns)
  {
  }

  lemma {:induction false} ChildKept(m: Machine, s: Step)
    requires Enabled(m, s)
    requires s.FatalReapOver? || s.ChildGreets? || s.ChildAnswers? || s.ChildDies?
    ensures Kept(m.conns, Next(m, s).conns)
  {
  }

  lemma {:induction false} OperatorKept(m: Machine, s: Step)
    requires Enabled(m, s) && s.Operator?
    ensures Kept(m.conns, Next(m, s).conns)
  {
    hide Reading, RestartFrom, Killed, Kept;
    KilledKept(m);
    KeptSame(m.conns);
    RestartConns(Killed(m), NoteLoss(m.front, s.reason, Missing));
    RestartConns(m, m.front.(attempts := 0, degradedReason := Missing, fatalReason := Missing));
  }

  lemma {:induction false} KilledKept(m: Machine)
    ensures Kept(m.conns, Killed(m).conns)
  {
  }

  lemma {:induction false} KeptSame(conns: seq<Conn>)
    ensures Kept(conns, conns)
  {
  }

  lemma {:induction false} RestartConns(m: Machine, front: Front)
    ensures RestartFrom(m, front).conns == m.conns
  {
  }

  lemma {:induction false} NextKept(m: Machine, s: Step)
    requires Enabled(m, s) && !Sends(s)
    ensures Kept(m.conns, Next(m, s).conns)
  {
    hide Kept, Enabled, Next;
    match s {
      case Arrive(_, _) => CallerKept(m, s);
      case GetReply(_) => CallerKept(m, s);
      case LoseReply(_, _) => CallerKept(m, s);
      case RestartLocks => CallerKept(m, s);
      case LoopTop => CallerKept(m, s);
      case SleepOver => BringKept(m, s);
      case ReapOver => BringKept(m, s);
      case LoseHello(_) => BringKept(m, s);
      case GetReplay => BringKept(m, s);
      case LoseReplay(_) => BringKept(m, s);
      case Operator(_) => OperatorKept(m, s);
      case _ => ChildKept(m, s);
    }
  }

  /** Nothing is owed on this pipe in either direction, but for a greeting not yet read. */
  ghost predicate Unburdened(conn: Conn) {
    !conn.lost && conn.sent == conn.read && conn.inbox == [] && (conn.outbox == [] || conn.outbox == [Greeting])
  }

  /** A step leaves the commands sent on each pipe alone, or sends one on the current pipe, unburdened. */
  ghost predicate SentOnly(m: Machine, v: Machine) {
    && |m.conns| <= |v.conns|
    && forall k :: 0 <= k < |m.conns| ==>
         && (m.conns[k].lost ==> v.conns[k].lost)
         && (v.conns[k].sent != m.conns[k].sent ==> m.cur == Hit(k) && Unburdened(m.conns[k]))
  }

  lemma {:induction false} ExchangeSends(m: Machine, c: nat)
    requires c in m.callers && (AtConn(m) ==> Unburdened(m.conns[m.cur.value]))
    ensures SentOnly(m, Exchange(m, c))
  {
    hide Unburdened;
  }

  lemma {:induction false} ReadyUnburdened(m: Machine)
    requires Wire(m) && m.front.state.READY? && !Flying(m)
    ensures AtConn(m) && Unburdened(m.conns[m.cur.value])
  {
    hide Tally, BringWire, FlightWire;
  }

  lemma {:induction false} AcquireSends(m: Machine, s: Step)
    requires Inv(m) && Enabled(m, s) && (s.Acquire? || s.Resume?)
    ensures SentOnly(m, Next(m, s))
  {
    hide Wire, Control, Truth, Exchange;
    if m.front.state.READY? {
      ReadyUnburdened(m);
      ExchangeSends(m, s.c);
    }
  }

  lemma {:induction false} HelloSends(m: Machine, s: Step)
    requires Inv(m) && Enabled(m, s) && s.GetHello?
    ensures SentOnly(m, Next(m, s))
  {
    hide Control, Truth, Tally, FlightWire;
    var k := m.cur.value;
    assert m.conns[k].outbox[0].Greeting? ==> m.conns[k].outbox == [Greeting];
  }

  /** Whenever a step sends a command, it is on the current pipe, nothing was owed on it in either direction,
      and no exchange on it was ever lost. */
  lemma {:induction false} ExchangeStartsQuiet(m: Machine, s: Step)
    requires Inv(m) && Enabled(m, s)
    ensures SentOnly(m, Next(m, s))
  {
    hide Inv, Next, Enabled;
    match s {
      case Acquire(_) => AcquireSends(m, s);
      case Resume(_, _) => AcquireSends(m, s);
      case GetHello => HelloSends(m, s);
      case _ => NextKept(m, s);
    }
  }

  /** So a pipe that lost an exchange, or its greeting, carries no further command. */
  lemma {:induction false} LostIsFinal(m: Machine, s: Step, k: nat)
    requires Inv(m) && Enabled(m, s) && k < |m.conns| && m.conns[k].lost
    ensures k < |Next(m, s).conns| && Next(m, s).conns[k].lost && Next(m, s).conns[k].sent == m.conns[k].sent
  {
    hide Inv, Next, Enabled;
    ExchangeStartsQuiet(m, s);
  }

  lemma {:induction false} LostIsFinalOverRuns(m: Machine, steps: seq<Step>, end: Machine, k: nat)
    requires Inv(m) && Reaches(m, steps, end) && k < |m.conns| && m.conns[k].lost
    ensures k < |end.conns| && end.conns[k].sent == m.conns[k].sent
    decreases |steps|
  {
    hide Inv, Enabled, Next;
    if steps != [] {
      NextInv(m, steps[0]);
      LostIsFinal(m, steps[0], k);
      LostIsFinalOverRuns(Next(m, steps[0]), steps[1..], end, k);
    }
  }

  /** The snapshot is never wrong: in every state the dump the front-end vouches for is the one in the last
      successful prepare reply read from this generation's child, and there is none exactly when the
      snapshot is missing or reported stale. While the front-end is READY with nothing in flight it is also
      what that child last prepared. */
  lemma {:induction false} SnapshotTruth(max: nat, handler: bool, steps: seq<Step>, m: Machine)
    requires Reachable(max, handler, steps, m)
    ensures m.home.Hit? ==> m.home.value < |m.conns| && m.conns[m.home.value].told == Shown(m.front)
    ensures m.front.state.READY? && !Reading(m) ==> AtConn(m) && m.home == m.cur && m.conns[m.cur.value].prepared == Shown(m.front)
  {
    hide Reachable, Control, BringWire, FlightWire, Tally, Shown;
    ReachableInv(max, handler, steps, m);
  }

  /** The event a caller waits on while startup runs is set exactly when no bring-up is under way, so nobody
      sleeps through its end, and by then the state is settled: READY with nothing owed, DEGRADED, or stranded
      as below. */
  lemma {:induction false} WaitersAreWoken(max: nat, handler: bool, steps: seq<Step>, m: Machine)
    requires Reachable(max, handler, steps, m)
    ensures m.front.ready <==> m.bring.Off?
    ensures m.front.ready ==> m.front.state.READY? || m.front.state.DEGRADED? || Stranded(m)
    ensures m.front.state.READY? ==> m.front.ready && m.front.attempts == 0
  {
    hide Reachable, Wire, Truth, LockOk, FlightOk;
    ReachableInv(max, handler, steps, m);
  }

  /** The operator's request does to the record what `Coord.OperatorRestart` does. */
  lemma {:induction false} OperatorIsRequest(m: Machine, reason: string)
    requires Enabled(m, Operator(reason))
    ensures Next(m, Operator(reason)).front == RequestRestart(m.front, reason, !Reading(m))
  {
    hide Reading, Killed;
    KilledFront(m);
  }

  // ---------------------------------------------------------------- a bring-up settles, whoever interleaves

  /** How many more children the bring-up under way may spawn. */
  function Remaining(m: Machine): nat {
    match m.bring
    case Off => 0
    case FatalReap => 0
    case Sleeping => 1 + Budget(m.front)
    case Reaping => 1 + Budget(m.front)
    case Repriming(_, _, _) => m.front.max
    case _ => Budget(m.front)
  }

  function Phase(bring: Bring): nat {
    match bring
    case Off => 0
    case FatalReap => 1
    case Reaping => 2
    case Sleeping => 3
    case Top => 4
    case WaitLock => 5
    case Repriming(_, _, _) => 5
    case AwaitHello => 6
  }

  function Work(m: Machine): nat {
    5 * Remaining(m) + Phase(m.bring)
  }

  predicate IsBring(s: Step) {
    s.RestartLocks? || s.LoopTop? || s.SleepOver? || s.ReapOver? || s.GetHello? || s.LoseHello? || s.GetReplay? || s.LoseReplay?
    || s.FatalReapOver?
  }

  /** What starts a new bring-up: an operator, or a command lost. */
  predicate Disturbs(s: Step) {
    s.Operator? || s.LoseReply?
  }

  /** `v` has used up some of the work of `m`, and spawned only from what remained. */
  ghost predicate Advances(m: Machine, v: Machine) {
    v.front.spawns + Remaining(v) <= m.front.spawns + Remaining(m) && Work(v) < Work(m)
  }

  lemma {:induction false} LoopTopWork(m: Machine, s: Step)
    requires Enabled(m, s) && s.LoopTop?
    ensures Advances(m, Next(m, s))
  {
  }

  lemma {:induction false} TopWork(m: Machine, s: Step)
    requires Enabled(m, s)
    requires s.RestartLocks? || s.SleepOver? || s.ReapOver? || s.FatalReapOver?
    ensures Advances(m, Next(m, s))
  {
  }

  lemma {:induction false} GreetingWork(m: Machine)
    requires AtConn(m) && m.bring.AwaitHello?
    ensures Advances(m, AfterGreeting(m))
  {
  }

  lemma {:induction false} LostWork(m: Machine, s: Step)
    requires Inv(m) && Enabled(m, s) && (s.LoseReplay? || s.LoseHello? || s.GetReplay?)
    ensures Advances(m, Next(m, s))
  {
    hide Wire, Truth, LockOk, FlightOk;
  }

  lemma {:induction false} FatalWork(m: Machine, error: string)
    requires m.bring.AwaitHello?
    ensures Advances(m, AfterFatal(m, error))
  {
    hide Budget, Killed;
  }

  lemma {:induction false} LostHelloWork(m: Machine, reason: string)
    requires Enabled(m, LoseHello(reason))
    ensures Advances(m, AfterLostHello(m, reason))
  {
  }

  lemma {:induction false} HeardFront(m: Machine)
    requires Enabled(m, GetHello)
    ensures Heard(m).front == m.front && Heard(m).bring == m.bring && AtConn(Heard(m))
  {
  }

  lemma {:induction false} AdvancesFrom(m: Machine, h: Machine, v: Machine)
    requires h.front == m.front && h.bring == m.bring && Advances(h, v)
    ensures Advances(m, v)
  {
  }

  lemma {:induction false} HelloWork(m: Machine, s: Step)
    requires Enabled(m, s) && s.GetHello?
    ensures Advances(m, Next(m, s))
  {
    hide AfterGreeting, AfterFatal, AfterLostHello, Heard, Advances;
    HeardFront(m);
    AdvancesFrom(m, Heard(m), Next(m, s)) by {
      match m.conns[m.cur.value].outbox[0] {
        case FatalNotice(error) => FatalWork(Heard(m), error);
        case Greeting => GreetingWork(Heard(m));
        case Answer(_, _, _) => LostHelloWork(Heard(m), "expected hello");
      }
    }
  }

  /** Every step of a bring-up uses some of its work up, and its spawns come out of what remained. */
  lemma {:induction false} BringWorks(m: Machine, s: Step)
    requires Inv(m) && Enabled(m, s) && IsBring(s)
    ensures Advances(m, Next(m, s))
  {
    hide Inv, Enabled, Next, Advances;
    match s {
      case GetHello => HelloWork(m, s);
      case GetReplay => LostWork(m, s);
      case LoseReplay(_) => LostWork(m, s);
      case LoseHello(_) => LostWork(m, s);
      case LoopTop => LoopTopWork(m, s);
      case _ => TopWork(m, s);
    }
  }

  lemma {:induction false} OthersWork(m: Machine, s: Step)
    requires Inv(m) && Enabled(m, s) && !IsBring(s) && !Disturbs(s)
    ensures Next(m, s).front.spawns == m.front.spawns
    ensures Remaining(Next(m, s)) == Remaining(m) && Work(Next(m, s)) == Work(m)
  {
    hide Wire, Truth, LockOk, StateOk;
  }

  ghost predicate Undisturbed(steps: seq<Step>) {
    forall i :: 0 <= i < |steps| ==> !Disturbs(steps[i])
  }

  function BringSteps(steps: seq<Step>): nat {
    if steps == [] then 0 else (if IsBring(steps[0]) then 1 else 0) + BringSteps(steps[1..])
  }

  /** However callers, deaths and replies interleave with it, a bring-up nobody disturbs spawns no more
      children than remained to it, and is over within its work. */
  lemma {:induction false} BringUpIsBounded(m: Machine, steps: seq<Step>, end: Machine)
    requires Inv(m) && Reaches(m, steps, end) && Undisturbed(steps)
    ensures end.front.spawns <= m.front.spawns + Remaining(m)
    ensures BringSteps(steps) <= Work(m)
    decreases |steps|
  {
    hide Inv, Enabled, Next, Remaining, Work;
    if steps != [] {
      var s := steps[0];
      var v := Next(m, s);
      NextInv(m, s);
      BringUpIsBounded(v, steps[1..], end);
      if IsBring(s) {
        BringWorks(m, s);
      } else {
        OthersWork(m, s);
      }
    }
  }

  /** After a lost command at most twice the attempts allowed remain; after a lost prepare, no more than the
      attempts themselves. */
  lemma {:induction false} LossRemaining(m: Machine, c: nat, reason: string)
    requires Inv(m) && Enabled(m, LoseReply(c, reason))
    ensures var v := Next(m, LoseReply(c, reason));
            && v.bring.WaitLock?
            && Remaining(v) <= 2 * m.front.max
            && (IsPrepare(m.callers[c].command) ==> Remaining(v) <= m.front.max)
  {
    hide Wire, Truth, LockOk;
  }

  predicate AwaitsReplay(m: Machine) {
    m.bring.Repriming? && m.bring.conn < |m.conns| && m.conns[m.bring.conn].alive && m.conns[m.bring.conn].outbox == []
  }

  /** Until it is over a bring-up can always move, but for a caller that holds the lock and can give up, and
      a living child that owes it the answer to its replay. */
  lemma {:induction false} BringUpMoves(m: Machine) returns (s: Step)
    requires Inv(m) && !m.bring.Off?
    ensures !AwaitsReplay(m) ==> Enabled(m, s) && (IsBring(s) || s.Resume?)
    ensures s.LoseReplay? && !AwaitsReplay(m) ==> m.bring.conn < |m.conns| && !m.conns[m.bring.conn].alive
  {
    hide Truth, Tally, FlightWire;
    match m.bring {
      case WaitLock => s := if m.lock.Free? then RestartLocks else Resume(m.lock.c, true);
      case Top => s := LoopTop;
      case Sleeping => s := SleepOver;
      case Reaping => s := ReapOver;
      case AwaitHello => s := LoseHello("");
      case Repriming(_, _, k) => s := if m.conns[k].outbox != [] then GetReplay else LoseReplay("");
      case FatalReap => s := FatalReapOver;
      case Off => s := LoopTop;
    }
  }

  // ---------------------------------------------------------------- the restart that never comes

  /** A restart is announced and none is under way: every command is refused. */
  predicate Stranded(m: Machine) {
    m.front.state.RESTARTING? && m.bring.Off?
  }

  /** A restart is announced while the only task that could do it is reaping a misconfigured child, and then
      ends. */
  predicate Doomed(m: Machine) {
    m.front.state.RESTARTING? && m.bring.FatalReap? && !m.startup
  }

  /** A step strands the front-end exactly when it ends a doomed reap. */
  lemma {:induction false} StrandsWhen(m: Machine, s: Step)
    requires Inv(m) && Enabled(m, s) && !Stranded(m)
    ensures Stranded(Next(m, s)) <==> s.FatalReapOver? && Doomed(m)
  {
    hide Inv, Next, Stranded, Doomed;
    match s {
      case Operator(_) => OperatorStrands(m, s);
      case FatalReapOver => ReapStrands(m, s);
      case _ => OtherStrands(m, s);
    }
  }

  lemma {:induction false} ReapStrands(m: Machine, s: Step)
    requires Inv(m) && Enabled(m, s) && s.FatalReapOver?
    ensures Stranded(Next(m, s)) <==> Doomed(m)
  {
    hide Wire, Truth, LockOk, FlightOk;
  }

  lemma {:induction false} OperatorStrands(m: Machine, s: Step)
    requires Inv(m) && Enabled(m, s) && s.Operator?
    ensures !Stranded(Next(m, s))
    ensures !Doomed(m) ==> (Doomed(Next(m, s)) <==> m.bring.FatalReap? && !m.startup)
    ensures Doomed(m) ==> Doomed(Next(m, s))
  {
    hide Wire, Truth, LockOk, Killed;
    KilledFront(m);
  }

  lemma {:induction false} OtherStrands(m: Machine, s: Step)
    requires Inv(m) && Enabled(m, s) && !s.Operator? && !s.FatalReapOver?
    ensures Stranded(Next(m, s)) == Stranded(m)
    ensures Doomed(Next(m, s)) == Doomed(m)
  {
    hide Inv, Next, Stranded, Doomed;
    if IsBring(s) {
      BringStrands(m, s);
    } else {
      CallerStrands(m, s);
    }
  }

  lemma {:induction false} BringStrands(m: Machine, s: Step)
    requires Inv(m) && Enabled(m, s) && IsBring(s) && !s.FatalReapOver?
    ensures Stranded(Next(m, s)) == Stranded(m)
    ensures Doomed(Next(m, s)) == Doomed(m)
  {
    hide Wire, Truth, LockOk, FlightOk;
  }

  lemma {:induction false} CallerStrands(m: Machine, s: Step)
    requires Inv(m) && Enabled(m, s) && !IsBring(s) && !s.Operator?
    ensures Stranded(Next(m, s)) == Stranded(m)
    ensures Doomed(Next(m, s)) == Doomed(m)
  {
    hide Wire, Truth, LockOk;
  }

  /** A reap is doomed exactly by an operator's restart during it: it sees DEGRADED, announces a restart, and
      finds the restart task still there. Nothing but the end of the reap ends that. */
  lemma {:induction false} DoomedWhen(m: Machine, s: Step)
    requires Inv(m) && Enabled(m, s)
    ensures !Doomed(m) ==> (Doomed(Next(m, s)) <==> s.Operator? && m.bring.FatalReap? && !m.startup)
    ensures Doomed(m) ==> (!Doomed(Next(m, s)) <==> s.FatalReapOver?)
  {
    hide Inv, Next, Stranded, Doomed;
    match s {
      case Operator(_) => OperatorStrands(m, s);
      case FatalReapOver => ReapEnds(m, s);
      case _ => OtherStrands(m, s);
    }
  }

  lemma {:induction false} ReapEnds(m: Machine, s: Step)
    requires Enabled(m, s) && s.FatalReapOver?
    ensures !Doomed(Next(m, s))
  {
  }

  /** Only the operator's next restart ends it, and that one does start a restart. */
  lemma {:induction false} UnstrandedWhen(m: Machine, s: Step)
    requires Inv(m) && Enabled(m, s) && Stranded(m)
    ensures !Stranded(Next(m, s)) <==> s.Operator?
    ensures s.Operator? ==> Next(m, s).bring.WaitLock? && Next(m, s).front.restarting
  {
    hide Inv, Next, Stranded, Doomed;
    match s {
      case Operator(reason) =>
        OperatorStrands(m, s);
        OperatorUnstrands(m, reason);
      case FatalReapOver => NotReaping(m);
      case _ => OtherStrands(m, s);
    }
  }

  lemma {:induction false} NotReaping(m: Machine)
    ensures Stranded(m) ==> !Enabled(m, FatalReapOver)
  {
  }

  lemma {:induction false} WindowStrands(m: Machine, reason: string)
    requires Inv(m) && m.bring.FatalReap? && !m.startup && m.front.state.DEGRADED?
    ensures Enabled(m, Operator(reason)) && Enabled(Next(m, Operator(reason)), FatalReapOver)
    ensures Stranded(Next(Next(m, Operator(reason)), FatalReapOver))
  {
    hide Wire, Truth, LockOk, FlightOk;
  }

  /** In every reachable state, an announced restart has a task that will spawn a child, unless the front-end
      is stranded or about to be. */
  lemma {:induction false} RestartingIsRestarting(max: nat, handler: bool, steps: seq<Step>, m: Machine)
    requires Reachable(max, handler, steps, m) && m.front.state.RESTARTING?
    ensures m.front.restarting && !m.bring.FatalReap? <==> !Stranded(m) && !Doomed(m)
  {
    hide Reachable, Wire, Truth, LockOk, FlightOk;
    ReachableInv(max, handler, steps, m);
  }

  // ---------------------------------------------------------------- and the handler that takes the server down

  /** With a handler, a stranded front-end belongs to a server that is being taken down. */
  ghost predicate ShutdownSeen(m: Machine) {
    m.front.handler && Stranded(m) ==> m.front.shutdown
  }

  lemma {:induction false} ShutdownStep(m: Machine, s: Step)
    requires Inv(m) && Enabled(m, s) && ShutdownSeen(m)
    ensures ShutdownSeen(Next(m, s)) && Next(m, s).front.handler == m.front.handler
  {
    hide Inv, Next, Stranded;
    HandlerKept(m, s);
    if !Stranded(m) {
      StrandsWhen(m, s);
      if s.FatalReapOver? {
        ReapShutsDown(m, s);
      }
    }
  }

  ghost predicate SameHandler(f: Front, g: Front) {
    g.handler == f.handler && (f.shutdown ==> g.shutdown)
  }

  lemma {:induction false} HandlerKept(m: Machine, s: Step)
    requires Enabled(m, s)
    ensures SameHandler(m.front, Next(m, s).front)
  {
    hide SameHandler, Enabled, Next;
    match s {
      case GetHello => HelloHandler(m, s);
      case Operator(reason) => OperatorHandler(m, s);
      case _ => if IsBring(s) { BringHandler(m, s); } else { CallerHandler(m, s); }
    }
  }

  lemma {:induction false} HelloHandler(m: Machine, s: Step)
    requires Enabled(m, s) && s.GetHello?
    ensures SameHandler(m.front, Next(m, s).front)
  {
    hide Heard, AfterGreeting, Killed;
    HeardFront(m);
    KilledFront(Heard(m));
    GreetingHandler(Heard(m));
  }

  lemma {:induction false} GreetingHandler(m: Machine)
    requires AtConn(m)
    ensures SameHandler(m.front, AfterGreeting(m).front)
  {
  }

  lemma {:induction false} OperatorHandler(m: Machine, s: Step)
    requires Enabled(m, s) && s.Operator?
    ensures SameHandler(m.front, Next(m, s).front)
  {
    hide Killed, Reading;
    KilledFront(m);
  }

  lemma {:induction false} BringHandler(m: Machine, s: Step)
    requires Enabled(m, s) && IsBring(s) && !s.GetHello?
    ensures SameHandler(m.front, Next(m, s).front)
  {
    hide Killed;
    KilledFront(m);
  }

  lemma {:induction false} CallerHandler(m: Machine, s: Step)
    requires Enabled(m, s) && !IsBring(s) && !s.Operator?
    ensures SameHandler(m.front, Next(m, s).front)
  {
  }

  lemma {:induction false} ReapShutsDown(m: Machine, s: Step)
    requires Enabled(m, s) && s.FatalReapOver?
    ensures m.front.handler ==> Next(m, s).front.shutdown
  {
  }

  lemma {:induction false} ShutdownOverRuns(m: Machine, steps: seq<Step>, end: Machine)
    requires Inv(m) && ShutdownSeen(m) && Reaches(m, steps, end)
    ensures ShutdownSeen(end) && end.front.handler == m.front.handler
    decreases |steps|
  {
    hide Inv, ShutdownSeen, Next, Enabled;
    if steps != [] {
      NextInv(m, steps[0]);
      ShutdownStep(m, steps[0]);
      ShutdownOverRuns(Next(m, steps[0]), steps[1..], end);
    }
  }

  ghost predicate NoNotices(steps: seq<Step>) {
    forall i :: 0 <= i < |steps| ==> !(steps[i].ChildGreets? && steps[i].msg.FatalNotice?)
  }

  ghost predicate Quietly(conn: Conn) {
    forall i :: 0 <= i < |conn.outbox| ==> !conn.outbox[i].FatalNotice?
  }

  /** No fatal notice is on any pipe, nor being acted on. */
  ghost predicate NoFatal(m: Machine) {
    && !m.bring.FatalReap?
    && forall k :: 0 <= k < |m.conns| ==> Quietly(m.conns[k])
  }

  lemma {:induction false} CallerNoFatal(m: Machine, s: Step)
    requires NoFatal(m) && Enabled(m, s)
    requires s.Arrive? || s.Acquire? || s.Resume? || s.GetReply? || s.LoseReply?
    ensures NoFatal(Next(m, s))
  {
  }

  lemma {:induction false} BringNoFatal(m: Machine, s: Step)
    requires NoFatal(m) && Enabled(m, s) && IsBring(s) && !s.GetHello?
    ensures NoFatal(Next(m, s))
  {
  }

  lemma {:induction false} HelloNoFatal(m: Machine, s: Step)
    requires NoFatal(m) && Enabled(m, s) && s.GetHello?
    ensures NoFatal(Next(m, s))
  {
    hide AfterGreeting, AfterLostHello, Heard;
    assert Quietly(m.conns[m.cur.value]);
    HeardNoFatal(m);
    HeardFront(m);
    GreetingNoFatal(Heard(m));
    LostHelloNoFatal(Heard(m));
  }

  lemma {:induction false} HeardNoFatal(m: Machine)
    requires NoFatal(m) && Enabled(m, GetHello)
    ensures NoFatal(Heard(m))
  {
  }

  lemma {:induction false} GreetingNoFatal(m: Machine)
    requires NoFatal(m) && AtConn(m)
    ensures NoFatal(AfterGreeting(m))
  {
  }

  lemma {:induction false} LostHelloNoFatal(m: Machine)
    requires NoFatal(m) && Enabled(m, LoseHello("expected hello"))
    ensures NoFatal(AfterLostHello(m, "expected hello"))
  {
  }

  lemma {:induction false} OperatorNoFatal(m: Machine, s: Step)
    requires NoFatal(m) && Enabled(m, s) && s.Operator?
    ensures NoFatal(Next(m, s))
  {
    hide Reading;
  }

  lemma {:induction false} ChildNoFatal(m: Machine, s: Step)
    requires NoFatal(m) && Enabled(m, s) && (s.ChildGreets? || s.ChildAnswers? || s.ChildDies?)
    requires s.ChildGreets? ==> !s.msg.FatalNotice?
    ensures NoFatal(Next(m, s))
  {
  }

  lemma {:induction false} NextNoFatal(m: Machine, s: Step)
    requires NoFatal(m) && Enabled(m, s) && (s.ChildGreets? ==> !s.msg.FatalNotice?)
    ensures NoFatal(Next(m, s))
  {
    hide NoFatal, Next, Enabled;
    match s {
      case Operator(_) => OperatorNoFatal(m, s);
      case GetHello => HelloNoFatal(m, s);
      case ChildGreets(_, _) => ChildNoFatal(m, s);
      case ChildAnswers(_, _) => ChildNoFatal(m, s);
      case ChildDies(_) => ChildNoFatal(m, s);
      case _ => if IsBring(s) { BringNoFatal(m, s); } else { CallerNoFatal(m, s); }
    }
  }

  /** Children that send no fatal notice never strand the front-end. */
  lemma {:induction false} NoNoticeNoStrand(m: Machine, steps: seq<Step>, end: Machine)
    requires Inv(m) && NoFatal(m) && !Stranded(m) && Reaches(m, steps, end) && NoNotices(steps)
    ensures !Stranded(end)
    decreases |steps|
  {
    hide Inv, NoFatal, Stranded, Next, Enabled;
    if steps != [] {
      var s := steps[0];
      assert !(s.ChildGreets? && s.msg.FatalNotice?);
      NextInv(m, s);
      NextNoFatal(m, s);
      StrandsWhen(m, s);
      NotDoomed(m);
      assert NoNotices(steps[1..]);
      NoNoticeNoStrand(Next(m, s), steps[1..], end);
    }
  }

  lemma {:induction false} NotDoomed(m: Machine)
    requires NoFatal(m)
    ensures !Doomed(m)
  {
  }

  /** As the service deploys them, coordinator flights have a handler and plot flights' children send no fatal
      notice. Either way a front-end that is stranded belongs to a server that is being taken down. */
  lemma {:induction false} StrandedOnlyInShutdown(max: nat, handler: bool, steps: seq<Step>, m: Machine)
    requires Reachable(max, handler, steps, m) && (handler || NoNotices(steps)) && Stranded(m)
    ensures m.front.shutdown
  {
    hide Inv, Reaches, ShutdownSeen;
    StartInv(max, handler);
    StartQuiet(max, handler);
    ShutdownOverRuns(Start(max, handler), steps, m);
    if !handler {
      NoNoticeNoStrand(Start(max, handler), steps, m);
    }
    SeenWhenStranded(m);
  }

  lemma {:induction false} StartQuiet(max: nat, handler: bool)
    ensures NoFatal(Start(max, handler)) && !Stranded(Start(max, handler)) && ShutdownSeen(Start(max, handler))
    ensures Start(max, handler).front.handler == handler
  {
  }

  lemma {:induction false} SeenWhenStranded(m: Machine)
    requires ShutdownSeen(m) && m.front.handler && Stranded(m)
    ensures m.front.shutdown
  {
  }

  lemma {:induction false} StrandedStep(m: Machine, s: Step)
    requires Inv(m) && Stranded(m) && Enabled(m, s) && !s.Operator?
    ensures Stranded(Next(m, s))
    ensures s.Acquire? ==> Next(m, s).callers[s.c] == Done(m.callers[s.c].command, 0, CoordinatorUnavailable)
  {
    hide Wire, Truth, StateOk, LockOk;
  }

  lemma {:induction false} StrandedStays(m: Machine, steps: seq<Step>, end: Machine)
    requires Inv(m) && Stranded(m) && Reaches(m, steps, end)
    requires forall i :: 0 <= i < |steps| ==> !steps[i].Operator?
    ensures Stranded(end)
    decreases |steps|
  {
    hide Inv, Stranded, Next, Enabled;
    if steps != [] {
      NextInv(m, steps[0]);
      StrandedStep(m, steps[0]);
      StrandedStays(Next(m, steps[0]), steps[1..], end);
    }
  }

  /** A second request gets it going again. */
  lemma {:induction false} OperatorUnstrands(m: Machine, reason: string)
    requires Inv(m) && Stranded(m)
    ensures Enabled(m, Operator(reason))
    ensures Next(m, Operator(reason)).bring.WaitLock? && Next(m, Operator(reason)).front.restarting
  {
    hide Wire, Truth, Killed;
    KilledFront(m);
  }

  lemma {:induction false} ReachesOn(m: Machine, a: seq<Step>, mid: Machine, b: seq<Step>, end: Machine)
    requires Reaches(m, a, mid) && Reaches(mid, b, end)
    ensures Reaches(m, a + b, end)
    decreases |a|
  {
    hide Enabled, Next;
    if a == [] {
      assert a + b == b;
    } else {
      assert (a + b)[1..] == a[1..] + b;
      ReachesOn(Next(m, a[0]), a[1..], mid, b, end);
    }
  }

  lemma {:induction false} Once(m: Machine, s: Step)
    requires Enabled(m, s)
    ensures Reaches(m, [s], Next(m, s))
  {
    hide Enabled, Next;
    assert [s][1..] == [];
    NoSteps(Next(m, s));
  }

  lemma {:induction false} NoSteps(m: Machine)
    ensures Reaches(m, [], m)
  {
  }

  lemma {:induction false} Twice(m: Machine, s: Step, t: Step)
    requires Enabled(m, s) && Enabled(Next(m, s), t)
    ensures Reaches(m, [s, t], Next(Next(m, s), t))
  {
    hide Enabled, Next;
    Once(m, s);
    Once(Next(m, s), t);
    ReachesOn(m, [s], Next(m, s), [t], Next(Next(m, s), t));
    assert [s] + [t] == [s, t];
  }

  // A run that gets there: startup succeeds, an operator restarts the flight, and the new child finds the
  // service misconfigured.
  const SPAWN: seq<Step> := [LoopTop, SleepOver] + [ReapOver]
  const UP: seq<Step> := SPAWN + [ChildGreets(0, Greeting), GetHello]
  const DOWN: seq<Step> := [Operator("restart"), RestartLocks] + (SPAWN + [ChildGreets(1, FatalNotice("bad repository")), GetHello])
  const WINDOW: seq<Step> := [Operator("restart"), FatalReapOver]

  lemma {:induction false} Spawns(m: Machine) returns (v: Machine)
    requires m.bring.Top? && m.front.attempts < m.front.max
    ensures Reaches(m, SPAWN, v)
    ensures v.bring.AwaitHello? && v.front == Spawned(Attempt(m.front)) && v.startup == m.startup
    ensures v.cur == Hit(|m.conns|) && |v.conns| == |m.conns| + 1 && v.conns[|m.conns|] == NEWBORN
    ensures v.lock == m.lock
  {
    hide Reaches;
    Twice(m, LoopTop, SleepOver);
    var w := Next(Next(m, LoopTop), SleepOver);
    Once(w, ReapOver);
    v := Next(w, ReapOver);
    ReachesOn(m, [LoopTop, SleepOver], w, [ReapOver], v);
  }

  lemma {:induction false} Speaks(m: Machine, k: nat, msg: Msg) returns (v: Machine)
    requires m.bring.AwaitHello? && m.cur == Hit(k) && |m.conns| == k + 1 && m.conns[k] == NEWBORN && !msg.Answer?
    requires msg.Greeting? ==> ReplayArgs(Greeted(m.front)).Missing?
    ensures Reaches(m, [ChildGreets(k, msg), GetHello], v)
    ensures |v.conns| == |m.conns|
    ensures msg.Greeting? ==> v == Finished(v.(front := Usable(Greeted(m.front)), bring := m.bring, lock := m.lock, startup := m.startup))
    ensures msg.FatalNotice? ==> v.bring.FatalReap? && v.startup == m.startup && v.front == Misconfigured(m.front, msg.error)
  {
    hide Reaches, Budget;
    Twice(m, ChildGreets(k, msg), GetHello);
    v := Next(Next(m, ChildGreets(k, msg)), GetHello);
  }

  lemma {:induction false} ComesUp(handler: bool) returns (m: Machine)
    ensures Reaches(Start(1, handler), UP, m)
    ensures m.front == Usable(Greeted(Spawned(Attempt(Fresh(1, handler))))) && m.bring.Off? && !m.startup && m.lock.Free? && |m.conns| == 1
  {
    hide Reaches;
    var v := Spawns(Start(1, handler));
    m := Speaks(v, 0, Greeting);
    ReachesOn(Start(1, handler), SPAWN, v, [ChildGreets(0, Greeting), GetHello], m);
  }

  lemma {:induction false} Restarts(m: Machine) returns (v: Machine)
    requires m.front.state.READY? && m.bring.Off? && !m.startup && m.lock.Free? && !m.front.restarting
    ensures Reaches(m, [Operator("restart"), RestartLocks], v)
    ensures v.bring.Top? && !v.startup && v.front == StartRestart(NoteLoss(m.front, "restart", Missing)) && |v.conns| == |m.conns|
  {
    hide Reaches;
    Twice(m, Operator("restart"), RestartLocks);
    v := Next(Next(m, Operator("restart")), RestartLocks);
  }

  lemma {:induction false} GoesDown(m: Machine, handler: bool) returns (end: Machine)
    requires m.front == Usable(Greeted(Spawned(Attempt(Fresh(1, handler))))) && m.bring.Off? && !m.startup && m.lock.Free? && |m.conns| == 1
    ensures Reaches(m, DOWN, end)
    ensures end.bring.FatalReap? && !end.startup && end.front.state.DEGRADED?
  {
    hide Reaches;
    var v := Restarts(m);
    var w := Spawns(v);
    var notice := FatalNotice("bad repository");
    end := Speaks(w, 1, notice);
    ReachesOn(v, SPAWN, w, [ChildGreets(1, notice), GetHello], end);
    ReachesOn(m, [Operator("restart"), RestartLocks], v, SPAWN + [ChildGreets(1, notice), GetHello], end);
  }

  /** So the stranded state is reachable: `RestartingIsRestarting` needs its condition. */
  lemma {:induction false} StrandedReachable(handler: bool) returns (m: Machine)
    ensures Reachable(1, handler, UP + DOWN + WINDOW, m) && Stranded(m)
  {
    hide Enabled, Next, Reaches, Stranded, Inv;
    var up := ComesUp(handler);
    var down := GoesDown(up, handler);
    StartInv(1, handler);
    ReachesOn(Start(1, handler), UP, up, DOWN, down);
    ReachesInv(Start(1, handler), UP + DOWN, down);
    WindowStrands(down, "restart");
    m := Next(Next(down, Operator("restart")), FatalReapOver);
    Twice(down, Operator("restart"), FatalReapOver);
    ReachesOn(Start(1, handler), UP + DOWN, down, WINDOW, m);
  }
}
