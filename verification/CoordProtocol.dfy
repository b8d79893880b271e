/** Many callers, one lock, a restart task, an operator and children that die at any step: every
    interleaving of what the event loop does between awaits. */
module CoordProtocol {
  import opened Lru
  import opened Coord

  /** A message on the pipe to the front-end. An answer carries the exchange and command it is for; no such
      tag crosses the real pipe, so nothing below may decide on it. */
  datatype Msg = Greeting | FatalNotice(error: string) | Answer(xid: nat, command: Command, resp: Response)

  /** One child and its pipe: whether it has said its first word and serves commands, and the dump of its
      last successful prepare. History: commands sent and answers read on the pipe, the dump of the last
      successful prepare reply read from it, and whether an exchange on it was lost. */
  datatype Conn = Conn(
    alive: bool,
    spoke: bool,
    serving: bool,
    inbox: seq<(nat, Command)>,
    outbox: seq<Msg>,
    prepared: Found<string>,
    sent: nat,
    read: nat,
    told: Found<string>,
    lost: bool)

  const NEWBORN: Conn := Conn(true, false, false, [], [], Missing, 0, 0, Missing, false)

  datatype Outcome = Answered(msg: Msg) | CoordinatorLost | CoordinatorUnavailable

  /** One `send_command`: queued for the lock, holding it until startup resolves, waiting for a reply, or
      returned. */
  datatype Caller =
    | Queued(command: Command)
    | Waiting(command: Command)
    | InFlight(command: Command, xid: nat, conn: nat)
    | Done(command: Command, xid: nat, outcome: Outcome)

  datatype Bring = Off | WaitLock | Top | Sleeping | Reaping | AwaitHello | Repriming(args: Command, xid: nat, conn: nat) | FatalReap

  datatype Holder = Free | ByCaller(c: nat) | ByRestart

  /** `cur` is the child in use and `home` the one whose greeting began the current generation; `startup`
      while the bring-up is the first, which runs outside the lock. */
  datatype Machine = Machine(
    front: Front,
    cur: Found<nat>,
    home: Found<nat>,
    conns: seq<Conn>,
    lock: Holder,
    bring: Bring,
    startup: bool,
    callers: map<nat, Caller>,
    next: nat)

  datatype Step =
    | Arrive(c: nat, command: Command)
    | Acquire(c: nat)
    | Resume(c: nat, timedOut: bool)
    | GetReply(c: nat)
    | LoseReply(c: nat, reason: string)
    | RestartLocks
    | LoopTop
    | SleepOver
    | ReapOver
    | GetHello
    | LoseHello(reason: string)
    | GetReplay
    | LoseReplay(reason: string)
    | FatalReapOver
    | Operator(reason: string)
    | ChildGreets(k: nat, msg: Msg)
    | ChildAnswers(k: nat, resp: Response)
    | ChildDies(k: nat)

  function Start(max: nat, handler: bool): Machine {
    Machine(Fresh(max, handler), Missing, Missing, [], Free, Top, true, map[], 0)
  }

  /** A reader is parked on the pipe. */
  predicate Reading(m: Machine) {
    m.bring.AwaitHello? || m.bring.Repriming?
    || (m.lock.ByCaller? && m.lock.c in m.callers && m.callers[m.lock.c].InFlight?)
  }

  predicate Holds(m: Machine, c: nat) {
    m.lock == ByCaller(c) && c in m.callers
  }

  predicate AtConn(m: Machine) {
    m.cur.Hit? && m.cur.value < |m.conns|
  }

  /** A reader can lose an exchange at any time, the child dead or not: an end of file, a broken pipe, an
      exit. An operator's restart with startup running and no reader parked, or in the reap that ends a
      startup, is left out. */
  predicate Enabled(m: Machine, s: Step) {
    match s
    case Arrive(c, _) => c !in m.callers
    case Acquire(c) => m.lock.Free? && c in m.callers && m.callers[c].Queued?
    case Resume(c, _) => Holds(m, c) && m.callers[c].Waiting?
    case GetReply(c) => Holds(m, c) && m.callers[c].InFlight? && m.callers[c].conn < |m.conns| && m.conns[m.callers[c].conn].outbox != []
    case LoseReply(c, _) => Holds(m, c) && m.callers[c].InFlight? && m.callers[c].conn < |m.conns|
    case RestartLocks => m.lock.Free? && m.bring.WaitLock?
    case LoopTop => m.bring.Top?
    case SleepOver => m.bring.Sleeping?
    case ReapOver => m.bring.Reaping?
    case GetHello => m.bring.AwaitHello? && AtConn(m) && m.conns[m.cur.value].outbox != []
    case LoseHello(_) => m.bring.AwaitHello? && AtConn(m)
    case GetReplay => m.bring.Repriming? && m.bring.conn < |m.conns| && m.conns[m.bring.conn].outbox != []
    case LoseReplay(_) => m.bring.Repriming? && m.bring.conn < |m.conns|
    case FatalReapOver => m.bring.FatalReap?
    case Operator(_) => (m.front.state.STARTING? ==> Reading(m)) && !(m.startup && m.bring.FatalReap?)
    case ChildGreets(k, msg) => k < |m.conns| && m.conns[k].alive && !m.conns[k].spoke && !msg.Answer?
    case ChildAnswers(k, resp) => k < |m.conns| && m.conns[k].alive && m.conns[k].serving && m.conns[k].inbox != []
                                  && (IsPrepare(m.conns[k].inbox[0].1) && resp.ok ==> resp.dump.Hit?)
    case ChildDies(k) => k < |m.conns|
  }

  predicate IsPrepare(command: Command) {
    command.cmd == "prepare"
  }

  // ---------------------------------------------------------------- pipes

  function SendOn(conn: Conn, xid: nat, command: Command): Conn {
    conn.(inbox := conn.inbox + [(xid, command)], sent := conn.sent + 1)
  }

  /** The reader takes the next answer off the pipe. */
  function ReadFrom(conn: Conn, prepare: bool): Conn
    requires conn.outbox != []
  {
    var msg := conn.outbox[0];
    conn.(outbox := conn.outbox[1..], read := conn.read + 1,
          told := if prepare && msg.Answer? && msg.resp.ok && msg.resp.dump.Hit? then msg.resp.dump else conn.told)
  }

  /** The child takes the next command and answers it. */
  function Served(conn: Conn, resp: Response): Conn
    requires conn.inbox != []
  {
    var (xid, command) := conn.inbox[0];
    conn.(inbox := conn.inbox[1..], outbox := conn.outbox + [Answer(xid, command, resp)],
          prepared := if IsPrepare(command) && resp.ok then resp.dump else conn.prepared)
  }

  function WithConn(m: Machine, k: nat, conn: Conn): Machine
    requires k < |m.conns|
  {
    m.(conns := m.conns[k := conn])
  }

  /** The current child, if any, is killed. */
  function Killed(m: Machine): Machine {
    if AtConn(m) then WithConn(m, m.cur.value, m.conns[m.cur.value].(alive := false)) else m
  }

  // ---------------------------------------------------------------- callers

  function Returned(m: Machine, c: nat, xid: nat, outcome: Outcome): Machine
    requires c in m.callers
  {
    m.(callers := m.callers[c := Done(m.callers[c].command, xid, outcome)], lock := Free)
  }

  /** Send on the current pipe and wait. */
  function Exchange(m: Machine, c: nat): Machine
    requires c in m.callers
  {
    if !AtConn(m) then Returned(m, c, 0, CoordinatorUnavailable) else
      var k, command := m.cur.value, m.callers[c].command;
      WithConn(m, k, SendOn(m.conns[k], m.next, command))
        .(callers := m.callers[c := InFlight(command, m.next, k)], lock := ByCaller(c), next := m.next + 1)
  }

  function AfterAcquire(m: Machine, c: nat): Machine
    requires c in m.callers
  {
    if m.front.state.READY? then Exchange(m, c)
    else if m.front.state.STARTING? then m.(callers := m.callers[c := Waiting(m.callers[c].command)], lock := ByCaller(c))
    else Returned(m, c, 0, CoordinatorUnavailable)
  }

  function AfterResume(m: Machine, c: nat, timedOut: bool): Machine
    requires c in m.callers
  {
    if timedOut || !m.front.state.READY? then Returned(m, c, 0, CoordinatorUnavailable) else Exchange(m, c)
  }

  function AfterReply(m: Machine, c: nat): Machine
    requires Enabled(m, GetReply(c))
  {
    var InFlight(command, xid, k) := m.callers[c];
    var msg := m.conns[k].outbox[0];
    var read := WithConn(m, k, ReadFrom(m.conns[k], IsPrepare(command)));
    var noted := if IsPrepare(command) && msg.Answer? && msg.resp.ok then NotePrepared(m.front, command, msg.resp) else m.front;
    Returned(read.(front := noted), c, xid, Answered(msg))
  }

  /** The restart task is created unless there is one. */
  function RestartFrom(m: Machine, front: Front): Machine {
    m.(front := StartRestart(front), bring := if front.restarting || front.state.STOPPING? then m.bring else WaitLock)
  }

  function AfterLoss(m: Machine, c: nat, reason: string): Machine
    requires Enabled(m, LoseReply(c, reason))
  {
    var InFlight(command, xid, k) := m.callers[c];
    var lost := WithConn(m, k, m.conns[k].(lost := true));
    Returned(RestartFrom(lost, NoteLoss(m.front, reason, Hit(command.cmd))), c, xid, CoordinatorLost)
  }

  // ---------------------------------------------------------------- bring-up

  /** The bring-up returns: the restart task, if it was that, releases the lock and is gone. */
  function Finished(m: Machine): Machine {
    m.(bring := Off, startup := false, lock := if m.startup then m.lock else Free,
       front := if m.startup then m.front else m.front.(restarting := false))
  }

  function AfterTop(m: Machine): Machine {
    if m.front.attempts >= m.front.max then Finished(m.(front := GiveUp(m.front)))
    else m.(front := Attempt(m.front), bring := Sleeping)
  }

  function AfterReap(m: Machine): Machine {
    m.(conns := m.conns + [NEWBORN], cur := Hit(|m.conns|), front := Spawned(m.front), bring := AwaitHello)
  }

  /** The first word is off the pipe. */
  function Heard(m: Machine): Machine
    requires Enabled(m, GetHello)
  {
    var k := m.cur.value;
    WithConn(m, k, m.conns[k].(outbox := m.conns[k].outbox[1..]))
  }

  function AfterFatal(m: Machine, error: string): Machine {
    Killed(m).(front := Misconfigured(m.front, error), cur := Missing, bring := FatalReap)
  }

  function AfterGreeting(m: Machine): Machine
    requires AtConn(m)
  {
    var k, front := m.cur.value, Greeted(m.front);
    match ReplayArgs(front)
    case Missing => Finished(m.(front := Usable(front), home := Hit(k)))
    case Hit(args) =>
      WithConn(m, k, SendOn(m.conns[k], m.next, args))
        .(front := Replaying(front), home := Hit(k), bring := Repriming(args, m.next, k), next := m.next + 1)
  }

  function AfterHello(m: Machine): Machine
    requires Enabled(m, GetHello)
  {
    match m.conns[m.cur.value].outbox[0]
    case FatalNotice(error) => AfterFatal(Heard(m), error)
    case Greeting => AfterGreeting(Heard(m))
    case Answer(_, _, _) => AfterLostHello(Heard(m), "expected hello")
  }

  function AfterLostHello(m: Machine, reason: string): Machine
    requires Enabled(m, LoseHello(reason))
  {
    WithConn(m, m.cur.value, m.conns[m.cur.value].(lost := true)).(front := NoteLoss(m.front, reason, m.front.provokedBy), bring := Top)
  }

  function AfterReplay(m: Machine): Machine
    requires Enabled(m, GetReplay)
  {
    var Repriming(args, _, k) := m.bring;
    var msg := m.conns[k].outbox[0];
    var read := WithConn(m, k, ReadFrom(m.conns[k], true));
    Finished(read.(front := Usable(Replayed(m.front, args, if msg.Answer? then msg.resp else Response(false, Missing, "")))))
  }

  function AfterLostReplay(m: Machine, reason: string): Machine
    requires Enabled(m, LoseReplay(reason))
  {
    WithConn(m, m.bring.conn, m.conns[m.bring.conn].(lost := true)).(front := NoteLoss(m.front, reason, Hit("prepare")), bring := Top)
  }

  function AfterOperator(m: Machine, reason: string): Machine {
    if m.front.state.DEGRADED? then
      RestartFrom(m, m.front.(attempts := 0, degradedReason := Missing, fatalReason := Missing))
    else if Reading(m) then Killed(m)
    else RestartFrom(Killed(m), NoteLoss(m.front, reason, Missing))
  }

  function Next(m: Machine, s: Step): Machine
    requires Enabled(m, s)
  {
    match s
    case Arrive(c, command) => m.(callers := m.callers[c := Queued(command)])
    case Acquire(c) => AfterAcquire(m, c)
    case Resume(c, timedOut) => AfterResume(m, c, timedOut)
    case GetReply(c) => AfterReply(m, c)
    case LoseReply(c, reason) => AfterLoss(m, c, reason)
    case RestartLocks => m.(lock := ByRestart, bring := Top)
    case LoopTop => AfterTop(m)
    case SleepOver => Killed(m).(cur := Missing, bring := Reaping)
    case ReapOver => AfterReap(m)
    case GetHello => AfterHello(m)
    case LoseHello(reason) => AfterLostHello(m, reason)
    case GetReplay => AfterReplay(m)
    case LoseReplay(reason) => AfterLostReplay(m, reason)
    case FatalReapOver => Finished(m.(front := Condemned(m.front)))
    case Operator(reason) => AfterOperator(m, reason)
    case ChildGreets(k, msg) => WithConn(m, k, m.conns[k].(spoke := true, serving := msg.Greeting?, outbox := m.conns[k].outbox + [msg]))
    case ChildAnswers(k, resp) => WithConn(m, k, Served(m.conns[k], resp))
    case ChildDies(k) => WithConn(m, k, m.conns[k].(alive := false))
  }

  // ---------------------------------------------------------------- who is doing what

  ghost predicate LockOk(m: Machine) {
    && (forall c :: c in m.callers && (m.callers[c].Waiting? || m.callers[c].InFlight?) ==> m.lock == ByCaller(c))
    && (m.lock.ByCaller? ==> m.lock.c in m.callers && (m.callers[m.lock.c].Waiting? || m.callers[m.lock.c].InFlight?))
    && (m.lock.ByRestart? <==> !m.startup && !m.bring.Off? && !m.bring.WaitLock?)
  }

  /** A caller in flight finds the front-end READY and no bring-up running. */
  ghost predicate FlightOk(m: Machine) {
    forall c :: c in m.callers && m.callers[c].InFlight? ==> m.front.state.READY? && m.bring.Off?
  }

  /** What state the front-end is in while each bring-up, or none, is running; the startup event is set
      exactly when none is. */
  ghost predicate StateOk(m: Machine) {
    && (m.front.restarting <==> !m.bring.Off? && !m.startup)
    && (m.front.ready <==> m.bring.Off?)
    && (m.startup ==> !m.bring.Off? && !m.bring.WaitLock?)
    && (m.front.state.READY? || m.bring.Repriming? ==> m.front.attempts == 0)
    && (if m.startup then m.front.state == if m.bring.FatalReap? then DEGRADED else STARTING
        else match m.bring
          case Off => m.front.state.READY? || m.front.state.DEGRADED? || m.front.state.RESTARTING?
          case FatalReap => m.front.state.DEGRADED? || m.front.state.RESTARTING?
          case _ => m.front.state.RESTARTING?)
  }

  ghost predicate Control(m: Machine) {
    LockOk(m) && FlightOk(m) && StateOk(m)
  }

  lemma {:induction false} CallersControl(m: Machine, s: Step)
    requires Control(m) && Enabled(m, s)
    requires s.Arrive? || s.Acquire? || s.Resume? || s.GetReply?
    ensures Control(Next(m, s))
  {
  }

  lemma {:induction false} LossControl(m: Machine, s: Step)
    requires Control(m) && Enabled(m, s) && s.LoseReply?
    ensures Control(Next(m, s))
  {
  }

  lemma {:induction false} BringControl(m: Machine, s: Step)
    requires Control(m) && Enabled(m, s)
    requires s.RestartLocks? || s.LoopTop? || s.SleepOver? || s.ReapOver?
    ensures Control(Next(m, s))
  {
  }

  lemma {:induction false} GreetControl(m: Machine, s: Step)
    requires Control(m) && Enabled(m, s) && s.GetHello?
    ensures Control(Next(m, s))
  {
    hide LockOk, FlightOk, StateOk, AfterGreeting, AfterFatal, AfterLostHello;
    HeardControl(m);
    match m.conns[m.cur.value].outbox[0] {
      case FatalNotice(error) => FatalControl(Heard(m), error);
      case Greeting => GreetingControl(Heard(m));
      case Answer(_, _, _) => LostControl(Heard(m), LoseHello("expected hello"));
    }
  }

  lemma {:induction false} HeardControl(m: Machine)
    requires Control(m) && Enabled(m, GetHello)
    ensures Control(Heard(m)) && Heard(m).bring == m.bring && AtConn(Heard(m))
  {
  }

  lemma {:induction false} FatalControl(m: Machine, error: string)
    requires Control(m) && m.bring.AwaitHello?
    ensures Control(AfterFatal(m, error))
  {
  }

  lemma {:induction false} GreetingControl(m: Machine)
    requires Control(m) && m.bring.AwaitHello? && AtConn(m)
    ensures Control(AfterGreeting(m))
  {
  }

  lemma {:induction false} ReplayControl(m: Machine, s: Step)
    requires Control(m) && Enabled(m, s) && s.GetReplay?
    ensures Control(Next(m, s))
  {
    hide ReadFrom;
  }

  lemma {:induction false} LostControl(m: Machine, s: Step)
    requires Control(m) && Enabled(m, s)
    requires s.LoseHello? || s.LoseReplay? || s.FatalReapOver?
    ensures Control(Next(m, s))
  {
  }

  lemma {:induction false} OperatorControl(m: Machine, s: Step)
    requires Control(m) && Enabled(m, s) && s.Operator?
    ensures Control(Next(m, s))
  {
  }

  lemma {:induction false} ChildControl(m: Machine, s: Step)
    requires Control(m) && Enabled(m, s)
    requires s.ChildGreets? || s.ChildAnswers? || s.ChildDies?
    ensures Control(Next(m, s))
  {
  }

  lemma {:induction false} NextControl(m: Machine, s: Step)
    requires Control(m) && Enabled(m, s)
    ensures Control(Next(m, s))
  {
    hide Control, Enabled, Next;
    match s {
      case Arrive(_, _) => CallersControl(m, s);
      case Acquire(_) => CallersControl(m, s);
      case Resume(_, _) => CallersControl(m, s);
      case GetReply(_) => CallersControl(m, s);
      case LoseReply(_, _) => LossControl(m, s);
      case RestartLocks => BringControl(m, s);
      case LoopTop => BringControl(m, s);
      case SleepOver => BringControl(m, s);
      case ReapOver => BringControl(m, s);
      case GetHello => GreetControl(m, s);
      case LoseHello(_) => LostControl(m, s);
      case GetReplay => ReplayControl(m, s);
      case LoseReplay(_) => LostControl(m, s);
      case FatalReapOver => LostControl(m, s);
      case Operator(_) => OperatorControl(m, s);
      case ChildGreets(_, _) => ChildControl(m, s);
      case ChildAnswers(_, _) => ChildControl(m, s);
      case ChildDies(_) => ChildControl(m, s);
    }
  }

  // ---------------------------------------------------------------- what is on the pipes

  /** Nothing owed in either direction. */
  ghost predicate Quiet(conn: Conn) {
    conn.sent == conn.read && conn.inbox == [] && conn.outbox == []
  }

  /** One command out, and nothing on the pipe but it or its answer. */
  ghost predicate OneOut(conn: Conn, xid: nat, command: Command) {
    && conn.sent == conn.read + 1
    && if conn.outbox == [] then conn.inbox == [(xid, command)]
       else conn.inbox == [] && |conn.outbox| == 1
            && conn.outbox[0].Answer? && conn.outbox[0].xid == xid && conn.outbox[0].command == command
  }

  /** A new child: at most its first word on the pipe. */
  ghost predicate Unheard(conn: Conn) {
    && conn.sent == conn.read == 0 && conn.inbox == []
    && if conn.outbox == [] then !conn.spoke && !conn.serving
       else conn.spoke && |conn.outbox| == 1 && !conn.outbox[0].Answer? && conn.serving == conn.outbox[0].Greeting?
  }

  ghost predicate Tally(conns: seq<Conn>) {
    forall k :: 0 <= k < |conns| ==> conns[k].read <= conns[k].sent <= conns[k].read + 1
  }

  predicate Flying(m: Machine) {
    m.lock.ByCaller? && m.lock.c in m.callers && m.callers[m.lock.c].InFlight?
  }

  /** The child in use has greeted in this generation and lost nothing. */
  ghost predicate InUse(m: Machine) {
    AtConn(m) && m.home == m.cur && m.conns[m.cur.value].spoke && !m.conns[m.cur.value].lost
  }

  ghost predicate FlightWire(m: Machine) {
    Flying(m) ==>
      var f := m.callers[m.lock.c];
      AtConn(m) && f.conn == m.cur.value && OneOut(m.conns[f.conn], f.xid, f.command)
  }

  ghost predicate BringWire(m: Machine) {
    && (m.bring.AwaitHello? ==> AtConn(m) && Unheard(m.conns[m.cur.value]) && !m.conns[m.cur.value].lost && m.home != m.cur)
    && (m.bring.Repriming? ==> InUse(m) && m.bring.conn == m.cur.value && OneOut(m.conns[m.cur.value], m.bring.xid, m.bring.args))
  }

  ghost predicate Wire(m: Machine) {
    && (m.cur.Hit? ==> AtConn(m))
    && (m.home.Hit? ==> m.home.value < |m.conns|)
    && Tally(m.conns)
    && BringWire(m)
    && FlightWire(m)
    && (m.front.state.READY? ==> InUse(m) && (!Flying(m) ==> Quiet(m.conns[m.cur.value])))
  }

  lemma {:induction false} ArriveWire(m: Machine, s: Step)
    requires Control(m) && Wire(m) && Enabled(m, s) && s.Arrive?
    ensures Wire(Next(m, s))
  {
  }

  lemma {:induction false} ExchangeWire(m: Machine, c: nat)
    requires Wire(m) && m.front.state.READY? && m.bring.Off? && !Flying(m) && c in m.callers
    ensures Wire(Exchange(m, c))
  {
  }

  lemma {:induction false} AcquireWire(m: Machine, s: Step)
    requires Control(m) && Wire(m) && Enabled(m, s) && s.Acquire?
    ensures Wire(Next(m, s))
  {
    hide Exchange, Tally, Unheard, OneOut, Quiet;
    if m.front.state.READY? {
      ExchangeWire(m, s.c);
    }
  }

  lemma {:induction false} ResumeWire(m: Machine, s: Step)
    requires Control(m) && Wire(m) && Enabled(m, s) && s.Resume?
    ensures Wire(Next(m, s))
  {
    hide Exchange, Tally, Unheard, OneOut, Quiet;
    if m.front.state.READY? {
      ExchangeWire(m, s.c);
    }
  }

  lemma {:induction false} ReplyWire(m: Machine, s: Step)
    requires Control(m) && Wire(m) && Enabled(m, s) && s.GetReply?
    ensures Wire(Next(m, s))
  {
  }

  lemma {:induction false} LossWire(m: Machine, s: Step)
    requires Control(m) && Wire(m) && Enabled(m, s) && s.LoseReply?
    ensures Wire(Next(m, s))
  {
  }

  lemma {:induction false} TopWire(m: Machine, s: Step)
    requires Control(m) && Wire(m) && Enabled(m, s)
    requires s.RestartLocks? || s.LoopTop? || s.SleepOver?
    ensures Wire(Next(m, s))
  {
  }

  lemma {:induction false} ReapWire(m: Machine, s: Step)
    requires Control(m) && Wire(m) && Enabled(m, s) && s.ReapOver?
    ensures Wire(Next(m, s))
  {
  }

  lemma {:induction false} FatalWire(m: Machine, error: string)
    requires Control(m) && Wire(m) && Enabled(m, GetHello)
    ensures Wire(AfterFatal(Heard(m), error))
  {
  }

  lemma {:induction false} GreetingWire(m: Machine)
    requires Control(m) && Wire(m) && Enabled(m, GetHello) && m.conns[m.cur.value].outbox[0].Greeting?
    ensures Wire(AfterGreeting(Heard(m)))
  {
    hide StateOk;
    NotStarted(m);
  }

  lemma {:induction false} NotStarted(m: Machine)
    requires Control(m) && !m.bring.Off?
    ensures !m.front.state.READY? && !Flying(m)
  {
  }

  lemma {:induction false} HelloWire(m: Machine, s: Step)
    requires Control(m) && Wire(m) && Enabled(m, s) && s.GetHello?
    ensures Wire(Next(m, s))
  {
    hide Control, Heard, AfterGreeting, AfterFatal, AfterLostHello, Tally, FlightWire, OneOut;
    match m.conns[m.cur.value].outbox[0] {
      case FatalNotice(error) => FatalWire(m, error);
      case Greeting => GreetingWire(m);
      case Answer(_, _, _) =>
    }
  }

  lemma {:induction false} ReplayWire(m: Machine, s: Step)
    requires Control(m) && Wire(m) && Enabled(m, s) && s.GetReplay?
    ensures Wire(Next(m, s))
  {
  }

  lemma {:induction false} LostWire(m: Machine, s: Step)
    requires Control(m) && Wire(m) && Enabled(m, s)
    requires s.LoseHello? || s.LoseReplay? || s.FatalReapOver?
    ensures Wire(Next(m, s))
  {
  }

  lemma {:induction false} KilledWire(m: Machine)
    requires Wire(m)
    ensures Wire(Killed(m)) && Flying(Killed(m)) == Flying(m) && Killed(m).front == m.front
  {
  }

  lemma {:induction false} RestartFromWire(m: Machine, front: Front)
    requires Wire(m) && !Reading(m) && !front.state.STOPPING?
    ensures Wire(RestartFrom(m, front))
  {
    hide Tally, Unheard, OneOut, Quiet;
  }

  lemma {:induction false} DegradedIdle(m: Machine)
    requires Control(m)
    ensures m.front.state.DEGRADED? ==> !Reading(m)
    ensures !m.front.state.STOPPING?
  {
  }

  lemma {:induction false} OperatorWire(m: Machine, s: Step)
    requires Control(m) && Wire(m) && Enabled(m, s) && s.Operator?
    ensures Wire(Next(m, s))
  {
    hide Wire, Control, RestartFrom, Killed, Reading;
    DegradedIdle(m);
    KilledWire(m);
    if m.front.state.DEGRADED? {
      RestartFromWire(m, m.front.(attempts := 0, degradedReason := Missing, fatalReason := Missing));
    } else if !Reading(m) {
      KilledIdle(m);
      RestartFromWire(Killed(m), NoteLoss(m.front, s.reason, Missing));
    }
  }

  lemma {:induction false} KilledIdle(m: Machine)
    ensures Reading(Killed(m)) == Reading(m)
  {
  }

  lemma {:induction false} ChildWire(m: Machine, s: Step)
    requires Control(m) && Wire(m) && Enabled(m, s)
    requires s.ChildGreets? || s.ChildAnswers? || s.ChildDies?
    ensures Wire(Next(m, s))
  {
  }

  lemma {:induction false} NextWire(m: Machine, s: Step)
    requires Control(m) && Wire(m) && Enabled(m, s)
    ensures Wire(Next(m, s))
  {
    hide Control, Wire, Enabled, Next;
    match s {
      case Arrive(_, _) => ArriveWire(m, s);
      case Acquire(_) => AcquireWire(m, s);
      case Resume(_, _) => ResumeWire(m, s);
      case GetReply(_) => ReplyWire(m, s);
      case LoseReply(_, _) => LossWire(m, s);
      case RestartLocks => TopWire(m, s);
      case LoopTop => TopWire(m, s);
      case SleepOver => TopWire(m, s);
      case ReapOver => ReapWire(m, s);
      case GetHello => HelloWire(m, s);
      case LoseHello(_) => LostWire(m, s);
      case GetReplay => ReplayWire(m, s);
      case LoseReplay(_) => LostWire(m, s);
      case FatalReapOver => LostWire(m, s);
      case Operator(_) => OperatorWire(m, s);
      case ChildGreets(_, _) => ChildWire(m, s);
      case ChildAnswers(_, _) => ChildWire(m, s);
      case ChildDies(_) => ChildWire(m, s);
    }
  }

  // ---------------------------------------------------------------- what the snapshot says

  /** What the child has prepared while one command is out: that command's own dump if it was a prepare
      that succeeded. */
  ghost predicate PreparedAs(conn: Conn, command: Command, before: Found<string>) {
    if conn.outbox == [] then conn.prepared == before
    else
      && conn.outbox[0].Answer?
      && (IsPrepare(command) && conn.outbox[0].resp.ok ==> conn.outbox[0].resp.dump.Hit? && conn.prepared == conn.outbox[0].resp.dump)
      && (!(IsPrepare(command) && conn.outbox[0].resp.ok) ==> conn.prepared == before)
  }

  ghost predicate FrontOk(f: Front) {
    && (f.snapshot.Hit? ==> f.snapshot.value.generation <= f.generation)
    && (f.primed.Hit? ==> IsPrepare(f.primed.value))
  }

  ghost predicate Truth(m: Machine) {
    && FrontOk(m.front)
    && (m.home.Hit? ==> m.home.value < |m.conns| && m.conns[m.home.value].told == Shown(m.front))
    && (m.bring.AwaitHello? && AtConn(m) ==> m.conns[m.cur.value].prepared.Missing? && m.conns[m.cur.value].told.Missing?)
    && (m.bring.Repriming? && AtConn(m) ==>
          && IsPrepare(m.bring.args) && Shown(m.front).Missing?
          && PreparedAs(m.conns[m.cur.value], m.bring.args, Missing))
    && (m.front.state.READY? && AtConn(m) ==>
          if Flying(m) then PreparedAs(m.conns[m.cur.value], m.callers[m.lock.c].command, Shown(m.front))
          else m.conns[m.cur.value].prepared == Shown(m.front))
  }

  ghost predicate Inv(m: Machine) {
    Control(m) && Wire(m) && Truth(m)
  }

  lemma {:induction false} CallerTruth(m: Machine, s: Step)
    requires Inv(m) && Enabled(m, s)
    requires s.Arrive? || s.Acquire? || s.Resume?
    ensures Truth(Next(m, s))
  {
    hide Tally, Unheard, BringWire;
  }

  lemma {:induction false} ReplyTruth(m: Machine, s: Step)
    requires Inv(m) && Enabled(m, s) && s.GetReply?
    ensures Truth(Next(m, s))
  {
    hide Tally, Unheard, BringWire, LockOk;
    NotLoop(m, s.c);
  }

  /** The caller in flight is the one holding the lock, with no bring-up running. */
  lemma {:induction false} NotLoop(m: Machine, c: nat)
    requires Control(m) && Wire(m) && c in m.callers && m.callers[c].InFlight?
    ensures m.bring.Off? && m.front.state.READY? && Flying(m) && m.lock == ByCaller(c)
    ensures m.cur == Hit(m.callers[c].conn) && AtConn(m) && m.home == m.cur && !m.conns[m.cur.value].lost
    ensures OneOut(m.conns[m.cur.value], m.callers[c].xid, m.callers[c].command)
  {
    hide Tally, Unheard, BringWire, OneOut, Quiet;
  }

  lemma {:induction false} LossTruth(m: Machine, s: Step)
    requires Inv(m) && Enabled(m, s) && s.LoseReply?
    ensures Truth(Next(m, s))
  {
    hide Tally, Unheard, BringWire, OneOut, Quiet, PreparedAs;
    NotLoop(m, s.c);
  }

  lemma {:induction false} KilledTruth(m: Machine)
    requires Truth(m)
    ensures Truth(Killed(m))
  {
    hide FrontOk, Shown, IsPrepare;
  }

  ghost predicate SameTruths(a: Front, b: Front) {
    a.snapshot == b.snapshot && a.primed == b.primed && a.generation == b.generation
  }

  /** Between exchanges only the home child's record matters. */
  lemma {:induction false} IdleTruth(m: Machine, v: Machine)
    requires Truth(m) && v.conns == m.conns && v.home == m.home && SameTruths(v.front, m.front)
    requires !v.bring.AwaitHello? && !v.bring.Repriming? && !v.front.state.READY?
    ensures Truth(v)
  {
    hide PreparedAs;
  }

  lemma {:induction false} TopTruth(m: Machine, s: Step)
    requires Inv(m) && Enabled(m, s)
    requires s.RestartLocks? || s.LoopTop?
    ensures Truth(Next(m, s))
  {
    hide LockOk, FlightOk, Wire, Truth;
    IdleTruth(m, Next(m, s));
  }

  lemma {:induction false} SleepTruth(m: Machine, s: Step)
    requires Inv(m) && Enabled(m, s) && s.SleepOver?
    ensures Truth(Next(m, s))
  {
    hide Wire, Truth, Killed;
    KilledTruth(m);
    NotStarted(m);
    KilledFront(m);
    IdleTruth(Killed(m), Next(m, s));
  }

  lemma {:induction false} KilledFront(m: Machine)
    ensures Killed(m).front == m.front && Killed(m).bring == m.bring && Killed(m).home == m.home
    ensures Killed(m).startup == m.startup
  {
  }

  lemma {:induction false} ReapTruth(m: Machine, s: Step)
    requires Inv(m) && Enabled(m, s) && s.ReapOver?
    ensures Truth(Next(m, s))
  {
    hide Tally, BringWire, FlightWire, LockOk, PreparedAs;
    NotStarted(m);
  }

  lemma {:induction false} FatalTruth(m: Machine, error: string)
    requires Inv(m) && Enabled(m, GetHello)
    ensures Truth(AfterFatal(Heard(m), error))
  {
    hide Wire, Control, PreparedAs;
    WireHello(m);
  }

  lemma {:induction false} WireHello(m: Machine)
    requires Wire(m) && m.bring.AwaitHello?
    ensures AtConn(m) && m.home != m.cur && Unheard(m.conns[m.cur.value])
    ensures m.home.Hit? ==> m.home.value < |m.conns|
  {
  }

  /** A child that has said nothing but its first word, which has been heard. */
  ghost predicate Newcomer(m: Machine) {
    && AtConn(m) && !m.front.state.READY? && !Flying(m) && FrontOk(m.front)
    && m.conns[m.cur.value].prepared.Missing? && m.conns[m.cur.value].told.Missing? && m.conns[m.cur.value].outbox == []
  }

  lemma {:induction false} HeardNewcomer(m: Machine)
    requires Inv(m) && Enabled(m, GetHello)
    ensures Newcomer(Heard(m))
  {
    hide Wire, Control, FrontOk;
    WireHello(m);
    NotStarted(m);
  }

  /** A new generation starts with nothing vouched for. */
  lemma {:induction false} GreetedShown(f: Front)
    requires FrontOk(f)
    ensures FrontOk(Greeted(f)) && Shown(Greeted(f)).Missing?
  {
  }

  lemma {:induction false} NewcomerTruth(m: Machine)
    requires Newcomer(m)
    ensures Truth(AfterGreeting(m))
  {
    hide PreparedAs, FrontOk, Greeted, Shown;
    GreetedShown(m.front);
    UsableShown(Greeted(m.front));
    NothingPrepared(m.conns[m.cur.value], m.next);
  }

  lemma {:induction false} UsableShown(f: Front)
    ensures Shown(Usable(f)) == Shown(f) == Shown(Usable(f).(restarting := false)) == Shown(Replaying(f))
    ensures FrontOk(f) ==> FrontOk(Usable(f)) && FrontOk(Usable(f).(restarting := false)) && FrontOk(Replaying(f))
  {
  }

  lemma {:induction false} NothingPrepared(conn: Conn, xid: nat)
    requires conn.outbox == []
    ensures forall command :: PreparedAs(SendOn(conn, xid, command), command, conn.prepared)
  {
  }

  lemma {:induction false} GreetingTruth(m: Machine)
    requires Inv(m) && Enabled(m, GetHello)
    ensures Truth(AfterGreeting(Heard(m)))
  {
    hide Inv, Truth, AfterGreeting, Newcomer, Heard;
    HeardNewcomer(m);
    NewcomerTruth(Heard(m));
  }

  lemma {:induction false} HelloTruth(m: Machine, s: Step)
    requires Inv(m) && Enabled(m, s) && s.GetHello?
    ensures Truth(Next(m, s))
  {
    hide Control, Truth, FlightWire, Tally, OneOut, Heard, AfterGreeting, AfterFatal, AfterLostHello;
    match m.conns[m.cur.value].outbox[0] {
      case FatalNotice(error) => FatalTruth(m, error);
      case Greeting => GreetingTruth(m);
      case Answer(_, _, _) =>
    }
  }

  lemma {:induction false} ReplayTruth(m: Machine, s: Step)
    requires Inv(m) && Enabled(m, s) && s.GetReplay?
    ensures Truth(Next(m, s))
  {
    hide Tally, Unheard, Quiet, LockOk;
    NotStarted(m);
  }

  lemma {:induction false} LostTruth(m: Machine, s: Step)
    requires Inv(m) && Enabled(m, s)
    requires s.LoseHello? || s.LoseReplay? || s.FatalReapOver?
    ensures Truth(Next(m, s))
  {
    hide Tally, Unheard, OneOut, Quiet, PreparedAs, LockOk;
    NotStarted(m);
  }

  lemma {:induction false} RestartFromTruth(m: Machine, front: Front)
    requires Truth(m) && !Reading(m) && !front.state.STOPPING? && SameTruths(front, m.front)
    ensures Truth(RestartFrom(m, front))
  {
    hide Truth;
    IdleTruth(m, RestartFrom(m, front));
  }

  lemma {:induction false} OperatorTruth(m: Machine, s: Step)
    requires Inv(m) && Enabled(m, s) && s.Operator?
    ensures Truth(Next(m, s))
  {
    hide Wire, Truth, Control, RestartFrom, Killed, Reading;
    DegradedIdle(m);
    KilledTruth(m);
    KilledFront(m);
    if m.front.state.DEGRADED? {
      RestartFromTruth(m, m.front.(attempts := 0, degradedReason := Missing, fatalReason := Missing));
    } else if !Reading(m) {
      KilledIdle(m);
      RestartFromTruth(Killed(m), NoteLoss(m.front, s.reason, Missing));
    }
  }

  lemma {:induction false} ChildTruth(m: Machine, s: Step)
    requires Inv(m) && Enabled(m, s)
    requires s.ChildGreets? || s.ChildAnswers? || s.ChildDies?
    ensures Truth(Next(m, s))
  {
    hide Tally, LockOk;
  }

  lemma {:induction false} NextTruth(m: Machine, s: Step)
    requires Inv(m) && Enabled(m, s)
    ensures Truth(Next(m, s))
  {
    hide Inv, Truth, Enabled, Next;
    match s {
      case Arrive(_, _) => CallerTruth(m, s);
      case Acquire(_) => CallerTruth(m, s);
      case Resume(_, _) => CallerTruth(m, s);
      case GetReply(_) => ReplyTruth(m, s);
      case LoseReply(_, _) => LossTruth(m, s);
      case RestartLocks => TopTruth(m, s);
      case LoopTop => TopTruth(m, s);
      case SleepOver => SleepTruth(m, s);
      case ReapOver => ReapTruth(m, s);
      case GetHello => HelloTruth(m, s);
      case LoseHello(_) => LostTruth(m, s);
      case GetReplay => ReplayTruth(m, s);
      case LoseReplay(_) => LostTruth(m, s);
      case FatalReapOver => LostTruth(m, s);
      case Operator(_) => OperatorTruth(m, s);
      case ChildGreets(_, _) => ChildTruth(m, s);
      case ChildAnswers(_, _) => ChildTruth(m, s);
      case ChildDies(_) => ChildTruth(m, s);
    }
  }

  lemma {:induction false} StartInv(max: nat, handler: bool)
    ensures Inv(Start(max, handler))
  {
  }

  lemma {:induction false} NextInv(m: Machine, s: Step)
    requires Inv(m) && Enabled(m, s)
    ensures Inv(Next(m, s))
  {
    hide Control, Wire, Truth, Enabled, Next;
    NextControl(m, s);
    NextWire(m, s);
    NextTruth(m, s);
  }

  ghost predicate Reaches(m: Machine, steps: seq<Step>, end: Machine)
    decreases |steps|
  {
    if steps == [] then m == end
    else Enabled(m, steps[0]) && Reaches(Next(m, steps[0]), steps[1..], end)
  }

  ghost predicate Reachable(max: nat, handler: bool, steps: seq<Step>, m: Machine) {
    Reaches(Start(max, handler), steps, m)
  }

  lemma {:induction false} ReachesInv(m: Machine, steps: seq<Step>, end: Machine)
    requires Inv(m) && Reaches(m, steps, end)
    ensures Inv(end)
    decreases |steps|
  {
    hide Inv, Enabled, Next;
    if steps != [] {
      NextInv(m, steps[0]);
      ReachesInv(Next(m, steps[0]), steps[1..], end);
    }
  }

  lemma {:induction false} ReachableInv(max: nat, handler: bool, steps: seq<Step>, m: Machine)
    requires Reachable(max, handler, steps, m)
    ensures Inv(m)
  {
    StartInv(max, handler);
    ReachesInv(Start(max, handler), steps, m);
  }
}
