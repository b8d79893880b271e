/** What callers are told, what new children are sent and which children live, against a history kept from the
    messages alone. */
module CoordHistory {
  import opened Lru
  import opened Coord
  import opened CoordProtocol
  import opened CoordTheorems

  // ---------------------------------------------------------------- what becomes of a caller

  /** The caller has its command on the current pipe, alone. */
  ghost predicate Sent(m: Machine, v: Machine, c: nat, command: Command) {
    && AtConn(m) && |v.conns| == |m.conns| && c in v.callers
    && v.callers[c] == InFlight(command, m.next, m.cur.value)
    && v.conns[m.cur.value].inbox == [(m.next, command)] && v.conns[m.cur.value].outbox == []
    && v.next == m.next + 1
  }

  ghost predicate Refused(v: Machine, c: nat, command: Command) {
    c in v.callers && v.callers[c].Done? && v.callers[c].command == command && v.callers[c].outcome == CoordinatorUnavailable
  }

  /** What one step makes of caller `c`: admitted or refused by the state it finds, given the answer to its own
      command, told of its loss, and otherwise left as it is. */
  ghost predicate CallerGoes(m: Machine, s: Step, v: Machine, c: nat)
    requires Enabled(m, s)
  {
    if s.Arrive? && s.c == c then c in v.callers && v.callers[c] == Queued(s.command)
    else if s.Acquire? && s.c == c then
      var command := m.callers[c].command;
      if m.front.state.READY? then Sent(m, v, c, command)
      else if m.front.state.STARTING? then c in v.callers && v.callers[c] == Waiting(command)
      else Refused(v, c, command)
    else if s.Resume? && s.c == c then
      if m.front.state.READY? && !s.timedOut then Sent(m, v, c, m.callers[c].command) else Refused(v, c, m.callers[c].command)
    else if s.GetReply? && s.c == c then
      var InFlight(command, xid, k) := m.callers[c];
      && m.cur == Hit(k) && !m.conns[k].lost && |m.conns[k].outbox| == 1
      && m.conns[k].outbox[0].Answer? && m.conns[k].outbox[0].xid == xid && m.conns[k].outbox[0].command == command
      && c in v.callers && v.callers[c] == Done(command, xid, Answered(m.conns[k].outbox[0]))
    else if s.LoseReply? && s.c == c then
      var InFlight(command, xid, k) := m.callers[c];
      && c in v.callers && v.callers[c] == Done(command, xid, CoordinatorLost)
      && k < |v.conns| && v.conns[k].lost && v.front.state.RESTARTING? && v.front.restarting
    else (c in v.callers <==> c in m.callers) && (c in m.callers ==> v.callers[c] == m.callers[c])
  }

  lemma {:induction false} SendGoes(m: Machine, c: nat)
    requires Wire(m) && m.front.state.READY? && !Flying(m) && c in m.callers
    ensures Sent(m, Exchange(m, c), c, m.callers[c].command)
    ensures forall d :: d != c ==> (d in Exchange(m, c).callers <==> d in m.callers)
    ensures forall d :: d != c && d in m.callers ==> Exchange(m, c).callers[d] == m.callers[d]
  {
    hide Tally, BringWire, FlightWire;
  }

  lemma {:induction false} AcquireGoes(m: Machine, s: Step, c: nat)
    requires Inv(m) && Enabled(m, s) && (s.Acquire? || s.Resume?)
    ensures CallerGoes(m, s, Next(m, s), c)
  {
    hide Wire, Control, Truth, Exchange, Sent;
    if m.front.state.READY? {
      SendGoes(m, s.c);
    }
  }

  lemma {:induction false} ReplyGoes(m: Machine, s: Step, c: nat)
    requires Inv(m) && Enabled(m, s) && (s.GetReply? || s.LoseReply?)
    ensures CallerGoes(m, s, Next(m, s), c)
  {
    hide Wire, Control, Truth, NotePrepared, ReadFrom;
    InFlightOut(m, s.c);
    if s.LoseReply? {
      LossRestarts(m, s);
    }
  }

  lemma {:induction false} LossRestarts(m: Machine, s: Step)
    requires Inv(m) && Enabled(m, s) && s.LoseReply?
    ensures Next(m, s).front.state.RESTARTING? && Next(m, s).front.restarting
  {
    hide Wire, Truth, LockOk;
  }

  lemma {:induction false} OtherGoes(m: Machine, s: Step, c: nat)
    requires Enabled(m, s) && !s.Acquire? && !s.Resume? && !s.GetReply? && !s.LoseReply?
    ensures CallerGoes(m, s, Next(m, s), c)
  {
    hide Heard, AfterGreeting, Killed, Reading;
    KilledCallers(m);
    if s.GetHello? {
      HeardCallers(m);
      KilledCallers(Heard(m));
      GreetingCallers(Heard(m));
    }
  }

  lemma {:induction false} KilledCallers(m: Machine)
    ensures Killed(m).callers == m.callers
  {
  }

  lemma {:induction false} HeardCallers(m: Machine)
    requires Enabled(m, GetHello)
    ensures Heard(m).callers == m.callers && AtConn(Heard(m))
  {
  }

  lemma {:induction false} GreetingCallers(m: Machine)
    requires AtConn(m)
    ensures AfterGreeting(m).callers == m.callers
  {
  }

  /** At every step of every run, for every caller. */
  lemma {:induction false} EveryCallerGoes(max: nat, handler: bool, steps: seq<Step>, m: Machine, s: Step, c: nat)
    requires Reachable(max, handler, steps, m) && Enabled(m, s)
    ensures CallerGoes(m, s, Next(m, s), c)
  {
    hide Inv, CallerGoes, Next, Reachable;
    ReachableInv(max, handler, steps, m);
    match s {
      case Acquire(_) => AcquireGoes(m, s, c);
      case Resume(_, _) => AcquireGoes(m, s, c);
      case GetReply(_) => ReplyGoes(m, s, c);
      case LoseReply(_, _) => ReplyGoes(m, s, c);
      case _ => OtherGoes(m, s, c);
    }
  }

  // ---------------------------------------------------------------- a history of the messages

  /** The last prepare known to have succeeded on a child, with a refused replay forgetting it; the command
      whose loss the next child is to be spared; and every answer a child has given. */
  datatype Past = Past(lastGood: Found<Command>, blame: Found<string>, answers: set<Msg>)

  const NOTHING: Past := Past(Missing, Missing, {})

  predicate Granted(msg: Msg) {
    msg.Answer? && msg.resp.ok
  }

  /** Kept from the steps and the messages they read, and nothing the front-end records. */
  function Remember(p: Past, m: Machine, s: Step): Past
    requires Enabled(m, s)
  {
    match s
    case GetReply(c) =>
      var InFlight(command, _, k) := m.callers[c];
      if IsPrepare(command) && Granted(m.conns[k].outbox[0]) then p.(lastGood := Hit(command)) else p
    case LoseReply(c, _) => p.(blame := Hit(m.callers[c].command.cmd))
    case GetHello =>
      if m.conns[m.cur.value].outbox[0].Greeting? && Due(p).Missing? then p.(blame := Missing) else p
    case GetReplay =>
      p.(blame := Missing, lastGood := if Granted(m.conns[m.bring.conn].outbox[0]) then Hit(m.bring.args) else Missing)
    case LoseReplay(_) => p.(blame := Hit("prepare"))
    case Operator(_) => if !m.front.state.DEGRADED? && !Reading(m) then p.(blame := Missing) else p
    case ChildAnswers(k, resp) => p.(answers := p.answers + {Answer(m.conns[k].inbox[0].0, m.conns[k].inbox[0].1, resp)})
    case _ => p
  }

  /** What the next child is due: the last good prepare, unless a prepare was to blame for the last loss. */
  function Due(p: Past): Found<Command> {
    if p.blame == Hit("prepare") then Missing else p.lastGood
  }

  /** The front-end's record agrees with the history: what it would replay, what it blames, and which command
      the snapshot it vouches for came from. */
  ghost predicate Records(f: Front, p: Past) {
    && f.primed == p.lastGood && f.provokedBy == p.blame
    && (f.snapshot.Hit? && !Stale(f) ==> p.lastGood == Hit(f.snapshot.value.command))
  }

  /** Every answer on a pipe, or returned to a caller, is one a child gave, and a caller's is to its own
      command. */
  ghost predicate Answers(m: Machine, p: Past) {
    && PipeAnswers(m.conns, p.answers)
    && (forall c :: c in m.callers && m.callers[c].Done? && m.callers[c].outcome.Answered? ==> OwnReply(m.callers[c], p))
  }

  ghost predicate OwnReply(caller: Caller, p: Past)
    requires caller.Done? && caller.outcome.Answered?
  {
    var msg := caller.outcome.msg;
    msg in p.answers && msg.Answer? && msg.xid == caller.xid && msg.command == caller.command
  }

  // ---------------------------------------------------------------- the record agrees

  /** Everything the record is about. */
  ghost predicate SameRecord(f: Front, g: Front) {
    f.primed == g.primed && f.provokedBy == g.provokedBy && f.snapshot == g.snapshot && f.generation == g.generation
  }

  lemma {:induction false} SameRecords(f: Front, g: Front, p: Past)
    requires Records(f, p) && SameRecord(f, g)
    ensures Records(g, p)
  {
  }

  lemma {:induction false} WaitRecords(m: Machine, p: Past, s: Step)
    requires Records(m.front, p) && Enabled(m, s) && (s.Arrive? || s.Acquire? || s.Resume? || s.RestartLocks?)
    ensures Records(Next(m, s).front, Remember(p, m, s))
  {
    hide Records;
  }

  lemma {:induction false} IdleRecords(m: Machine, p: Past, s: Step)
    requires Records(m.front, p) && Enabled(m, s)
    requires s.SleepOver? || s.ReapOver? || s.FatalReapOver?
    ensures Records(Next(m, s).front, Remember(p, m, s))
  {
    hide Records, Killed;
    KilledFront(m);
    SameRecords(m.front, Next(m, s).front, p);
  }

  lemma {:induction false} TopRecords(m: Machine, p: Past, s: Step)
    requires Records(m.front, p) && Enabled(m, s) && s.LoopTop?
    ensures Records(Next(m, s).front, Remember(p, m, s))
  {
    hide Records;
    SameRecords(m.front, Next(m, s).front, p);
  }

  lemma {:induction false} LossRecords(m: Machine, p: Past, s: Step)
    requires Records(m.front, p) && Enabled(m, s) && (s.LoseReply? || s.LoseReplay?)
    ensures Records(Next(m, s).front, Remember(p, m, s))
  {
  }

  lemma {:induction false} LostHelloRecords(m: Machine, p: Past, reason: string)
    requires Records(m.front, p) && Enabled(m, LoseHello(reason))
    ensures Records(AfterLostHello(m, reason).front, p)
  {
  }

  lemma {:induction false} RecordsBlameless(f: Front, p: Past, reason: string)
    requires Records(f, p)
    ensures Records(StartRestart(NoteLoss(f, reason, Missing)), p.(blame := Missing))
  {
  }

  lemma {:induction false} OperatorRecords(m: Machine, p: Past, s: Step)
    requires Records(m.front, p) && Enabled(m, s) && s.Operator?
    ensures Records(Next(m, s).front, Remember(p, m, s))
  {
    hide Killed, Reading, Records;
    KilledFront(m);
    RecordsBlameless(m.front, p, s.reason);
    if m.front.state.DEGRADED? {
      SameRecords(m.front, Next(m, s).front, p);
    }
  }

  lemma {:induction false} ReplyRecords(m: Machine, p: Past, s: Step)
    requires Inv(m) && Records(m.front, p) && Enabled(m, s) && s.GetReply?
    ensures Records(Next(m, s).front, Remember(p, m, s))
  {
    hide Wire, Control, Tally, Truth;
    InFlightOut(m, s.c);
    DumpGiven(m, s.c);
  }

  lemma {:induction false} DumpGiven(m: Machine, c: nat)
    requires Inv(m) && c in m.callers && m.callers[c].InFlight? && m.cur == Hit(m.callers[c].conn) && AtConn(m)
    requires m.conns[m.cur.value].outbox != []
    ensures Granted(m.conns[m.cur.value].outbox[0]) && IsPrepare(m.callers[c].command) ==>
              m.conns[m.cur.value].outbox[0].resp.dump.Hit?
  {
    hide Wire, LockOk;
    NotLoop(m, c);
  }

  lemma {:induction false} RecordsGreeted(f: Front, p: Past)
    requires FrontOk(f) && Records(f, p)
    ensures Records(Greeted(f), p) && Records(Replaying(Greeted(f)), p)
    ensures ReplayArgs(Greeted(f)) == Due(p)
  {
  }

  lemma {:induction false} RecordsUsable(f: Front, p: Past)
    requires Records(f, p)
    ensures Records(Usable(f), p.(blame := Missing)) && Records(Usable(f).(restarting := false), p.(blame := Missing))
  {
  }

  lemma {:induction false} GreetingRecords(m: Machine, p: Past)
    requires AtConn(m) && FrontOk(m.front) && Records(m.front, p)
    ensures Records(AfterGreeting(m).front, if Due(p).Missing? then p.(blame := Missing) else p)
  {
    hide Records, FrontOk, Greeted, Due;
    RecordsGreeted(m.front, p);
    RecordsUsable(Greeted(m.front), p);
  }

  lemma {:induction false} HelloRecords(m: Machine, p: Past, s: Step)
    requires Inv(m) && Records(m.front, p) && Enabled(m, s) && s.GetHello?
    ensures Records(Next(m, s).front, Remember(p, m, s))
  {
    hide Wire, Control, Heard, Killed, Records, AfterGreeting, AfterLostHello, FrontOk;
    HeardFront(m);
    KilledFront(Heard(m));
    GreetingRecords(Heard(m), p);
    LostHelloRecords(Heard(m), p, "expected hello");
    SameRecords(m.front, AfterFatal(Heard(m), "").front, p);
    match m.conns[m.cur.value].outbox[0] {
      case FatalNotice(error) => SameRecords(m.front, AfterFatal(Heard(m), error).front, p);
      case _ =>
    }
  }

  lemma {:induction false} ReplayRecords(m: Machine, p: Past, s: Step)
    requires Inv(m) && Records(m.front, p) && Enabled(m, s) && s.GetReplay?
    ensures Records(Next(m, s).front, Remember(p, m, s))
  {
    hide Wire, Control, Truth, Records, NotePrepared, ReadFrom;
    ReplayRead(m);
    var args, msg := m.bring.args, m.conns[m.bring.conn].outbox[0];
    RecordsReplayed(m.front, p, args, msg.resp);
    RecordsUsable(Replayed(m.front, args, msg.resp), p.(lastGood := if msg.resp.ok then Hit(args) else Missing));
  }

  lemma {:induction false} ReplayRead(m: Machine)
    requires Inv(m) && Enabled(m, GetReplay)
    ensures var msg := m.conns[m.bring.conn].outbox[0];
            msg.Answer? && (msg.resp.ok ==> msg.resp.dump.Hit?)
  {
    hide Control, Tally, FlightWire;
  }

  lemma {:induction false} RecordsReplayed(f: Front, p: Past, args: Command, resp: Response)
    requires Records(f, p) && (resp.ok ==> resp.dump.Hit?)
    ensures Records(Replayed(f, args, resp), p.(lastGood := if resp.ok then Hit(args) else Missing))
  {
  }

  lemma {:induction false} ChildRecords(m: Machine, p: Past, s: Step)
    requires Records(m.front, p) && Enabled(m, s) && (s.ChildGreets? || s.ChildAnswers? || s.ChildDies?)
    ensures Records(Next(m, s).front, Remember(p, m, s))
  {
  }

  lemma {:induction false} NextRecords(m: Machine, p: Past, s: Step)
    requires Inv(m) && Records(m.front, p) && Enabled(m, s)
    ensures Records(Next(m, s).front, Remember(p, m, s))
  {
    hide Inv, Records, Enabled, Next, Remember;
    match s {
      case GetReply(_) => ReplyRecords(m, p, s);
      case LoseReply(_, _) => LossRecords(m, p, s);
      case GetHello => HelloRecords(m, p, s);
      case GetReplay => ReplayRecords(m, p, s);
      case LoseHello(reason) => HelloLostRecords(m, p, s);
      case LoseReplay(_) => LossRecords(m, p, s);
      case Operator(_) => OperatorRecords(m, p, s);
      case ChildGreets(_, _) => ChildRecords(m, p, s);
      case ChildAnswers(_, _) => ChildRecords(m, p, s);
      case ChildDies(_) => ChildRecords(m, p, s);
      case Arrive(_, _) => WaitRecords(m, p, s);
      case Acquire(_) => WaitRecords(m, p, s);
      case Resume(_, _) => WaitRecords(m, p, s);
      case RestartLocks => WaitRecords(m, p, s);
      case LoopTop => TopRecords(m, p, s);
      case _ => IdleRecords(m, p, s);
    }
  }

  lemma {:induction false} HelloLostRecords(m: Machine, p: Past, s: Step)
    requires Records(m.front, p) && Enabled(m, s) && s.LoseHello?
    ensures Records(Next(m, s).front, Remember(p, m, s))
  {
    hide Records, AfterLostHello;
    LostHelloRecords(m, p, s.reason);
  }

  // ---------------------------------------------------------------- the answers agree

  ghost predicate PipeAnswers(conns: seq<Conn>, answers: set<Msg>) {
    forall k :: 0 <= k < |conns| ==> KnownAnswers(conns[k], answers)
  }

  ghost predicate KnownAnswers(conn: Conn, answers: set<Msg>) {
    forall i :: 0 <= i < |conn.outbox| && conn.outbox[i].Answer? ==> conn.outbox[i] in answers
  }

  lemma {:induction false} PipesAppend(conns: seq<Conn>, k: nat, conn: Conn, answers: set<Msg>, more: set<Msg>)
    requires PipeAnswers(conns, answers) && k < |conns| && answers <= more && KnownAnswers(conn, more)
    ensures PipeAnswers(conns[k := conn], more)
  {
  }

  lemma {:induction false} WaitPipes(m: Machine, p: Past, s: Step)
    requires PipeAnswers(m.conns, p.answers) && Enabled(m, s)
    requires s.Arrive? || s.Acquire? || s.Resume? || s.RestartLocks? || s.LoopTop? || s.FatalReapOver?
    ensures PipeAnswers(Next(m, s).conns, Remember(p, m, s).answers)
  {
  }

  lemma {:induction false} ReadPipes(m: Machine, p: Past, s: Step)
    requires PipeAnswers(m.conns, p.answers) && Enabled(m, s) && (s.GetReply? || s.LoseReply? || s.GetReplay? || s.LoseReplay?)
    ensures PipeAnswers(Next(m, s).conns, Remember(p, m, s).answers)
  {
    hide NotePrepared, Replayed;
  }

  lemma {:induction false} ReapPipes(m: Machine, p: Past, s: Step)
    requires PipeAnswers(m.conns, p.answers) && Enabled(m, s) && (s.SleepOver? || s.ReapOver? || s.LoseHello? || s.Operator?)
    ensures PipeAnswers(Next(m, s).conns, Remember(p, m, s).answers)
  {
    hide Reading, Stale;
  }

  lemma {:induction false} HelloPipes(m: Machine, p: Past, s: Step)
    requires PipeAnswers(m.conns, p.answers) && Enabled(m, s) && s.GetHello?
    ensures PipeAnswers(Next(m, s).conns, Remember(p, m, s).answers)
  {
    hide Heard, AfterGreeting, AfterFatal, AfterLostHello, PipeAnswers;
    HeardPipes(m, p.answers);
    HeardFront(m);
    GreetingPipes(Heard(m), p.answers);
    match m.conns[m.cur.value].outbox[0] {
      case FatalNotice(error) => FatalPipes(Heard(m), error, p.answers);
      case Answer(_, _, _) => LostHelloPipes(Heard(m), p.answers);
      case Greeting =>
    }
  }

  lemma {:induction false} HeardPipes(m: Machine, answers: set<Msg>)
    requires PipeAnswers(m.conns, answers) && Enabled(m, GetHello)
    ensures PipeAnswers(Heard(m).conns, answers)
  {
  }

  lemma {:induction false} GreetingPipes(m: Machine, answers: set<Msg>)
    requires PipeAnswers(m.conns, answers) && AtConn(m)
    ensures PipeAnswers(AfterGreeting(m).conns, answers)
  {
  }

  lemma {:induction false} FatalPipes(m: Machine, error: string, answers: set<Msg>)
    requires PipeAnswers(m.conns, answers)
    ensures PipeAnswers(AfterFatal(m, error).conns, answers)
  {
  }

  lemma {:induction false} LostHelloPipes(m: Machine, answers: set<Msg>)
    requires PipeAnswers(m.conns, answers) && Enabled(m, LoseHello("expected hello"))
    ensures PipeAnswers(AfterLostHello(m, "expected hello").conns, answers)
  {
  }

  lemma {:induction false} ChildPipes(m: Machine, p: Past, s: Step)
    requires PipeAnswers(m.conns, p.answers) && Enabled(m, s) && (s.ChildGreets? || s.ChildAnswers? || s.ChildDies?)
    ensures PipeAnswers(Next(m, s).conns, Remember(p, m, s).answers)
  {
    hide PipeAnswers;
    KnownAt(m.conns, s.k, p.answers);
    var more := Remember(p, m, s).answers;
    PipesAppend(m.conns, s.k, Next(m, s).conns[s.k], p.answers, more);
  }

  lemma {:induction false} KnownAt(conns: seq<Conn>, k: nat, answers: set<Msg>)
    requires PipeAnswers(conns, answers) && k < |conns|
    ensures KnownAnswers(conns[k], answers)
  {
  }

  lemma {:induction false} NextPipes(m: Machine, p: Past, s: Step)
    requires PipeAnswers(m.conns, p.answers) && Enabled(m, s)
    ensures PipeAnswers(Next(m, s).conns, Remember(p, m, s).answers)
  {
    hide PipeAnswers, Enabled, Next, Remember;
    match s {
      case GetReply(_) => ReadPipes(m, p, s);
      case LoseReply(_, _) => ReadPipes(m, p, s);
      case GetReplay => ReadPipes(m, p, s);
      case LoseReplay(_) => ReadPipes(m, p, s);
      case SleepOver => ReapPipes(m, p, s);
      case ReapOver => ReapPipes(m, p, s);
      case LoseHello(_) => ReapPipes(m, p, s);
      case Operator(_) => ReapPipes(m, p, s);
      case GetHello => HelloPipes(m, p, s);
      case ChildGreets(_, _) => ChildPipes(m, p, s);
      case ChildAnswers(_, _) => ChildPipes(m, p, s);
      case ChildDies(_) => ChildPipes(m, p, s);
      case _ => WaitPipes(m, p, s);
    }
  }

  lemma {:induction false} AnswersGrow(m: Machine, p: Past, s: Step)
    requires Enabled(m, s)
    ensures p.answers <= Remember(p, m, s).answers
  {
  }

  lemma {:induction false} NextAnswers(m: Machine, p: Past, s: Step)
    requires Inv(m) && Answers(m, p) && Enabled(m, s)
    ensures Answers(Next(m, s), Remember(p, m, s))
  {
    hide Inv, Next, Remember, PipeAnswers;
    NextPipes(m, p, s);
    AnswersGrow(m, p, s);
    var v := Next(m, s);
    forall c | c in v.callers && v.callers[c].Done? && v.callers[c].outcome.Answered? ensures OwnReply(v.callers[c], Remember(p, m, s)) {
      StepGoes(m, s, c);
      if s.GetReply? && s.c == c {
        KnownAt(m.conns, m.callers[c].conn, p.answers);
      }
    }
  }

  lemma {:induction false} StepGoes(m: Machine, s: Step, c: nat)
    requires Inv(m) && Enabled(m, s)
    ensures CallerGoes(m, s, Next(m, s), c)
  {
    hide Inv, CallerGoes, Next;
    match s {
      case Acquire(_) => AcquireGoes(m, s, c);
      case Resume(_, _) => AcquireGoes(m, s, c);
      case GetReply(_) => ReplyGoes(m, s, c);
      case LoseReply(_, _) => ReplyGoes(m, s, c);
      case _ => OtherGoes(m, s, c);
    }
  }

  // ---------------------------------------------------------------- over every run

  ghost predicate Agrees(m: Machine, p: Past) {
    Records(m.front, p) && Answers(m, p)
  }

  /** A run with the history it leaves. */
  ghost predicate Recalls(m: Machine, p: Past, steps: seq<Step>, end: Machine, q: Past)
    decreases |steps|
  {
    if steps == [] then m == end && p == q
    else Enabled(m, steps[0]) && Recalls(Next(m, steps[0]), Remember(p, m, steps[0]), steps[1..], end, q)
  }

  lemma {:induction false} RecallsAgree(m: Machine, p: Past, steps: seq<Step>, end: Machine, q: Past)
    requires Inv(m) && Agrees(m, p) && Recalls(m, p, steps, end, q)
    ensures Inv(end) && Agrees(end, q)
    decreases |steps|
  {
    hide Inv, Next, Enabled, Remember, Records, Answers;
    if steps != [] {
      NextInv(m, steps[0]);
      NextRecords(m, p, steps[0]);
      NextAnswers(m, p, steps[0]);
      RecallsAgree(Next(m, steps[0]), Remember(p, m, steps[0]), steps[1..], end, q);
    }
  }

  /** In every run the record agrees with the history of the messages: the front-end would replay exactly the
      last prepare that succeeded, spares the next child exactly the command it blames, and every reply any
      caller ever got is an answer some child gave to that caller's own command. */
  lemma {:induction false} RunsAgree(max: nat, handler: bool, steps: seq<Step>, end: Machine, q: Past)
    requires Recalls(Start(max, handler), NOTHING, steps, end, q)
    ensures Inv(end) && Agrees(end, q)
  {
    hide Inv, Recalls;
    StartInv(max, handler);
    RecallsAgree(Start(max, handler), NOTHING, steps, end, q);
  }

  /** A child that greets begins the next generation with the count at 0, and is sent exactly what it is due:
      the last good prepare, alone on its pipe, or nothing, and then the front-end is READY. */
  lemma {:induction false} GreetedGetsItsDue(m: Machine, p: Past)
    requires Inv(m) && Agrees(m, p) && Enabled(m, GetHello) && m.conns[m.cur.value].outbox[0].Greeting?
    ensures var k, v := m.cur.value, Next(m, GetHello);
            && v.front.generation == m.front.generation + 1 && v.front.attempts == 0 && v.cur == m.cur == v.home
            && |v.conns| == |m.conns|
            && match Due(p)
               case Hit(command) =>
                 v.bring == Repriming(command, m.next, k) && v.conns[k].inbox == [(m.next, command)] && v.conns[k].outbox == []
               case Missing =>
                 v.bring.Off? && v.front.state.READY? && v.conns[k].inbox == [] && v.conns[k].outbox == []
  {
    hide Control, Truth, Answers, Tally, FlightWire, Heard, FrontOk;
    WireHello(m);
    HeardUnheard(m);
  }

  lemma {:induction false} HeardUnheard(m: Machine)
    requires Enabled(m, GetHello) && Unheard(m.conns[m.cur.value])
    ensures var h, k := Heard(m), m.cur.value;
            && |h.conns| == |m.conns| && h.conns[k].inbox == [] && h.conns[k].outbox == [] && h.front == m.front && h.cur == m.cur
            && h.next == m.next && AtConn(h)
  {
  }

  /** Every exchange or greeting that is lost is marked so on its own pipe. */
  lemma {:induction false} LossIsMarked(m: Machine, s: Step)
    requires Inv(m) && Enabled(m, s) && (s.LoseReply? || s.LoseHello? || s.LoseReplay?)
    ensures var v := Next(m, s);
            m.cur.Hit? && m.cur.value < |v.conns| && v.conns[m.cur.value].lost
            && (s.LoseHello? || s.LoseReplay? ==> v.bring.Top?)
  {
    hide Truth, Tally, LockOk, StateOk, FlightOk;
    if s.LoseReply? {
      InFlightOut(m, s.c);
    }
  }

  // ---------------------------------------------------------------- which children live

  /** No child lives but the one in use, and none while one is being reaped: whatever was lost or replaced has
      been killed. */
  ghost predicate OneAlive(m: Machine) {
    && (forall k: nat :: k < |m.conns| && m.conns[k].alive ==> m.cur == Hit(k))
    && (m.bring.Reaping? || m.bring.FatalReap? ==> m.cur.Missing?)
  }

  lemma {:induction false} CallerAlive(m: Machine, s: Step)
    requires OneAlive(m) && Enabled(m, s)
    requires s.Arrive? || s.Acquire? || s.Resume? || s.GetReply? || s.LoseReply? || s.RestartLocks? || s.LoopTop? || s.FatalReapOver?
    ensures OneAlive(Next(m, s))
  {
    hide NotePrepared;
  }

  lemma {:induction false} BringAlive(m: Machine, s: Step)
    requires Wire(m) && OneAlive(m) && Enabled(m, s) && (s.SleepOver? || s.ReapOver? || s.LoseHello? || s.GetReplay? || s.LoseReplay?)
    ensures OneAlive(Next(m, s))
  {
    hide Tally, BringWire, FlightWire, Replayed, InUse, Quiet;
  }

  lemma {:induction false} HelloAlive(m: Machine, s: Step)
    requires OneAlive(m) && Enabled(m, s) && s.GetHello?
    ensures OneAlive(Next(m, s))
  {
    hide Heard, AfterGreeting, AfterFatal, AfterLostHello, OneAlive;
    HeardAlive(m);
    match m.conns[m.cur.value].outbox[0] {
      case FatalNotice(error) => FatalAlive(Heard(m), error);
      case Answer(_, _, _) => LostHelloAlive(Heard(m));
      case Greeting => GreetingAlive(Heard(m));
    }
  }

  lemma {:induction false} HeardAlive(m: Machine)
    requires OneAlive(m) && Enabled(m, GetHello)
    ensures OneAlive(Heard(m)) && AtConn(Heard(m)) && Heard(m).bring == m.bring
  {
  }

  lemma {:induction false} FatalAlive(m: Machine, error: string)
    requires OneAlive(m) && AtConn(m)
    ensures OneAlive(AfterFatal(m, error))
  {
  }

  lemma {:induction false} LostHelloAlive(m: Machine)
    requires OneAlive(m) && Enabled(m, LoseHello("expected hello"))
    ensures OneAlive(AfterLostHello(m, "expected hello"))
  {
  }

  lemma {:induction false} GreetingAlive(m: Machine)
    requires OneAlive(m) && AtConn(m)
    ensures OneAlive(AfterGreeting(m))
  {
  }

  lemma {:induction false} OperatorAlive(m: Machine, s: Step)
    requires Inv(m) && OneAlive(m) && Enabled(m, s) && s.Operator?
    ensures OneAlive(Next(m, s))
  {
    hide Wire, Truth, LockOk, Reading;
  }

  lemma {:induction false} ChildAlive(m: Machine, s: Step)
    requires OneAlive(m) && Enabled(m, s) && (s.ChildGreets? || s.ChildAnswers? || s.ChildDies?)
    ensures OneAlive(Next(m, s))
  {
  }

  lemma {:induction false} NextAlive(m: Machine, s: Step)
    requires Inv(m) && OneAlive(m) && Enabled(m, s)
    ensures OneAlive(Next(m, s))
  {
    hide OneAlive, Enabled, Next, Control, Truth, Wire;
    match s {
      case GetHello => HelloAlive(m, s);
      case Operator(_) => OperatorAlive(m, s);
      case ChildGreets(_, _) => ChildAlive(m, s);
      case ChildAnswers(_, _) => ChildAlive(m, s);
      case ChildDies(_) => ChildAlive(m, s);
      case SleepOver => BringAlive(m, s);
      case ReapOver => BringAlive(m, s);
      case LoseHello(_) => BringAlive(m, s);
      case GetReplay => BringAlive(m, s);
      case LoseReplay(_) => BringAlive(m, s);
      case _ => CallerAlive(m, s);
    }
  }

  lemma {:induction false} AliveOverRuns(m: Machine, steps: seq<Step>, end: Machine)
    requires Inv(m) && OneAlive(m) && Reaches(m, steps, end)
    ensures OneAlive(end)
    decreases |steps|
  {
    hide Inv, OneAlive, Next, Enabled;
    if steps != [] {
      NextInv(m, steps[0]);
      NextAlive(m, steps[0]);
      AliveOverRuns(Next(m, steps[0]), steps[1..], end);
    }
  }

  /** In every reachable state at most one child lives, the current one. */
  lemma {:induction false} AtMostOneChild(max: nat, handler: bool, steps: seq<Step>, m: Machine)
    requires Reachable(max, handler, steps, m)
    ensures OneAlive(m)
  {
    hide Inv, Reaches;
    StartInv(max, handler);
    AliveOverRuns(Start(max, handler), steps, m);
  }

  /** An operator's restart of a front-end that is not DEGRADED kills the child in use; with a reader parked
      nothing else changes, and otherwise a restart is announced and its task exists. */
  lemma {:induction false} OperatorKills(m: Machine, reason: string)
    requires Inv(m) && Enabled(m, Operator(reason)) && !m.front.state.DEGRADED?
    ensures var v := Next(m, Operator(reason));
            && |v.conns| == |m.conns| && v.cur == m.cur && (AtConn(m) ==> !v.conns[m.cur.value].alive)
            && (if Reading(m) then v.front == m.front && v.bring == m.bring
                else v.front.state.RESTARTING? && v.front.restarting && !v.bring.Off?)
  {
    hide Wire, Truth, LockOk, FlightOk, Reading;
  }
}
