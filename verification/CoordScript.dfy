/** The interleaved bring-up computes what the retry loop does: left undisturbed, whoever else is waiting or
    dying meanwhile, it ends in the state `Coord.BringUp` gives for the same children. */
module CoordScript {
  import opened Lru
  import opened Coord
  import opened CoordProtocol
  import opened CoordTheorems

  /** The number, counting from 0, of the child last spawned. */
  function Latest(f: Front): nat {
    if f.spawns == 0 then 0 else f.spawns - 1
  }

  /** The step hears from the latest child what `children` says it does. */
  ghost predicate Follows(children: nat -> Child, m: Machine, s: Step)
    requires Enabled(m, s)
  {
    var child := children(Latest(m.front));
    match s
    case GetHello =>
      (match m.conns[m.cur.value].outbox[0]
       case Greeting => child.hello.Hello?
       case FatalNotice(error) => child.hello == Fatal(error)
       case Answer(_, _, _) => child.hello == NoHello("expected hello"))
    case LoseHello(reason) => child.hello == NoHello(reason)
    case GetReplay => m.conns[m.bring.conn].outbox[0].Answer? && child.replay == Reply(m.conns[m.bring.conn].outbox[0].resp)
    case LoseReplay(reason) => child.replay == ReplayLost(reason)
    case _ => true
  }

  ghost function Onward(r: (Front, bool), children: nat -> Child): Front {
    if r.1 then r.0 else BringUp(r.0, children)
  }

  /** Where the loop is headed from here. */
  ghost function Headed(m: Machine, children: nat -> Child): Front {
    match m.bring
    case Off => m.front
    case WaitLock => BringUp(m.front, children)
    case Top => BringUp(m.front, children)
    case Sleeping => Onward(Spoken(Spawned(m.front), children(m.front.spawns)), children)
    case Reaping => Onward(Spoken(Spawned(m.front), children(m.front.spawns)), children)
    case AwaitHello => Onward(Spoken(m.front, children(Latest(m.front))), children)
    case Repriming(args, _, _) => Onward(ReplayEnds(m.front, args, children(Latest(m.front)).replay), children)
    case FatalReap => Condemned(m.front)
  }

  /** The record, but for whether the restart task still exists. */
  function Apart(f: Front): Front {
    f.(restarting := false)
  }

  ghost predicate SameCourse(m: Machine, v: Machine, children: nat -> Child) {
    Apart(Headed(v, children)) == Apart(Headed(m, children))
  }

  lemma {:induction false} TopCourse(m: Machine, s: Step, children: nat -> Child)
    requires Inv(m) && Enabled(m, s) && s.LoopTop?
    ensures SameCourse(m, Next(m, s), children)
  {
    hide Wire, Truth, LockOk, FlightOk, Spoken, Budget;
  }

  lemma {:induction false} ReapCourse(m: Machine, s: Step, children: nat -> Child)
    requires Enabled(m, s) && (s.RestartLocks? || s.SleepOver? || s.ReapOver? || s.FatalReapOver?)
    ensures SameCourse(m, Next(m, s), children)
  {
    hide Spoken, BringUp, Killed;
    KilledFront(m);
  }

  lemma {:induction false} LostCourse(m: Machine, s: Step, children: nat -> Child)
    requires Enabled(m, s) && (s.LoseHello? || s.LoseReplay?) && Follows(children, m, s)
    ensures SameCourse(m, Next(m, s), children)
  {
    hide BringUp, Primed;
  }

  lemma {:induction false} ReplayCourse(m: Machine, s: Step, children: nat -> Child)
    requires Enabled(m, s) && s.GetReplay? && Follows(children, m, s)
    ensures SameCourse(m, Next(m, s), children)
  {
    hide BringUp, Primed, NotePrepared, ReadFrom;
  }

  lemma {:induction false} HelloCourse(m: Machine, s: Step, children: nat -> Child)
    requires Enabled(m, s) && s.GetHello? && Follows(children, m, s)
    ensures SameCourse(m, Next(m, s), children)
  {
    hide BringUp, Heard, AfterGreeting, AfterFatal, AfterLostHello;
    HeardFront(m);
    match m.conns[m.cur.value].outbox[0] {
      case FatalNotice(error) => FatalCourse(Heard(m), error, children);
      case Greeting => GreetingCourse(Heard(m), children);
      case Answer(_, _, _) => LostHelloCourse(Heard(m), "expected hello", children);
    }
  }

  lemma {:induction false} FatalCourse(m: Machine, error: string, children: nat -> Child)
    requires m.bring.AwaitHello? && children(Latest(m.front)).hello == Fatal(error)
    ensures SameCourse(m, AfterFatal(m, error), children)
  {
    hide Killed, BringUp;
    KilledFront(m);
  }

  lemma {:induction false} GreetingCourse(m: Machine, children: nat -> Child)
    requires m.bring.AwaitHello? && AtConn(m) && children(Latest(m.front)).hello.Hello?
    ensures SameCourse(m, AfterGreeting(m), children)
  {
    hide BringUp, ReplayEnds;
  }

  lemma {:induction false} LostHelloCourse(m: Machine, reason: string, children: nat -> Child)
    requires Enabled(m, LoseHello(reason)) && children(Latest(m.front)).hello == NoHello(reason)
    ensures SameCourse(m, AfterLostHello(m, reason), children)
  {
    hide BringUp, Primed;
  }

  lemma {:induction false} OtherCourse(m: Machine, s: Step, children: nat -> Child)
    requires Inv(m) && Enabled(m, s) && !IsBring(s) && !Disturbs(s) && !m.bring.Off?
    ensures SameCourse(m, Next(m, s), children) && !Next(m, s).bring.Off?
  {
    hide Wire, Truth, LockOk, StateOk, Spoken, BringUp, ReplayEnds;
  }

  /** No step of an undisturbed bring-up changes where it is headed. */
  lemma {:induction false} KeepsCourse(m: Machine, s: Step, children: nat -> Child)
    requires Inv(m) && Enabled(m, s) && !m.bring.Off? && !Disturbs(s) && Follows(children, m, s)
    ensures SameCourse(m, Next(m, s), children)
  {
    hide Inv, Enabled, Next, Follows, SameCourse;
    match s {
      case LoopTop => TopCourse(m, s, children);
      case LoseHello(_) => LostCourse(m, s, children);
      case LoseReplay(_) => LostCourse(m, s, children);
      case GetReplay => ReplayCourse(m, s, children);
      case GetHello => HelloCourse(m, s, children);
      case _ => if IsBring(s) { ReapCourse(m, s, children); } else { OtherCourse(m, s, children); }
    }
  }

  /** A run of one bring-up from `m` to its end: nothing disturbs it, and the children are those of
      `children`. Callers, deaths and answers come between as they like. */
  ghost predicate BringsUp(m: Machine, children: nat -> Child, steps: seq<Step>, end: Machine)
    decreases |steps|
  {
    if m.bring.Off? then steps == [] && m == end
    else
      && steps != [] && Enabled(m, steps[0]) && !Disturbs(steps[0]) && Follows(children, m, steps[0])
      && BringsUp(Next(m, steps[0]), children, steps[1..], end)
  }

  lemma {:induction false} StaysOnCourse(m: Machine, children: nat -> Child, steps: seq<Step>, end: Machine)
    requires Inv(m) && BringsUp(m, children, steps, end)
    ensures Inv(end) && end.bring.Off? && Apart(end.front) == Apart(Headed(m, children))
    decreases |steps|
  {
    hide Inv, Enabled, Next, Follows, Disturbs;
    if !m.bring.Off? {
      NextInv(m, steps[0]);
      KeepsCourse(m, steps[0], children);
      StaysOnCourse(Next(m, steps[0]), children, steps[1..], end);
    }
  }

  /** From the top of the loop, or from the restart waiting for the lock, an undisturbed bring-up ends in exactly
      the record the retry loop computes: the same spawns, count, generation, replay, snapshot and reasons. */
  lemma {:induction false} InterleavedIsBringUp(m: Machine, children: nat -> Child, steps: seq<Step>, end: Machine)
    requires Inv(m) && (m.bring.Top? || m.bring.WaitLock?) && BringsUp(m, children, steps, end)
    ensures Apart(end.front) == Apart(BringUp(m.front, children))
  {
    hide Inv, BringsUp, BringUp;
    StaysOnCourse(m, children, steps, end);
  }
}
