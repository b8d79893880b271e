/** The front-end's record of one coordinator child: loss, bounded bring-up, replay of the last good
    prepare, and the states it settles in. */
module Coord {
  import opened Lru

  datatype State = STARTING | READY | RESTARTING | DEGRADED | STOPPING

  datatype Command = Command(cmd: string, args: int)

  datatype Response = Response(ok: bool, dump: Found<string>, error: string)

  datatype Snapshot = Snapshot(dump: string, generation: nat, command: Command)

  datatype Loss = Loss(reason: string, provokedBy: Found<string>, generation: nat)

  /** `ready` is the startup event, `restarting` whether the restart task exists; `handler` whether a handler
      of fatal notices was given, and `shutdown` whether it has been called, which takes the server down. */
  datatype Front = Front(
    max: nat,
    handler: bool,
    shutdown: bool,
    state: State,
    ready: bool,
    restarting: bool,
    generation: nat,
    spawns: nat,
    attempts: nat,
    lastLoss: Found<Loss>,
    degradedReason: Found<string>,
    fatalReason: Found<string>,
    primed: Found<Command>,
    provokedBy: Found<string>,
    reprimeError: Found<string>,
    snapshot: Found<Snapshot>)

  function Fresh(max: nat, handler: bool): Front {
    Front(max, handler, false, STARTING, false, false, 0, 0, 0, Missing, Missing, Missing, Missing, Missing, Missing, Missing)
  }

  // ---------------------------------------------------------------- one step of the record

  function NotePrepared(f: Front, command: Command, resp: Response): Front {
    f.(primed := Hit(command),
       snapshot := if resp.dump.Hit? then Hit(Snapshot(resp.dump.value, f.generation, command)) else f.snapshot)
  }

  function NoteLoss(f: Front, reason: string, provokedBy: Found<string>): Front {
    f.(lastLoss := Hit(Loss(reason, provokedBy, f.generation)), provokedBy := provokedBy)
  }

  function StartRestart(f: Front): Front {
    if f.state.STOPPING? then f else f.(state := RESTARTING, ready := false, restarting := true)
  }

  /** The operator's restart; `idle` says no reader is waiting on the pipe. */
  function RequestRestart(f: Front, reason: string, idle: bool): Front {
    if f.state.DEGRADED? then StartRestart(f.(attempts := 0, degradedReason := Missing, fatalReason := Missing))
    else if idle then StartRestart(NoteLoss(f, reason, Missing))
    else f
  }

  function GiveUp(f: Front): Front {
    f.(degradedReason := Hit(if f.lastLoss.Hit? then f.lastLoss.value.reason else "unknown"), state := DEGRADED, ready := true)
  }

  function Attempt(f: Front): Front {
    f.(attempts := f.attempts + 1)
  }

  function Spawned(f: Front): Front {
    f.(spawns := f.spawns + 1)
  }

  function Greeted(f: Front): Front {
    f.(generation := f.generation + 1, attempts := 0)
  }

  function Misconfigured(f: Front, reason: string): Front {
    f.(fatalReason := Hit(reason), degradedReason := Hit(reason), state := DEGRADED)
  }

  /** The misconfigured child is reaped. */
  function Condemned(f: Front): Front {
    f.(ready := true, shutdown := f.shutdown || f.handler)
  }

  /** What a new child is sent first: the last good prepare, unless a prepare provoked the loss. */
  function ReplayArgs(f: Front): Found<Command> {
    if f.provokedBy == Hit("prepare") then Missing else f.primed
  }

  function Replaying(f: Front): Front {
    f.(reprimeError := Missing)
  }

  function Replayed(f: Front, args: Command, resp: Response): Front {
    if resp.ok then NotePrepared(f, args, resp)
    else f.(primed := Missing, reprimeError := Hit(resp.error))
  }

  function Usable(f: Front): Front {
    f.(provokedBy := Missing, state := READY, ready := true)
  }

  /** Whether the cached dump might not describe the child of this generation. */
  predicate Stale(f: Front) {
    f.snapshot.Hit? && (f.snapshot.value.generation != f.generation || f.primed.Missing?)
  }

  /** The dump the front-end vouches for. */
  function Shown(f: Front): Found<string> {
    if f.snapshot.Hit? && !Stale(f) then Hit(f.snapshot.value.dump) else Missing
  }

  // ---------------------------------------------------------------- bring-up, undisturbed

  /** What one spawned child does: how it greets, and what becomes of the replay if it gets one. Anything
      else for a greeting, silence included, counts as a loss. */
  datatype Hello = Hello | Fatal(error: string) | NoHello(reason: string)
  datatype Replay = Reply(resp: Response) | ReplayLost(reason: string)
  datatype Child = Child(hello: Hello, replay: Replay)

  /** How many more children may be tried: the attempts left, and a full set more while a replay could
      still be lost, since the greeting before it starts the count again. */
  function Budget(f: Front): nat {
    (if f.attempts < f.max then f.max - f.attempts else 0) + (if ReplayArgs(f).Hit? then f.max else 0)
  }

  /** How a replay of `args` ends. The flag says whether bring-up is over. */
  function ReplayEnds(f: Front, args: Command, replay: Replay): (Front, bool) {
    match replay
    case Reply(resp) => (Usable(Replayed(f, args, resp)), true)
    case ReplayLost(reason) => (NoteLoss(f, reason, Hit("prepare")), false)
  }

  /** The replay of the last good prepare to a child that has greeted. */
  function Primed(h: Front, replay: Replay): (Front, bool) {
    match ReplayArgs(h)
    case Missing => (Usable(h), true)
    case Hit(args) => ReplayEnds(Replaying(h), args, replay)
  }

  /** What a spawned child makes of the record: its first word, and the replay if it greets. */
  function Spoken(g: Front, child: Child): (Front, bool) {
    match child.hello
    case Fatal(error) => (Condemned(Misconfigured(g, error)), true)
    case NoHello(reason) => (NoteLoss(g, reason, g.provokedBy), false)
    case Hello => Primed(Greeted(g), child.replay)
  }

  /** One child: an attempt counted, spawned, and heard. */
  function Round(f: Front, child: Child): (r: (Front, bool))
    ensures f.attempts < f.max && !r.1 ==> Budget(r.0) < Budget(f)
  {
    Spoken(Spawned(Attempt(f)), child)
  }

  /** Bring-up with `children(k)` as the k-th child ever spawned. */
  function BringUp(f: Front, children: nat -> Child): Front
    decreases Budget(f)
  {
    if f.state.STOPPING? then f
    else if f.attempts >= f.max then GiveUp(f)
    else
      var (g, over) := Round(f, children(f.spawns));
      if over then g else BringUp(g, children)
  }

  ghost predicate Settled(f: Front) {
    && f.ready && (f.state.READY? || f.state.DEGRADED?)
    && (f.state.READY? ==> f.attempts == 0 && f.provokedBy.Missing?)
    && (f.state.DEGRADED? ==> f.degradedReason.Hit?)
  }

  lemma {:induction false} RoundFacts(f: Front, child: Child)
    requires !f.state.STOPPING?
    ensures var (g, over) := Round(f, child);
            && g.spawns == f.spawns + 1 && g.max == f.max && g.restarting == f.restarting
            && (if over then Settled(g) else g.state == f.state)
  {
    hide Budget, Primed;
    if child.hello.Hello? {
      PrimedFacts(Greeted(Spawned(Attempt(f))), child.replay);
    }
  }

  lemma {:induction false} GaveUpSettled(f: Front)
    ensures Settled(GiveUp(f))
  {
  }

  lemma {:induction false} PrimedFacts(h: Front, replay: Replay)
    requires h.attempts == 0
    ensures var (g, over) := Primed(h, replay);
            && g.spawns == h.spawns && g.max == h.max && g.restarting == h.restarting
            && (if over then Settled(g) else g.state == h.state)
  {
  }

  /** The counter is reset inside the loop, yet whatever the children do, bring-up tries no more than its
      budget of them and settles: READY with the counter at 0, or DEGRADED. */
  lemma {:induction false} BringUpSettles(f: Front, children: nat -> Child)
    requires !f.state.STOPPING?
    ensures var e := BringUp(f, children);
            && f.spawns <= e.spawns <= f.spawns + Budget(f)
            && Settled(e)
            && e.max == f.max && e.restarting == f.restarting
    decreases Budget(f)
  {
    hide Round, ReplayArgs, Settled;
    GaveUpSettled(f);
    if f.attempts < f.max {
      var (g, over) := Round(f, children(f.spawns));
      RoundFacts(f, children(f.spawns));
      if !over {
        BringUpSettles(g, children);
      }
    }
  }

  /** Entered with the counter at 0, that is at most twice the attempts allowed. */
  lemma {:induction false} TwiceTheAttempts(f: Front, children: nat -> Child)
    requires !f.state.STOPPING? && f.attempts == 0
    ensures BringUp(f, children).spawns <= f.spawns + 2 * f.max
  {
    BringUpSettles(f, children);
    TwiceTheBudget(f);
  }

  lemma {:induction false} TwiceTheBudget(f: Front)
    ensures f.attempts == 0 ==> Budget(f) <= 2 * f.max
  {
  }

  /** Children that never greet use up the attempts left. */
  lemma {:induction false} SilentChildren(f: Front, children: nat -> Child)
    requires !f.state.STOPPING? && f.attempts <= f.max
    requires forall k: nat :: f.spawns <= k < f.spawns + (f.max - f.attempts) ==> children(k).hello.NoHello?
    ensures var e := BringUp(f, children);
            e.state.DEGRADED? && e.spawns == f.spawns + (f.max - f.attempts)
    decreases f.max - f.attempts
  {
    if f.attempts < f.max {
      var g := Spawned(Attempt(f));
      SilentChildren(NoteLoss(g, children(f.spawns).hello.reason, g.provokedBy), children);
    }
  }

  /** The bound is met: all silent but the last allowed, which greets and is lost in its replay, and all
      silent again. */
  function Worst(first: nat, max: nat): nat -> Child {
    k => if k == first + max - 1 then Child(Hello, ReplayLost("lost")) else Child(NoHello("silent"), ReplayLost("lost"))
  }

  lemma {:induction false} WorstCase(f: Front, first: nat)
    requires !f.state.STOPPING? && ReplayArgs(f).Hit?
    requires f.attempts < f.max && f.spawns == first + f.attempts
    ensures var e := BringUp(f, Worst(first, f.max));
            e.state.DEGRADED? && e.spawns == first + 2 * f.max
    decreases f.max - f.attempts
  {
    var g := Spawned(Attempt(f));
    if f.attempts < f.max - 1 {
      WorstCase(NoteLoss(g, "silent", g.provokedBy), first);
    } else {
      SilentChildren(NoteLoss(Replaying(Greeted(g)), "lost", Hit("prepare")), Worst(first, f.max));
    }
  }

  /** A child that reports the service misconfigured is the last: the loop never retries it. */
  lemma {:induction false} FatalIsFinal(f: Front, children: nat -> Child)
    requires !f.state.STOPPING? && f.attempts < f.max && children(f.spawns).hello.Fatal?
    ensures var e := BringUp(f, children);
            && e.spawns == f.spawns + 1 && e.state.DEGRADED?
            && e.fatalReason == Hit(children(f.spawns).hello.error) == e.degradedReason
            && (f.handler ==> e.shutdown)
  {
  }

  /** A replay is lost at most once: the bring-up that follows a lost prepare sends none. */
  lemma {:induction false} NoReplayAfterPrepare(f: Front, a: nat -> Child, b: nat -> Child)
    requires f.provokedBy == Hit("prepare")
    requires forall k: nat :: a(k).hello == b(k).hello
    ensures BringUp(f, a) == BringUp(f, b)
    ensures BringUp(f, a).primed == f.primed && BringUp(f, a).snapshot == f.snapshot
    decreases Budget(f)
  {
    if !f.state.STOPPING? && f.attempts < f.max {
      var g := Spawned(Attempt(f));
      assert a(f.spawns).hello == b(f.spawns).hello;
      if a(f.spawns).hello.NoHello? {
        NoReplayAfterPrepare(NoteLoss(g, a(f.spawns).hello.reason, g.provokedBy), a, b);
      }
    }
  }

  // ---------------------------------------------------------------- the object

  class Coord {
    const max: nat
    const handler: bool
    var shutdown: bool
    var state: State
    var ready: bool
    var restartTask: bool
    var generation: nat
    var spawns: nat
    var attempts: nat
    var lastLoss: Found<Loss>
    var degradedReason: Found<string>
    var fatalReason: Found<string>
    var primedArgs: Found<Command>
    var lossProvokedBy: Found<string>
    var reprimeError: Found<string>
    var configSnapshot: Found<Snapshot>

    ghost function Abs(): Front
      reads this
    {
      Front(max, handler, shutdown, state, ready, restartTask, generation, spawns, attempts, lastLoss, degradedReason, fatalReason,
            primedArgs, lossProvokedBy, reprimeError, configSnapshot)
    }

    constructor (maxRestartAttempts: nat, onFatal: bool)
      ensures Abs() == Fresh(maxRestartAttempts, onFatal)
    {
      max, handler, shutdown := maxRestartAttempts, onFatal, false;
      state, ready, restartTask := STARTING, false, false;
      generation, spawns, attempts := 0, 0, 0;
      lastLoss, degradedReason, fatalReason := Missing, Missing, Missing;
      primedArgs, lossProvokedBy, reprimeError, configSnapshot := Missing, Missing, Missing, Missing;
    }

    method RecordPrepared(command: Command, resp: Response)
      modifies this`primedArgs, this`configSnapshot
      ensures Abs() == NotePrepared(old(Abs()), command, resp)
      ensures primedArgs == Hit(command)
      ensures resp.dump.Hit? ==> Shown(Abs()) == resp.dump && configSnapshot.value.command == command
      ensures resp.dump.Missing? ==> configSnapshot == old(configSnapshot)
    {
      primedArgs := Hit(command);
      if resp.dump.Missing? {
        return;
      }
      configSnapshot := Hit(Snapshot(resp.dump.value, generation, command));
    }

    method RecordLoss(reason: string, provokedBy: Found<string>)
      modifies this`lastLoss, this`lossProvokedBy
      ensures Abs() == NoteLoss(old(Abs()), reason, provokedBy)
      ensures lossProvokedBy == provokedBy && lastLoss == Hit(Loss(reason, provokedBy, generation))
    {
      lastLoss := Hit(Loss(reason, provokedBy, generation));
      lossProvokedBy := provokedBy;
    }

    method BeginRestart()
      modifies this`state, this`ready, this`restartTask
      ensures Abs() == StartRestart(old(Abs()))
      ensures !old(state).STOPPING? ==> state.RESTARTING? && restartTask && !ready
      ensures old(state).STOPPING? ==> Abs() == old(Abs())
    {
      if state.STOPPING? {
        return;
      }
      state := RESTARTING;
      ready := false;
      if !restartTask {
        restartTask := true;
      }
    }

    /** `kill` asks for the child, if there is one, to be killed. A restart is announced at once unless a reader
        is parked on the pipe, who will notice the death. */
    method OperatorRestart(reason: string, inFlight: nat) returns (kill: bool)
      modifies this
      ensures Abs() == RequestRestart(old(Abs()), reason, inFlight == 0)
      ensures kill <==> !old(state).DEGRADED?
      ensures old(state).DEGRADED? || (inFlight == 0 && !old(state).STOPPING?) ==> state.RESTARTING? && restartTask && !ready
      ensures old(state).DEGRADED? ==> attempts == 0 && degradedReason.Missing? && fatalReason.Missing?
      ensures !old(state).DEGRADED? && inFlight == 0 ==> lossProvokedBy.Missing? && lastLoss.Hit? && lastLoss.value.reason == reason
      ensures !old(state).DEGRADED? && inFlight != 0 ==> Abs() == old(Abs())
    {
      kill := !state.DEGRADED?;
      if state.DEGRADED? {
        attempts := 0;
        degradedReason := Missing;
        fatalReason := Missing;
        BeginRestart();
        return;
      }
      if inFlight == 0 {
        RecordLoss(reason, Missing);
        BeginRestart();
      }
    }

    /** The replay of the last good prepare; true if the child was lost in it. */
    method Reprime(replay: Replay) returns (lost: Found<string>)
      modifies this`primedArgs, this`configSnapshot, this`reprimeError
      ensures match ReplayArgs(old(Abs()))
              case Missing => lost.Missing? && Abs() == old(Abs())
              case Hit(args) =>
                match replay
                case Reply(resp) => lost.Missing? && Abs() == Replayed(Replaying(old(Abs())), args, resp)
                case ReplayLost(reason) => lost == Hit(reason) && Abs() == Replaying(old(Abs()))
      ensures old(primedArgs).Hit? && old(lossProvokedBy) != Hit("prepare") && replay.Reply? ==>
                && reprimeError == (if replay.resp.ok then Missing else Hit(replay.resp.error))
                && primedArgs == (if replay.resp.ok then old(primedArgs) else Missing)
    {
      if primedArgs.Missing? || lossProvokedBy == Hit("prepare") {
        return Missing;
      }
      reprimeError := Missing;
      match replay {
        case ReplayLost(reason) => return Hit(reason);
        case Reply(resp) =>
          if resp.ok {
            RecordPrepared(primedArgs.value, resp);
          } else {
            primedArgs := Missing;
            reprimeError := Hit(resp.error);
          }
          lost := Missing;
      }
    }

    method PrimeChild(replay: Replay) returns (over: bool)
      modifies this
      ensures (Abs(), over) == Primed(old(Abs()), replay)
    {
      var lost := Reprime(replay);
      if lost.Hit? {
        RecordLoss(lost.value, Hit("prepare"));
        return false;
      }
      lossProvokedBy := Missing;
      state := READY;
      ready := true;
      over := true;
    }

    /** A fatal notice is never retried; the handler, if there is one, takes the server down. */
    method Condemn(error: string)
      modifies this
      ensures Abs() == Condemned(Misconfigured(old(Abs()), error))
    {
      fatalReason := Hit(error);
      degradedReason := Hit(error);
      state := DEGRADED;
      ready := true;
      if handler {
        shutdown := true;
      }
    }

    method TryChild(child: Child) returns (over: bool)
      requires attempts < max
      modifies this
      ensures (Abs(), over) == Round(old(Abs()), child)
    {
      hide Budget, Primed, ReplayArgs;
      attempts := attempts + 1;
      spawns := spawns + 1;
      match child.hello {
        case Fatal(error) =>
          Condemn(error);
          return true;
        case NoHello(reason) =>
          RecordLoss(reason, lossProvokedBy);
          return false;
        case Hello =>
          generation := generation + 1;
          attempts := 0;
          over := PrimeChild(child.replay);
      }
    }

    /** The retry loop, with `children(k)` as the k-th child ever spawned. */
    method BringUpChild(children: nat -> Child)
      modifies this
      ensures Abs() == BringUp(old(Abs()), children)
      ensures !old(state).STOPPING? ==>
                && Settled(Abs())
                && spawns <= old(spawns) + old(Budget(Abs()))
                && (old(attempts) == 0 ==> spawns <= old(spawns) + 2 * max)
    {
      hide Settled, Round, ReplayArgs;
      if !state.STOPPING? {
        BringUpSettles(Abs(), children);
        TwiceTheBudget(Abs());
      }
      var over := false;
      while !over
        invariant (if over then Abs() else BringUp(Abs(), children)) == BringUp(old(Abs()), children)
        decreases !over, Budget(Abs())
      {
        if state.STOPPING? {
          return;
        }
        if attempts >= max {
          degradedReason := Hit(if lastLoss.Hit? then lastLoss.value.reason else "unknown");
          state := DEGRADED;
          ready := true;
          return;
        }
        over := TryChild(children(spawns));
      }
    }
  }
}
