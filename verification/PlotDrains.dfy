/** N drain loops over one plot queue and one wake event, in every interleaving. */
module PlotDrains {
  import opened Lru
  import opened Plotting

  /** The queue, where each drain stands, and a history: jobs accepted, jobs that ended in an error, and
      how often each job has been sent since it was last accepted. */
  datatype Machine = Machine(q: Queue, pcs: seq<Pc>, accepted: nat, failed: nat, sent: map<Job, nat>)

  datatype Event = Enqueue(job: Job) | Top(i: nat) | Reply(i: nat, outcome: Outcome) | Wake(i: nat)

  function Start(flights: nat): Machine {
    Machine(Empty(flights), seq(flights, i => Running), 0, 0, map[])
  }

  predicate Enabled(m: Machine, e: Event) {
    match e
    case Enqueue(job) => true
    case Top(i) => i < |m.pcs| && m.pcs[i].Running?
    case Reply(i, outcome) => i < |m.pcs| && m.pcs[i].Drawing? && i < |m.q.exposures|
    case Wake(i) => i < |m.pcs| && m.pcs[i].Backoff?
  }

  /** Every drain asleep on the event, awake. */
  function Woken(pcs: seq<Pc>): (r: seq<Pc>)
    ensures |r| == |pcs|
  {
    seq(|pcs|, i requires 0 <= i < |pcs| => if pcs[i].Parked? then Running else pcs[i])
  }

  /** The drains after a step that may have set the event: those asleep wake when it goes from clear to set,
      and through nothing else. */
  function Signalled(before: Queue, after: Queue, pcs: seq<Pc>): seq<Pc> {
    if !before.wake && after.wake then Woken(pcs) else pcs
  }

  function SentOf(sent: map<Job, nat>, job: Job): nat {
    if job in sent then sent[job] else 0
  }

  function AfterEnqueue(m: Machine, job: Job): Machine {
    var (q, ok) := Enqueued(m.q, job);
    if ok then Machine(q, Signalled(m.q, q, m.pcs), m.accepted + 1, m.failed, m.sent[job := 0]) else m
  }

  function AfterTop(m: Machine, i: nat): Machine
    requires i < |m.pcs|
  {
    var (q, pc) := AtTop(m.q, i);
    m.(q := q, pcs := Signalled(m.q, q, m.pcs)[i := pc],
       sent := if pc.Drawing? then m.sent[pc.job := SentOf(m.sent, pc.job) + 1] else m.sent)
  }

  function AfterReply(m: Machine, i: nat, outcome: Outcome): Machine
    requires Enabled(m, Reply(i, outcome))
  {
    var job := m.pcs[i].job;
    var (q, pc) := AtReply(m.q, i, job, outcome);
    m.(q := q, pcs := Signalled(m.q, q, m.pcs)[i := pc], failed := m.failed + if GivesUp(m.q, job, outcome) then 1 else 0)
  }

  function Next(m: Machine, e: Event): Machine
    requires Enabled(m, e)
  {
    match e
    case Enqueue(job) => AfterEnqueue(m, job)
    case Top(i) => AfterTop(m, i)
    case Reply(i, outcome) => AfterReply(m, i, outcome)
    case Wake(i) => m.(q := AtWake(m.q, i), pcs := Signalled(m.q, AtWake(m.q, i), m.pcs)[i := Running])
  }

  // ---------------------------------------------------------------- counting

  function Outstanding(pcs: seq<Pc>): nat {
    if pcs == [] then 0 else Outstanding(pcs[..|pcs| - 1]) + if pcs[|pcs| - 1].Drawing? then 1 else 0
  }

  function Total(ns: seq<nat>): nat {
    if ns == [] then 0 else Total(ns[..|ns| - 1]) + ns[|ns| - 1]
  }

  lemma {:induction false} OutstandingSet(pcs: seq<Pc>, i: nat, pc: Pc)
    requires i < |pcs|
    ensures Outstanding(pcs[i := pc]) + (if pcs[i].Drawing? then 1 else 0)
            == Outstanding(pcs) + if pc.Drawing? then 1 else 0
  {
    var n := |pcs| - 1;
    if i < n {
      OutstandingSet(pcs[..n], i, pc);
      assert pcs[i := pc][..n] == pcs[..n][i := pc];
    } else {
      assert pcs[i := pc][..n] == pcs[..n];
    }
  }

  lemma {:induction false} OutstandingWoken(pcs: seq<Pc>)
    ensures Outstanding(Woken(pcs)) == Outstanding(pcs)
  {
    if pcs != [] {
      var n := |pcs| - 1;
      OutstandingWoken(pcs[..n]);
      assert Woken(pcs)[..n] == Woken(pcs[..n]);
    }
  }

  lemma {:induction false} TotalBump(ns: seq<nat>, i: nat)
    requires i < |ns|
    ensures Total(ns[i := ns[i] + 1]) == Total(ns) + 1
  {
    var n := |ns| - 1;
    if i < n {
      TotalBump(ns[..n], i);
      assert ns[i := ns[i] + 1][..n] == ns[..n][i := ns[i] + 1];
    } else {
      assert ns[i := ns[i] + 1][..n] == ns[..n];
    }
  }

  // ---------------------------------------------------------------- the invariant

  ghost predicate Sending(pcs: seq<Pc>, job: Job) {
    exists i :: 0 <= i < |pcs| && pcs[i] == Drawing(job)
  }

  /** A job is waiting or out on one flight, never both, and never on two. */
  ghost predicate Exclusive(m: Machine) {
    && (forall i :: 0 <= i < |m.pcs| && m.pcs[i].Drawing? ==> m.pcs[i].job !in m.q.queued)
    && (forall i, j :: 0 <= i < j < |m.pcs| && m.pcs[i].Drawing? ==> m.pcs[i] != m.pcs[j])
  }

  /** What the queue lists as drawing is what each drain is sending or backing off from. */
  ghost predicate Listed(m: Machine) {
    && |m.pcs| == |m.q.exposures|
    && (forall i: nat :: i in m.q.drawing ==> i < |m.pcs|)
    && (forall i: nat {:trigger m.pcs[i]} :: i < |m.pcs| ==>
          if m.pcs[i].Drawing? || m.pcs[i].Backoff? then i in m.q.drawing && m.q.drawing[i] == m.pcs[i].job
          else i !in m.q.drawing)
  }

  ghost predicate Conserved(m: Machine) {
    m.accepted == |m.q.stack| + Outstanding(m.pcs) + Total(m.q.exposures) + m.failed
  }

  /** A job that is waiting or being sent. */
  ghost predicate Live(m: Machine, job: Job) {
    job in m.q.queued || Sending(m.pcs, job)
  }

  /** The retry counter says how often a live job was sent: it is below the bound, and only live jobs
      have one. */
  ghost predicate Counted(m: Machine) {
    && (forall job :: job in m.q.retries ==> Live(m, job) && m.q.retries[job] < PLOT_MAX_RETRIES)
    && (forall job :: job in m.q.queued ==> SentOf(m.sent, job) == RetriesOf(m.q, job))
    && (forall i :: 0 <= i < |m.pcs| && m.pcs[i].Drawing? ==>
          SentOf(m.sent, m.pcs[i].job) == RetriesOf(m.q, m.pcs[i].job) + 1)
  }

  ghost predicate Bounded(m: Machine) {
    forall job :: job in m.sent ==> m.sent[job] <= PLOT_MAX_RETRIES
  }

  /** No live job carries an error, and the log is within its cap. */
  ghost predicate ErrorsOk(m: Machine) {
    && (forall job {:trigger Get(m.q.errors, job)} :: Get(m.q.errors, job).Hit? ==> !Live(m, job))
    && |m.q.errors| <= PLOT_ERROR_CAP
  }

  /** Work waiting means somebody is up, and nobody sleeps on an event that is set. */
  ghost predicate NoLostWakeup(m: Machine) {
    && (m.q.stack != [] ==> exists i :: 0 <= i < |m.pcs| && !m.pcs[i].Parked?)
    && (m.q.wake ==> forall i :: 0 <= i < |m.pcs| ==> !m.pcs[i].Parked?)
  }

  ghost predicate Inv(m: Machine) {
    && StackIsQueued(m.q) && Exclusive(m) && Listed(m) && Conserved(m)
    && Counted(m) && Bounded(m) && ErrorsOk(m) && NoLostWakeup(m)
  }

  lemma {:induction false} StartInv(flights: nat)
    ensures Inv(Start(flights))
  {
    NoneOutstanding(flights);
    NoneDrawn(flights);
  }

  lemma {:induction false} NoneOutstanding(n: nat)
    ensures Outstanding(seq(n, i => Running)) == 0
  {
    if n > 0 {
      NoneOutstanding(n - 1);
      assert seq(n, i => Running)[..n - 1] == seq(n - 1, i => Running);
    }
  }

  lemma {:induction false} NoneDrawn(n: nat)
    ensures Total(seq(n, i => 0)) == 0
  {
    if n > 0 {
      NoneDrawn(n - 1);
      assert seq(n, i => 0)[..n - 1] == seq(n - 1, i => 0);
    }
  }

  // ---------------------------------------------------------------- enqueue

  lemma {:induction false} WokenSends(pcs: seq<Pc>, job: Job)
    ensures Sending(Woken(pcs), job) == Sending(pcs, job)
  {
    if i :| 0 <= i < |pcs| && pcs[i] == Drawing(job) {
      assert Woken(pcs)[i] == Drawing(job);
    }
    if i :| 0 <= i < |pcs| && Woken(pcs)[i] == Drawing(job) {
      assert pcs[i] == Drawing(job);
    }
  }

  lemma {:induction false} LiveIsBusy(m: Machine, job: Job)
    requires Listed(m)
    ensures Live(m, job) ==> Busy(m.q, job)
  {
    if i :| 0 <= i < |m.pcs| && m.pcs[i] == Drawing(job) {
      assert m.q.drawing[i] == job;
    }
  }

  lemma {:induction false} EnqueueErrors(m: Machine, job: Job)
    requires ErrorsOk(m) && Enqueued(m.q, job).1
    ensures ErrorsOk(AfterEnqueue(m, job))
  {
    hide Without, Get, Sending;
    var v := AfterEnqueue(m, job);
    forall k | Get(v.q.errors, k).Hit? ensures !Live(v, k) {
      GetWithout(m.q.errors, job, k);
      WokenSends(m.pcs, k);
    }
    WithoutShorter(m.q.errors, job);
  }

  lemma {:induction false} EnqueueCounted(m: Machine, job: Job)
    requires Counted(m) && Listed(m) && Enqueued(m.q, job).1
    ensures Counted(AfterEnqueue(m, job))
  {
    hide Without;
    var v := AfterEnqueue(m, job);
    LiveIsBusy(m, job);
    forall k ensures Live(v, k) <==> Live(m, k) || k == job {
      WokenSends(m.pcs, k);
    }
    forall i | 0 <= i < |v.pcs| && v.pcs[i].Drawing? ensures v.pcs[i] == m.pcs[i] && v.pcs[i].job != job {
      assert Sending(m.pcs, v.pcs[i].job);
    }
  }

  lemma {:induction false} EnqueueKeeps(m: Machine, job: Job)
    requires Inv(m) && Enqueued(m.q, job).1
    ensures Inv(AfterEnqueue(m, job))
  {
    hide Without, Counted, ErrorsOk, StackIsQueued, Live;
    var v := AfterEnqueue(m, job);
    LiveIsBusy(m, job);
    EnqueueCounted(m, job);
    EnqueueErrors(m, job);
    EnqueueStack(m.q, job);
    OutstandingWoken(m.pcs);
    assert v.pcs[0] != Parked;
  }

  lemma {:induction false} EnqueueStack(q: Queue, job: Job)
    requires StackIsQueued(q) && Enqueued(q, job).1
    ensures StackIsQueued(Enqueued(q, job).0)
  {
    PushStack(q, job);
  }

  // ---------------------------------------------------------------- the top of the loop

  lemma {:induction false} ParkKeeps(m: Machine, i: nat)
    requires Inv(m) && Enabled(m, Top(i)) && m.q.stack == []
    ensures AfterTop(m, i) == m.(q := m.q.(wake := false), pcs := m.pcs[i := Parked])
    ensures Inv(AfterTop(m, i))
  {
    hide Get, Conserved;
    TakenTop(m.q);
    ParkConserved(m, i);
    var v := AfterTop(m, i);
    forall k ensures Live(v, k) == Live(m, k) {
      SameSends(m.pcs, i, Parked, k);
    }
  }

  lemma {:induction false} ParkConserved(m: Machine, i: nat)
    requires Conserved(m) && Enabled(m, Top(i)) && StackIsQueued(m.q) && m.q.stack == []
    ensures Conserved(AfterTop(m, i))
  {
    OutstandingSet(m.pcs, i, Parked);
  }

  /** A drain that goes between states other than sending changes nobody's sending. */
  lemma {:induction false} SameSends(pcs: seq<Pc>, i: nat, pc: Pc, job: Job)
    requires i < |pcs| && pcs[i] != Drawing(job) && pc != Drawing(job)
    ensures Sending(pcs[i := pc], job) == Sending(pcs, job)
  {
    var after := pcs[i := pc];
    if j :| 0 <= j < |pcs| && pcs[j] == Drawing(job) {
      assert after[j] == Drawing(job);
    }
    if j :| 0 <= j < |pcs| && after[j] == Drawing(job) {
      assert pcs[j] == Drawing(job);
    }
  }

  /** A drain that starts sending adds exactly its job to the ones being sent. */
  lemma {:induction false} StartsSending(pcs: seq<Pc>, i: nat, job: Job, k: Job)
    requires i < |pcs| && !pcs[i].Drawing?
    ensures Sending(pcs[i := Drawing(job)], k) <==> Sending(pcs, k) || k == job
  {
    var after := pcs[i := Drawing(job)];
    assert after[i] == Drawing(job);
    if j :| 0 <= j < |pcs| && pcs[j] == Drawing(k) {
      assert after[j] == Drawing(k);
    }
    if j :| 0 <= j < |pcs| && after[j] == Drawing(k) && j != i {
      assert pcs[j] == Drawing(k);
    }
  }

  lemma {:induction false} TakeLive(m: Machine, i: nat, k: Job)
    requires StackIsQueued(m.q) && Enabled(m, Top(i)) && m.q.stack != []
    ensures Live(AfterTop(m, i), k) == Live(m, k)
  {
    hide StackIsQueued, Sending;
    TakenTop(m.q);
    StartsSending(m.pcs, i, m.q.stack[|m.q.stack| - 1], k);
  }

  lemma {:induction false} TakeExclusive(m: Machine, i: nat)
    requires StackIsQueued(m.q) && Exclusive(m) && Enabled(m, Top(i)) && m.q.stack != []
    ensures Exclusive(AfterTop(m, i))
  {
    hide StackIsQueued;
    TakenTop(m.q);
  }

  lemma {:induction false} TakeCounted(m: Machine, i: nat)
    requires StackIsQueued(m.q) && Exclusive(m) && Counted(m) && Enabled(m, Top(i)) && m.q.stack != []
    ensures Counted(AfterTop(m, i))
  {
    hide StackIsQueued, Live;
    TakenTop(m.q);
    forall k ensures Live(AfterTop(m, i), k) == Live(m, k) {
      TakeLive(m, i, k);
    }
  }

  lemma {:induction false} TakeBounded(m: Machine, i: nat)
    requires StackIsQueued(m.q) && Counted(m) && Bounded(m) && Enabled(m, Top(i)) && m.q.stack != []
    ensures Bounded(AfterTop(m, i))
  {
    hide StackIsQueued, Live;
    TakenTop(m.q);
  }

  lemma {:induction false} TakeConserved(m: Machine, i: nat)
    requires StackIsQueued(m.q) && Conserved(m) && Enabled(m, Top(i)) && m.q.stack != []
    ensures Conserved(AfterTop(m, i))
  {
    hide StackIsQueued, Outstanding;
    TakenTop(m.q);
    OutstandingSet(m.pcs, i, AtTop(m.q, i).1);
  }

  lemma {:induction false} TakeErrors(m: Machine, i: nat)
    requires StackIsQueued(m.q) && ErrorsOk(m) && Enabled(m, Top(i)) && m.q.stack != []
    ensures ErrorsOk(AfterTop(m, i))
  {
    hide StackIsQueued, Live, Get;
    TakenTop(m.q);
    forall k ensures Live(AfterTop(m, i), k) == Live(m, k) {
      TakeLive(m, i, k);
    }
  }

  lemma {:induction false} TakeKeeps(m: Machine, i: nat)
    requires Inv(m) && Enabled(m, Top(i)) && m.q.stack != []
    ensures Inv(AfterTop(m, i))
  {
    hide Exclusive, Counted, Bounded, Conserved, ErrorsOk;
    TakeExclusive(m, i);
    TakeCounted(m, i);
    TakeBounded(m, i);
    TakeConserved(m, i);
    TakeErrors(m, i);
    TakenTop(m.q);
    assert !AfterTop(m, i).pcs[i].Parked?;
  }

  // ---------------------------------------------------------------- the reply

  /** A drain that stops sending removes exactly its job from the ones being sent. */
  lemma {:induction false} StopsSending(m: Machine, i: nat, pc: Pc, k: Job)
    requires Exclusive(m) && i < |m.pcs| && m.pcs[i].Drawing? && !pc.Drawing?
    ensures Sending(m.pcs[i := pc], k) <==> Sending(m.pcs, k) && k != m.pcs[i].job
  {
    var after := m.pcs[i := pc];
    if j :| 0 <= j < |m.pcs| && m.pcs[j] == Drawing(k) && j != i {
      assert after[j] == Drawing(k);
      assert m.pcs[if i < j then i else j] != m.pcs[if i < j then j else i];
    } else if Sending(m.pcs, k) {
      assert k == m.pcs[i].job;
    }
    if j :| 0 <= j < |m.pcs| && after[j] == Drawing(k) {
      assert m.pcs[j] == Drawing(k);
    }
  }

  /** The job comes off its flight: it goes back to the queue or it is finished. */
  lemma {:induction false} ReplyLive(m: Machine, i: nat, outcome: Outcome, k: Job)
    requires Exclusive(m) && Enabled(m, Reply(i, outcome))
    ensures var job := m.pcs[i].job;
            Live(AfterReply(m, i, outcome), k)
            <==> Live(m, k) && !(k == job && (outcome.Drawn? || GivesUp(m.q, job, outcome)))
  {
    hide Exclusive, Sending;
    StopsSending(m, i, AtReply(m.q, i, m.pcs[i].job, outcome).1, k);
    IsSending(m, i);
    assert m.pcs[i].job !in m.q.queued by {
      ExclusiveAt(m, i);
    }
  }

  lemma {:induction false} IsSending(m: Machine, i: nat)
    requires i < |m.pcs| && m.pcs[i].Drawing?
    ensures Sending(m.pcs, m.pcs[i].job)
  {
  }

  lemma {:induction false} ExclusiveAt(m: Machine, i: nat)
    requires Exclusive(m) && i < |m.pcs| && m.pcs[i].Drawing?
    ensures m.pcs[i].job !in m.q.queued
  {
  }

  lemma {:induction false} ReplyExclusive(m: Machine, i: nat, outcome: Outcome)
    requires Exclusive(m) && Enabled(m, Reply(i, outcome))
    ensures Exclusive(AfterReply(m, i, outcome))
  {
    hide ErrorRecorded, Without;
    var v := AfterReply(m, i, outcome);
    forall j | 0 <= j < |v.pcs| && v.pcs[j].Drawing? ensures v.pcs[j].job !in v.q.queued {
      assert m.pcs[if i < j then i else j] != m.pcs[if i < j then j else i];
    }
  }

  lemma {:induction false} ReplyListed(m: Machine, i: nat, outcome: Outcome)
    requires Listed(m) && Enabled(m, Reply(i, outcome))
    ensures Listed(AfterReply(m, i, outcome))
  {
    hide ErrorRecorded, Without;
  }

  lemma {:induction false} ReplyConserved(m: Machine, i: nat, outcome: Outcome)
    requires Conserved(m) && Enabled(m, Reply(i, outcome))
    ensures Conserved(AfterReply(m, i, outcome))
  {
    hide ErrorRecorded, Without, Outstanding, Total;
    OutstandingSet(m.pcs, i, AtReply(m.q, i, m.pcs[i].job, outcome).1);
    TotalBump(m.q.exposures, i);
  }

  lemma {:induction false} RecordedErrors(errors: Dict<Job, string>, job: Job, message: string, k: Job)
    ensures Get(ErrorRecorded(errors, job, message), k).Hit? ==> k == job || Get(errors, k).Hit?
    ensures |ErrorRecorded(errors, job, message)| <= PLOT_ERROR_CAP
  {
    hide Touch, Get;
    GetTouch(errors, job, message, k);
    GetTrim(Touch(errors, job, message), PLOT_ERROR_CAP, k);
  }

  lemma {:induction false} ReplyErrors(m: Machine, i: nat, outcome: Outcome)
    requires ErrorsOk(m) && Exclusive(m) && Enabled(m, Reply(i, outcome))
    ensures ErrorsOk(AfterReply(m, i, outcome))
  {
    hide ErrorRecorded, Without, Get, Live, Exclusive;
    var job, v := m.pcs[i].job, AfterReply(m, i, outcome);
    forall k | Get(v.q.errors, k).Hit? ensures !Live(v, k) {
      ReplyLive(m, i, outcome, k);
      GetWithout(m.q.errors, job, k);
      if !outcome.Drawn? {
        RecordedErrors(m.q.errors, job, outcome.message, k);
        RecordedErrors(m.q.errors, job, GaveUp(RetriesOf(m.q, job) + 1, outcome.message), k);
      }
    }
    WithoutShorter(m.q.errors, job);
    if !outcome.Drawn? {
      RecordedErrors(m.q.errors, job, outcome.message, job);
      RecordedErrors(m.q.errors, job, GaveUp(RetriesOf(m.q, job) + 1, outcome.message), job);
    }
  }

  lemma {:induction false} ReplyCounted(m: Machine, i: nat, outcome: Outcome)
    requires Counted(m) && Exclusive(m) && Enabled(m, Reply(i, outcome))
    ensures Counted(AfterReply(m, i, outcome))
  {
    hide ErrorRecorded, Without, Live;
    var job, v := m.pcs[i].job, AfterReply(m, i, outcome);
    forall k ensures Live(v, k) <==> Live(m, k) && !(k == job && (outcome.Drawn? || GivesUp(m.q, job, outcome))) {
      ReplyLive(m, i, outcome, k);
    }
    LiveAt(m, i);
    ExclusiveAt(m, i);
    forall j | 0 <= j < |v.pcs| && v.pcs[j].Drawing? ensures v.pcs[j] == m.pcs[j] && v.pcs[j].job != job {
      assert m.pcs[if i < j then i else j] != m.pcs[if i < j then j else i];
    }
  }

  lemma {:induction false} LiveAt(m: Machine, i: nat)
    requires i < |m.pcs| && m.pcs[i].Drawing?
    ensures Live(m, m.pcs[i].job)
  {
  }

  lemma {:induction false} ReplyKeeps(m: Machine, i: nat, outcome: Outcome)
    requires Inv(m) && Enabled(m, Reply(i, outcome))
    ensures Inv(AfterReply(m, i, outcome))
  {
    hide StackIsQueued, Exclusive, Listed, Counted, Conserved, ErrorsOk, ErrorRecorded, Without;
    ExclusiveAt(m, i);
    ReplyStack(m.q, i, m.pcs[i].job, outcome);
    ReplyExclusive(m, i, outcome);
    ReplyListed(m, i, outcome);
    ReplyConserved(m, i, outcome);
    ReplyCounted(m, i, outcome);
    ReplyErrors(m, i, outcome);
    assert !AfterReply(m, i, outcome).pcs[i].Parked?;
  }

  // ---------------------------------------------------------------- the end of a back-off

  lemma {:induction false} WakeKeeps(m: Machine, i: nat)
    requires Inv(m) && Enabled(m, Wake(i))
    ensures Inv(Next(m, Wake(i)))
  {
    hide Get, StackIsQueued, Live, Conserved;
    var v := Next(m, Wake(i));
    forall k ensures Live(v, k) == Live(m, k) {
      WakeLive(m, i, k);
    }
    WakeConserved(m, i);
    WakeStack(m, i);
    assert !v.pcs[i].Parked?;
  }

  lemma {:induction false} WakeStack(m: Machine, i: nat)
    requires StackIsQueued(m.q)
    ensures StackIsQueued(AtWake(m.q, i))
  {
  }

  lemma {:induction false} WakeLive(m: Machine, i: nat, k: Job)
    requires Enabled(m, Wake(i))
    ensures Live(Next(m, Wake(i)), k) == Live(m, k)
  {
    SameSends(m.pcs, i, Running, k);
  }

  lemma {:induction false} WakeConserved(m: Machine, i: nat)
    requires Conserved(m) && Enabled(m, Wake(i))
    ensures Conserved(Next(m, Wake(i)))
  {
    hide Outstanding;
    OutstandingSet(m.pcs, i, Running);
  }

  // ---------------------------------------------------------------- every run

  lemma {:induction false} NextKeeps(m: Machine, e: Event)
    requires Inv(m) && Enabled(m, e)
    ensures Inv(Next(m, e))
  {
    hide Inv, AfterReply, AfterEnqueue, AfterTop;
    match e {
      case Enqueue(job) =>
        if Enqueued(m.q, job).1 {
          EnqueueKeeps(m, job);
        } else {
          Refused(m, job);
        }
      case Top(i) =>
        if m.q.stack == [] {
          ParkKeeps(m, i);
        } else {
          TakeKeeps(m, i);
        }
      case Reply(i, outcome) => ReplyKeeps(m, i, outcome);
      case Wake(i) => WakeKeeps(m, i);
    }
  }

  lemma {:induction false} Refused(m: Machine, job: Job)
    requires !Enqueued(m.q, job).1
    ensures AfterEnqueue(m, job) == m
  {
  }

  /** The machine a sequence of events leads to, if each is enabled in turn. */
  ghost predicate Reaches(m: Machine, events: seq<Event>, end: Machine)
    decreases |events|
  {
    if events == [] then m == end
    else Enabled(m, events[0]) && Reaches(Next(m, events[0]), events[1..], end)
  }

  /** In every interleaving of any number of drains with enqueues, replies, lost children and back-offs:
      work is conserved, each job is waiting or out once and never both, no wakeup is lost, no job is
      sent more than six times, and no live job carries an error. */
  lemma {:induction false} EveryRunKeeps(m: Machine, events: seq<Event>, end: Machine)
    requires Inv(m) && Reaches(m, events, end)
    ensures Inv(end)
    decreases |events|
  {
    hide Inv, Next, Enabled;
    if events != [] {
      NextKeeps(m, events[0]);
      EveryRunKeeps(Next(m, events[0]), events[1..], end);
    }
  }

  // ---------------------------------------------------------------- the queue empties

  /** What is left to do for a job sent `n` times. */
  function Left(n: nat): int {
    3 * (PLOT_MAX_RETRIES - n)
  }

  function StackWork(stack: seq<Job>, sent: map<Job, nat>): int {
    if stack == [] then 0 else StackWork(stack[..|stack| - 1], sent) + Left(SentOf(sent, stack[|stack| - 1]))
  }

  function PcWork(pc: Pc, sent: map<Job, nat>): int {
    match pc
    case Parked => 0
    case Running => 1
    case Backoff(job) => 2
    case Drawing(job) => 3 + Left(SentOf(sent, job))
  }

  function DrainWork(pcs: seq<Pc>, sent: map<Job, nat>): int {
    if pcs == [] then 0 else DrainWork(pcs[..|pcs| - 1], sent) + PcWork(pcs[|pcs| - 1], sent)
  }

  /** The sends still possible, and the drains' places in their loops. */
  function Work(m: Machine): int {
    StackWork(m.q.stack, m.sent) + DrainWork(m.pcs, m.sent)
  }

  lemma {:induction false} WorkSet(pcs: seq<Pc>, i: nat, pc: Pc, sent: map<Job, nat>)
    requires i < |pcs|
    ensures DrainWork(pcs[i := pc], sent) == DrainWork(pcs, sent) - PcWork(pcs[i], sent) + PcWork(pc, sent)
  {
    var n := |pcs| - 1;
    if i < n {
      WorkSet(pcs[..n], i, pc, sent);
      assert pcs[i := pc][..n] == pcs[..n][i := pc];
    } else {
      assert pcs[i := pc][..n] == pcs[..n];
    }
  }

  lemma {:induction false} StackWorkElse(stack: seq<Job>, sent: map<Job, nat>, job: Job, n: nat)
    requires job !in stack
    ensures StackWork(stack, sent[job := n]) == StackWork(stack, sent)
  {
    if stack != [] {
      StackWorkElse(stack[..|stack| - 1], sent, job, n);
    }
  }

  lemma {:induction false} DrainWorkElse(pcs: seq<Pc>, sent: map<Job, nat>, job: Job, n: nat)
    requires !Sending(pcs, job)
    ensures DrainWork(pcs, sent[job := n]) == DrainWork(pcs, sent)
  {
    if pcs != [] {
      DrainWorkElse(pcs[..|pcs| - 1], sent, job, n);
    }
  }

  lemma {:induction false} WorkBounded(m: Machine)
    requires Bounded(m)
    ensures Work(m) >= 0
  {
    StackWorkBounded(m.q.stack, m.sent);
    DrainWorkBounded(m.pcs, m.sent);
  }

  lemma {:induction false} StackWorkBounded(stack: seq<Job>, sent: map<Job, nat>)
    requires forall job :: job in sent ==> sent[job] <= PLOT_MAX_RETRIES
    ensures StackWork(stack, sent) >= 0
  {
    if stack != [] {
      StackWorkBounded(stack[..|stack| - 1], sent);
    }
  }

  lemma {:induction false} DrainWorkBounded(pcs: seq<Pc>, sent: map<Job, nat>)
    requires forall job :: job in sent ==> sent[job] <= PLOT_MAX_RETRIES
    ensures DrainWork(pcs, sent) >= 0
  {
    if pcs != [] {
      DrainWorkBounded(pcs[..|pcs| - 1], sent);
    }
  }

  lemma {:induction false} TakeWorks(m: Machine, i: nat)
    requires Inv(m) && Enabled(m, Top(i)) && m.q.stack != []
    ensures Work(AfterTop(m, i)) < Work(m)
  {
    hide Listed, Counted, Conserved, ErrorsOk, NoLostWakeup, Bounded, Outstanding, DrainWork, SentOf;
    TakenTop(m.q);
    var job := m.q.stack[|m.q.stack| - 1];
    var n := SentOf(m.sent, job);
    DrainWorkElse(m.pcs, m.sent, job, n + 1);
    StackWorkElse(m.q.stack[..|m.q.stack| - 1], m.sent, job, n + 1);
    SentUpdated(m.sent, job, n + 1);
    WorkSet(m.pcs, i, Drawing(job), m.sent[job := n + 1]);
  }

  lemma {:induction false} SentUpdated(sent: map<Job, nat>, job: Job, n: nat)
    ensures SentOf(sent[job := n], job) == n
  {
  }

  lemma {:induction false} ReplyWorks(m: Machine, i: nat, outcome: Outcome)
    requires Inv(m) && Enabled(m, Reply(i, outcome))
    ensures Work(AfterReply(m, i, outcome)) < Work(m)
  {
    hide Listed, Exclusive, Counted, Conserved, ErrorsOk, NoLostWakeup, Outstanding, DrainWork, ErrorRecorded, Without;
    var job := m.pcs[i].job;
    WorkSet(m.pcs, i, AtReply(m.q, i, job, outcome).1, m.sent);
  }

  /** Every step that is not an enqueue uses some of the work up. */
  lemma {:induction false} NextWorks(m: Machine, e: Event)
    requires Inv(m) && Enabled(m, e) && !e.Enqueue?
    ensures 0 <= Work(Next(m, e)) < Work(m)
  {
    hide StackIsQueued, Exclusive, Listed, Counted, Conserved, ErrorsOk, NoLostWakeup, AfterReply, AfterTop, DrainWork, StackWork;
    NextKeeps(m, e);
    WorkBounded(Next(m, e));
    match e {
      case Top(i) =>
        if m.q.stack == [] {
          ParkKeeps(m, i);
          WorkSet(m.pcs, i, Parked, m.sent);
        } else {
          TakeWorks(m, i);
        }
      case Reply(i, outcome) => ReplyWorks(m, i, outcome);
      case Wake(i) => WorkSet(m.pcs, i, Running, m.sent);
    }
  }

  ghost predicate NoEnqueues(events: seq<Event>) {
    forall i :: 0 <= i < |events| ==> !events[i].Enqueue?
  }

  /** Once enqueues stop, only so many steps are left. */
  lemma {:induction false} RunIsShort(m: Machine, events: seq<Event>, end: Machine)
    requires Inv(m) && Reaches(m, events, end) && NoEnqueues(events)
    ensures |events| <= Work(m)
    decreases |events|
  {
    hide Inv, Next, Enabled, Work;
    if events == [] {
      WorkIsNat(m);
    } else {
      assert !events[0].Enqueue?;
      NextWorks(m, events[0]);
      NextKeeps(m, events[0]);
      assert NoEnqueues(events[1..]);
      RunIsShort(Next(m, events[0]), events[1..], end);
    }
  }

  lemma {:induction false} WorkIsNat(m: Machine)
    requires Inv(m)
    ensures Work(m) >= 0
  {
    WorkBounded(m);
  }

  ghost predicate Stuck(m: Machine) {
    forall e :: Enabled(m, e) ==> e.Enqueue?
  }

  /** A step of a drain that is not asleep. */
  function EventOf(pc: Pc, i: nat): Event {
    match pc
    case Drawing(_) => Reply(i, Drawn)
    case Backoff(_) => Wake(i)
    case _ => Top(i)
  }

  lemma {:induction false} AwakeEnabled(m: Machine, i: nat)
    requires Listed(m) && i < |m.pcs|
    ensures Enabled(m, EventOf(m.pcs[i], i)) <==> !m.pcs[i].Parked?
    ensures !EventOf(m.pcs[i], i).Enqueue?
  {
  }

  /** A pool at rest has nothing waiting and nothing out: every accepted job was drawn or was given an
      error. With `RunIsShort`, every run that enqueues no more comes to this within `Work` steps. */
  lemma {:induction false} RestIsDone(m: Machine)
    requires Inv(m) && Stuck(m)
    ensures m.q.stack == [] && m.q.queued == {} && Outstanding(m.pcs) == 0
    ensures m.accepted == Total(m.q.exposures) + m.failed
  {
    hide Exclusive, Counted, ErrorsOk, Bounded, Outstanding, Total;
    forall i: nat | i < |m.pcs| ensures m.pcs[i].Parked? {
      AwakeEnabled(m, i);
    }
    AllParked(m.pcs);
  }

  lemma {:induction false} AllParked(pcs: seq<Pc>)
    requires forall i: nat :: i < |pcs| ==> pcs[i].Parked?
    ensures Outstanding(pcs) == 0
  {
    if pcs != [] {
      AllParked(pcs[..|pcs| - 1]);
    }
  }

  // ---------------------------------------------------------------- how a job ends

  /** What one reply does to the job it is for: drawn, it is counted on that flight and leaves no error; with a
      fault of its own it gets that error at once; with no usable child it gets an error exactly at the sixth
      send, and otherwise is the next to be taken. */
  lemma {:induction false} ReplyDecides(m: Machine, i: nat, outcome: Outcome)
    requires Inv(m) && Enabled(m, Reply(i, outcome))
    ensures var job, v := m.pcs[i].job, Next(m, Reply(i, outcome));
            match outcome
            case Drawn => !Live(v, job) && Get(v.q.errors, job).Missing? && v.q.exposures == m.q.exposures[i := m.q.exposures[i] + 1]
            case Failed(message) => !Live(v, job) && Get(v.q.errors, job) == Hit(message) && v.q.exposures == m.q.exposures
            case NoChild(message) =>
              && v.q.exposures == m.q.exposures
              && (SentOf(m.sent, job) == PLOT_MAX_RETRIES ==>
                    !Live(v, job) && Get(v.q.errors, job) == Hit(GaveUp(PLOT_MAX_RETRIES, message)))
              && (SentOf(m.sent, job) != PLOT_MAX_RETRIES ==>
                    v.q.stack == m.q.stack + [job] && Get(v.q.errors, job).Missing?)
  {
    hide StackIsQueued, Listed, Conserved, NoLostWakeup, Live, Get, ErrorRecorded, Without, Exclusive;
    var job := m.pcs[i].job;
    ReplyLive(m, i, outcome, job);
    LiveAt(m, i);
    GetWithout(m.q.errors, job, job);
    if !outcome.Drawn? {
      Recorded(m.q.errors, job, outcome.message);
      Recorded(m.q.errors, job, GaveUp(PLOT_MAX_RETRIES, outcome.message));
    }
  }

  // ---------------------------------------------------------------- what the drawing list means

  ghost predicate BackingOff(pcs: seq<Pc>, job: Job) {
    exists i :: 0 <= i < |pcs| && pcs[i] == Backoff(job)
  }

  /** An enqueue is refused exactly when the pool has no flights, the job is waiting or out, or some drain
      is still sleeping off a failed attempt at it, even if another drain has drawn it since. */
  lemma {:induction false} RefusedWhen(m: Machine, job: Job)
    requires Listed(m)
    ensures !Enqueued(m.q, job).1 <==> |m.pcs| == 0 || Live(m, job) || BackingOff(m.pcs, job)
  {
    LiveIsBusy(m, job);
    if i :| 0 <= i < |m.pcs| && m.pcs[i] == Backoff(job) {
      assert m.q.drawing[i] == job;
    }
    if job in m.q.drawing.Values {
      var i :| i in m.q.drawing && m.q.drawing[i] == job;
      assert m.pcs[i] == Drawing(job) || m.pcs[i] == Backoff(job);
    }
  }

  predicate OneBacksOff(a: Pc, b: Pc, job: Job) {
    || (a == Backoff(job) && b == Backoff(job))
    || (a == Backoff(job) && b == Drawing(job))
    || (a == Drawing(job) && b == Backoff(job))
  }

  /** Two drains are listed with one job exactly when one of them is backing off from it and the other is
      backing off from it too or sending it; two that are sending never are. */
  lemma {:induction false} ListedTogether(m: Machine, i: nat, j: nat, job: Job)
    requires Inv(m) && i < j < |m.pcs|
    ensures (i in m.q.drawing && j in m.q.drawing && m.q.drawing[i] == job == m.q.drawing[j])
            <==> OneBacksOff(m.pcs[i], m.pcs[j], job)
  {
    hide StackIsQueued, Conserved, Counted, ErrorsOk, NoLostWakeup, Bounded;
    assert m.pcs[i].Drawing? ==> m.pcs[i] != m.pcs[j];
  }

  /** So the list of what is drawing can name one job twice: two flights, one attempt lost, and the other
      drain takes the job while the first is backing off. */
  lemma {:induction false} ListedTwice(job: Job, message: string)
    ensures var m := Next(Start(2), Enqueue(job));
            var a := AfterTop(m, 0);
            && Enabled(m, Top(0)) && Enabled(a, Reply(0, NoChild(message)))
            && var b := AfterReply(a, 0, NoChild(message));
            && Enabled(b, Top(1))
            && AfterTop(b, 1).q.drawing == map[0 := job, 1 := job]
  {
    var m := AfterEnqueue(Start(2), job);
    assert m.q.stack == [job] && m.pcs == [Running, Running];
    var a := AfterTop(m, 0);
    assert a.q.stack == [] && a.pcs == [Drawing(job), Running];
    var b := AfterReply(a, 0, NoChild(message));
    assert b.q.stack == [job] && b.pcs == [Backoff(job), Running];
  }
}
