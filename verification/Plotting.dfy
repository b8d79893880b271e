/** Jobs waiting to be drawn, newest first, and what one drain loop does to them between two awaits. */
module Plotting {
  import opened Lru

  type Job = string

  const PLOT_MAX_RETRIES: nat := 6
  const PLOT_ERROR_CAP: nat := 256

  /** Where a drain stands when it yields: about to look for work, asleep on the shared event, waiting for
      its flight's reply, or sleeping off an unusable flight. */
  datatype Pc = Running | Parked | Drawing(job: Job) | Backoff(job: Job)

  /** How a sent job came back: drawn; refused or failed for a reason of its own; or no usable child. */
  datatype Outcome = Drawn | Failed(message: string) | NoChild(message: string)

  datatype Queue = Queue(
    stack: seq<Job>,
    queued: set<Job>,
    drawing: map<nat, Job>,
    wake: bool,
    errors: Dict<Job, string>,
    retries: map<Job, nat>,
    exposures: seq<nat>)

  function Empty(flights: nat): Queue {
    Queue([], {}, map[], false, [], map[], seq(flights, i => 0))
  }

  predicate Busy(q: Queue, job: Job) {
    job in q.queued || job in q.drawing.Values
  }

  /** Enqueueing: refused by a pool with no flights, and for a job already queued or still listed as
      drawing. */
  function Enqueued(q: Queue, job: Job): (Queue, bool) {
    if |q.exposures| == 0 || Busy(q, job) then (q, false)
    else (q.(queued := q.queued + {job}, stack := q.stack + [job], errors := Without(q.errors, job), wake := true), true)
  }

  /** The newest stacked job that is also queued; stale entries above it are dropped. */
  function Taken(q: Queue): (Queue, Found<Job>)
    decreases |q.stack|
  {
    if q.stack == [] then (q, Missing) else
      var job := q.stack[|q.stack| - 1];
      var rest := q.(stack := q.stack[..|q.stack| - 1]);
      if job in q.queued then (rest.(queued := q.queued - {job}), Hit(job)) else Taken(rest)
  }

  function ErrorRecorded(errors: Dict<Job, string>, job: Job, message: string): Dict<Job, string> {
    Trim(Touch(errors, job, message), PLOT_ERROR_CAP)
  }

  function Decimal(n: nat): string {
    (if n < 10 then "" else Decimal(n / 10)) + ["0123456789"[n % 10]]
  }

  function GaveUp(tries: nat, message: string): string {
    "gave up after " + Decimal(tries) + " attempts: " + message
  }

  function RetriesOf(q: Queue, job: Job): nat {
    if job in q.retries then q.retries[job] else 0
  }

  /** From the top of the loop to the next await. */
  function AtTop(q: Queue, i: nat): (Queue, Pc) {
    var (t, found) := Taken(q);
    match found
    case Hit(job) => (t.(drawing := t.drawing[i := job]), Drawing(job))
    case Missing =>
      var cleared := t.(wake := false);
      (cleared, if cleared.stack == [] && !cleared.wake then Parked else Running)
  }

  /** The reply ends the job in an error. */
  predicate GivesUp(q: Queue, job: Job, outcome: Outcome) {
    outcome.Failed? || (outcome.NoChild? && RetriesOf(q, job) + 1 >= PLOT_MAX_RETRIES)
  }

  /** From the flight's answer to the next await. Only the back-off leaves the job listed as drawing. */
  function AtReply(q: Queue, i: nat, job: Job, outcome: Outcome): (Queue, Pc)
    requires i < |q.exposures|
  {
    match outcome
    case Drawn =>
      (q.(retries := q.retries - {job}, exposures := q.exposures[i := q.exposures[i] + 1], drawing := q.drawing - {i}), Running)
    case Failed(message) =>
      (q.(retries := q.retries - {job}, errors := ErrorRecorded(q.errors, job, message), drawing := q.drawing - {i}), Running)
    case NoChild(message) =>
      var tries := RetriesOf(q, job) + 1;
      (if tries >= PLOT_MAX_RETRIES then
         q.(retries := q.retries - {job}, errors := ErrorRecorded(q.errors, job, GaveUp(tries, message)))
       else
         q.(retries := q.retries[job := tries], queued := q.queued + {job}, stack := q.stack + [job], errors := Without(q.errors, job)),
       Backoff(job))
  }

  /** After the back-off. */
  function AtWake(q: Queue, i: nat): Queue {
    q.(drawing := q.drawing - {i})
  }

  /** The stack and the set hold the same jobs, each once. */
  ghost predicate StackIsQueued(q: Queue) {
    && Distinct(q.stack)
    && forall job {:trigger job in q.queued} {:trigger job in q.stack} :: job in q.queued <==> job in q.stack
  }

  lemma {:induction false} PushStack(q: Queue, job: Job)
    requires StackIsQueued(q) && job !in q.queued
    ensures StackIsQueued(q.(stack := q.stack + [job], queued := q.queued + {job}))
  {
    assert job !in q.stack;
  }

  lemma {:induction false} TakenTop(q: Queue)
    requires StackIsQueued(q)
    ensures if q.stack == [] then Taken(q) == (q, Missing) else
              var job := q.stack[|q.stack| - 1];
              && Taken(q) == (q.(stack := q.stack[..|q.stack| - 1], queued := q.queued - {job}), Hit(job))
              && job in q.queued
              && StackIsQueued(Taken(q).0)
  {
    if q.stack != [] {
      var n := |q.stack| - 1;
      var job := q.stack[n];
      assert job in q.stack;
      assert q.stack == q.stack[..n] + [job];
      assert job !in q.stack[..n];
    }
  }

  /** Recording one error makes it the newest and keeps every other, but for the oldest when the log was
      full. */
  lemma {:induction false} RecordKeeps(errors: Dict<Job, string>, job: Job, message: string, k: Job)
    ensures var after := ErrorRecorded(errors, job, message);
            && Keys(after) == Trim(Drop(Keys(errors), job) + [job], PLOT_ERROR_CAP)
            && (k in Keys(after) ==> Get(after, k) == if k == job then Hit(message) else Get(errors, k))
            && (|errors| < PLOT_ERROR_CAP && k != job ==> Get(after, k) == Get(errors, k))
  {
    hide Keys, Touch, Drop, Get;
    var t := Touch(errors, job, message);
    KeysTouch(errors, job, message, PLOT_ERROR_CAP);
    GetTouch(errors, job, message, k);
    GetTrim(t, PLOT_ERROR_CAP, k);
    HitIsKey(ErrorRecorded(errors, job, message), k);
    TouchSize(errors, job, message);
  }

  lemma {:induction false} TouchSize<K, V>(d: Dict<K, V>, k: K, v: V)
    ensures |Touch(d, k, v)| <= |d| + 1
  {
    WithoutShorter(d, k);
  }

  /** A job that comes back goes on top of a stack that stays sound. */
  lemma {:induction false} ReplyStack(q: Queue, i: nat, job: Job, outcome: Outcome)
    requires StackIsQueued(q) && job !in q.queued && i < |q.exposures|
    ensures StackIsQueued(AtReply(q, i, job, outcome).0)
  {
    hide ErrorRecorded, Without;
    PushStack(q, job);
  }

  lemma {:induction false} Recorded(errors: Dict<Job, string>, job: Job, message: string)
    ensures Get(ErrorRecorded(errors, job, message), job) == Hit(message)
  {
    var t := Touch(errors, job, message);
    assert t[|t| - 1] == (job, message);
  }

  class PlotQueue {
    var stack: seq<Job>
    var queued: set<Job>
    var drawing: map<nat, Job>
    var wake: bool
    var errors: Dict<Job, string>
    var retries: map<Job, nat>
    var exposures: seq<nat>

    ghost function Abs(): Queue
      reads this
    {
      Queue(stack, queued, drawing, wake, errors, retries, exposures)
    }

    constructor (flights: nat)
      ensures Abs() == Empty(flights)
    {
      stack, queued, drawing, wake := [], {}, map[], false;
      errors, retries, exposures := [], map[], seq(flights, i => 0);
    }

    method Enqueue(job: Job) returns (ok: bool)
      modifies this
      ensures (Abs(), ok) == Enqueued(old(Abs()), job)
      ensures StackIsQueued(old(Abs())) ==> StackIsQueued(Abs())
      ensures ok ==> stack == old(stack) + [job] && job in queued && Get(errors, job).Missing? && wake
      ensures !ok ==> Abs() == old(Abs())
    {
      hide Without, Get;
      GetWithout(errors, job, job);
      if StackIsQueued(Abs()) && job !in queued {
        PushStack(Abs(), job);
      }
      if |exposures| == 0 {
        return false;
      }
      if job in queued || job in drawing.Values {
        return false;
      }
      queued := queued + {job};
      stack := stack + [job];
      errors := Without(errors, job);
      wake := true;
      ok := true;
    }

    method Take() returns (r: Found<Job>)
      modifies this`stack, this`queued
      ensures (Abs(), r) == Taken(old(Abs()))
      ensures StackIsQueued(old(Abs())) ==>
                && StackIsQueued(Abs())
                && (if old(stack) == [] then r.Missing?
                    else r == Hit(old(stack)[|old(stack)| - 1]) && stack == old(stack)[..|old(stack)| - 1])
    {
      if StackIsQueued(Abs()) {
        TakenTop(Abs());
      }
      while stack != []
        invariant Taken(Abs()) == Taken(old(Abs()))
        decreases |stack|
      {
        var job := stack[|stack| - 1];
        stack := stack[..|stack| - 1];
        if job in queued {
          queued := queued - {job};
          return Hit(job);
        }
      }
      r := Missing;
    }

    method RecordError(job: Job, message: string)
      modifies this`errors
      ensures errors == ErrorRecorded(old(errors), job, message)
      ensures |errors| <= PLOT_ERROR_CAP && Get(errors, job) == Hit(message)
    {
      Recorded(errors, job, message);
      errors := Touch(errors, job, message);
      errors := Evict(errors, PLOT_ERROR_CAP);
    }

    /** Clear, then look again: with no await between, a drain sleeps only on an empty stack. */
    method DrainTop(i: nat) returns (pc: Pc)
      modifies this
      ensures (Abs(), pc) == AtTop(old(Abs()), i)
      ensures StackIsQueued(old(Abs())) ==>
                && StackIsQueued(Abs())
                && pc == if old(stack) == [] then Parked else Drawing(old(stack)[|old(stack)| - 1])
    {
      var found := Take();
      if found.Missing? {
        wake := false;
        if stack == [] && !wake {
          return Parked;
        }
        return Running;
      }
      drawing := drawing[i := found.value];
      pc := Drawing(found.value);
    }

    method DrainReply(i: nat, job: Job, outcome: Outcome) returns (pc: Pc)
      requires i < |exposures|
      modifies this
      ensures (Abs(), pc) == AtReply(old(Abs()), i, job, outcome)
      ensures StackIsQueued(old(Abs())) && job !in old(queued) ==> StackIsQueued(Abs())
      ensures GivesUp(old(Abs()), job, outcome) ==> stack == old(stack) && Get(errors, job).Hit? && exposures == old(exposures)
      ensures outcome.Drawn? ==> stack == old(stack) && errors == old(errors) && exposures[i] == old(exposures)[i] + 1
      ensures !outcome.Drawn? && !GivesUp(old(Abs()), job, outcome) ==>
                stack == old(stack) + [job] && Get(errors, job).Missing? && exposures == old(exposures)
    {
      hide Without, Get, ErrorRecorded, StackIsQueued;
      GetWithout(errors, job, job);
      if StackIsQueued(Abs()) && job !in queued {
        ReplyStack(Abs(), i, job, outcome);
      }
      match outcome {
        case Drawn =>
          retries := retries - {job};
          exposures := exposures[i := exposures[i] + 1];
        case Failed(message) =>
          retries := retries - {job};
          RecordError(job, message);
        case NoChild(message) =>
          var tries := (if job in retries then retries[job] else 0) + 1;
          if tries >= PLOT_MAX_RETRIES {
            retries := retries - {job};
            RecordError(job, GaveUp(tries, message));
          } else {
            retries := retries[job := tries];
            queued := queued + {job};
            stack := stack + [job];
            errors := Without(errors, job);
          }
          return Backoff(job);
      }
      drawing := drawing - {i};
      pc := Running;
    }

    method DrainWake(i: nat)
      modifies this`drawing
      ensures Abs() == AtWake(old(Abs()), i)
    {
      drawing := drawing - {i};
    }
  }
}
