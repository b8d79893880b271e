/** Many push handlers, one shared block, one coordinator child reading it in place. */
module SharedBlock {
  import opened Bytes
  import opened Wire
  import opened WireTheorems

  /** One push request. Two pushes of one job that both find it prepared are two of these, with two bodies. */
  type PushId = nat

  /** Where a push handler stands; everything from `Receiving` to `Lost` holds the push lock. */
  datatype Handler =
    | Waiting
    | Receiving(got: nat)
    | Dispatched(layout: seq<PartLayout>)
    | Sent(layout: seq<PartLayout>)
    | Answered
    | Lost
    | Finished

  datatype Child = Idle | Serving(push: PushId, layout: seq<PartLayout>) | Down

  datatype Command = Command(push: PushId, layout: seq<PartLayout>)

  datatype State = State(block: seq<Byte>, holder: set<PushId>, handlers: map<PushId, Handler>, pipe: seq<Command>, child: Child)

  /** One step between two awaits, of a handler or of the child. */
  datatype Step =
    | Acquire(j: PushId)
    | Absorb(j: PushId, n: nat)
    | Reject(j: PushId)
    | Dispatch(j: PushId)
    | Send(j: PushId)
    | Take
    | Reply
    | Die
    | Respawn
    | Finish(j: PushId)

  type Bodies = map<PushId, seq<Byte>>

  ghost function At(s: State, j: PushId): Handler {
    if j in s.handlers then s.handlers[j] else Waiting
  }

  ghost predicate InLock(h: Handler) {
    !h.Waiting? && !h.Finished?
  }

  ghost predicate Enabled(bodies: Bodies, s: State, step: Step) {
    match step
    case Acquire(j) => j in bodies && At(s, j).Waiting? && s.holder == {}
    case Absorb(j, n) => j in bodies && At(s, j).Receiving? && At(s, j).got + n <= |bodies[j]| && At(s, j).got + n <= |s.block|
    case Reject(j) => At(s, j).Receiving?
    case Dispatch(j) => j in bodies && At(s, j).Receiving? && At(s, j).got == |bodies[j]| <= |s.block|
                        && ParseLayout(s.block[..At(s, j).got]).Ok?
    case Send(j) => At(s, j).Dispatched? && !s.child.Down?
    case Take => s.child.Idle? && s.pipe != []
    case Reply => s.child.Serving?
    case Die => !s.child.Down?
    case Respawn => s.child.Down?
    case Finish(j) => At(s, j).Dispatched? || At(s, j).Answered? || At(s, j).Lost?
  }

  /** The handlers whose exchange is open when the child goes down. */
  ghost function AllLost(handlers: map<PushId, Handler>): map<PushId, Handler> {
    map j | j in handlers :: if handlers[j].Sent? then Lost else handlers[j]
  }

  ghost function Apply(bodies: Bodies, s: State, step: Step): State
    requires Enabled(bodies, s, step)
  {
    match step
    case Acquire(j) => s.(holder := {j}, handlers := s.handlers[j := Receiving(0)])
    case Absorb(j, n) =>
      var k := At(s, j).got;
      s.(block := s.block[..k] + bodies[j][k..k + n] + s.block[k + n..], handlers := s.handlers[j := Receiving(k + n)])
    case Reject(j) => s.(holder := {}, handlers := s.handlers[j := Finished])
    case Dispatch(j) => s.(handlers := s.handlers[j := Dispatched(ParseLayout(s.block[..At(s, j).got]).value)])
    case Send(j) =>
      s.(pipe := s.pipe + [Command(j, At(s, j).layout)], handlers := s.handlers[j := Sent(At(s, j).layout)])
    case Take => s.(child := Serving(s.pipe[0].push, s.pipe[0].layout), pipe := s.pipe[1..])
    case Reply => s.(child := Idle, handlers := s.handlers[s.child.push := Answered])
    case Die => s.(child := Down, pipe := [], handlers := AllLost(s.handlers))
    case Respawn => s.(child := Idle)
    case Finish(j) => s.(holder := {}, handlers := s.handlers[j := Finished])
  }

  ghost predicate Init(s: State) {
    s.holder == {} && s.handlers == map[] && s.pipe == [] && s.child.Down?
  }

  ghost predicate Run(bodies: Bodies, s: State, steps: seq<Step>, t: State)
    decreases |steps|
  {
    if steps == [] then s == t
    else Enabled(bodies, s, steps[0]) && Run(bodies, Apply(bodies, s, steps[0]), steps[1..], t)
  }

  // ---------------------------------------------------------------- the invariant

  /** The lock holder's bytes are in the block, as far as it has come. */
  ghost predicate HolderBytes(bodies: Bodies, s: State, j: PushId) {
    && j in bodies
    && match At(s, j)
       case Receiving(k) => k <= |bodies[j]| && k <= |s.block| && s.block[..k] == bodies[j][..k]
       case Dispatched(l) => Ready(bodies, s, j, l)
       case Sent(l) => Ready(bodies, s, j, l)
       case _ => true
  }

  ghost predicate Ready(bodies: Bodies, s: State, j: PushId, layout: seq<PartLayout>) {
    && j in bodies && |bodies[j]| <= |s.block| && s.block[..|bodies[j]|] == bodies[j]
    && ParseLayout(bodies[j]) == Ok(layout)
  }

  /** Commands that are in the pipe or being served. */
  ghost function Open(s: State): seq<Command> {
    if s.child.Serving? then [Command(s.child.push, s.child.layout)] + s.pipe else s.pipe
  }

  ghost predicate Inv(bodies: Bodies, s: State) {
    && (forall j {:trigger At(s, j)} :: InLock(At(s, j)) <==> j in s.holder)
    && (forall j {:trigger j in s.holder} :: j in s.holder ==> s.holder == {j} && HolderBytes(bodies, s, j))
    && |Open(s)| <= 1
    && (s.child.Down? ==> s.pipe == [])
    && (forall j {:trigger At(s, j)} :: At(s, j).Sent? ==> Open(s) == [Command(j, At(s, j).layout)])
    && (Open(s) != [] ==> At(s, Open(s)[0].push) == Sent(Open(s)[0].layout))
  }

  lemma {:induction false} InvHolder(bodies: Bodies, s: State, j: PushId)
    requires Inv(bodies, s) && InLock(At(s, j))
    ensures s.holder == {j} && HolderBytes(bodies, s, j)
    ensures forall k :: k != j ==> !InLock(At(s, k))
    ensures Open(s) == [] || At(s, j).Sent?
  {
    assert j in s.holder;
    forall k | k != j ensures !InLock(At(s, k)) {
      assert InLock(At(s, k)) ==> k in s.holder;
    }
    if Open(s) != [] {
      assert InLock(At(s, Open(s)[0].push));
    }
  }

  lemma {:induction false} InvInit(bodies: Bodies, s: State)
    requires Init(s)
    ensures Inv(bodies, s)
  {
  }

  /** Only the holder's own bookkeeping and bytes change. */
  lemma {:induction false} HolderStep(bodies: Bodies, s: State, t: State, j: PushId)
    requires Inv(bodies, s) && At(s, j) != At(t, j) && InLock(At(t, j)) && HolderBytes(bodies, t, j)
    requires s.holder <= {j} && t.holder == {j}
    requires forall k :: k != j ==> At(t, k) == At(s, k)
    requires |Open(t)| <= 1 && (t.child.Down? ==> t.pipe == [])
    requires if At(t, j).Sent? then Open(t) == [Command(j, At(t, j).layout)] else Open(t) == []
    ensures Inv(bodies, t)
  {
    forall k ensures InLock(At(t, k)) <==> k in t.holder {
      assert k != j ==> (InLock(At(s, k)) <==> k in s.holder);
    }
    forall k | At(t, k).Sent? ensures Open(t) == [Command(k, At(t, k).layout)] {
      assert InLock(At(t, k));
    }
  }

  lemma {:induction false} AcquireKeeps(bodies: Bodies, s: State, j: PushId)
    requires Inv(bodies, s) && Enabled(bodies, s, Acquire(j))
    ensures Inv(bodies, Apply(bodies, s, Acquire(j)))
  {
    var t := Apply(bodies, s, Acquire(j));
    if Open(s) != [] {
      assert InLock(At(s, Open(s)[0].push));
    }
    assert t.block[..0] == bodies[j][..0];
    HolderStep(bodies, s, t, j);
  }

  lemma {:induction false} AbsorbKeeps(bodies: Bodies, s: State, j: PushId, n: nat)
    requires Inv(bodies, s) && Enabled(bodies, s, Absorb(j, n))
    ensures Inv(bodies, Apply(bodies, s, Absorb(j, n)))
  {
    var t, k := Apply(bodies, s, Absorb(j, n)), At(s, j).got;
    InvHolder(bodies, s, j);
    assert t.block[..k + n] == s.block[..k] + bodies[j][k..k + n];
    assert bodies[j][..k + n] == bodies[j][..k] + bodies[j][k..k + n];
    if n == 0 {
      assert t.block == s.block && t.handlers[j] == s.handlers[j];
      assert forall i :: At(t, i) == At(s, i);
    } else {
      HolderStep(bodies, s, t, j);
    }
  }

  lemma {:induction false} DispatchKeeps(bodies: Bodies, s: State, j: PushId)
    requires Inv(bodies, s) && Enabled(bodies, s, Dispatch(j))
    ensures Inv(bodies, Apply(bodies, s, Dispatch(j)))
  {
    hide ParseLayout;
    InvHolder(bodies, s, j);
    assert bodies[j][..|bodies[j]|] == bodies[j];
    HolderStep(bodies, s, Apply(bodies, s, Dispatch(j)), j);
  }

  lemma {:induction false} SendKeeps(bodies: Bodies, s: State, j: PushId)
    requires Inv(bodies, s) && Enabled(bodies, s, Send(j))
    ensures Inv(bodies, Apply(bodies, s, Send(j)))
  {
    hide ParseLayout;
    InvHolder(bodies, s, j);
    HolderStep(bodies, s, Apply(bodies, s, Send(j)), j);
  }

  lemma {:induction false} TakeKeeps(bodies: Bodies, s: State)
    requires Inv(bodies, s) && Enabled(bodies, s, Take)
    ensures Inv(bodies, Apply(bodies, s, Take))
  {
    hide ParseLayout;
    var t := Apply(bodies, s, Take);
    assert Open(t) == Open(s);
    assert forall k :: At(t, k) == At(s, k);
    assert forall k :: HolderBytes(bodies, s, k) ==> HolderBytes(bodies, t, k);
  }

  lemma {:induction false} ReplyKeeps(bodies: Bodies, s: State)
    requires Inv(bodies, s) && Enabled(bodies, s, Reply)
    ensures Inv(bodies, Apply(bodies, s, Reply))
  {
    hide ParseLayout;
    var j := s.child.push;
    assert At(s, j).Sent?;
    InvHolder(bodies, s, j);
    HolderStep(bodies, s, Apply(bodies, s, Reply), j);
  }

  lemma {:induction false} DieKeeps(bodies: Bodies, s: State)
    requires Inv(bodies, s) && Enabled(bodies, s, Die)
    ensures Inv(bodies, Apply(bodies, s, Die))
  {
    hide ParseLayout;
    var t := Apply(bodies, s, Die);
    assert forall k :: At(t, k) == if At(s, k).Sent? then Lost else At(s, k);
    assert forall k :: InLock(At(t, k)) <==> InLock(At(s, k));
    forall k | k in t.holder ensures t.holder == {k} && HolderBytes(bodies, t, k) {
      assert k in s.holder;
    }
  }

  lemma {:induction false} RespawnKeeps(bodies: Bodies, s: State)
    requires Inv(bodies, s) && Enabled(bodies, s, Respawn)
    ensures Inv(bodies, Apply(bodies, s, Respawn))
  {
    hide ParseLayout;
    var t := Apply(bodies, s, Respawn);
    assert forall k :: At(t, k) == At(s, k);
    assert forall k :: HolderBytes(bodies, s, k) ==> HolderBytes(bodies, t, k);
  }

  lemma {:induction false} ReleaseKeeps(bodies: Bodies, s: State, step: Step)
    requires Inv(bodies, s) && Enabled(bodies, s, step) && (step.Reject? || step.Finish?)
    ensures Inv(bodies, Apply(bodies, s, step))
  {
    hide ParseLayout;
    var t := Apply(bodies, s, step);
    InvHolder(bodies, s, step.j);
    assert Open(t) == Open(s) == [];
    assert forall k :: k != step.j ==> At(t, k) == At(s, k);
  }

  lemma {:induction false} StepKeeps(bodies: Bodies, s: State, step: Step)
    requires Inv(bodies, s) && Enabled(bodies, s, step)
    ensures Inv(bodies, Apply(bodies, s, step))
  {
    hide Inv, Apply, Enabled;
    match step
    case Acquire(j) => AcquireKeeps(bodies, s, j);
    case Absorb(j, n) => AbsorbKeeps(bodies, s, j, n);
    case Dispatch(j) => DispatchKeeps(bodies, s, j);
    case Send(j) => SendKeeps(bodies, s, j);
    case Take => TakeKeeps(bodies, s);
    case Reply => ReplyKeeps(bodies, s);
    case Die => DieKeeps(bodies, s);
    case Respawn => RespawnKeeps(bodies, s);
    case Reject(_) => ReleaseKeeps(bodies, s, step);
    case Finish(_) => ReleaseKeeps(bodies, s, step);
  }

  lemma {:induction false} RunKeeps(bodies: Bodies, s: State, steps: seq<Step>, t: State)
    requires Inv(bodies, s) && Run(bodies, s, steps, t)
    ensures Inv(bodies, t)
    decreases |steps|
  {
    hide Inv, Apply, Enabled;
    if steps != [] {
      StepKeeps(bodies, s, steps[0]);
      RunKeeps(bodies, Apply(bodies, s, steps[0]), steps[1..], t);
    }
  }

  // ---------------------------------------------------------------- what the child reads

  lemma {:induction false} CutOfPrefix(layout: seq<PartLayout>, block: seq<Byte>, body: seq<Byte>)
    requires |body| <= |block| && block[..|body|] == body
    requires forall i :: 0 <= i < |layout| ==> layout[i].offset + layout[i].byteCount <= |body|
    ensures Cut(layout, block) == Cut(layout, body)
  {
    if layout != [] {
      var last := layout[|layout| - 1];
      CutOfPrefix(layout[..|layout| - 1], block, body);
      SliceOfPrefix(block, |body|, last.offset, last.offset + last.byteCount);
    }
  }

  /** In every interleaving of handlers, child deaths and respawns: while the child serves a push,
      the block starts with exactly that push's body, the layout is the body's own parse, and the
      parts it cuts out of the block are those of the body, whatever earlier pushes left behind. */
  lemma {:induction false} ServedFromOwnBody(bodies: Bodies, s: State, steps: seq<Step>, t: State)
    requires Init(s) && Run(bodies, s, steps, t) && t.child.Serving?
    ensures Ready(bodies, t, t.child.push, t.child.layout)
    ensures UnpackBlob(bodies[t.child.push]) == Ok(Cut(t.child.layout, t.block))
  {
    hide ParseLayout;
    InvInit(bodies, s);
    RunKeeps(bodies, s, steps, t);
    var j, body := t.child.push, bodies[t.child.push];
    assert At(t, j) == Sent(t.child.layout);
    InvHolder(bodies, t, j);
    LayoutInside(body, t.child.layout);
    CutOfPrefix(t.child.layout, t.block, body);
  }

  lemma {:induction false} LayoutInside(body: seq<Byte>, layout: seq<PartLayout>)
    requires ParseLayout(body) == Ok(layout)
    ensures forall i :: 0 <= i < |layout| ==> layout[i].offset + layout[i].byteCount <= |body|
  {
    ParserSound(body);
  }

  /** End to end: what the child decodes from the shared block is what the push's producer packed. */
  lemma {:induction false} ServedPartsArePacked(bodies: Bodies, s: State, steps: seq<Step>, t: State, parts: seq<Part>)
    requires Init(s) && Run(bodies, s, steps, t) && t.child.Serving?
    requires t.child.push in bodies && PackBlob(parts) == Ok(bodies[t.child.push])
    ensures Cut(t.child.layout, t.block) == ToMap(parts)
  {
    hide Run, PackBlob, UnpackBlob, Cut, ToMap, Init, Ready;
    ServedFromOwnBody(bodies, s, steps, t);
    RoundTrip(parts, bodies[t.child.push], []);
    assert bodies[t.child.push] + [] == bodies[t.child.push];
  }
}
