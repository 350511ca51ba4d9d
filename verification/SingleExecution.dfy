/**
 Single execution: in every run in which a fiber gives out at most one wake-up handle and
 then parks by a plain `swapOut` or ends, no fiber is ever inside two workers and no assertion
 of `reset`, `swapIn`, `addEvent` or the yields fails. If no fiber ends after giving out its
 handle, no handle of an ended fiber is ever left.
 */
module SingleExecution {
  import opened Prelude
  import opened SchedulerModel
  import opened SchedulerFacts

  // ---- handles and owners ------------------------------------------------------------------

  /** How many entries of the list are handles of f. */
  function InQueue(q: seq<Task>, f: FiberId): nat {
    if q == [] then 0 else (if q[0].work == Fib(f) then 1 else 0) + InQueue(q[1..], f)
  }

  lemma {:induction false} InQueueConcat(a: seq<Task>, b: seq<Task>, f: FiberId)
    ensures InQueue(a + b, f) == InQueue(a, f) + InQueue(b, f)
  {
    if a == [] {
      assert a + b == b;
    } else {
      assert (a + b)[1..] == a[1..] + b;
      InQueueConcat(a[1..], b, f);
    }
  }

  lemma {:induction false} InQueueBatch(n: nat, cbs: seq<CallbackId>, f: FiberId)
    ensures InQueue(Batch(n, cbs), f) == 0
    decreases |cbs|
  {
    if cbs != [] {
      InQueueBatch(n + 1, cbs[1..], f);
      assert Batch(n, cbs)[1..] == Batch(n + 1, cbs[1..]);
    }
  }

  lemma InQueueWithout(q: seq<Task>, i: nat, f: FiberId)
    requires i < |q|
    ensures InQueue(Without(q, i), f) + (if q[i].work == Fib(f) then 1 else 0) == InQueue(q, f)
  {
    assert q == q[..i] + ([q[i]] + q[i + 1..]);
    InQueueConcat(q[..i], [q[i]] + q[i + 1..], f);
    InQueueConcat([q[i]], q[i + 1..], f);
    InQueueConcat(q[..i], q[i + 1..], f);
  }

  /** Handles of f that somebody may still pick up or schedule. */
  function Handles(m: Mem, f: FiberId): nat {
    InQueue(m.tasks.queue, f) + m.io.slots[Fib(f)] + m.held[f]
  }

  /** The fiber a worker has dequeued and not yet looked at. */
  function Picks(pc: Pc): Option<FiberId> {
    match pc
    case Picked(t) => if t.work.Fib? then Some(t.work.f) else None
    case Counted(t) => if t.work.Fib? then Some(t.work.f) else None
    case _ => None
  }

  /** The fiber a worker is swapping in, running, or finishing with. */
  function Grip(pc: Pc): Option<FiberId> {
    match pc
    case Entering(f, _) => Some(f)
    case Admitted(f, _) => Some(f)
    case Inside(f, _, _, _) => Some(f)
    case Leaving(f, _) => Some(f)
    case Returned(f, _) => Some(f)
    case Uncounted(f, _) => Some(f)
    case Requeue(f, _) => Some(f)
    case Recheck(f, _) => Some(f)
    case Parking(f, _) => Some(f)
    case Retire(f) => Some(f)
    case _ => None
  }

  /** Is the fiber the worker's own callback fiber? */
  predicate OwnGrip(pc: Pc) {
    match pc
    case Entering(_, own) => own
    case Admitted(_, own) => own
    case Inside(_, own, _, _) => own
    case Leaving(_, own) => own
    case Returned(_, own) => own
    case Uncounted(_, own) => own
    case Requeue(_, own) => own
    case Recheck(_, own) => own
    case Parking(_, own) => own
    case Retire(_) => true
    case _ => false
  }

  /** How a worker can have hold of a fiber: as its own callback fiber, otherwise, or only as a task in hand. */
  datatype Kind = Own | Plain | Soft

  /** Is the worker busy with f, or keeping it as its spare callback fiber? */
  predicate Busy(me: Worker, f: FiberId) {
    Grip(me.pc) == Some(f) || me.pool == Some(f)
  }

  function Part(kind: Kind, me: Worker, f: FiberId): nat {
    match kind
    case Own => if Grip(me.pc) == Some(f) && OwnGrip(me.pc) then 1 else 0
    case Plain =>
      (if Grip(me.pc) == Some(f) && !OwnGrip(me.pc) then 1 else 0) + (if me.pool == Some(f) then 1 else 0)
    case Soft => if Picks(me.pc) == Some(f) then 1 else 0
  }

  function Owners(kind: Kind, ws: seq<Worker>, f: FiberId): nat {
    if ws == [] then 0 else Part(kind, ws[0], f) + Owners(kind, ws[1..], f)
  }

  lemma {:induction false} OwnersUpdate(kind: Kind, ws: seq<Worker>, w: nat, x: Worker, f: FiberId)
    requires w < |ws|
    ensures Owners(kind, ws[w := x], f) + Part(kind, ws[w], f) == Owners(kind, ws, f) + Part(kind, x, f)
  {
    if w == 0 {
      assert ws[w := x][1..] == ws[1..];
    } else {
      assert ws[w := x][1..] == ws[1..][w - 1 := x];
      OwnersUpdate(kind, ws[1..], w - 1, x, f);
    }
  }

  lemma {:induction false} OwnersAtLeast(kind: Kind, ws: seq<Worker>, i: nat, j: nat, f: FiberId)
    requires i < |ws| && j < |ws|
    ensures Part(kind, ws[i], f) <= Owners(kind, ws, f)
    ensures i < j ==> Part(kind, ws[i], f) + Part(kind, ws[j], f) <= Owners(kind, ws, f)
  {
    if i == 0 {
      if j > 0 { OwnersAtLeast(kind, ws[1..], j - 1, j - 1, f); }
    } else if i <= j {
      OwnersAtLeast(kind, ws[1..], i - 1, j - 1, f);
    } else {
      OwnersAtLeast(kind, ws[1..], i - 1, i - 1, f);
    }
  }

  lemma {:induction false} NoOwners(kind: Kind, ws: seq<Worker>, f: FiberId)
    requires forall w :: 0 <= w < |ws| ==> Part(kind, ws[w], f) == 0
    ensures Owners(kind, ws, f) == 0
  {
    if ws != [] {
      assert forall w :: 0 <= w < |ws[1..]| ==> ws[1..][w] == ws[w + 1];
      NoOwners(kind, ws[1..], f);
    }
  }

  // ---- the invariant -------------------------------------------------------------------------

  /**
   One worker at most is busy with a fiber. Beside it there is one handle at most, while the
   fiber runs or after it has ended; an ended callback fiber has none, because it is used again.
   In a strict run an ended fiber never has one.
   */
  predicate Single(strict: bool, m: Mem, own: nat, plain: nat, soft: nat, f: FiberId) {
    var st, handles := FiberOf(m, f), soft + Handles(m, f);
    && own + plain <= 1
    && (f >= |m.fibers| ==> own + plain == 0 && handles == 0)
    && (if st == EXEC then own + plain == 1 && soft == 0 && handles <= 1
        else if Over(st) then (if strict then handles == 0 else own + handles <= 1)
        else own + plain + handles <= 1)
  }

  /** What the worker's program counter says about the state of the fiber. */
  predicate Fits(me: Worker, m: Mem, f: FiberId) {
    var st := FiberOf(m, f);
    && (me.pool == Some(f) ==> st == INIT)
    && (Picks(me.pc) == Some(f) ==> st != EXEC)
    && (Grip(me.pc) == Some(f) ==>
          match me.pc
          case Entering(_, own) => st != EXEC && !Over(st) && (own ==> st == INIT)
          case Admitted(_, own) => st != EXEC && !Over(st) && (own ==> st == INIT)
          case Inside(_, _, gave, _) => st == EXEC && (!gave ==> Handles(m, f) == 0)
          case Leaving(_, _) => st != INIT
          case Returned(_, _) => st != INIT
          case Uncounted(_, _) => st != INIT
          case Requeue(_, _) => st == READY
          case Recheck(_, _) => st == EXEC || st == HOLD || Over(st)
          case Parking(_, _) => st == EXEC || st == HOLD
          case Retire(_) => Over(st)
          case _ => true)
  }

  /** The idle fiber is EXEC exactly while it runs or its end is being looked at. */
  predicate IdleFits(me: Worker) {
    if InIdle(me.pc) then me.idle == EXEC
    else if me.pc.IdleReturned? || me.pc.IdleDiscounted? then me.idle == EXEC || me.idle == TERM
    else me.idle == INIT || me.idle == HOLD || me.idle == TERM
  }

  ghost predicate SoundFor(strict: bool, s: State, f: FiberId) {
    Single(strict, s.m, Owners(Own, s.ws, f), Owners(Plain, s.ws, f), Owners(Soft, s.ws, f), f) && forall w :: 0 <= w < |s.ws| ==> Fits(s.ws[w], s.m, f)
  }

  ghost predicate Sound(strict: bool, s: State) {
    && !s.m.crashed
    && (forall f :: SoundFor(strict, s, f))
    && (forall w :: 0 <= w < |s.ws| ==> IdleFits(s.ws[w]))
  }

  /**
   The discipline: a fiber gives out its own handle at most once, to whomever, and then leaves
   by `Park` or ends; a callback's own fiber, which is used again, must not end then. Nobody
   else schedules its handles but those entrusted with one. In a strict run no fiber ends
   after giving out its handle.
   */
  predicate Disciplined(strict: bool, s: State, a: Action) {
    match a
    case Outside(op) => !op.Share?
    case User(w, op) => w < |s.ws| && s.ws[w].pc.Inside? ==> Polite(strict, s.ws[w].pc, op)
    case _ => true
  }

  predicate Polite(strict: bool, pc: Pc, op: Op)
    requires pc.Inside?
  {
    match op
    case Share(g, _) => g == pc.f && !pc.gave
    case Give | WatchSelf | YieldReady | YieldHold => !pc.gave
    case Finish(_) => !pc.gave || (!strict && !pc.own)
    case _ => true
  }

  // ---- one worker's step ---------------------------------------------------------------------

  lemma PushHandles(m: Mem, work: Work, thread: int, f: FiberId)
    ensures Handles(Push(m, work, thread), f) == Handles(m, f) + if work == Fib(f) then 1 else 0
  {
    InQueueConcat(m.tasks.queue, [Task(work, thread, |m.tasks.issued|)], f);
  }

  /** With o, p and q workers elsewhere that have hold of f in the three ways, the step keeps the claims about f. */
  ghost predicate Keeps(strict: bool, me: Worker, m: Mem, me1: Worker, m1: Mem, o: nat, p: nat, q: nat, f: FiberId) {
    && Single(strict, m1, o + Part(Own, me1, f), p + Part(Plain, me1, f), q + Part(Soft, me1, f), f)
    && Fits(me1, m1, f)
    && (!Busy(me, f) ==> Undisturbed(m, m1, f))
  }

  /** For a fiber somebody else is busy with. */
  predicate Undisturbed(m: Mem, m1: Mem, f: FiberId) {
    f < |m.fibers| ==> FiberOf(m1, f) == FiberOf(m, f) && Handles(m1, f) <= Handles(m, f)
  }

  ghost predicate Ready(strict: bool, me: Worker, m: Mem, o: nat, p: nat, q: nat, f: FiberId) {
    Single(strict, m, o + Part(Own, me, f), p + Part(Plain, me, f), q + Part(Soft, me, f), f) && Fits(me, m, f)
  }

  lemma PickKeeps(strict: bool, me: Worker, w: nat, m: Mem, r: Local, o: nat, p: nat, q: nat, f: FiberId)
    requires ScanStep(me, w, m) == Some(r) && r.0.pc.Picked? && Ready(strict, me, m, o, p, q, f)
    ensures Keeps(strict, me, m, r.0, r.1, o, p, q, f)
  {
    InQueueWithout(m.tasks.queue, me.pc.i, f);
  }

  lemma ScanStepKeeps(strict: bool, me: Worker, w: nat, m: Mem, r: Local, o: nat, p: nat, q: nat, f: FiberId)
    requires ScanStep(me, w, m) == Some(r) && Ready(strict, me, m, o, p, q, f)
    ensures Keeps(strict, me, m, r.0, r.1, o, p, q, f)
  {
    if r.0.pc.Picked? {
      PickKeeps(strict, me, w, m, r, o, p, q, f);
    } else {
      NotPickedIsSteady(me, w, m, r, f);
    }
  }

  lemma NotPickedIsSteady(me: Worker, w: nat, m: Mem, r: Local, f: FiberId)
    requires ScanStep(me, w, m) == Some(r) && !r.0.pc.Picked?
    ensures Grip(me.pc) == None && Grip(r.0.pc) == None && Picks(me.pc) == Picks(r.0.pc) && me.pool == r.0.pool
    ensures r.1.fibers == m.fibers && r.1.tasks.queue == m.tasks.queue && r.1.io == m.io && r.1.held == m.held
  {
  }

  lemma DeadKeeps(strict: bool, me: Worker, m: Mem, r: Local, o: nat, p: nat, q: nat, f: FiberId)
    requires me.pc.Dead? && BeginStep(me, m) == Some(r) && Ready(strict, me, m, o, p, q, f)
    ensures Keeps(strict, me, m, r.0, r.1, o, p, q, f)
  {
    SteadyKeeps(strict, me, m, r.0, r.1, o, p, q, f);
  }

  lemma EnteringKeeps(strict: bool, me: Worker, m: Mem, r: Local, o: nat, p: nat, q: nat, f: FiberId)
    requires (me.pc.Entering? || me.pc.Admitted?) && BeginStep(me, m) == Some(r) && !r.1.crashed && Ready(strict, me, m, o, p, q, f)
    ensures Keeps(strict, me, m, r.0, r.1, o, p, q, f)
  {
  }

  lemma CountedFiberKeeps(strict: bool, me: Worker, m: Mem, r: Local, o: nat, p: nat, q: nat, f: FiberId)
    requires me.pc.Counted? && me.pc.t.work.Fib? && BeginStep(me, m) == Some(r) && Ready(strict, me, m, o, p, q, f)
    ensures Keeps(strict, me, m, r.0, r.1, o, p, q, f)
  {
  }

  lemma CountedCallbackKeeps(strict: bool, me: Worker, m: Mem, r: Local, o: nat, p: nat, q: nat, f: FiberId)
    requires me.pc.Counted? && me.pc.t.work.Call? && BeginStep(me, m) == Some(r) && !r.1.crashed && Ready(strict, me, m, o, p, q, f)
    ensures Keeps(strict, me, m, r.0, r.1, o, p, q, f)
  {
    if me.pool.Some? {
      ReusedFiberKeeps(strict, me, m, r, o, p, q, f);
    } else {
      NewFiberKeeps(strict, me, m, r, o, p, q, f);
    }
  }

  lemma ReusedFiberKeeps(strict: bool, me: Worker, m: Mem, r: Local, o: nat, p: nat, q: nat, f: FiberId)
    requires me.pc.Counted? && me.pc.t.work.Call? && me.pool.Some?
    requires BeginStep(me, m) == Some(r) && !r.1.crashed && Ready(strict, me, m, o, p, q, f)
    ensures Keeps(strict, me, m, r.0, r.1, o, p, q, f)
  {
  }

  lemma NewFiberKeeps(strict: bool, me: Worker, m: Mem, r: Local, o: nat, p: nat, q: nat, f: FiberId)
    requires me.pc.Counted? && me.pc.t.work.Call? && me.pool.None?
    requires BeginStep(me, m) == Some(r) && Ready(strict, me, m, o, p, q, f)
    ensures Keeps(strict, me, m, r.0, r.1, o, p, q, f)
  {
  }

  lemma CountedKeeps(strict: bool, me: Worker, m: Mem, r: Local, o: nat, p: nat, q: nat, f: FiberId)
    requires me.pc.Counted? && BeginStep(me, m) == Some(r) && !r.1.crashed && Ready(strict, me, m, o, p, q, f)
    ensures Keeps(strict, me, m, r.0, r.1, o, p, q, f)
  {
    if me.pc.t.work.Fib? {
      CountedFiberKeeps(strict, me, m, r, o, p, q, f);
    } else {
      CountedCallbackKeeps(strict, me, m, r, o, p, q, f);
    }
  }

  lemma RequeueKeeps(strict: bool, me: Worker, m: Mem, r: Local, o: nat, p: nat, q: nat, f: FiberId)
    requires me.pc.Requeue? && FinishStep(me, m) == Some(r) && Ready(strict, me, m, o, p, q, f)
    ensures Keeps(strict, me, m, r.0, r.1, o, p, q, f)
  {
    PushHandles(m, Fib(me.pc.f), ANY, f);
  }

  lemma FinishStepKeeps(strict: bool, me: Worker, m: Mem, r: Local, o: nat, p: nat, q: nat, f: FiberId)
    requires me.pc.Leaving? || me.pc.Returned? || me.pc.Uncounted?
    requires FinishStep(me, m) == Some(r) && Ready(strict, me, m, o, p, q, f)
    ensures Keeps(strict, me, m, r.0, r.1, o, p, q, f)
  {
  }

  lemma RecheckKeeps(strict: bool, me: Worker, m: Mem, r: Local, o: nat, p: nat, q: nat, f: FiberId)
    requires me.pc.Recheck?
    requires FinishStep(me, m) == Some(r) && Ready(strict, me, m, o, p, q, f)
    ensures Keeps(strict, me, m, r.0, r.1, o, p, q, f)
  {
  }

  lemma ParkingKeeps(strict: bool, me: Worker, m: Mem, r: Local, o: nat, p: nat, q: nat, f: FiberId)
    requires me.pc.Parking?
    requires FinishStep(me, m) == Some(r) && Ready(strict, me, m, o, p, q, f)
    ensures Keeps(strict, me, m, r.0, r.1, o, p, q, f)
  {
    var g := me.pc.f;
    assert r == (me.(pc := LoopHead), SetFiber(m, g, HOLD)) && Handles(r.1, f) == Handles(m, f);
    if f != g {
      assert FiberOf(r.1, f) == FiberOf(m, f);
    }
  }

  lemma RetireKeeps(strict: bool, me: Worker, m: Mem, r: Local, o: nat, p: nat, q: nat, f: FiberId)
    requires me.pc.Retire?
    requires FinishStep(me, m) == Some(r) && !r.1.crashed && Ready(strict, me, m, o, p, q, f)
    ensures Keeps(strict, me, m, r.0, r.1, o, p, q, f)
  {
  }

  lemma DecideStepKeeps(strict: bool, me: Worker, m: Mem, r: Local, o: nat, p: nat, q: nat, f: FiberId)
    requires me.pc.Recheck? || me.pc.Parking? || me.pc.Retire?
    requires FinishStep(me, m) == Some(r) && !r.1.crashed && Ready(strict, me, m, o, p, q, f)
    ensures Keeps(strict, me, m, r.0, r.1, o, p, q, f)
  {
    if me.pc.Recheck? {
      RecheckKeeps(strict, me, m, r, o, p, q, f);
    } else if me.pc.Parking? {
      ParkingKeeps(strict, me, m, r, o, p, q, f);
    } else {
      RetireKeeps(strict, me, m, r, o, p, q, f);
    }
  }

  lemma PushAllHandles(m: Mem, cbs: seq<CallbackId>, f: FiberId)
    ensures Handles(PushAll(m, cbs), f) == Handles(m, f)
  {
    InQueueConcat(m.tasks.queue, Batch(|m.tasks.issued|, cbs), f);
    InQueueBatch(|m.tasks.issued|, cbs, f);
  }

  predicate HandsFree(pc: Pc) {
    Grip(pc) == None && Picks(pc) == None
  }

  /** A worker that has hold of no fiber, and makes no handle. */
  lemma SteadyKeeps(strict: bool, me: Worker, m: Mem, me1: Worker, m1: Mem, o: nat, p: nat, q: nat, f: FiberId)
    requires Ready(strict, me, m, o, p, q, f) && HandsFree(me.pc) && HandsFree(me1.pc) && me1.pool == me.pool
    requires m1.fibers == m.fibers && Handles(m1, f) == Handles(m, f)
    ensures Keeps(strict, me, m, me1, m1, o, p, q, f)
  {
  }

  lemma BatchKeeps(strict: bool, me: Worker, m: Mem, r: Local, o: nat, p: nat, q: nat, f: FiberId)
    requires me.pc.IdleBatch? && IdleStep(me, m) == Some(r) && Ready(strict, me, m, o, p, q, f)
    ensures Keeps(strict, me, m, r.0, r.1, o, p, q, f)
  {
    BatchIsScheduled(me, m, r, f);
    SteadyKeeps(strict, me, m, r.0, r.1, o, p, q, f);
  }

  lemma BatchIsScheduled(me: Worker, m: Mem, r: Local, f: FiberId)
    requires me.pc.IdleBatch? && IdleStep(me, m) == Some(r)
    ensures HandsFree(me.pc) && HandsFree(r.0.pc) && r.0.pool == me.pool && r.1.fibers == m.fibers && Handles(r.1, f) == Handles(m, f)
  {
    if me.pc.cbs != [] {
      assert r == (me.(pc := IdleEvents(false)), PushAll(m, me.pc.cbs));
      PushAllHandles(m, me.pc.cbs, f);
    }
  }

  lemma IdleIsSteady(me: Worker, m: Mem, r: Local)
    requires !me.pc.IdleBatch? && IdleStep(me, m) == Some(r)
    ensures HandsFree(me.pc) && HandsFree(r.0.pc) && r.0.pool == me.pool
    ensures r.1.fibers == m.fibers && r.1.tasks == m.tasks && r.1.io.slots == m.io.slots && r.1.held == m.held
  {
  }

  lemma IdleStepKeeps(strict: bool, me: Worker, m: Mem, r: Local, o: nat, p: nat, q: nat, f: FiberId)
    requires !me.pc.IdleBatch? && IdleStep(me, m) == Some(r) && Ready(strict, me, m, o, p, q, f)
    ensures Keeps(strict, me, m, r.0, r.1, o, p, q, f)
  {
    IdleIsSteady(me, m, r);
    SteadyKeeps(strict, me, m, r.0, r.1, o, p, q, f);
  }

  lemma EventLoopKeeps(strict: bool, me: Worker, m: Mem, a: Action, r: Local, o: nat, p: nat, q: nat, f: FiberId)
    requires (a.Expire? || a.Fire?) && LocalNext(me, m, a) == Some(r) && Ready(strict, me, m, o, p, q, f)
    ensures Keeps(strict, me, m, r.0, r.1, o, p, q, f)
  {
    EventLoopIsSteady(me, m, a, r, f);
    SteadyKeeps(strict, me, m, r.0, r.1, o, p, q, f);
  }

  lemma EventLoopIsSteady(me: Worker, m: Mem, a: Action, r: Local, f: FiberId)
    requires (a.Expire? || a.Fire?) && LocalNext(me, m, a) == Some(r)
    ensures HandsFree(me.pc) && HandsFree(r.0.pc) && r.0.pool == me.pool
    ensures r.1.fibers == m.fibers && Handles(r.1, f) == Handles(m, f)
  {
    if a.Fire? {
      FireIsSteady(me, m, a.x, r, f);
    } else {
      ExpireIsSteady(me, m, a.due, r);
    }
  }

  lemma FireIsSteady(me: Worker, m: Mem, x: Work, r: Local, f: FiberId)
    requires FireStep(me, m, x) == Some(r)
    ensures HandsFree(me.pc) && HandsFree(r.0.pc) && r.0.pool == me.pool
    ensures r.1.fibers == m.fibers && Handles(r.1, f) == Handles(m, f)
  {
    TriggerHandles(m, x, r.1, f);
  }

  lemma ExpireIsSteady(me: Worker, m: Mem, due: seq<TimerEntry>, r: Local)
    requires ExpireStep(me, m, due) == Some(r)
    ensures HandsFree(me.pc) && HandsFree(r.0.pc) && r.0.pool == me.pool
    ensures r.1.fibers == m.fibers && r.1.tasks == m.tasks && r.1.io.slots == m.io.slots && r.1.held == m.held
  {
  }

  lemma TriggerHandles(m: Mem, x: Work, m1: Mem, f: FiberId)
    requires Trigger(m, x) == Some(m1)
    ensures m1.fibers == m.fibers && Handles(m1, f) == Handles(m, f)
  {
    PushHandles(m.(io := m.io.(slots := m.io.slots - multiset{x})), x, ANY, f);
  }

  lemma SpawnHandles(m: Mem, thread: int, m1: Mem, f: FiberId)
    requires Shared(m, Spawn(thread)) == Some(m1)
    ensures m1.fibers == m.fibers + [INIT] && Handles(m1, f) == Handles(m, f) + if f == |m.fibers| then 1 else 0
  {
    PushHandles(m.(fibers := m.fibers + [INIT]), Fib(|m.fibers|), thread, f);
  }

  /** The handle moves from its keeper to the list. */
  lemma RedeemHandles(m: Mem, g: FiberId, thread: int, m1: Mem, f: FiberId)
    requires Shared(m, Redeem(g, thread)) == Some(m1)
    ensures m1.fibers == m.fibers && Handles(m1, f) == Handles(m, f)
  {
    PushHandles(m.(held := m.held - multiset{g}), Fib(g), thread, f);
  }

  lemma SharedHandles(m: Mem, op: Op, m1: Mem, f: FiberId)
    requires Shared(m, op) == Some(m1)
    ensures f < |m.fibers| ==> FiberOf(m1, f) == FiberOf(m, f) && f < |m1.fibers|
    ensures !op.Share? && f < |m.fibers| ==> Handles(m1, f) <= Handles(m, f)
    ensures op.Share? ==> m1.fibers == m.fibers && Handles(m1, f) == Handles(m, f) + if op.g == f then 1 else 0
    ensures f >= |m.fibers| && op.Spawn? && f < |m1.fibers| ==> f == |m.fibers| && FiberOf(m1, f) == INIT && Handles(m1, f) == Handles(m, f) + 1
    ensures f >= |m.fibers| && f >= |m1.fibers| && !op.Share? ==> Handles(m1, f) <= Handles(m, f)
    ensures op.Spawn? || m1.fibers == m.fibers
  {
    match op
    case Submit(c, thread) => PushHandles(m, Call(c), thread, f);
    case Spawn(thread) => SpawnHandles(m, thread, m1, f);
    case Share(g, thread) => PushHandles(m, Fib(g), thread, f);
    case Redeem(g, thread) => RedeemHandles(m, g, thread, m1, f);
    case _ =>
  }

  /** What outside threads do makes no handle but that of a new fiber, and runs nothing. */
  lemma OutsideHandles(m: Mem, op: Op, m1: Mem, f: FiberId)
    requires OutsideOp(m, op) == Some(m1) && !op.Share?
    ensures f < |m.fibers| ==> FiberOf(m1, f) == FiberOf(m, f) && f < |m1.fibers| && Handles(m1, f) <= Handles(m, f)
    ensures f >= |m.fibers| && op.Spawn? && f < |m1.fibers| ==> f == |m.fibers| && FiberOf(m1, f) == INIT && Handles(m1, f) == Handles(m, f) + 1
    ensures f >= |m.fibers| && f >= |m1.fibers| ==> Handles(m1, f) <= Handles(m, f)
    ensures op.Spawn? || m1.fibers == m.fibers
  {
    if op.Cancel? {
      TriggerHandles(m, op.x, Trigger(m, op.x).value, f);
    } else if !op.Settle? {
      SharedHandles(m, op, m1, f);
    }
  }

  lemma GivingKeeps(strict: bool, me: Worker, m: Mem, op: Op, r: Local, o: nat, p: nat, q: nat, f: FiberId)
    requires (op.Give? || op.WatchSelf?) && me.pc.Inside? && FiberOp(me, m, op) == Some(r) && !r.1.crashed && Polite(strict, me.pc, op)
    requires Ready(strict, me, m, o, p, q, f)
    ensures Keeps(strict, me, m, r.0, r.1, o, p, q, f)
  {
  }

  lemma ParkKeeps(strict: bool, me: Worker, m: Mem, op: Op, r: Local, o: nat, p: nat, q: nat, f: FiberId)
    requires op.Park? && me.pc.Inside? && FiberOp(me, m, op) == Some(r) && !r.1.crashed && Polite(strict, me.pc, op)
    requires Ready(strict, me, m, o, p, q, f)
    ensures Keeps(strict, me, m, r.0, r.1, o, p, q, f)
  {
  }

  lemma YieldKeeps(strict: bool, me: Worker, m: Mem, op: Op, r: Local, o: nat, p: nat, q: nat, f: FiberId)
    requires (op.YieldReady? || op.YieldHold?) && me.pc.Inside? && FiberOp(me, m, op) == Some(r) && !r.1.crashed && Polite(strict, me.pc, op)
    requires Ready(strict, me, m, o, p, q, f)
    ensures Keeps(strict, me, m, r.0, r.1, o, p, q, f)
  {
    var st := if op.YieldReady? then READY else HOLD;
    assert r == (me.(pc := Leaving(me.pc.f, me.pc.own)), SetFiber(m, me.pc.f, st)) && Handles(r.1, f) == Handles(m, f);
    if f != me.pc.f {
      assert FiberOf(r.1, f) == FiberOf(m, f);
    }
  }

  lemma FinishKeeps(strict: bool, me: Worker, m: Mem, op: Op, r: Local, o: nat, p: nat, q: nat, f: FiberId)
    requires op.Finish? && me.pc.Inside? && FiberOp(me, m, op) == Some(r) && !r.1.crashed && Polite(strict, me.pc, op)
    requires Ready(strict, me, m, o, p, q, f)
    ensures Keeps(strict, me, m, r.0, r.1, o, p, q, f)
  {
  }

  lemma FiberOpKeeps(strict: bool, me: Worker, m: Mem, op: Op, r: Local, o: nat, p: nat, q: nat, f: FiberId)
    requires me.pc.Inside? && FiberOp(me, m, op) == Some(r) && !r.1.crashed && Polite(strict, me.pc, op)
    requires Ready(strict, me, m, o, p, q, f)
    ensures Keeps(strict, me, m, r.0, r.1, o, p, q, f)
  {
    if op.Give? || op.WatchSelf? {
      GivingKeeps(strict, me, m, op, r, o, p, q, f);
    } else if op.Finish? {
      FinishKeeps(strict, me, m, op, r, o, p, q, f);
    } else if op.Park? {
      ParkKeeps(strict, me, m, op, r, o, p, q, f);
    } else {
      YieldKeeps(strict, me, m, op, r, o, p, q, f);
    }
  }

  lemma SharedKeeps(strict: bool, me: Worker, m: Mem, op: Op, r: Local, o: nat, p: nat, q: nat, f: FiberId)
    requires me.pc.Inside? && !op.Cancel? && UserStep(me, m, op) == Some(r) && Polite(strict, me.pc, op)
    requires op.Share? || With(me, Shared(m, op)) == Some(r)
    requires Ready(strict, me, m, o, p, q, f)
    ensures Keeps(strict, me, m, r.0, r.1, o, p, q, f)
  {
    SharedHandles(m, op, r.1, f);
  }

  lemma CancelKeeps(strict: bool, me: Worker, m: Mem, op: Op, r: Local, o: nat, p: nat, q: nat, f: FiberId)
    requires me.pc.Inside? && (me.pc.owed || op.Cancel?) && UserStep(me, m, op) == Some(r)
    requires Ready(strict, me, m, o, p, q, f)
    ensures Keeps(strict, me, m, r.0, r.1, o, p, q, f)
  {
    if !me.pc.owed {
      TriggerHandles(m, op.x, r.1, f);
    }
  }

  lemma UserStepKeeps(strict: bool, me: Worker, m: Mem, op: Op, r: Local, o: nat, p: nat, q: nat, f: FiberId)
    requires UserStep(me, m, op) == Some(r) && !r.1.crashed && Polite(strict, me.pc, op)
    requires Ready(strict, me, m, o, p, q, f)
    ensures Keeps(strict, me, m, r.0, r.1, o, p, q, f)
  {
    if me.pc.owed || op.Cancel? {
      CancelKeeps(strict, me, m, op, r, o, p, q, f);
    } else if OnSelf(op) {
      FiberOpKeeps(strict, me, m, op, r, o, p, q, f);
    } else {
      SharedKeeps(strict, me, m, op, r, o, p, q, f);
    }
  }

  lemma WorkerStepKeeps(strict: bool, me: Worker, w: nat, m: Mem, r: Local, o: nat, p: nat, q: nat, f: FiberId)
    requires WorkerStep(me, w, m) == Some(r) && !r.1.crashed && Ready(strict, me, m, o, p, q, f)
    ensures Keeps(strict, me, m, r.0, r.1, o, p, q, f)
  {
    match me.pc
    case LoopHead | Scanning(_) | Picked(_) | Empty => ScanStepKeeps(strict, me, w, m, r, o, p, q, f);
    case Counted(_) => CountedKeeps(strict, me, m, r, o, p, q, f);
    case Dead => DeadKeeps(strict, me, m, r, o, p, q, f);
    case Entering(_, _) | Admitted(_, _) => EnteringKeeps(strict, me, m, r, o, p, q, f);
    case Requeue(_, _) => RequeueKeeps(strict, me, m, r, o, p, q, f);
    case Leaving(_, _) | Returned(_, _) | Uncounted(_, _) => FinishStepKeeps(strict, me, m, r, o, p, q, f);
    case Recheck(_, _) | Parking(_, _) | Retire(_) => DecideStepKeeps(strict, me, m, r, o, p, q, f);
    case IdleBatch(_) => BatchKeeps(strict, me, m, r, o, p, q, f);
    case _ => IdleStepKeeps(strict, me, m, r, o, p, q, f);
  }

  lemma LocalNextKeeps(strict: bool, me: Worker, m: Mem, a: Action, r: Local, o: nat, p: nat, q: nat, f: FiberId)
    requires !a.Outside? && !a.StopStep? && LocalNext(me, m, a) == Some(r) && !r.1.crashed
    requires a.User? ==> Polite(strict, me.pc, a.op)
    requires Ready(strict, me, m, o, p, q, f)
    ensures Keeps(strict, me, m, r.0, r.1, o, p, q, f)
  {
    match a
    case Expire(_, _) | Fire(_, _) => EventLoopKeeps(strict, me, m, a, r, o, p, q, f);
    case User(_, op) => UserStepKeeps(strict, me, m, op, r, o, p, q, f);
    case Step(w) => WorkerStepKeeps(strict, me, w, m, r, o, p, q, f);
  }

  lemma BeginDoesNotCrash(me: Worker, m: Mem, r: Local)
    requires BeginStep(me, m) == Some(r) && !m.crashed
    requires forall f :: Fits(me, m, f)
    ensures !r.1.crashed
  {
    if me.pool.Some? { assert Fits(me, m, me.pool.value); }
    if Grip(me.pc).Some? { assert Fits(me, m, Grip(me.pc).value); }
  }

  lemma FinishDoesNotCrash(me: Worker, m: Mem, r: Local)
    requires FinishStep(me, m) == Some(r) && !m.crashed
    requires forall f :: Fits(me, m, f)
    ensures !r.1.crashed
  {
    if me.pc.Retire? { assert Fits(me, m, me.pc.f); }
  }

  lemma UserDoesNotCrash(me: Worker, m: Mem, op: Op, r: Local)
    requires UserStep(me, m, op) == Some(r) && !m.crashed
    requires forall f :: Fits(me, m, f)
    ensures !r.1.crashed
  {
    assert Fits(me, m, me.pc.f);
  }

  /** A worker whose claims fit never fails an assertion. */
  lemma FittingWorkerDoesNotCrash(me: Worker, m: Mem, a: Action, r: Local)
    requires !a.Outside? && !a.StopStep? && LocalNext(me, m, a) == Some(r) && !m.crashed
    requires IdleFits(me) && forall f :: Fits(me, m, f)
    ensures !r.1.crashed
  {
    match a
    case Expire(_, _) | Fire(_, _) =>
    case User(_, op) => UserDoesNotCrash(me, m, op, r);
    case Step(w) =>
      match me.pc
      case Counted(_) | Dead | Entering(_, _) | Admitted(_, _) => BeginDoesNotCrash(me, m, r);
      case Leaving(_, _) | Returned(_, _) | Uncounted(_, _) | Requeue(_, _) | Recheck(_, _)
         | Parking(_, _) | Retire(_) => FinishDoesNotCrash(me, m, r);
      case _ =>
  }

  lemma IdleStaysFit(me: Worker, m: Mem, a: Action, r: Local)
    requires !a.Outside? && !a.StopStep? && LocalNext(me, m, a) == Some(r)
    requires IdleFits(me)
    ensures IdleFits(r.0)
  {
  }

  // ---- one action ----------------------------------------------------------------------------

  /** How many workers other than w have hold of f. */
  function Elsewhere(kind: Kind, ws: seq<Worker>, w: nat, f: FiberId): nat
    requires w < |ws|
  {
    OwnersAtLeast(kind, ws, w, w, f);
    Owners(kind, ws, f) - Part(kind, ws[w], f)
  }

  lemma WorkerIsReady(strict: bool, s: State, w: nat, f: FiberId)
    requires SoundFor(strict, s, f) && w < |s.ws|
    ensures Ready(strict, s.ws[w], s.m, Elsewhere(Own, s.ws, w, f), Elsewhere(Plain, s.ws, w, f), Elsewhere(Soft, s.ws, w, f), f)
  {
  }

  lemma ElsewhereIsTheRest(kind: Kind, ws: seq<Worker>, w: nat, x: Worker, f: FiberId)
    requires w < |ws|
    ensures Owners(kind, ws[w := x], f) == Elsewhere(kind, ws, w, f) + Part(kind, x, f)
  {
    OwnersUpdate(kind, ws, w, x, f);
  }

  lemma ElsewhereAtLeast(kind: Kind, ws: seq<Worker>, w: nat, x: nat, f: FiberId)
    requires w < |ws| && x < |ws| && x != w
    ensures Part(kind, ws[x], f) <= Elsewhere(kind, ws, w, f)
  {
    OwnersAtLeast(kind, ws, if w < x then w else x, if w < x then x else w, f);
  }

  /** The claims of a worker other than w survive its step. */
  lemma OthersStillFit(strict: bool, me: Worker, m: Mem, me1: Worker, m1: Mem, x: Worker, o: nat, p: nat, q: nat, f: FiberId)
    requires Ready(strict, me, m, o, p, q, f) && Keeps(strict, me, m, me1, m1, o, p, q, f) && Fits(x, m, f)
    requires Part(Own, x, f) <= o && Part(Plain, x, f) <= p && Part(Soft, x, f) <= q
    ensures Fits(x, m1, f)
  {
  }

  lemma LocalKeepsSoundFor(strict: bool, s: State, a: Action, s1: State, f: FiberId)
    requires SoundFor(strict, s, f) && Next(s, a) == Some(s1) && !s1.m.crashed
    requires Disciplined(strict, s, a) && !a.Outside? && !a.StopStep?
    ensures SoundFor(strict, s1, f)
  {
    var w, me, me1 := a.w, s.ws[a.w], s1.ws[a.w];
    var o, p, q := Elsewhere(Own, s.ws, w, f), Elsewhere(Plain, s.ws, w, f), Elsewhere(Soft, s.ws, w, f);
    WorkerIsReady(strict, s, w, f);
    LocalNextKeeps(strict, me, s.m, a, (me1, s1.m), o, p, q, f);
    OneWorkerKeepsSoundFor(strict, s, w, me1, s1.m, f);
  }

  lemma OneWorkerKeepsSoundFor(strict: bool, s: State, w: nat, me1: Worker, m1: Mem, f: FiberId)
    requires SoundFor(strict, s, f) && w < |s.ws|
    requires var o, p, q := Elsewhere(Own, s.ws, w, f), Elsewhere(Plain, s.ws, w, f), Elsewhere(Soft, s.ws, w, f);
      Keeps(strict, s.ws[w], s.m, me1, m1, o, p, q, f)
    ensures SoundFor(strict, s.(ws := s.ws[w := me1], m := m1), f)
  {
    var o, p, q := Elsewhere(Own, s.ws, w, f), Elsewhere(Plain, s.ws, w, f), Elsewhere(Soft, s.ws, w, f);
    WorkerIsReady(strict, s, w, f);
    ElsewhereIsTheRest(Own, s.ws, w, me1, f);
    ElsewhereIsTheRest(Plain, s.ws, w, me1, f);
    ElsewhereIsTheRest(Soft, s.ws, w, me1, f);
    forall x: nat | x < |s.ws| && x != w ensures Fits(s.ws[x], m1, f) {
      ElsewhereAtLeast(Own, s.ws, w, x, f);
      ElsewhereAtLeast(Plain, s.ws, w, x, f);
      ElsewhereAtLeast(Soft, s.ws, w, x, f);
      OthersStillFit(strict, s.ws[w], s.m, me1, m1, s.ws[x], o, p, q, f);
    }
  }

  lemma LocalKeepsSound(strict: bool, s: State, a: Action, s1: State)
    requires Sound(strict, s) && Next(s, a) == Some(s1) && Disciplined(strict, s, a) && !a.Outside? && !a.StopStep?
    ensures Sound(strict, s1)
  {
    var me, me1 := s.ws[a.w], s1.ws[a.w];
    forall f ensures Fits(me, s.m, f) {
      assert SoundFor(strict, s, f);
    }
    FittingWorkerDoesNotCrash(me, s.m, a, (me1, s1.m));
    IdleStaysFit(me, s.m, a, (me1, s1.m));
    forall f ensures SoundFor(strict, s1, f) {
      assert SoundFor(strict, s, f);
      LocalKeepsSoundFor(strict, s, a, s1, f);
    }
  }

  lemma OutsideKeepsSoundFor(strict: bool, s: State, op: Op, m1: Mem, f: FiberId)
    requires SoundFor(strict, s, f) && OutsideOp(s.m, op) == Some(m1) && !op.Share?
    ensures SoundFor(strict, s.(m := m1), f)
  {
    OutsideHandles(s.m, op, m1, f);
    forall x: nat | x < |s.ws| ensures Fits(s.ws[x], m1, f) {
      OwnersAtLeast(Own, s.ws, x, x, f);
      OwnersAtLeast(Plain, s.ws, x, x, f);
      OwnersAtLeast(Soft, s.ws, x, x, f);
    }
  }

  lemma OutsideKeepsSound(strict: bool, s: State, op: Op, s1: State)
    requires Sound(strict, s) && Next(s, Outside(op)) == Some(s1) && !op.Share?
    ensures Sound(strict, s1)
  {
    forall f ensures SoundFor(strict, s1, f) {
      assert SoundFor(strict, s, f);
      OutsideKeepsSoundFor(strict, s, op, s1.m, f);
    }
  }

  lemma StopKeepsSoundFor(strict: bool, s: State, s1: State, f: FiberId)
    requires SoundFor(strict, s, f) && StopMove(s, s1)
    ensures SoundFor(strict, s1, f)
  {
    OwnersUpdate(Own, s.ws, 0, s1.ws[0], f);
    OwnersUpdate(Plain, s.ws, 0, s1.ws[0], f);
    OwnersUpdate(Soft, s.ws, 0, s1.ws[0], f);
    forall x | 0 <= x < |s1.ws| ensures Fits(s1.ws[x], s1.m, f) {
      assert Fits(s.ws[x], s.m, f);
    }
  }

  lemma StopKeepsSound(strict: bool, s: State, s1: State)
    requires Sound(strict, s) && StopMove(s, s1)
    ensures Sound(strict, s1)
  {
    forall f ensures SoundFor(strict, s1, f) {
      assert SoundFor(strict, s, f);
      StopKeepsSoundFor(strict, s, s1, f);
    }
  }

  lemma StepKeepsSound(strict: bool, s: State, a: Action, s1: State)
    requires Sound(strict, s) && Next(s, a) == Some(s1) && Disciplined(strict, s, a)
    ensures Sound(strict, s1)
  {
    match a
    case Outside(op) => OutsideKeepsSound(strict, s, op, s1);
    case StopStep =>
      StopMoves(s, s1);
      StopKeepsSound(strict, s, s1);
    case _ => LocalKeepsSound(strict, s, a, s1);
  }

  lemma InitSound(strict: bool, threads: nat, caller: bool)
    ensures Sound(strict, Init(threads, caller))
  {
    var s := Init(threads, caller);
    forall f ensures SoundFor(strict, s, f) {
      NoOwners(Own, s.ws, f);
      NoOwners(Plain, s.ws, f);
      NoOwners(Soft, s.ws, f);
    }
  }

  // ---- over whole runs -----------------------------------------------------------------------

  /** Every action of the run is disciplined in the state it is taken in. */
  predicate DisciplinedRun(strict: bool, s: State, run: seq<Action>)
    requires Exec(s, run).Some?
    decreases |run|
  {
    run == [] || (Disciplined(strict, s, run[0]) && DisciplinedRun(strict, Next(s, run[0]).value, run[1..]))
  }

  lemma {:induction false} RunKeepsSound(strict: bool, s: State, run: seq<Action>, s1: State)
    requires Sound(strict, s) && Exec(s, run) == Some(s1) && DisciplinedRun(strict, s, run)
    ensures Sound(strict, s1)
    decreases |run|
  {
    if run != [] {
      StepKeepsSound(strict, s, run[0], Next(s, run[0]).value);
      RunKeepsSound(strict, Next(s, run[0]).value, run[1..], s1);
    }
  }

  /** Has the worker dequeued f, whether it has looked at it yet or not? */
  predicate Has(me: Worker, f: FiberId) {
    Grip(me.pc) == Some(f) || Picks(me.pc) == Some(f)
  }

  /**
   No two workers are ever busy with the same fiber, from swapping it in to being done with it.
   That one has dequeued a fiber another is busy with happens only after the fiber has ended,
   and in strict runs never.
   */
  lemma NoFiberRunsTwice(strict: bool, threads: nat, caller: bool, run: seq<Action>, s: State, w: nat, x: nat, f: FiberId)
    requires Exec(Init(threads, caller), run) == Some(s) && DisciplinedRun(strict, Init(threads, caller), run)
    requires w < x < |s.ws|
    ensures !(Grip(s.ws[w].pc) == Some(f) && Grip(s.ws[x].pc) == Some(f))
    ensures Has(s.ws[w], f) && Has(s.ws[x], f) ==> !strict && Over(FiberOf(s.m, f))
  {
    InitSound(strict, threads, caller);
    RunKeepsSound(strict, Init(threads, caller), run, s);
    assert SoundFor(strict, s, f);
    AnyTwo(s.ws, w, x, f);
  }

  lemma AnyTwo(ws: seq<Worker>, w: nat, x: nat, f: FiberId)
    requires w < x < |ws|
    ensures Grip(ws[w].pc) == Some(f) && Grip(ws[x].pc) == Some(f) ==> Owners(Own, ws, f) + Owners(Plain, ws, f) >= 2
    ensures Has(ws[w], f) && Has(ws[x], f) ==> Owners(Soft, ws, f) >= 1 || Owners(Own, ws, f) + Owners(Plain, ws, f) >= 2
    ensures Has(ws[w], f) && Has(ws[x], f) ==> Owners(Soft, ws, f) + Owners(Own, ws, f) + Owners(Plain, ws, f) >= 2
  {
    OwnersAtLeast(Own, ws, w, x, f);
    OwnersAtLeast(Plain, ws, w, x, f);
    OwnersAtLeast(Soft, ws, w, x, f);
  }

  /**
   The worker loop never fails an assertion of `reset` or `swapIn`, nor the user code one of
   the yields: a spare callback fiber is INIT and nobody has a handle of it, a fiber about to
   be swapped in is neither running nor ended, and nothing crashes.
   */
  lemma NoAssertionFails(strict: bool, threads: nat, caller: bool, run: seq<Action>, s: State, w: nat)
    requires Exec(Init(threads, caller), run) == Some(s) && DisciplinedRun(strict, Init(threads, caller), run)
    requires w < |s.ws|
    ensures !s.m.crashed
    ensures s.ws[w].pool.Some? ==> FiberOf(s.m, s.ws[w].pool.value) == INIT && Handles(s.m, s.ws[w].pool.value) == 0
    ensures s.ws[w].pc.Entering? || s.ws[w].pc.Admitted?
      ==> FiberOf(s.m, s.ws[w].pc.f) != EXEC && !Over(FiberOf(s.m, s.ws[w].pc.f))
    ensures s.ws[w].pc.IdleEntering? ==> s.ws[w].idle != EXEC
  {
    InitSound(strict, threads, caller);
    RunKeepsSound(strict, Init(threads, caller), run, s);
    if s.ws[w].pool.Some? {
      SpareIsUnused(strict, s, w, s.ws[w].pool.value);
    }
    if s.ws[w].pc.Entering? || s.ws[w].pc.Admitted? {
      assert SoundFor(strict, s, s.ws[w].pc.f);
    }
  }

  lemma SpareIsUnused(strict: bool, s: State, w: nat, f: FiberId)
    requires SoundFor(strict, s, f) && w < |s.ws| && s.ws[w].pool == Some(f)
    ensures FiberOf(s.m, f) == INIT && Handles(s.m, f) == 0
  {
    OwnersAtLeast(Plain, s.ws, w, w, f);
  }

  /** In a strict run no worker ever finds that a fiber it dequeued has ended. */
  lemma NothingIsDropped(threads: nat, caller: bool, run: seq<Action>, s: State)
    requires Exec(Init(threads, caller), run) == Some(s) && DisciplinedRun(true, Init(threads, caller), run)
    ensures s.m.tasks.dropped == multiset{}
  {
    InitSound(true, threads, caller);
    StrictRunDropsNothing(Init(threads, caller), run, s);
  }

  lemma {:induction false} StrictRunDropsNothing(s: State, run: seq<Action>, s1: State)
    requires Sound(true, s) && Exec(s, run) == Some(s1) && DisciplinedRun(true, s, run)
    ensures s1.m.tasks.dropped == s.m.tasks.dropped
    decreases |run|
  {
    if run != [] {
      var m := Next(s, run[0]).value;
      StepKeepsSound(true, s, run[0], m);
      StepDropsNothing(s, run[0], m);
      StrictRunDropsNothing(m, run[1..], s1);
    }
  }

  lemma StepDropsNothing(s: State, a: Action, s1: State)
    requires Sound(true, s) && Next(s, a) == Some(s1)
    ensures s1.m.tasks.dropped == s.m.tasks.dropped
  {
    if !a.Step? {
      OthersDropNothing(s, a, s1);
    } else {
      var me := s.ws[a.w];
      if me.pc.Counted? && me.pc.t.work.Fib? {
        assert SoundFor(true, s, me.pc.t.work.f);
        OwnersAtLeast(Soft, s.ws, a.w, a.w, me.pc.t.work.f);
      }
      OnlyEndedFibersDrop(me, a.w, s.m, (s1.ws[a.w], s1.m));
    }
  }

  lemma OnlyEndedFibersDrop(me: Worker, w: nat, m: Mem, r: Local)
    requires WorkerStep(me, w, m) == Some(r)
    requires me.pc.Counted? && me.pc.t.work.Fib? ==> !Over(FiberOf(m, me.pc.t.work.f))
    ensures r.1.tasks.dropped == m.tasks.dropped
  {
  }
}
