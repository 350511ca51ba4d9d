/**
 Fibers are used again: over every run, the fibers made are those spawned, one for each worker
 that has a callback fiber, and those callback fibers that left their worker by yielding or parking.
 */
module Reuse {
  import opened Prelude
  import opened SchedulerModel
  import opened SchedulerFacts
  import opened SingleExecution

  /** Does the worker have a callback fiber, in use or spare? */
  function Owning(me: Worker): nat {
    (if me.pool.Some? then 1 else 0) + if Grip(me.pc).Some? && OwnGrip(me.pc) then 1 else 0
  }

  /** A callback fiber in use is not kept as a spare. */
  predicate OneFiber(me: Worker) {
    Grip(me.pc).Some? && OwnGrip(me.pc) ==> me.pool.None?
  }

  /** Does the action make a fiber for somebody to schedule? */
  function Spawns(a: Action): nat {
    if (a.Outside? || a.User?) && a.op.Spawn? then 1 else 0
  }

  /** Does a worker give away its callback fiber, which yielded or parked? */
  function GivesAway(s: State, a: Action): nat {
    if a.Step? && a.w < |s.ws| && OwnGrip(s.ws[a.w].pc) && (s.ws[a.w].pc.Requeue? || s.ws[a.w].pc.Parking?) then 1 else 0
  }

  // ---- one action ------------------------------------------------------------------------------

  ghost predicate Accounts(me: Worker, m: Mem, me1: Worker, m1: Mem, made: nat, away: nat) {
    OneFiber(me1) && |m1.fibers| + Owning(me) == |m.fibers| + Owning(me1) + made + away
  }

  lemma ScanAccounts(me: Worker, w: nat, m: Mem, r: Local)
    requires ScanStep(me, w, m) == Some(r) && OneFiber(me)
    ensures Accounts(me, m, r.0, r.1, 0, 0)
  {
  }

  lemma BeginAccounts(me: Worker, m: Mem, r: Local)
    requires BeginStep(me, m) == Some(r) && OneFiber(me)
    ensures Accounts(me, m, r.0, r.1, 0, 0)
  {
  }

  lemma FinishAccounts(me: Worker, m: Mem, r: Local)
    requires FinishStep(me, m) == Some(r) && OneFiber(me)
    ensures Accounts(me, m, r.0, r.1, 0, if OwnGrip(me.pc) && (me.pc.Requeue? || me.pc.Parking?) then 1 else 0)
  {
  }

  lemma IdleAccounts(me: Worker, m: Mem, r: Local)
    requires IdleStep(me, m) == Some(r) && OneFiber(me)
    ensures Accounts(me, m, r.0, r.1, 0, 0)
  {
  }

  lemma SharedMakes(m: Mem, op: Op, m1: Mem)
    requires Shared(m, op) == Some(m1)
    ensures |m1.fibers| == |m.fibers| + if op.Spawn? then 1 else 0
  {
  }

  lemma FiberOpAccounts(me: Worker, m: Mem, op: Op, r: Local)
    requires me.pc.Inside? && FiberOp(me, m, op) == Some(r) && OneFiber(me)
    ensures Accounts(me, m, r.0, r.1, 0, 0) && !op.Spawn?
  {
  }

  lemma TriggerAccounts(me: Worker, m: Mem, op: Op, r: Local)
    requires UserStep(me, m, op) == Some(r) && OneFiber(me) && (me.pc.owed || op.Cancel?)
    ensures Accounts(me, m, r.0, r.1, 0, 0) && !op.Spawn?
  {
  }

  lemma UserAccounts(me: Worker, m: Mem, op: Op, r: Local)
    requires UserStep(me, m, op) == Some(r) && OneFiber(me)
    ensures Accounts(me, m, r.0, r.1, if op.Spawn? then 1 else 0, 0)
  {
    if me.pc.owed || op.Cancel? {
      TriggerAccounts(me, m, op, r);
    } else if OnSelf(op) {
      FiberOpAccounts(me, m, op, r);
    } else {
      SharedMakes(m, op, r.1);
    }
  }

  lemma WorkerAccounts(me: Worker, w: nat, m: Mem, r: Local)
    requires WorkerStep(me, w, m) == Some(r) && OneFiber(me)
    ensures Accounts(me, m, r.0, r.1, 0, if OwnGrip(me.pc) && (me.pc.Requeue? || me.pc.Parking?) then 1 else 0)
  {
    match me.pc
    case LoopHead | Scanning(_) | Picked(_) | Empty => ScanAccounts(me, w, m, r);
    case Counted(_) | Dead | Entering(_, _) | Admitted(_, _) => BeginAccounts(me, m, r);
    case Leaving(_, _) | Returned(_, _) | Uncounted(_, _) | Requeue(_, _) | Recheck(_, _)
       | Parking(_, _) | Retire(_) => FinishAccounts(me, m, r);
    case _ => IdleAccounts(me, m, r);
  }

  lemma EventLoopAccounts(me: Worker, m: Mem, a: Action, r: Local)
    requires (a.Expire? || a.Fire?) && LocalNext(me, m, a) == Some(r) && OneFiber(me)
    ensures Accounts(me, m, r.0, r.1, 0, 0)
  {
  }

  lemma LocalAccounts(s: State, a: Action, s1: State)
    requires Next(s, a) == Some(s1) && !a.Outside? && !a.StopStep? && OneFiber(s.ws[a.w])
    ensures Accounts(s.ws[a.w], s.m, s1.ws[a.w], s1.m, Spawns(a), GivesAway(s, a))
  {
    var me, r := s.ws[a.w], (s1.ws[a.w], s1.m);
    match a
    case User(_, op) => UserAccounts(me, s.m, op, r);
    case Step(w) => WorkerAccounts(me, w, s.m, r);
    case _ => EventLoopAccounts(me, s.m, a, r);
  }

  lemma OutsideMakes(m: Mem, op: Op, m1: Mem)
    requires OutsideOp(m, op) == Some(m1)
    ensures |m1.fibers| == |m.fibers| + if op.Spawn? then 1 else 0
  {
    if !op.Cancel? && !op.Settle? {
      SharedMakes(m, op, m1);
    }
  }

  ghost predicate OneFiberEach(s: State) {
    forall w :: 0 <= w < |s.ws| ==> OneFiber(s.ws[w])
  }

  lemma StepAccounts(s: State, a: Action, s1: State)
    requires OneFiberEach(s) && s.ws != [] && Next(s, a) == Some(s1)
    ensures OneFiberEach(s1) && s1.ws != []
    ensures |s1.m.fibers| + Sum(Owning, s.ws) == |s.m.fibers| + Sum(Owning, s1.ws) + Spawns(a) + GivesAway(s, a)
  {
    match a
    case Outside(op) => OutsideMakes(s.m, op, s1.m);
    case StopStep =>
      StopMoves(s, s1);
      SumUpdate(Owning, s.ws, 0, s1.ws[0]);
    case _ =>
      LocalAccounts(s, a, s1);
      SumUpdate(Owning, s.ws, a.w, s1.ws[a.w]);
  }

  // ---- over whole runs -------------------------------------------------------------------------

  function Spawned(run: seq<Action>): nat {
    if run == [] then 0 else Spawns(run[0]) + Spawned(run[1..])
  }

  function GivenAway(s: State, run: seq<Action>): nat
    requires Exec(s, run).Some?
    decreases |run|
  {
    if run == [] then 0 else GivesAway(s, run[0]) + GivenAway(Next(s, run[0]).value, run[1..])
  }

  lemma {:induction false} RunAccounts(s: State, run: seq<Action>, s1: State)
    requires OneFiberEach(s) && s.ws != [] && Exec(s, run) == Some(s1)
    ensures OneFiberEach(s1)
    ensures |s1.m.fibers| + Sum(Owning, s.ws) == |s.m.fibers| + Sum(Owning, s1.ws) + Spawned(run) + GivenAway(s, run)
    decreases |run|
  {
    if run != [] {
      StepAccounts(s, run[0], Next(s, run[0]).value);
      RunAccounts(Next(s, run[0]).value, run[1..], s1);
    }
  }

  /**
   Over every run: as many fibers were made as were spawned, are callback fibers of a worker, or
   were given away by their worker when they yielded or parked.
   */
  lemma FibersAreReused(threads: nat, caller: bool, run: seq<Action>, s: State)
    requires threads > 0 && Exec(Init(threads, caller), run) == Some(s)
    ensures |s.m.fibers| == Spawned(run) + GivenAway(Init(threads, caller), run) + Sum(Owning, s.ws)
    ensures |s.m.fibers| <= Spawned(run) + GivenAway(Init(threads, caller), run) + threads
  {
    RunAccounts(Init(threads, caller), run, s);
    SumZero(Owning, Init(threads, caller).ws);
    SumIsAtMost(s.ws);
    SameWorkers(Init(threads, caller), run, s);
  }

  lemma {:induction false} SumIsAtMost(ws: seq<Worker>)
    requires forall w :: 0 <= w < |ws| ==> OneFiber(ws[w])
    ensures Sum(Owning, ws) <= |ws|
  {
    if ws != [] {
      assert forall w :: 0 <= w < |ws[1..]| ==> ws[1..][w] == ws[w + 1];
      SumIsAtMost(ws[1..]);
    }
  }
}
