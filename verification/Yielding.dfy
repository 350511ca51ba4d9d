/**
 What becomes of a fiber that leaves its worker: the worker schedules it again exactly when it
 called `YieldToReady`, and then it runs again before `stop` returns. The other threads act
 meanwhile as they like within the discipline.
 */
module Yielding {
  import opened Prelude
  import opened SchedulerModel
  import opened SchedulerFacts
  import opened SingleExecution
  import opened Drain

  /** The operations by which a fiber leaves its worker. */
  predicate Departs(op: Op) {
    op.Park? || op.YieldReady? || op.YieldHold? || op.Finish?
  }

  /** The state in which the fiber is left. */
  function LeftIn(op: Op): FiberState
    requires Departs(op)
  {
    match op
    case Park => EXEC
    case YieldReady => READY
    case YieldHold => HOLD
    case Finish(threw) => if threw then EXCEPT else TERM
  }

  /** The state in which the worker leaves it; its own callback fiber is reset after the end. */
  function EndsIn(op: Op, own: bool): FiberState
    requires Departs(op)
  {
    match op
    case Park => HOLD
    case YieldReady => READY
    case YieldHold => HOLD
    case Finish(threw) => if own then INIT else if threw then EXCEPT else TERM
  }

  /** The worker is on its way back from fiber f, which left by op and is in the state st. */
  predicate OnTheWay(op: Op, f: FiberId, own: bool, pc: Pc, st: FiberState)
    requires Departs(op)
  {
    && Grip(pc) == Some(f) && OwnGrip(pc) == own && st == LeftIn(op)
    && match pc
       case Leaving(_, _) => true
       case Returned(_, _) => true
       case Uncounted(_, _) => true
       case Requeue(_, _) => op.YieldReady?
       case Recheck(_, _) => !op.YieldReady?
       case Parking(_, _) => op.Park? || op.YieldHold?
       case Retire(_) => op.Finish?
       case _ => false
  }

  // ---- one action -----------------------------------------------------------------------------

  /** The worker's own step: on its way and nothing appended, or at the loop head with everything done. */
  lemma OwnStep(op: Op, me: Worker, m: Mem, f: FiberId, own: bool, r: Local)
    requires Departs(op) && OnTheWay(op, f, own, me.pc, FiberOf(m, f)) && f < |m.fibers|
    requires FinishStep(me, m) == Some(r)
    ensures r.0.pc == LoopHead || OnTheWay(op, f, own, r.0.pc, FiberOf(r.1, f))
    ensures r.0.pc == LoopHead ==> FiberOf(r.1, f) == EndsIn(op, own) && (op.Finish? && own ==> r.0.pool == Some(f))
    ensures !(r.0.pc == LoopHead && op.YieldReady?) ==> r.1.tasks == m.tasks
    ensures r.0.pc == LoopHead && op.YieldReady? ==>
      r.1.tasks.queue == m.tasks.queue + [Task(Fib(f), ANY, |m.tasks.issued|)]
  {
  }

  /** Only its own steps move a worker on its way. */
  lemma OwnActionIsStep(me: Worker, m: Mem, a: Action, r: Local, op: Op, f: FiberId, own: bool, st: FiberState)
    requires Departs(op) && OnTheWay(op, f, own, me.pc, st)
    requires !a.Outside? && !a.StopStep? && LocalNext(me, m, a) == Some(r)
    ensures FinishStep(me, m) == Some(r)
  {
  }

  predicate Acts(a: Action, w: nat) {
    !a.Outside? && !a.StopStep? && a.w == w
  }

  /** Nobody else touches a fiber that a worker is busy with. */
  lemma OthersLeaveTheFiber(strict: bool, s: State, a: Action, s1: State, w: nat, f: FiberId)
    requires Sound(strict, s) && Next(s, a) == Some(s1) && Disciplined(strict, s, a)
    requires w < |s.ws| && Grip(s.ws[w].pc) == Some(f) && !Acts(a, w)
    ensures w < |s1.ws| && s1.ws[w].pc == s.ws[w].pc && FiberOf(s1.m, f) == FiberOf(s.m, f) && f < |s.m.fibers|
  {
    StepKeepsSound(strict, s, a, s1);
    assert SoundFor(strict, s, f);
    OwnersAtLeast(Own, s.ws, w, w, f);
    OwnersAtLeast(Plain, s.ws, w, w, f);
    if a.Outside? {
      OutsideHandles(s.m, a.op, s1.m, f);
    } else if a.StopStep? {
      StopMoves(s, s1);
    } else {
      AnotherLeavesTheFiber(strict, s, a, s1, w, f);
    }
  }

  lemma AnotherLeavesTheFiber(strict: bool, s: State, a: Action, s1: State, w: nat, f: FiberId)
    requires SoundFor(strict, s, f) && Next(s, a) == Some(s1) && !s1.m.crashed && Disciplined(strict, s, a)
    requires !a.Outside? && !a.StopStep? && w < |s.ws| && Grip(s.ws[w].pc) == Some(f) && a.w != w && f < |s.m.fibers|
    ensures FiberOf(s1.m, f) == FiberOf(s.m, f)
  {
    var x := a.w;
    NotBusyElsewhere(strict, s, w, x, f);
    var o, p, q := Elsewhere(Own, s.ws, x, f), Elsewhere(Plain, s.ws, x, f), Elsewhere(Soft, s.ws, x, f);
    WorkerIsReady(strict, s, x, f);
    LocalNextKeeps(strict, s.ws[x], s.m, a, (s1.ws[x], s1.m), o, p, q, f);
  }

  lemma NotBusyElsewhere(strict: bool, s: State, w: nat, x: nat, f: FiberId)
    requires SoundFor(strict, s, f) && w < |s.ws| && x < |s.ws| && w != x && Grip(s.ws[w].pc) == Some(f)
    ensures !Busy(s.ws[x], f)
  {
    var i, j := if w < x then w else x, if w < x then x else w;
    OwnersAtLeast(Own, s.ws, i, j, f);
    OwnersAtLeast(Plain, s.ws, i, j, f);
  }

  // ---- from the departure to the loop head ----------------------------------------------------

  /** What worker w appends to the list in the course of a run. */
  function AppendedBy(s: State, run: seq<Action>, w: nat): seq<Task>
    requires Exec(s, run).Some?
    decreases |run|
  {
    if run == [] then []
    else
      var m := Next(s, run[0]).value;
      (if Acts(run[0], w) then Added(s.m.tasks, m.m.tasks) else []) + AppendedBy(m, run[1..], w)
  }

  /** At the end of the run worker w is back at the loop head, for the first time. */
  predicate ComesBack(s: State, run: seq<Action>, w: nat)
    requires Exec(s, run).Some?
    decreases |run|
  {
    && w < |s.ws|
    && if run == [] then s.ws[w].pc == LoopHead
       else s.ws[w].pc != LoopHead && ComesBack(Next(s, run[0]).value, run[1..], w)
  }

  /** What one action does on the way: the worker is still on its way, or has done what it had to. */
  ghost predicate Proceeds(op: Op, f: FiberId, own: bool, s: State, a: Action, s1: State, w: nat)
    requires Departs(op) && w < |s.ws| && w < |s1.ws|
  {
    var added := if Acts(a, w) then Added(s.m.tasks, s1.m.tasks) else [];
    if s1.ws[w].pc == LoopHead then
      && FiberOf(s1.m, f) == EndsIn(op, own)
      && (op.Finish? && own ==> s1.ws[w].pool == Some(f))
      && (if op.YieldReady? then added == [Task(Fib(f), ANY, |s.m.tasks.issued|)] && added[0] in s1.m.tasks.queue else added == [])
    else OnTheWay(op, f, own, s1.ws[w].pc, FiberOf(s1.m, f)) && added == []
  }

  lemma OneActionProceeds(strict: bool, op: Op, f: FiberId, own: bool, s: State, a: Action, s1: State, w: nat)
    requires Sound(strict, s) && Next(s, a) == Some(s1) && Disciplined(strict, s, a)
    requires Departs(op) && w < |s.ws| && OnTheWay(op, f, own, s.ws[w].pc, FiberOf(s.m, f))
    ensures w < |s1.ws| && Proceeds(op, f, own, s, a, s1, w)
  {
    assert SoundFor(strict, s, f);
    OwnersAtLeast(Own, s.ws, w, w, f);
    OwnersAtLeast(Plain, s.ws, w, w, f);
    if Acts(a, w) {
      OwnActionIsStep(s.ws[w], s.m, a, (s1.ws[w], s1.m), op, f, own, FiberOf(s.m, f));
      OwnStep(op, s.ws[w], s.m, f, own, (s1.ws[w], s1.m));
    } else {
      OthersLeaveTheFiber(strict, s, a, s1, w, f);
    }
  }

  lemma {:induction false} WayBack(strict: bool, op: Op, f: FiberId, own: bool, s: State, run: seq<Action>, s1: State, w: nat)
    requires Sound(strict, s) && Exec(s, run) == Some(s1) && DisciplinedRun(strict, s, run) && ComesBack(s, run, w)
    requires Departs(op) && OnTheWay(op, f, own, s.ws[w].pc, FiberOf(s.m, f))
    ensures w < |s1.ws| && FiberOf(s1.m, f) == EndsIn(op, own) && (op.Finish? && own ==> s1.ws[w].pool == Some(f))
    ensures var added := AppendedBy(s, run, w);
      if op.YieldReady? then |added| == 1 && added[0].work == Fib(f) && added[0].thread == ANY && added[0] in s1.m.tasks.queue
      else added == []
    decreases |run|
  {
    var m := Next(s, run[0]).value;
    OneActionProceeds(strict, op, f, own, s, run[0], m, w);
    StepKeepsSound(strict, s, run[0], m);
    if m.ws[w].pc == LoopHead {
      assert run[1..] == [] && AppendedBy(m, run[1..], w) == [];
    } else {
      WayBack(strict, op, f, own, m, run[1..], s1, w);
    }
  }

  /** The operation by which a fiber leaves. */
  lemma Departure(strict: bool, s: State, w: nat, op: Op, s1: State)
    requires Sound(strict, s) && Next(s, User(w, op)) == Some(s1) && Disciplined(strict, s, User(w, op))
    requires w < |s.ws| && s.ws[w].pc.Inside? && Departs(op)
    ensures w < |s1.ws| && OnTheWay(op, s.ws[w].pc.f, s.ws[w].pc.own, s1.ws[w].pc, FiberOf(s1.m, s.ws[w].pc.f))
    ensures Added(s.m.tasks, s1.m.tasks) == [] && s1.m.tasks == s.m.tasks && s1.ws[w].pc.Leaving?
  {
    var f := s.ws[w].pc.f;
    StepKeepsSound(strict, s, User(w, op), s1);
    assert SoundFor(strict, s, f) && Fits(s.ws[w], s.m, f);
    OwnersAtLeast(Own, s.ws, w, w, f);
    OwnersAtLeast(Plain, s.ws, w, w, f);
  }

  /**
   From the departure to the loop head a worker schedules the fiber exactly once, for any
   worker, when it called `YieldToReady`, and nothing otherwise. It leaves the fiber READY in
   the list, HOLD, or ended; its own callback fiber it resets and keeps.
   */
  lemma WorkerHandsBack(strict: bool, threads: nat, caller: bool, past: seq<Action>, s: State, w: nat,
                        op: Op, rest: seq<Action>, m: State, s1: State)
    requires Exec(Init(threads, caller), past) == Some(s) && DisciplinedRun(strict, Init(threads, caller), past)
    requires w < |s.ws| && s.ws[w].pc.Inside? && Departs(op)
    requires Next(s, User(w, op)) == Some(m) && Disciplined(strict, s, User(w, op))
    requires Exec(m, rest) == Some(s1) && DisciplinedRun(strict, m, rest) && ComesBack(m, rest, w)
    ensures var f, own, added := s.ws[w].pc.f, s.ws[w].pc.own, AppendedBy(m, rest, w);
      && m.m.tasks == s.m.tasks
      && (if op.YieldReady? then |added| == 1 && added[0].work == Fib(f) && added[0].thread == ANY && added[0] in s1.m.tasks.queue
          else added == [])
      && FiberOf(s1.m, f) == EndsIn(op, own)
      && (op.Finish? && own ==> w < |s1.ws| && s1.ws[w].pool == Some(f))
  {
    InitSound(strict, threads, caller);
    RunKeepsSound(strict, Init(threads, caller), past, s);
    Departure(strict, s, w, op, m);
    StepKeepsSound(strict, s, User(w, op), m);
    WayBack(strict, op, s.ws[w].pc.f, s.ws[w].pc.own, m, rest, s1, w);
  }

  // ---- a yielded fiber runs again ---------------------------------------------------------------

  /** Task t is a handle of f that was never dropped, and as long as it has not been started f is READY. */
  predicate Waits(s: State, t: Task, f: FiberId) {
    && t in s.m.tasks.issued && t.work == Fib(f) && s.m.tasks.dropped[t] == 0
    && (s.m.tasks.started[t] == 0 ==> FiberOf(s.m, f) == READY)
  }

  /** What a worker's step adds to the history. */
  ghost predicate Chronicles(me: Worker, m: Mem, l1: TaskList) {
    var l := m.tasks;
    || (l1.started == l.started && l1.dropped == l.dropped)
    || (me.pc.Counted? && l1.started == l.started + multiset{me.pc.t} && l1.dropped == l.dropped)
    || (me.pc.Counted? && l1.started == l.started && l1.dropped == l.dropped + multiset{me.pc.t}
        && me.pc.t.work.Fib? && Over(FiberOf(m, me.pc.t.work.f)))
  }

  lemma WorkerChronicles(me: Worker, w: nat, m: Mem, r: Local)
    requires WorkerStep(me, w, m) == Some(r)
    ensures Chronicles(me, m, r.1.tasks)
  {
    if !me.pc.Counted? {
      OthersChronicleNothing(me, w, m, r);
    }
  }

  lemma OthersChronicleNothing(me: Worker, w: nat, m: Mem, r: Local)
    requires WorkerStep(me, w, m) == Some(r) && !me.pc.Counted?
    ensures r.1.tasks.started == m.tasks.started && r.1.tasks.dropped == m.tasks.dropped
  {
  }

  lemma HistoryOfWaiting(s: State, a: Action, s1: State, t: Task, f: FiberId)
    requires Next(s, a) == Some(s1) && s.ws != [] && Ledger(s) && Ledger(s1) && Waits(s, t, f)
    ensures t in s1.m.tasks.issued && s1.m.tasks.dropped[t] == 0 && s1.m.tasks.started[t] >= s.m.tasks.started[t]
  {
    NextMoves(s, a, s1, t);
    if !a.Step? {
      OthersDropNothing(s, a, s1);
    } else {
      WorkerChronicles(s.ws[a.w], a.w, s.m, (s1.ws[a.w], s1.m));
      if s.ws[a.w].pc == Counted(t) {
        InHandAtLeast(s.ws, a.w, t);
      }
    }
  }

  lemma {:induction false} InHandAtLeast(ws: seq<Worker>, w: nat, t: Task)
    requires w < |ws|
    ensures Hand(ws[w], t) <= InHand(ws, t)
  {
    if w > 0 {
      InHandAtLeast(ws[1..], w - 1, t);
    }
  }

  lemma {:induction false} HeldIsSoft(ws: seq<Worker>, t: Task, f: FiberId)
    requires t.work == Fib(f)
    ensures InHand(ws, t) <= Owners(Soft, ws, f)
  {
    if ws != [] {
      HeldIsSoft(ws[1..], t, f);
    }
  }

  lemma {:induction false} QueuedIsHandle(q: seq<Task>, t: Task, f: FiberId)
    requires t.work == Fib(f) && t in q
    ensures InQueue(q, f) >= 1
  {
    if q[0] != t {
      QueuedIsHandle(q[1..], t, f);
    }
  }

  /** While the handle waits, nobody is busy with the fiber. */
  lemma NobodyIsBusy(strict: bool, s: State, t: Task, f: FiberId, x: nat)
    requires SoundFor(strict, s, f) && Ledger(s) && Waits(s, t, f) && s.m.tasks.started[t] == 0 && x < |s.ws|
    ensures f < |s.m.fibers| && !Busy(s.ws[x], f)
  {
    assert s.m.tasks.issued[t] == 1 == Seen(s.m.tasks, t) + InHand(s.ws, t);
    if InHand(s.ws, t) == 0 {
      assert t in multiset(s.m.tasks.queue);
      QueuedIsHandle(s.m.tasks.queue, t, f);
    } else {
      HeldIsSoft(s.ws, t, f);
    }
    OwnersAtLeast(Own, s.ws, x, x, f);
    OwnersAtLeast(Plain, s.ws, x, x, f);
  }

  lemma ActionKeepsReady(strict: bool, s: State, a: Action, s1: State, t: Task, f: FiberId)
    requires SoundFor(strict, s, f) && Ledger(s) && Waits(s, t, f) && s.m.tasks.started[t] == 0
    requires Next(s, a) == Some(s1) && !s1.m.crashed && Disciplined(strict, s, a) && s.ws != []
    ensures FiberOf(s1.m, f) == READY
  {
    NobodyIsBusy(strict, s, t, f, if a.Outside? || a.StopStep? then 0 else a.w);
    if a.Outside? {
      OutsideHandles(s.m, a.op, s1.m, f);
    } else if a.StopStep? {
      StopMoves(s, s1);
    } else {
      var x := a.w;
      var o, p, q := Elsewhere(Own, s.ws, x, f), Elsewhere(Plain, s.ws, x, f), Elsewhere(Soft, s.ws, x, f);
      WorkerIsReady(strict, s, x, f);
      LocalNextKeeps(strict, s.ws[x], s.m, a, (s1.ws[x], s1.m), o, p, q, f);
    }
  }

  ghost predicate Kept(strict: bool, s: State) {
    Sound(strict, s) && Ledger(s) && s.ws != []
  }

  lemma StepKeepsKept(strict: bool, s: State, a: Action, s1: State)
    requires Kept(strict, s) && Next(s, a) == Some(s1) && Disciplined(strict, s, a)
    ensures Kept(strict, s1) && s.m.tasks.issued <= s1.m.tasks.issued
  {
    StepKeepsSound(strict, s, a, s1);
    StepKeepsLedger(s, a, s1);
    NextMoves(s, a, s1, Task(Call(0), ANY, 0));
  }

  lemma StepKeepsWaiting(strict: bool, s: State, a: Action, s1: State, t: Task, f: FiberId)
    requires Kept(strict, s) && Next(s, a) == Some(s1) && Disciplined(strict, s, a) && Waits(s, t, f)
    ensures Kept(strict, s1) && Waits(s1, t, f)
  {
    StepKeepsKept(strict, s, a, s1);
    HistoryOfWaiting(s, a, s1, t, f);
    if s.m.tasks.started[t] == 0 {
      assert SoundFor(strict, s, f);
      ActionKeepsReady(strict, s, a, s1, t, f);
    }
  }

  lemma {:induction false} RunKeepsWaiting(strict: bool, s: State, run: seq<Action>, s1: State, t: Task, f: FiberId)
    requires Kept(strict, s) && Exec(s, run) == Some(s1) && DisciplinedRun(strict, s, run) && Waits(s, t, f)
    ensures Waits(s1, t, f)
    decreases |run|
  {
    if run != [] {
      var m := Next(s, run[0]).value;
      StepKeepsWaiting(strict, s, run[0], m, t, f);
      RunKeepsWaiting(strict, m, run[1..], s1, t, f);
    }
  }

  /** At the loop head the new handle waits. */
  lemma NewHandleWaits(strict: bool, s: State, a: Action, s1: State, w: nat, f: FiberId, own: bool)
    requires Kept(strict, s) && Kept(strict, s1) && Next(s, a) == Some(s1)
    requires w < |s.ws| && w < |s1.ws| && Proceeds(YieldReady, f, own, s, a, s1, w) && s1.ws[w].pc == LoopHead
    ensures var t := Task(Fib(f), ANY, |s.m.tasks.issued|); Waits(s1, t, f) && t !in s.m.tasks.issued
  {
    var t := Task(Fib(f), ANY, |s.m.tasks.issued|);
    assert t in multiset(s1.m.tasks.queue);
    assert s1.m.tasks.issued[t] == Seen(s1.m.tasks, t) + InHand(s1.ws, t);
  }

  /** A worker that has left the loop has come back before, and scheduled the yielded fiber. */
  lemma {:induction false} HandleWaitsInTheEnd(strict: bool, s: State, run: seq<Action>, s1: State, w: nat, f: FiberId, own: bool)
    returns (t: Task)
    requires Kept(strict, s) && Exec(s, run) == Some(s1) && DisciplinedRun(strict, s, run)
    requires w < |s.ws| && OnTheWay(YieldReady, f, own, s.ws[w].pc, FiberOf(s.m, f))
    requires w < |s1.ws| && s1.ws[w].pc == Exited
    ensures Waits(s1, t, f) && t.thread == ANY && t !in s.m.tasks.issued
    decreases |run|
  {
    var m := Next(s, run[0]).value;
    OneActionProceeds(strict, YieldReady, f, own, s, run[0], m, w);
    StepKeepsKept(strict, s, run[0], m);
    if m.ws[w].pc == LoopHead {
      NewHandleWaits(strict, s, run[0], m, w, f, own);
      t := Task(Fib(f), ANY, |s.m.tasks.issued|);
      RunKeepsWaiting(strict, m, run[1..], s1, t, f);
    } else {
      t := HandleWaitsInTheEnd(strict, m, run[1..], s1, w, f, own);
    }
  }

  lemma {:induction false} RunKeepsKept(strict: bool, s: State, run: seq<Action>, s1: State)
    requires Kept(strict, s) && Exec(s, run) == Some(s1) && DisciplinedRun(strict, s, run)
    ensures Kept(strict, s1)
    decreases |run|
  {
    if run != [] {
      StepKeepsKept(strict, s, run[0], Next(s, run[0]).value);
      RunKeepsKept(strict, Next(s, run[0]).value, run[1..], s1);
    }
  }

  /**
   A fiber that calls `YieldToReady` is started again before `stop` returns: its worker
   schedules a new handle, which is taken when the fiber is still READY and starts it once.
   */
  lemma YieldedFiberRunsAgain(strict: bool, threads: nat, caller: bool, past: seq<Action>, s: State, w: nat,
                              rest: seq<Action>, m: State, s1: State) returns (t: Task)
    requires threads > 0 && Exec(Init(threads, caller), past) == Some(s) && DisciplinedRun(strict, Init(threads, caller), past)
    requires w < |s.ws| && s.ws[w].pc.Inside?
    requires Next(s, User(w, YieldReady)) == Some(m) && Disciplined(strict, s, User(w, YieldReady))
    requires Exec(m, rest) == Some(s1) && DisciplinedRun(strict, m, rest) && s1.stopPc == Stopped
    ensures t.work == Fib(s.ws[w].pc.f) && t.thread == ANY && t !in s.m.tasks.issued
    ensures s1.m.tasks.started[t] == 1
  {
    InitSound(strict, threads, caller);
    InitLedger(threads, caller);
    RunKeepsKept(strict, Init(threads, caller), past, s);
    Departure(strict, s, w, YieldReady, m);
    StepKeepsKept(strict, s, User(w, YieldReady), m);
    ExecConcat(Init(threads, caller), past, [User(w, YieldReady)] + rest);
    assert ([User(w, YieldReady)] + rest)[1..] == rest;
    var whole := past + ([User(w, YieldReady)] + rest);
    RunKeepsStopWaits(Init(threads, caller), whole, s1);
    SameWorkers(m, rest, s1);
    t := HandleWaitsInTheEnd(strict, m, rest, s1, w, s.ws[w].pc.f, s.ws[w].pc.own);
    StopRunsEverything(threads, caller, whole, s1, t);
  }
}
