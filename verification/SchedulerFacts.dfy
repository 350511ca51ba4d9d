/**
 What every action keeps: the lock, the counters and the ledger of tasks agree with the
 program counters of the workers.
 */
module SchedulerFacts {
  import opened Prelude
  import opened SchedulerModel

  lemma {:induction false} BatchIsUnpinned(n: nat, cbs: seq<CallbackId>)
    ensures |Batch(n, cbs)| == |cbs|
    ensures forall i :: 0 <= i < |cbs| ==> Batch(n, cbs)[i] == Task(Call(cbs[i]), ANY, n + i)
    decreases |cbs|
  {
    if cbs != [] {
      BatchIsUnpinned(n + 1, cbs[1..]);
    }
  }

  // ---- the counters ------------------------------------------------------------------------

  /** Between ++m_activeThreadCount and its matching decrement. */
  function IsActive(w: Worker): nat {
    if w.pc.Counted? || w.pc.Dead? || w.pc.Entering? || w.pc.Admitted? || w.pc.Inside? || w.pc.Leaving? || w.pc.Returned? then 1 else 0
  }

  /** Between ++m_idleThreadCount and its matching decrement. */
  function IsIdle(w: Worker): nat {
    if w.pc.IdleEntering? || InIdle(w.pc) || w.pc.IdleReturned? then 1 else 0
  }

  predicate InIdle(pc: Pc) {
    pc.IdleTimers? || pc.IdleTasks? || pc.IdlePending? || pc.IdlePoll? || pc.IdleExpire? || pc.IdleBatch? || pc.IdleEvents?
  }

  /** A triggered continuation whose --m_pendingEventCount is still to come. */
  function Owes(w: Worker): nat {
    if w.pc == IdleEvents(true) || (w.pc.Inside? && w.pc.owed) then 1 else 0
  }

  ghost predicate Counters(s: State) {
    && s.m.active == Sum(IsActive, s.ws)
    && s.m.idling == Sum(IsIdle, s.ws)
    && s.m.io.pending == |s.m.io.slots| + Sum(Owes, s.ws) + s.m.io.owing
  }

  /** Each counter moves by what the worker's own share moves by. */
  ghost predicate Counts(me: Worker, m: Mem, me1: Worker, m1: Mem) {
    && m1.active - m.active == IsActive(me1) - IsActive(me)
    && m1.idling - m.idling == IsIdle(me1) - IsIdle(me)
    && m1.io.pending - m.io.pending == |m1.io.slots| - |m.io.slots| + Owes(me1) - Owes(me)
    && m1.io.owing == m.io.owing
  }

  lemma ScanStepCounts(me: Worker, w: nat, m: Mem, r: Local)
    requires ScanStep(me, w, m) == Some(r)
    ensures Counts(me, m, r.0, r.1)
  {
  }

  lemma CountedStepCounts(me: Worker, m: Mem, r: Local)
    requires BeginStep(me, m) == Some(r) && me.pc.Counted?
    ensures Counts(me, m, r.0, r.1)
  {
  }

  lemma BeginStepCounts(me: Worker, m: Mem, r: Local)
    requires BeginStep(me, m) == Some(r)
    ensures Counts(me, m, r.0, r.1)
  {
    if me.pc.Counted? {
      CountedStepCounts(me, m, r);
    }
  }

  lemma FinishStepCounts(me: Worker, m: Mem, r: Local)
    requires FinishStep(me, m) == Some(r)
    ensures Counts(me, m, r.0, r.1)
  {
  }

  lemma IdleStepCounts(me: Worker, m: Mem, r: Local)
    requires IdleStep(me, m) == Some(r)
    ensures Counts(me, m, r.0, r.1)
  {
  }

  lemma SharedCounts(m: Mem, op: Op, m1: Mem)
    requires Shared(m, op) == Some(m1)
    ensures m1.active == m.active && m1.idling == m.idling && m1.io.owing == m.io.owing
    ensures m1.io.pending - m.io.pending == |m1.io.slots| - |m.io.slots|
  {
  }

  lemma OutsideCounts(m: Mem, op: Op, m1: Mem)
    requires OutsideOp(m, op) == Some(m1)
    ensures m1.active == m.active && m1.idling == m.idling
    ensures m1.io.pending - m.io.pending == |m1.io.slots| - |m.io.slots| + m1.io.owing - m.io.owing
  {
    if !op.Cancel? && !op.Settle? {
      SharedCounts(m, op, m1);
    }
  }

  lemma FiberOpCounts(me: Worker, m: Mem, op: Op, r: Local)
    requires me.pc.Inside? && !me.pc.owed && FiberOp(me, m, op) == Some(r)
    ensures Counts(me, m, r.0, r.1)
  {
  }

  lemma UserStepCounts(me: Worker, m: Mem, op: Op, r: Local)
    requires UserStep(me, m, op) == Some(r)
    ensures Counts(me, m, r.0, r.1)
  {
    if me.pc.owed || op.Cancel? {
      TriggerCounts(me, m, op, r);
    } else if OnSelf(op) {
      FiberOpCounts(me, m, op, r);
    } else {
      SharedCounts(m, op, r.1);
    }
  }

  lemma TriggerCounts(me: Worker, m: Mem, op: Op, r: Local)
    requires UserStep(me, m, op) == Some(r) && (me.pc.owed || op.Cancel?)
    ensures Counts(me, m, r.0, r.1)
  {
  }

  lemma WorkerStepCounts(me: Worker, w: nat, m: Mem, r: Local)
    requires WorkerStep(me, w, m) == Some(r)
    ensures Counts(me, m, r.0, r.1)
  {
    match me.pc
    case LoopHead | Scanning(_) | Picked(_) | Empty => ScanStepCounts(me, w, m, r);
    case Counted(_) | Dead | Entering(_, _) | Admitted(_, _) => BeginStepCounts(me, m, r);
    case Leaving(_, _) | Returned(_, _) | Uncounted(_, _) | Requeue(_, _) | Recheck(_, _)
       | Parking(_, _) | Retire(_) => FinishStepCounts(me, m, r);
    case _ => IdleStepCounts(me, m, r);
  }

  lemma ExpireCounts(me: Worker, m: Mem, due: seq<TimerEntry>, r: Local)
    requires ExpireStep(me, m, due) == Some(r)
    ensures Counts(me, m, r.0, r.1)
  {
  }

  lemma FireCounts(me: Worker, m: Mem, x: Work, r: Local)
    requires FireStep(me, m, x) == Some(r)
    ensures Counts(me, m, r.0, r.1)
  {
  }

  lemma LocalNextCounts(me: Worker, m: Mem, a: Action, r: Local)
    requires !a.Outside? && !a.StopStep?
    requires LocalNext(me, m, a) == Some(r)
    ensures Counts(me, m, r.0, r.1)
  {
    match a
    case Step(w) => WorkerStepCounts(me, w, m, r);
    case User(_, op) => UserStepCounts(me, m, op, r);
    case Expire(_, due) => ExpireCounts(me, m, due, r);
    case Fire(_, x) => FireCounts(me, m, x, r);
  }

  /** The counters follow one worker through its step. */
  lemma ReplaceKeepsCounters(s: State, w: nat, me1: Worker, m1: Mem, stopPc: StopPc)
    requires Counters(s) && w < |s.ws| && Counts(s.ws[w], s.m, me1, m1)
    ensures Counters(s.(ws := s.ws[w := me1], m := m1, stopPc := stopPc))
  {
    SumUpdate(IsActive, s.ws, w, me1);
    SumUpdate(IsIdle, s.ws, w, me1);
    SumUpdate(Owes, s.ws, w, me1);
  }

  lemma StopNextCounts(s: State, s1: State)
    requires Next(s, StopStep) == Some(s1)
    ensures s.ws != [] && s1.ws == s.ws[0 := s1.ws[0]] && Counts(s.ws[0], s.m, s1.ws[0], s1.m)
  {
  }

  lemma StepKeepsCounters(s: State, a: Action, s1: State)
    requires Counters(s) && Next(s, a) == Some(s1)
    ensures Counters(s1)
  {
    match a
    case Outside(op) => OutsideCounts(s.m, op, s1.m);
    case StopStep =>
      StopNextCounts(s, s1);
      ReplaceKeepsCounters(s, 0, s1.ws[0], s1.m, s1.stopPc);
    case _ =>
      LocalNextCounts(s.ws[a.w], s.m, a, (s1.ws[a.w], s1.m));
      ReplaceKeepsCounters(s, a.w, s1.ws[a.w], s1.m, s1.stopPc);
  }

  lemma InitCounters(threads: nat, caller: bool)
    ensures Counters(Init(threads, caller))
  {
    var s := Init(threads, caller);
    SumZero(IsActive, s.ws);
    SumZero(IsIdle, s.ws);
    SumZero(Owes, s.ws);
  }

  // ---- the lock ----------------------------------------------------------------------------

  /** The lock is held across actions exactly by the worker that is scanning. */
  ghost predicate LockHeld(s: State) {
    && (forall w :: 0 <= w < |s.ws| ==> (s.ws[w].pc.Scanning? <==> s.m.tasks.lock == Some(w)))
    && (s.m.tasks.lock.Some? ==> s.m.tasks.lock.value < |s.ws|)
    && (forall w :: 0 <= w < |s.ws| && s.ws[w].pc.Scanning? ==> s.ws[w].pc.i <= |s.m.tasks.queue|)
  }

  /** While somebody else holds the lock a worker leaves the list alone; when it is free it may append. */
  ghost predicate Respects(me: Worker, w: nat, m: Mem, me1: Worker, m1: Mem) {
    && (!me.pc.Scanning? && !me1.pc.Scanning? ==>
          m1.tasks.lock == m.tasks.lock && (!Free(m) ==> m1.tasks.queue == m.tasks.queue))
    && (!me.pc.Scanning? && me1.pc.Scanning? ==>
          Free(m) && me1.pc.i == 0 && m1.tasks == m.tasks.(lock := Some(w)))
    && (me.pc.Scanning? && me1.pc.Scanning? ==>
          m1.tasks == m.tasks && me1.pc.i == me.pc.i + 1 && me.pc.i < |m.tasks.queue|)
    && (me.pc.Scanning? && !me1.pc.Scanning? ==> Free(m1))
  }

  lemma ScanStepRespects(me: Worker, w: nat, m: Mem, r: Local)
    requires ScanStep(me, w, m) == Some(r)
    ensures Respects(me, w, m, r.0, r.1)
  {
  }

  lemma BeginStepRespects(me: Worker, w: nat, m: Mem, r: Local)
    requires BeginStep(me, m) == Some(r)
    ensures Respects(me, w, m, r.0, r.1)
  {
  }

  lemma FinishStepRespects(me: Worker, w: nat, m: Mem, r: Local)
    requires FinishStep(me, m) == Some(r)
    ensures Respects(me, w, m, r.0, r.1)
  {
  }

  lemma IdleStepRespects(me: Worker, w: nat, m: Mem, r: Local)
    requires IdleStep(me, m) == Some(r)
    ensures Respects(me, w, m, r.0, r.1)
  {
  }

  lemma WorkerStepRespects(me: Worker, w: nat, m: Mem, r: Local)
    requires WorkerStep(me, w, m) == Some(r)
    ensures Respects(me, w, m, r.0, r.1)
  {
    match me.pc
    case LoopHead | Scanning(_) | Picked(_) | Empty => ScanStepRespects(me, w, m, r);
    case Counted(_) | Dead | Entering(_, _) | Admitted(_, _) => BeginStepRespects(me, w, m, r);
    case Leaving(_, _) | Returned(_, _) | Uncounted(_, _) | Requeue(_, _) | Recheck(_, _)
       | Parking(_, _) | Retire(_) => FinishStepRespects(me, w, m, r);
    case _ => IdleStepRespects(me, w, m, r);
  }

  lemma UserStepRespects(me: Worker, w: nat, m: Mem, op: Op, r: Local)
    requires UserStep(me, m, op) == Some(r)
    ensures Respects(me, w, m, r.0, r.1)
  {
  }

  lemma LocalNextRespects(me: Worker, w: nat, m: Mem, a: Action, r: Local)
    requires !a.Outside? && !a.StopStep? && a.w == w
    requires LocalNext(me, m, a) == Some(r)
    ensures Respects(me, w, m, r.0, r.1)
  {
    match a
    case Step(_) => WorkerStepRespects(me, w, m, r);
    case User(_, op) => UserStepRespects(me, w, m, op, r);
    case _ =>
  }

  /** What a step of the thread in `stop` can change: two flags, and whether the caller's worker starts. */
  ghost predicate StopMove(s: State, s1: State) {
    && s.ws != [] && s1.ws != [] && s1.ws == s.ws[0 := s.ws[0].(pc := s1.ws[0].pc)] && s1.caller == s.caller
    && (s1.ws[0].pc == s.ws[0].pc || (s.ws[0].pc == NotStarted && (s1.ws[0].pc == LoopHead || s1.ws[0].pc == Exited)))
    && s1.m == s.m.(autoStop := s1.m.autoStop, stopping := s1.m.stopping)
  }

  lemma StopMoves(s: State, s1: State)
    requires Next(s, StopStep) == Some(s1)
    ensures StopMove(s, s1)
  {
  }

  lemma StopKeepsLock(s: State, s1: State)
    requires LockHeld(s) && StopMove(s, s1)
    ensures LockHeld(s1)
  {
  }

  /** Outside threads touch the list only while nobody holds its lock. */
  lemma OutsideRespects(m: Mem, op: Op, m1: Mem)
    requires OutsideOp(m, op) == Some(m1)
    ensures m1.tasks.lock == m.tasks.lock && (!Free(m) ==> m1.tasks.queue == m.tasks.queue)
  {
  }

  lemma OutsideKeepsLock(s: State, op: Op, m1: Mem)
    requires LockHeld(s) && OutsideOp(s.m, op) == Some(m1)
    ensures LockHeld(s.(m := m1))
  {
    OutsideRespects(s.m, op, m1);
  }

  lemma LocalKeepsLock(s: State, w: nat, me1: Worker, m1: Mem)
    requires LockHeld(s) && w < |s.ws| && Respects(s.ws[w], w, s.m, me1, m1)
    ensures LockHeld(s.(ws := s.ws[w := me1], m := m1))
  {
  }

  lemma StepKeepsLock(s: State, a: Action, s1: State)
    requires LockHeld(s) && Next(s, a) == Some(s1)
    ensures LockHeld(s1)
  {
    match a
    case Outside(op) => OutsideKeepsLock(s, op, s1.m);
    case StopStep =>
      StopMoves(s, s1);
      StopKeepsLock(s, s1);
    case _ =>
      LocalNextRespects(s.ws[a.w], a.w, s.m, a, (s1.ws[a.w], s1.m));
      LocalKeepsLock(s, a.w, s1.ws[a.w], s1.m);
  }

  // ---- the ledger --------------------------------------------------------------------------

  /** Has the worker dequeued `t` and neither run nor dropped it? */
  function Hand(w: Worker, t: Task): nat {
    if (w.pc.Picked? || w.pc.Counted?) && w.pc.t == t then 1 else 0
  }

  function InHand(ws: seq<Worker>, t: Task): nat {
    if ws == [] then 0 else Hand(ws[0], t) + InHand(ws[1..], t)
  }

  lemma {:induction false} InHandUpdate(ws: seq<Worker>, w: nat, x: Worker, t: Task)
    requires w < |ws|
    ensures InHand(ws[w := x], t) + Hand(ws[w], t) == InHand(ws, t) + Hand(x, t)
  {
    if w == 0 {
      assert ws[w := x][1..] == ws[1..];
    } else {
      assert ws[w := x][1..] == ws[1..][w - 1 := x];
      InHandUpdate(ws[1..], w - 1, x, t);
    }
  }

  lemma {:induction false} NothingInHand(ws: seq<Worker>, t: Task)
    requires forall w :: 0 <= w < |ws| ==> Hand(ws[w], t) == 0
    ensures InHand(ws, t) == 0
  {
    if ws != [] {
      assert forall w :: 0 <= w < |ws[1..]| ==> ws[1..][w] == ws[w + 1];
      NothingInHand(ws[1..], t);
    }
  }

  /** How often `t` is in the list, run or dropped. */
  function Seen(l: TaskList, t: Task): nat {
    multiset(l.queue)[t] + l.started[t] + l.dropped[t]
  }

  /** Every task ever pushed is in exactly one place, and tickets are never given twice. */
  ghost predicate Ledger(s: State) {
    var l := s.m.tasks;
    && (forall t :: l.issued[t] == Seen(l, t) + InHand(s.ws, t))
    && Tickets(l)
  }

  ghost predicate Tickets(l: TaskList) {
    && (forall t :: t in l.issued ==> l.issued[t] == 1 && t.ticket < |l.issued|)
    && (forall t, u :: t in l.issued && u in l.issued && t.ticket == u.ticket ==> t == u)
  }

  /** The tasks an action has appended. */
  function Added(l: TaskList, l1: TaskList): seq<Task> {
    if |l.queue| <= |l1.queue| then l1.queue[|l.queue|..] else []
  }

  ghost predicate Appends(l: TaskList, l1: TaskList) {
    var added := Added(l, l1);
    && (added != [] ==> l1.queue == l.queue + added)
    && l1.issued == l.issued + multiset(added)
    && (forall i :: 0 <= i < |added| ==> added[i].ticket == |l.issued| + i)
  }

  /** No task appears or disappears but those appended. */
  ghost predicate Moves(me: Worker, l: TaskList, me1: Worker, l1: TaskList, t: Task) {
    && Appends(l, l1)
    && Seen(l1, t) + Hand(me1, t) == Seen(l, t) + Hand(me, t) + multiset(Added(l, l1))[t]
  }

  lemma SameListMoves(me: Worker, l: TaskList, me1: Worker, l1: TaskList, t: Task)
    requires l1 == l.(lock := l1.lock) && Hand(me, t) == Hand(me1, t)
    ensures Moves(me, l, me1, l1, t)
  {
    assert Added(l, l1) == [];
  }

  lemma PushMoves(me: Worker, m: Mem, work: Work, thread: int, me1: Worker, t: Task)
    requires Hand(me, t) == Hand(me1, t)
    ensures Moves(me, m.tasks, me1, Push(m, work, thread).tasks, t)
  {
    assert Added(m.tasks, Push(m, work, thread).tasks) == [Task(work, thread, |m.tasks.issued|)];
  }

  lemma PushAllMoves(me: Worker, m: Mem, cbs: seq<CallbackId>, me1: Worker, t: Task)
    requires Hand(me, t) == Hand(me1, t)
    ensures Moves(me, m.tasks, me1, PushAll(m, cbs).tasks, t)
  {
    BatchIsUnpinned(|m.tasks.issued|, cbs);
    assert Added(m.tasks, PushAll(m, cbs).tasks) == Batch(|m.tasks.issued|, cbs);
  }

  lemma TakeMoves(me: Worker, m: Mem, i: nat, me1: Worker, t: Task)
    requires i < |m.tasks.queue|
    requires Hand(me, t) == 0 && Hand(me1, t) == if m.tasks.queue[i] == t then 1 else 0
    ensures Moves(me, m.tasks, me1, Take(m, i).tasks, t)
  {
    WithoutMultiset(m.tasks.queue, i);
    assert Added(m.tasks, Take(m, i).tasks) == [];
  }

  lemma HandMoves(me: Worker, u: Task, l: TaskList, me1: Worker, l1: TaskList, t: Task)
    requires Hand(me, t) == (if u == t then 1 else 0) && Hand(me1, t) == 0
    requires l1 == l.(started := l.started + multiset{u}) || l1 == l.(dropped := l.dropped + multiset{u})
    ensures Moves(me, l, me1, l1, t)
  {
    assert Added(l, l1) == [];
  }

  lemma ScanStepMoves(me: Worker, w: nat, m: Mem, r: Local, t: Task)
    requires ScanStep(me, w, m) == Some(r)
    ensures Moves(me, m.tasks, r.0, r.1.tasks, t)
  {
    if r.0.pc.Picked? { TakeMoves(me, m, me.pc.i, r.0, t); } else { SameListMoves(me, m.tasks, r.0, r.1.tasks, t); }
  }

  lemma BeginStepMoves(me: Worker, m: Mem, r: Local, t: Task)
    requires BeginStep(me, m) == Some(r)
    ensures Moves(me, m.tasks, r.0, r.1.tasks, t)
  {
    if me.pc.Counted? && !r.0.pc.Counted? {
      HandMoves(me, me.pc.t, m.tasks, r.0, r.1.tasks, t);
    } else {
      SameListMoves(me, m.tasks, r.0, r.1.tasks, t);
    }
  }

  lemma FinishStepMoves(me: Worker, m: Mem, r: Local, t: Task)
    requires FinishStep(me, m) == Some(r)
    ensures Moves(me, m.tasks, r.0, r.1.tasks, t)
  {
    if me.pc.Requeue? {
      PushMoves(me, m, Fib(me.pc.f), ANY, r.0, t);
    } else {
      FinishKeepsList(me, m, r, t);
      SameListMoves(me, m.tasks, r.0, r.1.tasks, t);
    }
  }

  lemma FinishKeepsList(me: Worker, m: Mem, r: Local, t: Task)
    requires !me.pc.Requeue? && FinishStep(me, m) == Some(r)
    ensures r.1.tasks == m.tasks && Hand(me, t) == Hand(r.0, t)
  {
  }

  lemma IdleStepMoves(me: Worker, m: Mem, r: Local, t: Task)
    requires IdleStep(me, m) == Some(r)
    ensures Moves(me, m.tasks, r.0, r.1.tasks, t)
  {
    if me.pc.IdleBatch? && me.pc.cbs != [] {
      assert r == (me.(pc := IdleEvents(false)), PushAll(m, me.pc.cbs));
      PushAllMoves(me, m, me.pc.cbs, r.0, t);
    } else {
      IdleKeepsList(me, m, r, t);
      SameListMoves(me, m.tasks, r.0, r.1.tasks, t);
    }
  }

  lemma IdleKeepsList(me: Worker, m: Mem, r: Local, t: Task)
    requires IdleStep(me, m) == Some(r) && (me.pc.IdleBatch? ==> me.pc.cbs == [])
    ensures r.1.tasks == m.tasks && Hand(me, t) == 0 && Hand(r.0, t) == 0
  {
  }

  predicate Schedules(op: Op) {
    op.Submit? || op.Spawn? || op.Share? || op.Redeem?
  }

  lemma SharedList(m: Mem, op: Op, m1: Mem)
    requires Shared(m, op) == Some(m1)
    ensures Schedules(op) ==> exists work :: m1.tasks == Push(m, work, op.thread).tasks
    ensures !Schedules(op) ==> m1.tasks == m.tasks
  {
    if Schedules(op) {
      var work := if op.Submit? then Call(op.c) else if op.Spawn? then Fib(|m.fibers|) else Fib(op.g);
      assert m1.tasks == Push(m, work, op.thread).tasks;
    }
  }

  lemma SharedMoves(me: Worker, m: Mem, op: Op, m1: Mem, me1: Worker, t: Task)
    requires Shared(m, op) == Some(m1) && Hand(me, t) == Hand(me1, t)
    ensures Moves(me, m.tasks, me1, m1.tasks, t)
  {
    SharedList(m, op, m1);
    if Schedules(op) {
      var work :| m1.tasks == Push(m, work, op.thread).tasks;
      PushMoves(me, m, work, op.thread, me1, t);
    } else {
      SameListMoves(me, m.tasks, me1, m1.tasks, t);
    }
  }

  lemma TriggerMoves(me: Worker, m: Mem, x: Work, m1: Mem, me1: Worker, t: Task)
    requires Trigger(m, x) == Some(m1) && Hand(me, t) == Hand(me1, t)
    ensures Moves(me, m.tasks, me1, m1.tasks, t)
  {
    PushMoves(me, m, x, ANY, me1, t);
  }

  lemma OutsideMoves(me: Worker, m: Mem, op: Op, m1: Mem, me1: Worker, t: Task)
    requires OutsideOp(m, op) == Some(m1) && Hand(me, t) == Hand(me1, t)
    ensures Moves(me, m.tasks, me1, m1.tasks, t)
  {
    match op
    case Cancel(x) => TriggerMoves(me, m, x, Trigger(m, x).value, me1, t);
    case Settle => SameListMoves(me, m.tasks, me1, m1.tasks, t);
    case _ => SharedMoves(me, m, op, m1, me1, t);
  }

  lemma FiberOpKeepsList(me: Worker, m: Mem, op: Op, r: Local, t: Task)
    requires UserStep(me, m, op) == Some(r)
    requires me.pc.owed || OnSelf(op)
    ensures r.1.tasks == m.tasks && Hand(me, t) == 0 && Hand(r.0, t) == 0
  {
  }

  lemma UserStepMoves(me: Worker, m: Mem, op: Op, r: Local, t: Task)
    requires UserStep(me, m, op) == Some(r)
    ensures Moves(me, m.tasks, r.0, r.1.tasks, t)
  {
    if me.pc.owed || OnSelf(op) {
      FiberOpKeepsList(me, m, op, r, t);
      SameListMoves(me, m.tasks, r.0, r.1.tasks, t);
    } else if op.Cancel? {
      TriggerMoves(me, m, op.x, r.1, r.0, t);
    } else {
      SharedMoves(me, m, op, r.1, r.0, t);
    }
  }

  lemma WorkerStepMoves(me: Worker, w: nat, m: Mem, r: Local, t: Task)
    requires WorkerStep(me, w, m) == Some(r)
    ensures Moves(me, m.tasks, r.0, r.1.tasks, t)
  {
    match me.pc
    case LoopHead | Scanning(_) | Picked(_) | Empty => ScanStepMoves(me, w, m, r, t);
    case Counted(_) | Dead | Entering(_, _) | Admitted(_, _) => BeginStepMoves(me, m, r, t);
    case Leaving(_, _) | Returned(_, _) | Uncounted(_, _) | Requeue(_, _) | Recheck(_, _)
       | Parking(_, _) | Retire(_) => FinishStepMoves(me, m, r, t);
    case _ => IdleStepMoves(me, m, r, t);
  }

  lemma LocalNextMoves(me: Worker, m: Mem, a: Action, r: Local, t: Task)
    requires !a.Outside? && !a.StopStep? && LocalNext(me, m, a) == Some(r)
    ensures Moves(me, m.tasks, r.0, r.1.tasks, t)
  {
    match a
    case Expire(_, due) => SameListMoves(me, m.tasks, r.0, r.1.tasks, t);
    case Fire(_, x) => TriggerMoves(me, m, x, r.1, r.0, t);
    case User(_, op) => UserStepMoves(me, m, op, r, t);
    case Step(w) => WorkerStepMoves(me, w, m, r, t);
  }

  lemma {:induction false} TicketsDistinct(added: seq<Task>, n: nat)
    requires forall i :: 0 <= i < |added| ==> added[i].ticket == n + i
    ensures forall t :: t in multiset(added) ==> multiset(added)[t] == 1 && n <= t.ticket < n + |added|
    ensures forall t, u :: t in multiset(added) && u in multiset(added) && t.ticket == u.ticket ==> t == u
  {
    if added != [] {
      var last := added[|added| - 1];
      var front := added[..|added| - 1];
      TicketsDistinct(front, n);
      assert added == front + [last];
    }
  }

  lemma AppendsKeepsTickets(l: TaskList, l1: TaskList)
    requires Tickets(l) && Appends(l, l1)
    ensures Tickets(l1)
  {
    TicketsDistinct(Added(l, l1), |l.issued|);
  }

  /** The worker a step belongs to; worker 0 for steps that change no worker. */
  function Actor(a: Action): nat {
    match a
    case Outside(_) | StopStep => 0
    case _ => a.w
  }

  lemma NextMoves(s: State, a: Action, s1: State, t: Task)
    requires Next(s, a) == Some(s1) && s.ws != []
    ensures Actor(a) < |s.ws| && s1.ws == s.ws[Actor(a) := s1.ws[Actor(a)]]
    ensures Moves(s.ws[Actor(a)], s.m.tasks, s1.ws[Actor(a)], s1.m.tasks, t)
  {
    match a
    case Outside(op) => OutsideMoves(s.ws[0], s.m, op, s1.m, s1.ws[0], t);
    case StopStep => SameListMoves(s.ws[0], s.m.tasks, s1.ws[0], s1.m.tasks, t);
    case _ => LocalNextMoves(s.ws[a.w], s.m, a, (s1.ws[a.w], s1.m), t);
  }

  lemma StepKeepsLedger(s: State, a: Action, s1: State)
    requires Ledger(s) && Next(s, a) == Some(s1) && s.ws != []
    ensures Ledger(s1)
  {
    var w := Actor(a);
    forall t ensures s1.m.tasks.issued[t] == Seen(s1.m.tasks, t) + InHand(s1.ws, t) {
      NextMoves(s, a, s1, t);
      InHandUpdate(s.ws, w, s1.ws[w], t);
    }
    NextMoves(s, a, s1, Task(Call(0), ANY, 0));
    AppendsKeepsTickets(s.m.tasks, s1.m.tasks);
  }

  lemma InitLedger(threads: nat, caller: bool)
    ensures Ledger(Init(threads, caller)) && LockHeld(Init(threads, caller))
  {
    forall t ensures InHand(Init(threads, caller).ws, t) == 0 {
      NothingInHand(Init(threads, caller).ws, t);
    }
  }

  // ---- over whole runs -----------------------------------------------------------------------

  ghost predicate Books(s: State) {
    s.ws != [] && Counters(s) && LockHeld(s) && Ledger(s)
  }

  lemma {:induction false} RunKeepsBooks(s: State, run: seq<Action>, s1: State)
    requires Books(s) && Exec(s, run) == Some(s1)
    ensures Books(s1)
    decreases |run|
  {
    if run != [] {
      var m := Next(s, run[0]).value;
      NextMoves(s, run[0], m, Task(Call(0), ANY, 0));
      StepKeepsCounters(s, run[0], m);
      StepKeepsLock(s, run[0], m);
      StepKeepsLedger(s, run[0], m);
      RunKeepsBooks(m, run[1..], s1);
    }
  }

  lemma {:induction false} SameWorkers(s: State, run: seq<Action>, s1: State)
    requires s.ws != [] && Exec(s, run) == Some(s1)
    ensures |s1.ws| == |s.ws|
    decreases |run|
  {
    if run != [] {
      NextMoves(s, run[0], Next(s, run[0]).value, Task(Call(0), ANY, 0));
      SameWorkers(Next(s, run[0]).value, run[1..], s1);
    }
  }

  lemma ReachableBooks(threads: nat, caller: bool, run: seq<Action>, s: State)
    requires threads > 0 && Exec(Init(threads, caller), run) == Some(s)
    ensures Books(s)
  {
    InitCounters(threads, caller);
    InitLedger(threads, caller);
    RunKeepsBooks(Init(threads, caller), run, s);
  }

  /**
   Active-count conservation: in every reachable state the thread counters count the
   workers inside their windows and the pending count covers every registered continuation,
   so a worker about to decrement a counter never finds it at zero.
   */
  lemma CountersAreExact(threads: nat, caller: bool, run: seq<Action>, s: State, w: nat)
    requires threads > 0 && Exec(Init(threads, caller), run) == Some(s) && w < |s.ws|
    ensures Counters(s)
    ensures IsActive(s.ws[w]) == 1 ==> s.m.active >= 1
    ensures IsIdle(s.ws[w]) == 1 ==> s.m.idling >= 1
    ensures Owes(s.ws[w]) == 1 || s.m.io.owing > 0 ==> s.m.io.pending >= 1
  {
    ReachableBooks(threads, caller, run, s);
    SumAtLeast(IsActive, s.ws, w);
    SumAtLeast(IsIdle, s.ws, w);
    SumAtLeast(Owes, s.ws, w);
  }

  /** Exactly once: a pushed task is in the list, in one worker's hands, run or dropped; one of them, once. */
  lemma EachTaskHasOnePlace(threads: nat, caller: bool, run: seq<Action>, s: State, t: Task)
    requires threads > 0 && Exec(Init(threads, caller), run) == Some(s)
    ensures t in s.m.tasks.issued ==> Seen(s.m.tasks, t) + InHand(s.ws, t) == 1
    ensures t !in s.m.tasks.issued ==> Seen(s.m.tasks, t) + InHand(s.ws, t) == 0
  {
    ReachableBooks(threads, caller, run, s);
  }

  // ---- dropped handles -------------------------------------------------------------------------

  lemma SharedDropsNothing(m: Mem, op: Op, m1: Mem)
    requires Shared(m, op) == Some(m1)
    ensures m1.tasks.dropped == m.tasks.dropped && m1.tasks.started == m.tasks.started
  {
  }

  lemma UserDropsNothing(me: Worker, m: Mem, op: Op, r: Local)
    requires UserStep(me, m, op) == Some(r)
    ensures r.1.tasks.dropped == m.tasks.dropped && r.1.tasks.started == m.tasks.started
  {
    if Shared(m, op).Some? {
      SharedDropsNothing(m, op, Shared(m, op).value);
    }
  }

  /** Only a worker that looks at a task it has dequeued starts or drops anything. */
  lemma OthersDropNothing(s: State, a: Action, s1: State)
    requires Next(s, a) == Some(s1) && !a.Step?
    ensures s1.m.tasks.dropped == s.m.tasks.dropped && s1.m.tasks.started == s.m.tasks.started
  {
    match a
    case User(w, op) => UserDropsNothing(s.ws[w], s.m, op, (s1.ws[w], s1.m));
    case Outside(op) =>
      if Shared(s.m, op).Some? {
        SharedDropsNothing(s.m, op, Shared(s.m, op).value);
      }
    case StopStep => StopMoves(s, s1);
    case _ =>
  }
}
