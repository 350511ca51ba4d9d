/**
 No stranded work: when `stop` has returned, every unpinned task that was ever pushed has
 been run or was a fiber that had already ended, although `stopping` may answer true while
 a worker still holds work that nobody can see.
 */
module Drain {
  import opened Prelude
  import opened SchedulerModel
  import opened SchedulerFacts

  /** The worker is past its last scan. */
  predicate Left(me: Worker) {
    me.pc == Exited || (me.pc == Empty && me.idle == TERM)
  }

  /** The worker will scan the list again; the caller's worker may still be waved through by `stop`. */
  predicate Live(s: State, w: nat)
    requires w < |s.ws|
  {
    && !Left(s.ws[w])
    && !(w == 0 && s.ws[0].pc == NotStarted && s.stopPc.Check? && s.stopPc.stage >= 2)
  }

  /** The worker is between setting fiber f to EXEC and deciding what became of it. */
  predicate Within(me: Worker, f: FiberId) {
    match me.pc
    case Inside(g, _, _, _) => f == g
    case Leaving(g, _) => f == g
    case Returned(g, _) => f == g
    case Uncounted(g, _) => f == g
    case Recheck(g, _) => f == g
    case Parking(g, _) => f == g
    case _ => false
  }

  ghost predicate Unpinned(l: TaskList, n: nat)
    requires n <= |l.queue|
  {
    exists i :: 0 <= i < n && l.queue[i].thread == ANY
  }

  ghost predicate SomeLive(s: State, but: int) {
    exists w: nat :: w < |s.ws| && w != but && Live(s, w)
  }

  ghost predicate ExecIsWithin(s: State, f: FiberId) {
    FiberOf(s.m, f) == EXEC ==> exists w :: 0 <= w < |s.ws| && Within(s.ws[w], f)
  }

  predicate NeedsStop(me: Worker) {
    me.idle == TERM || me.pc == IdlePending || me.pc == Exited
  }

  ghost predicate Draining(s: State) {
    && s.ws != []
    && LockHeld(s)
    && (Unpinned(s.m.tasks, |s.m.tasks.queue|) ==> SomeLive(s, -1))
    && (forall w: nat :: w < |s.ws| && s.ws[w].pc.Scanning? && Unpinned(s.m.tasks, s.ws[w].pc.i) ==> SomeLive(s, w))
    && (forall f :: ExecIsWithin(s, f))
    && (forall w :: 0 <= w < |s.ws| && NeedsStop(s.ws[w]) ==> s.m.autoStop)
    && (s.stopPc != NotStopping ==> s.m.autoStop)
  }

  // ---- what one worker's step does ---------------------------------------------------------

  /** The parts of a step that matter here. */
  ghost predicate Yields(me: Worker, m: Mem, me1: Worker, m1: Mem) {
    // a worker leaves only when its own scan has reached the end of the list
    && (Left(me1) && !Left(me) ==> me.pc.Scanning? && me.pc.i >= |m.tasks.queue|)
    && (Left(me) ==> Left(me1))
    && (me.pc == NotStarted <==> me1.pc == NotStarted)
    // whoever appends will scan again
    && (!me1.pc.Scanning? && Added(m.tasks, m1.tasks) != [] ==> !Left(me1) && me1.pc != NotStarted)
    && (NeedsStop(me1) ==> NeedsStop(me) || m.autoStop)
    && m1.autoStop == m.autoStop
    // only a scan erases
    && (!me.pc.Scanning? && Added(m.tasks, m1.tasks) == [] ==> m1.tasks.queue == m.tasks.queue)
  }

  /** EXEC is set only by the worker that is then within the fiber, and it does not walk away from it. */
  ghost predicate Tracks(me: Worker, m: Mem, me1: Worker, m1: Mem, f: FiberId) {
    FiberOf(m1, f) == EXEC ==>
      Within(me1, f) || (FiberOf(m, f) == EXEC && !Within(me, f))
  }

  lemma ScanStepYields(me: Worker, w: nat, m: Mem, r: Local, f: FiberId)
    requires ScanStep(me, w, m) == Some(r)
    ensures Yields(me, m, r.0, r.1) && Tracks(me, m, r.0, r.1, f)
  {
  }

  lemma BeginStepYields(me: Worker, m: Mem, r: Local)
    requires BeginStep(me, m) == Some(r)
    ensures Yields(me, m, r.0, r.1)
  {
  }

  lemma BeginStepTracks(me: Worker, m: Mem, r: Local, f: FiberId)
    requires BeginStep(me, m) == Some(r)
    ensures Tracks(me, m, r.0, r.1, f)
  {
  }

  lemma RequeueYields(me: Worker, m: Mem, r: Local, f: FiberId)
    requires FinishStep(me, m) == Some(r) && me.pc.Requeue?
    ensures Yields(me, m, r.0, r.1) && Tracks(me, m, r.0, r.1, f)
  {
  }

  lemma FinishYields(me: Worker, m: Mem, r: Local)
    requires FinishStep(me, m) == Some(r) && !me.pc.Requeue?
    ensures Yields(me, m, r.0, r.1)
  {
  }

  lemma FinishTracks(me: Worker, m: Mem, r: Local, f: FiberId)
    requires FinishStep(me, m) == Some(r) && !me.pc.Requeue?
    ensures Tracks(me, m, r.0, r.1, f)
  {
  }

  lemma FinishStepYields(me: Worker, m: Mem, r: Local, f: FiberId)
    requires FinishStep(me, m) == Some(r)
    ensures Yields(me, m, r.0, r.1) && Tracks(me, m, r.0, r.1, f)
  {
    if me.pc.Requeue? {
      RequeueYields(me, m, r, f);
    } else {
      FinishYields(me, m, r);
      FinishTracks(me, m, r, f);
    }
  }

  lemma IdleStepYields(me: Worker, m: Mem, r: Local, f: FiberId)
    requires IdleStep(me, m) == Some(r)
    ensures Yields(me, m, r.0, r.1) && Tracks(me, m, r.0, r.1, f)
  {
    if !me.pc.IdleBatch? {
      IdleYields(me, m, r);
    }
  }

  lemma IdleYields(me: Worker, m: Mem, r: Local)
    requires IdleStep(me, m) == Some(r) && !me.pc.IdleBatch?
    ensures Yields(me, m, r.0, r.1) && r.1.fibers == m.fibers && r.1.tasks == m.tasks
  {
  }

  lemma SharedYields(m: Mem, op: Op, m1: Mem, f: FiberId)
    requires Shared(m, op) == Some(m1)
    ensures m1.autoStop == m.autoStop && (FiberOf(m1, f) == EXEC ==> FiberOf(m, f) == EXEC)
    ensures Added(m.tasks, m1.tasks) == [] ==> m1.tasks.queue == m.tasks.queue
  {
  }

  lemma OutsideYields(m: Mem, op: Op, m1: Mem, f: FiberId)
    requires OutsideOp(m, op) == Some(m1)
    ensures m1.autoStop == m.autoStop && (FiberOf(m1, f) == EXEC ==> FiberOf(m, f) == EXEC)
    ensures Added(m.tasks, m1.tasks) == [] ==> m1.tasks.queue == m.tasks.queue
    ensures op.Settle? ==> m1.tasks == m.tasks
  {
    if !op.Cancel? && !op.Settle? {
      SharedYields(m, op, m1, f);
    }
  }

  lemma FiberOpYields(me: Worker, m: Mem, op: Op, r: Local, f: FiberId)
    requires me.pc.Inside? && FiberOp(me, m, op) == Some(r)
    ensures Yields(me, m, r.0, r.1) && Tracks(me, m, r.0, r.1, f)
  {
  }

  lemma CancelYields(me: Worker, m: Mem, op: Op, r: Local, f: FiberId)
    requires UserStep(me, m, op) == Some(r) && (me.pc.owed || op.Cancel?)
    ensures Yields(me, m, r.0, r.1) && Tracks(me, m, r.0, r.1, f)
  {
  }

  lemma UserStepYields(me: Worker, m: Mem, op: Op, r: Local, f: FiberId)
    requires UserStep(me, m, op) == Some(r)
    ensures Yields(me, m, r.0, r.1) && Tracks(me, m, r.0, r.1, f)
  {
    if me.pc.owed || op.Cancel? {
      CancelYields(me, m, op, r, f);
    } else {
      if OnSelf(op) {
        FiberOpYields(me, m, op, r, f);
      } else {
        assert Shared(m, op) == Some(r.1);
        SharedYields(m, op, r.1, f);
      }
    }
  }

  lemma WorkerStepYields(me: Worker, w: nat, m: Mem, r: Local, f: FiberId)
    requires WorkerStep(me, w, m) == Some(r)
    ensures Yields(me, m, r.0, r.1) && Tracks(me, m, r.0, r.1, f)
  {
    match me.pc
    case LoopHead | Scanning(_) | Picked(_) | Empty => ScanStepYields(me, w, m, r, f);
    case Counted(_) | Dead | Entering(_, _) | Admitted(_, _) =>
      BeginStepYields(me, m, r);
      BeginStepTracks(me, m, r, f);
    case Leaving(_, _) | Returned(_, _) | Uncounted(_, _) | Requeue(_, _) | Recheck(_, _)
       | Parking(_, _) | Retire(_) => FinishStepYields(me, m, r, f);
    case _ => IdleStepYields(me, m, r, f);
  }

  lemma EventLoopYields(me: Worker, m: Mem, a: Action, r: Local, f: FiberId)
    requires (a.Expire? || a.Fire?) && LocalNext(me, m, a) == Some(r)
    ensures Yields(me, m, r.0, r.1) && Tracks(me, m, r.0, r.1, f)
  {
    if a.Fire? {
      FireYields(me, m, a.x, r, f);
    }
  }

  lemma FireYields(me: Worker, m: Mem, x: Work, r: Local, f: FiberId)
    requires FireStep(me, m, x) == Some(r)
    ensures Yields(me, m, r.0, r.1) && Tracks(me, m, r.0, r.1, f)
  {
  }

  lemma LocalNextYields(me: Worker, m: Mem, a: Action, r: Local, f: FiberId)
    requires !a.Outside? && !a.StopStep? && LocalNext(me, m, a) == Some(r)
    ensures Yields(me, m, r.0, r.1) && Tracks(me, m, r.0, r.1, f)
  {
    match a
    case Expire(_, _) | Fire(_, _) => EventLoopYields(me, m, a, r, f);
    case User(_, op) => UserStepYields(me, m, op, r, f);
    case Step(w) => WorkerStepYields(me, w, m, r, f);
  }

  // ---- what one action does ----------------------------------------------------------------

  /** A step of worker w keeps the claims that mention every fiber and every worker's flags. */
  lemma LocalKeepsFlags(s: State, w: nat, me1: Worker, m1: Mem)
    requires Draining(s) && w < |s.ws|
    requires Yields(s.ws[w], s.m, me1, m1) && forall f :: Tracks(s.ws[w], s.m, me1, m1, f)
    ensures var s1 := s.(ws := s.ws[w := me1], m := m1);
      && (forall f :: ExecIsWithin(s1, f))
      && (forall x :: 0 <= x < |s1.ws| && NeedsStop(s1.ws[x]) ==> s1.m.autoStop)
      && (s1.stopPc != NotStopping ==> s1.m.autoStop)
  {
    var s1 := s.(ws := s.ws[w := me1], m := m1);
    forall f ensures ExecIsWithin(s1, f) {
      assert Tracks(s.ws[w], s.m, me1, m1, f) && ExecIsWithin(s, f);
      if FiberOf(m1, f) == EXEC {
        if Within(me1, f) {
          assert Within(s1.ws[w], f);
        } else {
          var x :| 0 <= x < |s.ws| && Within(s.ws[x], f);
          assert Within(s1.ws[x], f);
        }
      }
    }
  }

  /** Liveness of the others is untouched by a step of worker w. */
  lemma LiveElsewhere(s: State, w: nat, me1: Worker, m1: Mem, but: int)
    requires w < |s.ws| && s.ws[w].pc.NotStarted? == me1.pc.NotStarted?
    requires SomeLive(s, but) && (!Left(s.ws[w]) ==> !Left(me1))
    ensures SomeLive(s.(ws := s.ws[w := me1], m := m1), but)
  {
    var x: nat :| x < |s.ws| && x != but && Live(s, x);
    assert Live(s.(ws := s.ws[w := me1], m := m1), x);
  }

  /** A scan passes over an unpinned task only if its fiber is running on another worker. */
  lemma SkippedBecauseRunning(s: State, w: nat, i: nat)
    requires Draining(s) && w < |s.ws| && s.ws[w].pc == Scanning(i)
    requires i < |s.m.tasks.queue| && s.m.tasks.queue[i].thread == ANY && !Eligible(s.m, s.m.tasks.queue[i], w)
    ensures SomeLive(s, w)
  {
    var f := s.m.tasks.queue[i].work.f;
    assert ExecIsWithin(s, f);
    var x :| 0 <= x < |s.ws| && Within(s.ws[x], f);
    assert x != w && Live(s, x);
  }

  /** The scan of worker w itself. */
  lemma ScanKeepsDraining(s: State, w: nat, r: Local)
    requires Draining(s) && w < |s.ws| && s.ws[w].pc.Scanning? && ScanStep(s.ws[w], w, s.m) == Some(r)
    ensures var s1 := s.(ws := s.ws[w := r.0], m := r.1);
      && (Unpinned(s1.m.tasks, |s1.m.tasks.queue|) ==> SomeLive(s1, -1))
      && (r.0.pc.Scanning? && r.0.pc.i <= |s1.m.tasks.queue| && Unpinned(s1.m.tasks, r.0.pc.i) ==> SomeLive(s1, w))
  {
    var s1 := s.(ws := s.ws[w := r.0], m := r.1);
    var i := s.ws[w].pc.i;
    if r.0.pc.Picked? {
      assert Live(s1, w);
    } else {
      if r.0.pc.Scanning? && s.m.tasks.queue[i].thread == ANY {
        SkippedBecauseRunning(s, w, i);
      }
      if SomeLive(s, w) {
        var x: nat :| x < |s.ws| && x != w && Live(s, x);
        assert Live(s1, x);
      }
      if r.0.pc.Scanning? {
        assert Live(s1, w);
      } else if Unpinned(s1.m.tasks, |s1.m.tasks.queue|) {
        assert Unpinned(s.m.tasks, i);
      }
    }
  }

  /** A step of a worker that is not scanning. */
  lemma OtherKeepsDraining(s: State, w: nat, me1: Worker, m1: Mem)
    requires Draining(s) && w < |s.ws| && !s.ws[w].pc.Scanning?
    requires Yields(s.ws[w], s.m, me1, m1) && Respects(s.ws[w], w, s.m, me1, m1)
    requires Appends(s.m.tasks, m1.tasks)
    ensures var s1 := s.(ws := s.ws[w := me1], m := m1);
      && (Unpinned(s1.m.tasks, |s1.m.tasks.queue|) ==> SomeLive(s1, -1))
      && (forall x: nat :: x < |s1.ws| && s1.ws[x].pc.Scanning? && s1.ws[x].pc.i <= |s1.m.tasks.queue| && Unpinned(s1.m.tasks, s1.ws[x].pc.i)
            ==> SomeLive(s1, x))
  {
    var s1 := s.(ws := s.ws[w := me1], m := m1);
    if Unpinned(s1.m.tasks, |s1.m.tasks.queue|) {
      if Added(s.m.tasks, m1.tasks) == [] || me1.pc.Scanning? {
        LiveElsewhere(s, w, me1, m1, -1);
      } else {
        assert Live(s1, w);
      }
    }
    forall x: nat | x < |s1.ws| && s1.ws[x].pc.Scanning? && s1.ws[x].pc.i <= |s1.m.tasks.queue|
                    && Unpinned(s1.m.tasks, s1.ws[x].pc.i)
      ensures SomeLive(s1, x)
    {
      assert x != w && s.m.tasks.lock == Some(x);
      LiveElsewhere(s, w, me1, m1, x);
    }
  }

  lemma StopKeepsWithin(s: State, s1: State, f: FiberId)
    requires ExecIsWithin(s, f) && StopMove(s, s1)
    ensures ExecIsWithin(s1, f)
  {
    if FiberOf(s1.m, f) == EXEC {
      var x :| 0 <= x < |s.ws| && Within(s.ws[x], f);
      assert Within(s1.ws[x], f);
    }
  }

  lemma StopKeepsDraining(s: State, s1: State)
    requires Draining(s) && Next(s, StopStep) == Some(s1)
    ensures Draining(s1)
  {
    StopMoves(s, s1);
    StepKeepsLock(s, StopStep, s1);
    forall f ensures ExecIsWithin(s1, f) {
      StopKeepsWithin(s, s1, f);
    }
    forall but: int | s.m.tasks.queue != [] && SomeLive(s, but)
      ensures SomeLive(s1, but)
    {
      var x: nat :| x < |s.ws| && x != but && Live(s, x);
      assert Live(s1, x);
    }
  }

  lemma OutsideKeepsDraining(s: State, op: Op, s1: State)
    requires Draining(s) && Next(s, Outside(op)) == Some(s1)
    ensures Draining(s1)
  {
    StepKeepsLock(s, Outside(op), s1);
    forall f ensures ExecIsWithin(s1, f) {
      OutsideYields(s.m, op, s1.m, f);
      assert ExecIsWithin(s, f);
    }
    OutsideYields(s.m, op, s1.m, 0);
    OutsideRespects(s.m, op, s1.m);
    forall but: int | SomeLive(s, but) ensures SomeLive(s1, but) {
      var x: nat :| x < |s.ws| && x != but && Live(s, x);
      assert Live(s1, x);
    }
    if !s.m.autoStop {
      assert !Left(s.ws[0]) && Live(s1, 0);
    }
    forall w: nat | w < |s1.ws| && s1.ws[w].pc.Scanning? && Unpinned(s1.m.tasks, s1.ws[w].pc.i)
      ensures SomeLive(s1, w)
    {
      assert s.m.tasks.lock == Some(w) && s1.m.tasks.queue == s.m.tasks.queue;
    }
  }

  /** What the worker's step tells us suffices for the whole state. */
  lemma LocalKeepsDraining(s: State, w: nat, me1: Worker, m1: Mem)
    requires Draining(s) && w < |s.ws| && LockHeld(s.(ws := s.ws[w := me1], m := m1))
    requires Yields(s.ws[w], s.m, me1, m1) && forall f :: Tracks(s.ws[w], s.m, me1, m1, f)
    requires Respects(s.ws[w], w, s.m, me1, m1) && Appends(s.m.tasks, m1.tasks)
    requires s.ws[w].pc.Scanning? ==> ScanStep(s.ws[w], w, s.m) == Some((me1, m1))
    ensures Draining(s.(ws := s.ws[w := me1], m := m1))
  {
    LocalKeepsFlags(s, w, me1, m1);
    if s.ws[w].pc.Scanning? {
      ScanKeepsDraining(s, w, (me1, m1));
    } else {
      OtherKeepsDraining(s, w, me1, m1);
    }
  }

  lemma StepKeepsDraining(s: State, a: Action, s1: State)
    requires Draining(s) && Next(s, a) == Some(s1)
    ensures Draining(s1)
  {
    match a
    case Outside(op) => OutsideKeepsDraining(s, op, s1);
    case StopStep => StopKeepsDraining(s, s1);
    case _ =>
      var me, me1 := s.ws[a.w], s1.ws[a.w];
      forall f ensures Yields(me, s.m, me1, s1.m) && Tracks(me, s.m, me1, s1.m, f) {
        LocalNextYields(me, s.m, a, (me1, s1.m), f);
      }
      assert Yields(me, s.m, me1, s1.m) by { LocalNextYields(me, s.m, a, (me1, s1.m), 0); }
      StepKeepsLock(s, a, s1);
      ScanIsScan(me, s.m, a, (me1, s1.m));
      LocalNextRespects(me, a.w, s.m, a, (me1, s1.m));
      LocalNextMoves(me, s.m, a, (me1, s1.m), Task(Call(0), ANY, 0));
      LocalKeepsDraining(s, a.w, me1, s1.m);
  }

  lemma ScanIsScan(me: Worker, m: Mem, a: Action, r: Local)
    requires !a.Outside? && !a.StopStep? && LocalNext(me, m, a) == Some(r)
    ensures me.pc.Scanning? ==> ScanStep(me, a.w, m) == Some(r)
  {
  }

  lemma InitDraining(threads: nat, caller: bool)
    requires threads > 0
    ensures Draining(Init(threads, caller))
  {
    InitLedger(threads, caller);
  }

  lemma {:induction false} RunKeepsDraining(s: State, run: seq<Action>, s1: State)
    requires Draining(s) && Exec(s, run) == Some(s1)
    ensures Draining(s1)
    decreases |run|
  {
    if run != [] {
      var m := Next(s, run[0]).value;
      StepKeepsDraining(s, run[0], m);
      RunKeepsDraining(m, run[1..], s1);
    }
  }

  // ---- the theorems --------------------------------------------------------------------------

  /** Every worker has left `run`. */
  ghost predicate AllExited(s: State) {
    forall w :: 0 <= w < |s.ws| ==> s.ws[w].pc == Exited
  }

  /**
   No stranded work: once all workers have left, in whatever interleaving and however early
   `stopping` answered true, only pinned tasks can be queued and nobody holds a task.
   */
  lemma NoUnpinnedTaskIsStranded(threads: nat, caller: bool, run: seq<Action>, s: State)
    requires threads > 0 && Exec(Init(threads, caller), run) == Some(s) && AllExited(s)
    ensures forall i :: 0 <= i < |s.m.tasks.queue| ==> s.m.tasks.queue[i].thread != ANY
    ensures forall t :: InHand(s.ws, t) == 0
  {
    InitDraining(threads, caller);
    RunKeepsDraining(Init(threads, caller), run, s);
    assert !SomeLive(s, -1);
    forall t ensures InHand(s.ws, t) == 0 {
      NothingInHand(s.ws, t);
    }
  }

  /** `stop` returns only when every worker has left, or, for the caller alone, never entered. */
  ghost predicate StopWaits(s: State) {
    && (s.stopPc == Stopped ==> AllExited(s))
    && (s.stopPc.Check? ==> s.caller && s.ws != [] && (s.stopPc.early ==> |s.ws| == 1))
    && (s.stopPc.Check? && s.stopPc.early ==> s.ws[0].pc == NotStarted || s.ws[0].pc == Exited)
  }

  lemma StepKeepsStopWaits(s: State, a: Action, s1: State)
    requires s.ws != [] && StopWaits(s) && Next(s, a) == Some(s1)
    ensures StopWaits(s1)
  {
    match a
    case Outside(op) =>
    case StopStep => StopKeepsWaiting(s, s1);
    case _ =>
      LocalNextYields(s.ws[a.w], s.m, a, (s1.ws[a.w], s1.m), 0);
      LocalKeepsWaiting(s, a.w, s1.ws[a.w], s1.m);
  }

  lemma StopKeepsWaiting(s: State, s1: State)
    requires s.ws != [] && StopWaits(s) && Next(s, StopStep) == Some(s1)
    ensures StopWaits(s1)
  {
    StopMoves(s, s1);
  }

  lemma LocalKeepsWaiting(s: State, w: nat, me1: Worker, m1: Mem)
    requires StopWaits(s) && w < |s.ws| && Yields(s.ws[w], s.m, me1, m1)
    requires s.ws[w].pc == Exited ==> me1.pc == Exited
    ensures StopWaits(s.(ws := s.ws[w := me1], m := m1))
  {
  }

  lemma {:induction false} RunKeepsStopWaits(s: State, run: seq<Action>, s1: State)
    requires s.ws != [] && StopWaits(s) && Exec(s, run) == Some(s1)
    ensures StopWaits(s1)
    decreases |run|
  {
    if run != [] {
      var m := Next(s, run[0]).value;
      StepKeepsStopWaits(s, run[0], m);
      NextMoves(s, run[0], m, Task(Call(0), ANY, 0));
      RunKeepsStopWaits(m, run[1..], s1);
    }
  }

  /**
   When `stop` returns, each unpinned task ever pushed has been run exactly once or was a
   fiber that had ended; a callback has been run.
   */
  lemma StopRunsEverything(threads: nat, caller: bool, run: seq<Action>, s: State, t: Task)
    requires threads > 0 && Exec(Init(threads, caller), run) == Some(s) && s.stopPc == Stopped
    requires t in s.m.tasks.issued && t.thread == ANY
    ensures s.m.tasks.started[t] + s.m.tasks.dropped[t] == 1
    ensures t.work.Call? ==> s.m.tasks.started[t] == 1
  {
    RunKeepsStopWaits(Init(threads, caller), run, s);
    NoUnpinnedTaskIsStranded(threads, caller, run, s);
    EachTaskHasOnePlace(threads, caller, run, s, t);
    assert t !in s.m.tasks.queue;
    assert multiset(s.m.tasks.queue)[t] == 0;
    RunDropsFibersOnly(Init(threads, caller), run, s);
  }

  ghost predicate DropsFibersOnly(s: State) {
    forall t :: t in s.m.tasks.dropped ==> t.work.Fib?
  }

  lemma StepDropsFibersOnly(s: State, a: Action, s1: State)
    requires DropsFibersOnly(s) && Next(s, a) == Some(s1)
    ensures DropsFibersOnly(s1)
  {
    if a.Step? {
      WorkerDropsFibersOnly(s.ws[a.w], a.w, s.m, (s1.ws[a.w], s1.m));
    } else {
      OthersDropNothing(s, a, s1);
    }
  }

  lemma WorkerDropsFibersOnly(me: Worker, w: nat, m: Mem, r: Local)
    requires WorkerStep(me, w, m) == Some(r)
    ensures forall t :: t in r.1.tasks.dropped ==> t in m.tasks.dropped || t.work.Fib?
  {
    if !me.pc.Counted? {
      OnlyCountedDrops(me, w, m, r);
    }
  }

  lemma OnlyCountedDrops(me: Worker, w: nat, m: Mem, r: Local)
    requires WorkerStep(me, w, m) == Some(r) && !me.pc.Counted?
    ensures r.1.tasks.dropped == m.tasks.dropped
  {
  }

  lemma {:induction false} RunDropsFibersOnly(s: State, run: seq<Action>, s1: State)
    requires DropsFibersOnly(s) && Exec(s, run) == Some(s1)
    ensures DropsFibersOnly(s1)
    decreases |run|
  {
    if run != [] {
      StepDropsFibersOnly(s, run[0], Next(s, run[0]).value);
      RunDropsFibersOnly(Next(s, run[0]).value, run[1..], s1);
    }
  }
}
