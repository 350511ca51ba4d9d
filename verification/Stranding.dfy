/**
 What `stop` can leave behind. The drain theorem covers unpinned tasks only. Pinned tasks and
 events are safe exactly when there is a single worker, and timers exactly when that worker is
 the caller of `stop`. For every other scheduler there is an interleaving after which `stop`
 returns with one pending: a worker looks at the timers, the task list and the pending events
 one after another, and work that is dequeued and not yet counted is seen by nobody.
 */
module Stranding {
  import opened Prelude
  import opened SchedulerModel
  import opened SchedulerFacts
  import opened Drain
  import opened SingleExecution

  // ---- reachability --------------------------------------------------------------------------

  ghost predicate Reaches(s: State, s1: State) {
    exists run :: Exec(s, run) == Some(s1)
  }

  lemma Stay(s: State)
    ensures Reaches(s, s)
  {
    assert Exec(s, []) == Some(s);
  }

  /** One more action at the end of a run. */
  lemma Then(s0: State, s: State, a: Action)
    requires Reaches(s0, s) && Next(s, a).Some?
    ensures Reaches(s0, Next(s, a).value)
  {
    var run :| Exec(s0, run) == Some(s);
    ExecConcat(s0, run, [a]);
    assert Exec(s, [a]) == Exec(Next(s, a).value, [a][1..]);
    assert Exec(s0, run + [a]) == Some(Next(s, a).value);
  }

  /** `s` with worker w and memory replaced. */
  function At(s: State, w: nat, me: Worker, m: Mem): State
    requires w < |s.ws|
  {
    s.(ws := s.ws[w := me], m := m)
  }

  /** Worker w takes one step of its own; nobody else moves. */
  lemma Advance(s0: State, s: State, w: nat, me: Worker, m: Mem, me1: Worker, m1: Mem)
    requires w < |s.ws| && Reaches(s0, At(s, w, me, m))
    requires !m.crashed && WorkerStep(me, w, m) == Some((me1, m1))
    ensures Reaches(s0, At(s, w, me1, m1))
  {
    var here := At(s, w, me, m);
    Then(s0, here, Step(w));
    assert here.ws[w := me1] == s.ws[w := me1];
  }

  /** The user code on worker w does one thing. */
  lemma Does(s0: State, s: State, w: nat, me: Worker, m: Mem, op: Op, me1: Worker, m1: Mem)
    requires w < |s.ws| && Reaches(s0, At(s, w, me, m))
    requires !m.crashed && UserStep(me, m, op) == Some((me1, m1))
    ensures Reaches(s0, At(s, w, me1, m1))
  {
    var here := At(s, w, me, m);
    Then(s0, here, User(w, op));
    assert here.ws[w := me1] == s.ws[w := me1];
  }

  // ---- stretches of a worker's life ------------------------------------------------------------

  predicate NoWork(m: Mem) {
    && !m.crashed && Free(m) && m.tasks.queue == []
    && m.io.timers == multiset{} && m.io.pending == 0
  }

  /** Lock and unlock leave the memory as it was. */
  lemma Unlocked(m: Mem, w: nat)
    requires Free(m)
    ensures SetLock(SetLock(m, Some(w)), None) == m
  {
  }

  /** From the loop head to about to enter the idle fiber. */
  lemma GoesIdle(s0: State, s: State, w: nat, me: Worker, m: Mem)
    requires w < |s.ws| && Reaches(s0, At(s, w, me, m)) && NoWork(m)
    requires me.pc == LoopHead && me.idle == INIT
    ensures Reaches(s0, At(s, w, me.(pc := IdleEntering), m.(idling := m.idling + 1)))
  {
    var locked := SetLock(m, Some(w));
    Unlocked(m, w);
    Advance(s0, s, w, me, m, me.(pc := Scanning(0)), locked);
    Advance(s0, s, w, me.(pc := Scanning(0)), locked, me.(pc := Empty), m);
    Advance(s0, s, w, me.(pc := Empty), m, me.(pc := IdleEntering), m.(idling := m.idling + 1));
  }

  /** From the loop head to just after reading that there are no timers. */
  lemma GoesToReadTasks(s0: State, s: State, w: nat, me: Worker, m: Mem)
    requires w < |s.ws| && Reaches(s0, At(s, w, me, m)) && NoWork(m)
    requires me.pc == LoopHead && me.idle == INIT
    ensures Reaches(s0, At(s, w, me.(pc := IdleTasks, idle := EXEC), m.(idling := m.idling + 1)))
  {
    var idling := m.(idling := m.idling + 1);
    GoesIdle(s0, s, w, me, m);
    Advance(s0, s, w, me.(pc := IdleEntering), idling, me.(pc := IdleTimers, idle := EXEC), idling);
    Advance(s0, s, w, me.(pc := IdleTimers, idle := EXEC), idling, me.(pc := IdleTasks, idle := EXEC), idling);
  }

  /** The idle fiber has ended, and its worker goes back to the loop head. */
  lemma ComesBack(s0: State, s: State, w: nat, me: Worker, m: Mem)
    requires w < |s.ws| && Reaches(s0, At(s, w, me, m)) && !m.crashed
    requires me.pc == IdleReturned && me.idle == TERM
    ensures Reaches(s0, At(s, w, me.(pc := LoopHead), m.(idling := m.idling - 1)))
  {
    var m1 := m.(idling := m.idling - 1);
    Advance(s0, s, w, me, m, me.(pc := IdleDiscounted), m1);
    Advance(s0, s, w, me.(pc := IdleDiscounted), m1, me.(pc := LoopHead), m1);
  }

  /** From there to the loop head with the idle fiber ended, timers or not. */
  lemma GivesUp(s0: State, s: State, w: nat, me: Worker, m: Mem)
    requires w < |s.ws| && Reaches(s0, At(s, w, me, m))
    requires !m.crashed && Free(m) && TasksQuiet(m) && m.io.pending == 0
    requires me.pc == IdleTasks && me.idle == EXEC
    ensures Reaches(s0, At(s, w, me.(pc := LoopHead, idle := TERM), m.(idling := m.idling - 1)))
  {
    Advance(s0, s, w, me, m, me.(pc := IdlePending), m);
    Advance(s0, s, w, me.(pc := IdlePending), m, me.(pc := IdleReturned, idle := TERM), m);
    ComesBack(s0, s, w, me.(pc := IdleReturned, idle := TERM), m);
  }

  /** A last scan that finds nothing. */
  lemma Leaves(s0: State, s: State, w: nat, me: Worker, m: Mem)
    requires w < |s.ws| && Reaches(s0, At(s, w, me, m))
    requires !m.crashed && Free(m) && m.tasks.queue == []
    requires me.pc == LoopHead && me.idle == TERM
    ensures Reaches(s0, At(s, w, me.(pc := Exited), m))
  {
    var locked := SetLock(m, Some(w));
    Unlocked(m, w);
    Advance(s0, s, w, me, m, me.(pc := Scanning(0)), locked);
    Advance(s0, s, w, me.(pc := Scanning(0)), locked, me.(pc := Empty), m);
    Advance(s0, s, w, me.(pc := Empty), m, me.(pc := Exited), m);
  }

  /** The whole way out of a worker that sees no work. */
  lemma QuitsEarly(s0: State, s: State, w: nat, me: Worker, m: Mem)
    requires w < |s.ws| && Reaches(s0, At(s, w, me, m)) && NoWork(m) && TasksQuiet(m)
    requires me.pc == LoopHead && me.idle == INIT
    ensures Reaches(s0, At(s, w, me.(pc := LoopHead, idle := TERM), m))
    ensures Reaches(s0, At(s, w, me.(pc := Exited, idle := TERM), m))
  {
    GoesToReadTasks(s0, s, w, me, m);
    GivesUp(s0, s, w, me.(pc := IdleTasks, idle := EXEC), m.(idling := m.idling + 1));
    assert m.(idling := m.idling + 1).(idling := m.idling + 1 - 1) == m;
    Leaves(s0, s, w, me.(pc := LoopHead, idle := TERM), m);
  }

  /** The list holds one task, an unpinned callback; worker w takes it off. */
  lemma PicksUp(s0: State, s: State, w: nat, me: Worker, m: Mem, t: Task)
    requires w < |s.ws| && Reaches(s0, At(s, w, me, m))
    requires !m.crashed && Free(m) && m.tasks.queue == [t] && t.thread == ANY && t.work.Call?
    requires me.pc == LoopHead
    ensures Reaches(s0, At(s, w, me.(pc := Picked(t)), m.(tasks := m.tasks.(queue := []))))
  {
    var locked := SetLock(m, Some(w));
    Advance(s0, s, w, me, m, me.(pc := Scanning(0)), locked);
    assert Without([t], 0) == [];
    assert Take(locked, 0) == m.(tasks := m.tasks.(queue := []));
    Advance(s0, s, w, me.(pc := Scanning(0)), locked, me.(pc := Picked(t)), Take(locked, 0));
  }

  /** Memory while a fresh callback fiber runs t. */
  function Running(m: Mem, t: Task): Mem {
    Start(m.(active := m.active + 1, fibers := m.fibers + [EXEC]), t)
  }

  lemma Begins(s0: State, s: State, w: nat, me: Worker, m: Mem, t: Task)
    requires w < |s.ws| && Reaches(s0, At(s, w, me, m)) && !m.crashed
    requires me.pc == Picked(t) && me.pool.None? && t.work.Call?
    ensures Reaches(s0, At(s, w, me.(pc := Inside(|m.fibers|, true, false, false)), Running(m, t)))
  {
    var f := |m.fibers|;
    var m1 := m.(active := m.active + 1);
    var m2 := Start(m1.(fibers := m.fibers + [INIT]), t);
    Advance(s0, s, w, me, m, me.(pc := Counted(t)), m1);
    Advance(s0, s, w, me.(pc := Counted(t)), m1, me.(pc := Entering(f, true)), m2);
    assert (m.fibers + [INIT])[f := EXEC] == m.fibers + [EXEC];
    Advance(s0, s, w, me.(pc := Entering(f, true)), m2, me.(pc := Admitted(f, true)), m2);
    Advance(s0, s, w, me.(pc := Admitted(f, true)), m2, me.(pc := Inside(f, true, false, false)), Running(m, t));
  }

  /** The callback returns and the worker is back at the loop head. */
  lemma Ends(s0: State, s: State, w: nat, me: Worker, m: Mem, f: FiberId)
    requires w < |s.ws| && Reaches(s0, At(s, w, me, m)) && !m.crashed
    requires me.pc == Inside(f, true, false, false) && f < |m.fibers|
    ensures Reaches(s0, At(s, w, me.(pc := LoopHead, pool := Some(f)),
                           m.(active := m.active - 1, fibers := m.fibers[f := INIT])))
  {
    var m1 := m.(fibers := m.fibers[f := TERM]);
    var m2 := m1.(active := m.active - 1);
    Does(s0, s, w, me, m, Finish(false), me.(pc := Leaving(f, true)), m1);
    Advance(s0, s, w, me.(pc := Leaving(f, true)), m1, me.(pc := Returned(f, true)), m1);
    Advance(s0, s, w, me.(pc := Returned(f, true)), m1, me.(pc := Uncounted(f, true)), m2);
    Advance(s0, s, w, me.(pc := Uncounted(f, true)), m2, me.(pc := Recheck(f, true)), m2);
    Advance(s0, s, w, me.(pc := Recheck(f, true)), m2, me.(pc := Retire(f)), m2);
    assert m.fibers[f := TERM][f := INIT] == m.fibers[f := INIT];
    Advance(s0, s, w, me.(pc := Retire(f)), m2, me.(pc := LoopHead, pool := Some(f)), SetFiber(m2, f, INIT));
  }

  // ---- without a caller worker -----------------------------------------------------------------

  const FRESH: Worker := Worker(LoopHead, None, INIT)
  const READ: Worker := Worker(IdleTasks, None, EXEC)
  const GONE: Worker := Worker(Exited, None, TERM)
  const TICK: TimerEntry := TimerEntry(0, false)

  /** The first k of n workers are x, the others y. */
  function Row(n: nat, k: nat, x: Worker, y: Worker): seq<Worker> {
    seq(n, i => if i < k then x else y)
  }

  lemma RowNext(n: nat, k: nat, x: Worker, y: Worker)
    requires k < n
    ensures Row(n, k, x, y)[k := x] == Row(n, k + 1, x, y)
    ensures Row(n, k, x, y)[k := y] == Row(n, k, x, y)
  {
  }

  /** Every worker reads the timers while there are none. */
  lemma {:induction false} AllRead(n: nat, k: nat)
    requires k <= n
    ensures Reaches(Init(n, false), State(Row(n, k, READ, FRESH), false, NotStopping, INIT_MEM.(idling := k)))
  {
    if k == 0 {
      assert Row(n, 0, READ, FRESH) == Init(n, false).ws;
      Stay(Init(n, false));
    } else {
      AllRead(n, k - 1);
      var s := State(Row(n, k - 1, READ, FRESH), false, NotStopping, INIT_MEM.(idling := k - 1));
      RowNext(n, k - 1, READ, FRESH);
      GoesToReadTasks(Init(n, false), s, k - 1, FRESH, s.m);
    }
  }

  /** A timer, and both flags. */
  function LateTimer(idling: int): Mem {
    INIT_MEM.(io := NO_IO.(timers := multiset{TICK}), idling := idling, autoStop := true, stopping := true)
  }

  /** `stop` without a caller worker, up to the joins. */
  lemma StopSetsFlags(s0: State, s: State)
    requires Reaches(s0, s) && s.ws != [] && !s.caller && s.stopPc == NotStopping && !s.m.crashed
    ensures Reaches(s0, s.(stopPc := Joining, m := s.m.(autoStop := true, stopping := true)))
  {
    var s1 := s.(stopPc := AutoSet, m := s.m.(autoStop := true));
    assert s.ws[0 := s.ws[0].(pc := s.ws[0].pc)] == s.ws;
    Then(s0, s, StopStep);
    Then(s0, s1, StopStep);
    Then(s0, s1.(stopPc := FlagSetting), StopStep);
  }

  /** Then a timer is added and `stop` sets its flags; every worker finds nothing else to do. */
  lemma {:induction false} AllLeave(n: nat, k: nat)
    requires 0 < n && k <= n
    ensures Reaches(Init(n, false), State(Row(n, k, GONE, READ), false, Joining, LateTimer(n - k)))
  {
    if k == 0 {
      AllRead(n, n);
      var s := State(Row(n, n, READ, FRESH), false, NotStopping, INIT_MEM.(idling := n));
      assert Row(n, n, READ, FRESH) == Row(n, 0, GONE, READ);
      Then(Init(n, false), s, Outside(AddTimer(TICK)));
      var s1 := s.(m := s.m.(io := NO_IO.(timers := multiset{TICK})));
      assert multiset{} + multiset{TICK} == multiset{TICK};
      StopSetsFlags(Init(n, false), s1);
    } else {
      AllLeave(n, k - 1);
      var s := State(Row(n, k - 1, GONE, READ), false, Joining, LateTimer(n - k + 1));
      RowNext(n, k - 1, GONE, READ);
      GivesUp(Init(n, false), s, k - 1, READ, s.m);
      Leaves(Init(n, false), s, k - 1, READ.(pc := LoopHead, idle := TERM), LateTimer(n - k));
    }
  }

  lemma ThreadsOnlyStrandATimer(n: nat) returns (s: State)
    requires n > 0
    ensures Reaches(Init(n, false), s) && s.stopPc == Stopped && s.m.io.timers != multiset{}
  {
    AllLeave(n, n);
    var j := State(Row(n, n, GONE, READ), false, Joining, LateTimer(0));
    assert AllExited(j);
    Then(Init(n, false), j, StopStep);
    s := Next(j, StopStep).value;
    assert TICK in s.m.io.timers;
  }

  // ---- with at least two workers -----------------------------------------------------------

  const WAITING: Worker := Worker(NotStarted, None, INIT)
  const SPENT: Worker := Worker(LoopHead, None, TERM)

  /** Worker 0 is `root`, worker 1 is `one`, the next k are gone, the others are fresh. */
  function Crew(n: nat, root: Worker, one: Worker, k: nat): seq<Worker>
    requires n >= 2
  {
    [root, one] + Row(n - 2, k, GONE, FRESH)
  }

  const T0: Task := Task(Call(0), ANY, 0)
  const T1: Task := Task(Call(1), ANY, 1)

  /** Memory after one task was pushed and `stop` has set its flags. */
  function Flagged(tasks: TaskList): Mem {
    INIT_MEM.(tasks := tasks, autoStop := true, stopping := true)
  }

  const PUSHED: TaskList := NO_TASKS.(queue := [T0], issued := multiset{T0})
  const TAKEN: TaskList := NO_TASKS.(issued := multiset{T0})

  /** Worker 0 at the start. */
  function First(caller: bool): Worker {
    if caller then WAITING else FRESH
  }

  lemma FirstPush(n: nat, caller: bool)
    requires n >= 2
    ensures Reaches(Init(n, caller), State(Crew(n, First(caller), FRESH, 0), caller, NotStopping, INIT_MEM.(tasks := PUSHED)))
  {
    var s0 := Init(n, caller);
    assert s0.ws == Crew(n, First(caller), FRESH, 0);
    Stay(s0);
    assert Push(INIT_MEM, Call(0), ANY) == INIT_MEM.(tasks := PUSHED);
    Then(s0, s0, Outside(Submit(0, ANY)));
  }

  /** `stop` finds the task, swaps the caller's worker in if there is one, and waits. */
  lemma EverybodyIsIn(n: nat, caller: bool)
    requires n >= 2
    ensures Reaches(Init(n, caller), State(Crew(n, FRESH, FRESH, 0), caller, Joining, Flagged(PUSHED)))
  {
    FirstPush(n, caller);
    if caller {
      CallerJoinsIn(n);
    } else {
      StopSetsFlags(Init(n, false), State(Crew(n, FRESH, FRESH, 0), false, NotStopping, INIT_MEM.(tasks := PUSHED)));
    }
  }

  lemma CallerJoinsIn(n: nat)
    requires n >= 2
    ensures Reaches(Init(n, true), State(Crew(n, FRESH, FRESH, 0), true, Joining, Flagged(PUSHED)))
  {
    var s0 := Init(n, true);
    FirstPush(n, true);
    var ws := Crew(n, WAITING, FRESH, 0);
    var s1 := State(ws, true, NotStopping, INIT_MEM.(tasks := PUSHED));
    assert ws[0 := ws[0].(pc := ws[0].pc)] == ws;
    Then(s0, s1, StopStep);
    var s2 := s1.(stopPc := AutoSet, m := s1.m.(autoStop := true));
    Then(s0, s2, StopStep);
    Then(s0, s2.(stopPc := FlagSetting), StopStep);
    var s3 := State(ws, true, Check(0, false), Flagged(PUSHED));
    Then(s0, s3, StopStep);
    Then(s0, s3.(stopPc := Check(1, false)), StopStep);
    assert ws[0 := FRESH] == Crew(n, FRESH, FRESH, 0);
  }

  /** Worker 1 holds the task; everybody else looks, sees nothing and gives up. */
  lemma {:induction false} OthersGiveUp(n: nat, caller: bool, k: nat)
    requires n >= 2 && k <= n - 2
    ensures Reaches(Init(n, caller), State(Crew(n, SPENT, FRESH.(pc := Picked(T0)), k), caller, Joining, Flagged(TAKEN)))
  {
    var s0 := Init(n, caller);
    var holder := FRESH.(pc := Picked(T0));
    if k == 0 {
      EverybodyIsIn(n, caller);
      var s := State(Crew(n, FRESH, FRESH, 0), caller, Joining, Flagged(PUSHED));
      assert s.ws[1 := FRESH] == s.ws;
      PicksUp(s0, s, 1, FRESH, s.m, T0);
      var s1 := State(Crew(n, FRESH, holder, 0), caller, Joining, Flagged(TAKEN));
      assert s.ws[1 := holder] == s1.ws && s1.ws[0 := FRESH] == s1.ws;
      QuitsEarly(s0, s1, 0, FRESH, s1.m);
      assert s1.ws[0 := SPENT] == Crew(n, SPENT, holder, 0);
    } else {
      OthersGiveUp(n, caller, k - 1);
      var s := State(Crew(n, SPENT, holder, k - 1), caller, Joining, Flagged(TAKEN));
      RowNext(n - 2, k - 1, GONE, FRESH);
      assert s.ws[k + 1 := FRESH] == s.ws;
      QuitsEarly(s0, s, k + 1, FRESH, s.m);
      assert s.ws[k + 1 := GONE] == Crew(n, SPENT, holder, k);
    }
  }

  /** The task of worker 1 schedules another. */
  lemma OneSchedulesAnother(n: nat, caller: bool, m: Mem)
    requires n >= 2
    requires m == Flagged(TAKEN)
    ensures Reaches(Init(n, caller),
      State(Crew(n, SPENT, FRESH.(pc := Inside(0, true, false, false)), n - 2), caller, Joining, Push(Running(m, T0), Call(1), ANY)))
  {
    var s0 := Init(n, caller);
    var holder := FRESH.(pc := Picked(T0));
    OthersGiveUp(n, caller, n - 2);
    var s := State(Crew(n, SPENT, holder, n - 2), caller, Joining, m);
    assert s.ws[1 := holder] == s.ws;
    Begins(s0, s, 1, holder, m, T0);
    var busy := FRESH.(pc := Inside(0, true, false, false));
    Does(s0, s, 1, busy, Running(m, T0), Submit(1, ANY), busy, Push(Running(m, T0), Call(1), ANY));
    assert s.ws[1 := busy] == Crew(n, SPENT, busy, n - 2);
  }

  /** The task of worker 1 schedules another, which worker 0 takes. */
  lemma RootTakesSecond(n: nat, caller: bool, m: Mem) returns (m1: Mem)
    requires n >= 2
    requires m == Flagged(TAKEN)
    ensures m1 == Push(Running(m, T0), Call(1), ANY).(tasks := Push(Running(m, T0), Call(1), ANY).tasks.(queue := []))
    ensures Reaches(Init(n, caller),
      State(Crew(n, SPENT.(pc := Picked(T1)), FRESH.(pc := Inside(0, true, false, false)), n - 2), caller, Joining, m1))
  {
    var s0 := Init(n, caller);
    OneSchedulesAnother(n, caller, m);
    var busy := FRESH.(pc := Inside(0, true, false, false));
    var m3 := Push(Running(m, T0), Call(1), ANY);
    assert m3.tasks.queue == [T1];
    var s1 := State(Crew(n, SPENT, busy, n - 2), caller, Joining, m3);
    assert s1.ws[0 := SPENT] == s1.ws;
    PicksUp(s0, s1, 0, SPENT, m3, T1);
    m1 := m3.(tasks := m3.tasks.(queue := []));
    assert s1.ws[0 := SPENT.(pc := Picked(T1))] == Crew(n, SPENT.(pc := Picked(T1)), busy, n - 2);
  }

  /** Worker 1 sees nothing and leaves. */
  lemma WorkerOneLeaves(n: nat, caller: bool, m: Mem) returns (m1: Mem, one: Worker)
    requires n >= 2
    requires m == Flagged(TAKEN)
    ensures one.pc == Exited && NoWork(m1) && m1.active == 0
    ensures Reaches(Init(n, caller), State(Crew(n, SPENT.(pc := Picked(T1)), one, n - 2), caller, Joining, m1))
  {
    var s0 := Init(n, caller);
    var m4 := RootTakesSecond(n, caller, m);
    var root, busy := SPENT.(pc := Picked(T1)), FRESH.(pc := Inside(0, true, false, false));
    var s2 := State(Crew(n, root, busy, n - 2), caller, Joining, m4);
    assert s2.ws[1 := busy] == s2.ws;
    Ends(s0, s2, 1, busy, m4, 0);
    m1 := m4.(active := 0, fibers := m4.fibers[0 := INIT]);
    var back := FRESH.(pool := Some(0));
    QuitsEarly(s0, s2, 1, back, m1);
    one := back.(pc := Exited, idle := TERM);
    assert s2.ws[1 := one] == Crew(n, root, one, n - 2);
  }

  /** Worker 0 now runs the second task; everybody else has left. */
  lemma RootRunsLast(n: nat, caller: bool) returns (j: State, busy: Worker, m: Mem)
    requires n >= 2
    ensures j.ws != [] && j.stopPc == Joining && |j.ws| == n
    ensures forall w :: 0 < w < |j.ws| ==> j.ws[w].pc == Exited
    ensures busy.pc.Inside? && busy == SPENT.(pc := Inside(busy.pc.f, true, false, false)) && busy.pc.f < |m.fibers|
    ensures !m.crashed && Free(m) && m.tasks.queue == []
    ensures Reaches(Init(n, caller), At(j, 0, busy, m))
  {
    var m0, one := WorkerOneLeaves(n, caller, Flagged(TAKEN));
    var root := SPENT.(pc := Picked(T1));
    j := State(Crew(n, root, one, n - 2), caller, Joining, m0);
    assert j.ws[0 := root] == j.ws;
    Begins(Init(n, caller), j, 0, root, m0, T1);
    busy := SPENT.(pc := Inside(|m0.fibers|, true, false, false));
    m := Running(m0, T1);
    forall w | 0 < w < |j.ws| ensures j.ws[w].pc == Exited {
      if w >= 2 { assert j.ws[w] == Row(n - 2, n - 2, GONE, FRESH)[w - 2]; }
    }
  }

  /** A last scan that passes over the one task there is, pinned to another worker. */
  lemma LeavesPinned(s0: State, s: State, w: nat, me: Worker, m: Mem, t: Task)
    requires w < |s.ws| && Reaches(s0, At(s, w, me, m))
    requires !m.crashed && Free(m) && m.tasks.queue == [t] && t.thread != ANY && t.thread != w
    requires me.pc == LoopHead && me.idle == TERM
    ensures Reaches(s0, At(s, w, me.(pc := Exited), m))
  {
    var locked := SetLock(m, Some(w));
    Unlocked(m, w);
    Advance(s0, s, w, me, m, me.(pc := Scanning(0)), locked);
    Advance(s0, s, w, me.(pc := Scanning(0)), locked, me.(pc := Scanning(1)), locked);
    Advance(s0, s, w, me.(pc := Scanning(1)), locked, me.(pc := Empty), m);
    Advance(s0, s, w, me.(pc := Empty), m, me.(pc := Exited), m);
  }

  /** Worker 0 ends its task and leaves as the last one, whatever timers, events and pinned task there are. */
  lemma LastOneOut(s0: State, j: State, busy: Worker, m: Mem) returns (s: State)
    requires j.ws != [] && j.stopPc == Joining && forall w :: 0 < w < |j.ws| ==> j.ws[w].pc == Exited
    requires busy.pc.Inside? && busy == SPENT.(pc := Inside(busy.pc.f, true, false, false)) && busy.pc.f < |m.fibers|
    requires !m.crashed && Free(m) && Reaches(s0, At(j, 0, busy, m))
    requires m.tasks.queue == [] || (|m.tasks.queue| == 1 && m.tasks.queue[0].thread == 1)
    ensures Reaches(s0, s) && s.stopPc == Stopped && s.m.tasks.queue == m.tasks.queue && s.m.io == m.io
  {
    var f := busy.pc.f;
    Ends(s0, j, 0, busy, m, f);
    var m1 := m.(active := m.active - 1, fibers := m.fibers[f := INIT]);
    if m.tasks.queue == [] {
      Leaves(s0, j, 0, SPENT.(pool := Some(f)), m1);
    } else {
      LeavesPinned(s0, j, 0, SPENT.(pool := Some(f)), m1, m.tasks.queue[0]);
    }
    var last := At(j, 0, SPENT.(pc := Exited, pool := Some(f)), m1);
    assert AllExited(last);
    Then(s0, last, StopStep);
    s := Next(last, StopStep).value;
  }

  lemma TwoWorkersStrandATimer(n: nat, caller: bool) returns (s: State)
    requires n >= 2
    ensures Reaches(Init(n, caller), s) && s.stopPc == Stopped && s.m.io.timers != multiset{}
  {
    var j, busy, m := RootRunsLast(n, caller);
    var m1 := m.(io := m.io.(timers := m.io.timers + multiset{TICK}));
    Does(Init(n, caller), j, 0, busy, m, AddTimer(TICK), busy, m1);
    s := LastOneOut(Init(n, caller), j, busy, m1);
    assert TICK in s.m.io.timers;
  }

  lemma TwoWorkersStrandAnEvent(n: nat, caller: bool) returns (s: State)
    requires n >= 2
    ensures Reaches(Init(n, caller), s) && s.stopPc == Stopped && s.m.io.slots != multiset{}
  {
    var j, busy, m := RootRunsLast(n, caller);
    var m1 := AddSlot(m, Call(2));
    Does(Init(n, caller), j, 0, busy, m, Watch(2), busy, m1);
    s := LastOneOut(Init(n, caller), j, busy, m1);
    assert Call(2) in s.m.io.slots;
  }

  /** The drain theorem does not extend to pinned tasks. */
  lemma TwoWorkersStrandAPinnedTask(n: nat, caller: bool) returns (s: State)
    requires n >= 2
    ensures Reaches(Init(n, caller), s) && s.stopPc == Stopped
    ensures |s.m.tasks.queue| == 1 && s.m.tasks.queue[0].thread == 1
  {
    var j, busy, m := RootRunsLast(n, caller);
    var m1 := Push(m, Call(2), 1);
    Does(Init(n, caller), j, 0, busy, m, Submit(2, 1), busy, m1);
    s := LastOneOut(Init(n, caller), j, busy, m1);
  }

  // ---- the caller alone ---------------------------------------------------------------------------

  predicate NothingLeft(m: Mem) {
    m.tasks.queue == [] && m.io.timers == multiset{} && m.io.slots == multiset{}
  }

  /** What the only worker knows after each of the reads of `stopping`, and keeps knowing. */
  ghost predicate Alone(s: State) {
    && s.caller && |s.ws| == 1 && LockHeld(s) && s.m.io.pending == |s.m.io.slots| + Owes(s.ws[0]) + s.m.io.owing
    && (s.m.autoStop <==> s.stopPc != NotStopping)
    && (s.ws[0].pc == NotStarted ==> s.ws[0].idle == INIT)
    && (s.stopPc == Stopped ==> s.ws[0].pc == Exited)
    && (match s.stopPc
        case NotStopping | AutoSet | FlagSetting => s.ws[0].pc == NotStarted
        case Check(stage, _) =>
          && s.ws[0].pc == NotStarted && stage <= 2
          && (stage >= 1 ==> s.m.io.timers == multiset{})
          && (stage == 2 ==> s.m.tasks.queue == [])
        case _ => s.ws[0].pc != NotStarted)
    && (s.ws[0].pc == IdleTasks ==> s.m.io.timers == multiset{})
    && (s.ws[0].pc == IdlePending ==> s.m.io.timers == multiset{} && s.m.tasks.queue == [])
    && (s.ws[0].pc == Exited ==> NothingLeft(s.m))
    && (s.ws[0].idle == TERM ==> NothingLeft(s.m) && OnTheWayOut(s.ws[0].pc))
  }

  predicate OnTheWayOut(pc: Pc) {
    pc == IdleReturned || pc == IdleDiscounted || pc == LoopHead || pc == Scanning(0) || pc == Empty || pc == Exited
  }

  /** The claims about the worker's own program counter and memory. */
  predicate Knows(me: Worker, m: Mem) {
    && (me.pc == IdleTasks ==> m.io.timers == multiset{})
    && (me.pc == IdlePending ==> m.io.timers == multiset{} && m.tasks.queue == [])
    && (me.pc == Exited ==> NothingLeft(m))
    && (me.idle == TERM ==> NothingLeft(m) && OnTheWayOut(me.pc))
  }

  lemma ScanKnows(me: Worker, w: nat, m: Mem, r: Local)
    requires ScanStep(me, w, m) == Some(r) && Knows(me, m)
    ensures Knows(r.0, r.1)
  {
  }

  lemma BeginKnows(me: Worker, m: Mem, r: Local)
    requires BeginStep(me, m) == Some(r) && Knows(me, m)
    ensures Knows(r.0, r.1)
  {
  }

  lemma FinishKnows(me: Worker, m: Mem, r: Local)
    requires FinishStep(me, m) == Some(r) && Knows(me, m)
    ensures Knows(r.0, r.1)
  {
  }

  lemma PendingKnows(me: Worker, m: Mem, r: Local)
    requires me.pc == IdlePending && IdleStep(me, m) == Some(r) && Knows(me, m) && m.io.pending == |m.io.slots| + Owes(me) + m.io.owing
    ensures Knows(r.0, r.1)
  {
  }

  lemma BackKnows(me: Worker, m: Mem, r: Local)
    requires (me.pc == IdleReturned || me.pc == IdleDiscounted) && IdleStep(me, m) == Some(r) && Knows(me, m)
    ensures Knows(r.0, r.1)
  {
  }

  lemma IdleKnows(me: Worker, m: Mem, r: Local)
    requires me.pc != IdlePending && me.pc != IdleReturned && me.pc != IdleDiscounted
    requires IdleStep(me, m) == Some(r) && Knows(me, m)
    ensures Knows(r.0, r.1)
  {
    assert me.idle != TERM;
  }

  lemma WorkerKnows(me: Worker, w: nat, m: Mem, r: Local)
    requires WorkerStep(me, w, m) == Some(r) && Knows(me, m) && m.io.pending == |m.io.slots| + Owes(me) + m.io.owing
    ensures Knows(r.0, r.1)
  {
    match me.pc
    case LoopHead | Scanning(_) | Picked(_) | Empty => ScanKnows(me, w, m, r);
    case Counted(_) | Dead | Entering(_, _) | Admitted(_, _) => BeginKnows(me, m, r);
    case Leaving(_, _) | Returned(_, _) | Uncounted(_, _) | Requeue(_, _) | Recheck(_, _)
       | Parking(_, _) | Retire(_) => FinishKnows(me, m, r);
    case IdlePending => PendingKnows(me, m, r);
    case IdleReturned | IdleDiscounted => BackKnows(me, m, r);
    case _ => IdleKnows(me, m, r);
  }

  /** A worker that runs user code has read nothing yet. */
  lemma UserKnows(me: Worker, m: Mem, op: Op, r: Local)
    requires UserStep(me, m, op) == Some(r) && Knows(me, m)
    ensures Knows(r.0, r.1)
  {
    assert me.idle != TERM && r.0.idle == me.idle && (r.0.pc.Inside? || r.0.pc.Leaving?);
  }

  lemma LocalKnows(me: Worker, m: Mem, a: Action, r: Local)
    requires !a.Outside? && !a.StopStep? && LocalNext(me, m, a) == Some(r)
    requires Knows(me, m) && m.io.pending == |m.io.slots| + Owes(me) + m.io.owing
    ensures Knows(r.0, r.1)
  {
    match a
    case Expire(_, _) | Fire(_, _) =>
    case User(_, op) => UserKnows(me, m, op, r);
    case Step(w) => WorkerKnows(me, w, m, r);
  }

  lemma StopKeepsAlone(s: State, s1: State)
    requires Alone(s) && LockHeld(s1) && Next(s, StopStep) == Some(s1)
    ensures Alone(s1)
  {
  }

  lemma OutsideKeepsAlone(s: State, op: Op, s1: State)
    requires Alone(s) && LockHeld(s1) && Next(s, Outside(op)) == Some(s1)
    ensures Alone(s1)
  {
    OutsideCounts(s.m, op, s1.m);
  }

  lemma StepKeepsAlone(s: State, a: Action, s1: State)
    requires Alone(s) && Next(s, a) == Some(s1)
    ensures Alone(s1)
  {
    StepKeepsLock(s, a, s1);
    match a
    case Outside(op) => OutsideKeepsAlone(s, op, s1);
    case StopStep => StopKeepsAlone(s, s1);
    case _ => LocalKeepsAlone(s, a, s1);
  }

  lemma LocalKeepsAlone(s: State, a: Action, s1: State)
    requires Alone(s) && LockHeld(s1) && Next(s, a) == Some(s1) && !a.Outside? && !a.StopStep?
    ensures Alone(s1)
  {
    LocalKnows(s.ws[0], s.m, a, (s1.ws[0], s1.m));
    LocalNextCounts(s.ws[0], s.m, a, (s1.ws[0], s1.m));
    LocalNextYields(s.ws[0], s.m, a, (s1.ws[0], s1.m), 0);
  }

  lemma {:induction false} RunKeepsAlone(s: State, run: seq<Action>, s1: State)
    requires Alone(s) && Exec(s, run) == Some(s1)
    ensures Alone(s1)
    decreases |run|
  {
    if run != [] {
      StepKeepsAlone(s, run[0], Next(s, run[0]).value);
      RunKeepsAlone(Next(s, run[0]).value, run[1..], s1);
    }
  }

  // ---- one worker --------------------------------------------------------------------------------

  /** No task and no event, and nobody outside will add any. */
  predicate NoTaskNoEvent(m: Mem) {
    m.tasks.queue == [] && m.io.slots == multiset{} && m.autoStop
  }

  /** What a worker knows of tasks and events after its reads, and keeps knowing while it is the only one. */
  predicate Sees(me: Worker, m: Mem) {
    && (me.pc == IdlePending ==> m.tasks.queue == [] && m.autoStop)
    && (me.pc == Exited ==> NoTaskNoEvent(m))
    && (me.idle == TERM ==> NoTaskNoEvent(m) && OnTheWayOut(me.pc))
  }

  lemma ScanSees(me: Worker, w: nat, m: Mem, r: Local)
    requires ScanStep(me, w, m) == Some(r) && Sees(me, m)
    ensures Sees(r.0, r.1)
  {
  }

  lemma BeginSees(me: Worker, m: Mem, r: Local)
    requires BeginStep(me, m) == Some(r) && Sees(me, m)
    ensures Sees(r.0, r.1)
  {
  }

  lemma FinishSees(me: Worker, m: Mem, r: Local)
    requires FinishStep(me, m) == Some(r) && Sees(me, m)
    ensures Sees(r.0, r.1)
  {
  }

  lemma PendingSees(me: Worker, m: Mem, r: Local)
    requires me.pc == IdlePending && IdleStep(me, m) == Some(r) && Sees(me, m) && m.io.pending == |m.io.slots| + Owes(me) + m.io.owing
    ensures Sees(r.0, r.1)
  {
  }

  lemma IdleSees(me: Worker, m: Mem, r: Local)
    requires me.pc != IdlePending && IdleStep(me, m) == Some(r) && Sees(me, m)
    ensures Sees(r.0, r.1)
  {
  }

  lemma UserSees(me: Worker, m: Mem, op: Op, r: Local)
    requires UserStep(me, m, op) == Some(r) && Sees(me, m)
    ensures Sees(r.0, r.1)
  {
    assert me.idle != TERM && r.0.idle == me.idle && (r.0.pc.Inside? || r.0.pc.Leaving?);
  }

  lemma LocalSees(me: Worker, m: Mem, a: Action, r: Local)
    requires !a.Outside? && !a.StopStep? && LocalNext(me, m, a) == Some(r)
    requires Sees(me, m) && m.io.pending == |m.io.slots| + Owes(me) + m.io.owing
    ensures Sees(r.0, r.1)
  {
    match a
    case Expire(_, _) | Fire(_, _) =>
    case User(_, op) => UserSees(me, m, op, r);
    case Step(w) =>
      match me.pc
      case LoopHead | Scanning(_) | Picked(_) | Empty => ScanSees(me, w, m, r);
      case Counted(_) | Dead | Entering(_, _) | Admitted(_, _) => BeginSees(me, m, r);
      case Leaving(_, _) | Returned(_, _) | Uncounted(_, _) | Requeue(_, _) | Recheck(_, _)
         | Parking(_, _) | Retire(_) => FinishSees(me, m, r);
      case IdlePending => PendingSees(me, m, r);
      case _ => IdleSees(me, m, r);
  }

  /** The only worker is a thread, not the caller. */
  ghost predicate Lone(s: State) {
    && !s.caller && |s.ws| == 1 && s.ws[0].pc != NotStarted && !s.stopPc.Check?
    && s.m.io.pending == |s.m.io.slots| + Owes(s.ws[0]) + s.m.io.owing && Sees(s.ws[0], s.m)
    && (s.stopPc != NotStopping ==> s.m.autoStop)
    && (s.stopPc == Stopped ==> s.ws[0].pc == Exited)
  }

  lemma StepKeepsLone(s: State, a: Action, s1: State)
    requires Lone(s) && Next(s, a) == Some(s1)
    ensures Lone(s1)
  {
    match a
    case Outside(op) => OutsideCounts(s.m, op, s1.m);
    case StopStep => StopMoves(s, s1);
    case _ => LocalKeepsLone(s, a, s1);
  }

  lemma LocalKeepsLone(s: State, a: Action, s1: State)
    requires Lone(s) && Next(s, a) == Some(s1) && !a.Outside? && !a.StopStep?
    ensures Lone(s1)
  {
    LocalSees(s.ws[0], s.m, a, (s1.ws[0], s1.m));
    LocalNextCounts(s.ws[0], s.m, a, (s1.ws[0], s1.m));
    LocalNextYields(s.ws[0], s.m, a, (s1.ws[0], s1.m), 0);
    if s.stopPc == Stopped {
      ExitedStays(s.ws[0], s.m, a);
    }
  }

  lemma ExitedStays(me: Worker, m: Mem, a: Action)
    requires !a.Outside? && !a.StopStep? && me.pc == Exited
    ensures LocalNext(me, m, a) == None
  {
  }

  lemma {:induction false} RunKeepsLone(s: State, run: seq<Action>, s1: State)
    requires Lone(s) && Exec(s, run) == Some(s1)
    ensures Lone(s1)
    decreases |run|
  {
    if run != [] {
      StepKeepsLone(s, run[0], Next(s, run[0]).value);
      RunKeepsLone(Next(s, run[0]).value, run[1..], s1);
    }
  }

  // ---- the theorems -------------------------------------------------------------------------------

  /** `run` takes the scheduler from its start to the return of `stop`, in state s. */
  ghost predicate Returns(threads: nat, caller: bool, run: seq<Action>, s: State) {
    Exec(Init(threads, caller), run) == Some(s) && s.stopPc == Stopped
  }

  ghost predicate LeavesNoTask(threads: nat, caller: bool) {
    forall run, s :: Returns(threads, caller, run, s) ==> s.m.tasks.queue == []
  }

  ghost predicate LeavesNoEvent(threads: nat, caller: bool) {
    forall run, s :: Returns(threads, caller, run, s) ==> s.m.io.slots == multiset{}
  }

  ghost predicate LeavesNoTimer(threads: nat, caller: bool) {
    forall run, s :: Returns(threads, caller, run, s) ==> s.m.io.timers == multiset{}
  }

  /** What the caller alone leaves: nothing at all. */
  lemma CallerAloneLeavesNothing(run: seq<Action>, s: State)
    requires Returns(1, true, run, s)
    ensures NothingLeft(s.m)
  {
    InitLedger(1, true);
    RunKeepsAlone(Init(1, true), run, s);
  }

  lemma OneWorkerLeavesNoTaskNoEvent(caller: bool, run: seq<Action>, s: State)
    requires Returns(1, caller, run, s)
    ensures s.m.tasks.queue == [] && s.m.io.slots == multiset{}
  {
    if caller {
      CallerAloneLeavesNothing(run, s);
    } else {
      RunKeepsLone(Init(1, false), run, s);
    }
  }

  /** No task, pinned or not, is ever left exactly when there is a single worker. */
  lemma NoTaskIsLeftIffOneWorker(threads: nat, caller: bool)
    requires threads > 0
    ensures LeavesNoTask(threads, caller) <==> threads == 1
  {
    if threads == 1 {
      forall run, s | Returns(threads, caller, run, s) ensures s.m.tasks.queue == [] {
        OneWorkerLeavesNoTaskNoEvent(caller, run, s);
      }
    } else {
      var s := TwoWorkersStrandAPinnedTask(threads, caller);
      var run :| Exec(Init(threads, caller), run) == Some(s);
      assert Returns(threads, caller, run, s);
    }
  }

  /** No registered event is ever left exactly when there is a single worker. */
  lemma NoEventIsLeftIffOneWorker(threads: nat, caller: bool)
    requires threads > 0
    ensures LeavesNoEvent(threads, caller) <==> threads == 1
  {
    if threads == 1 {
      forall run, s | Returns(threads, caller, run, s) ensures s.m.io.slots == multiset{} {
        OneWorkerLeavesNoTaskNoEvent(caller, run, s);
      }
    } else {
      var s := TwoWorkersStrandAnEvent(threads, caller);
      var run :| Exec(Init(threads, caller), run) == Some(s);
      assert Returns(threads, caller, run, s);
    }
  }

  /** No timer is ever left exactly when the caller of `stop` is the only worker. */
  lemma NoTimerIsLeftIffCallerIsAlone(threads: nat, caller: bool)
    requires threads > 0
    ensures LeavesNoTimer(threads, caller) <==> caller && threads == 1
  {
    if caller && threads == 1 {
      forall run, s | Returns(threads, caller, run, s) ensures s.m.io.timers == multiset{} {
        CallerAloneLeavesNothing(run, s);
      }
    } else {
      var s: State;
      if caller {
        s := TwoWorkersStrandATimer(threads, caller);
      } else {
        s := ThreadsOnlyStrandATimer(threads);
      }
      var run :| Exec(Init(threads, caller), run) == Some(s);
      assert Returns(threads, caller, run, s);
    }
  }

  /** In every run, when `stop` returns no task, no timer and no event registration is left. */
  ghost predicate LeavesNothing(threads: nat, caller: bool) {
    forall run, s :: Returns(threads, caller, run, s) ==> NothingLeft(s.m)
  }

  lemma NothingIsLeftIffCallerIsAlone(threads: nat, caller: bool)
    requires threads > 0
    ensures LeavesNothing(threads, caller) <==> (caller && threads == 1)
  {
    NoTimerIsLeftIffCallerIsAlone(threads, caller);
    if caller && threads == 1 {
      forall run, s | Returns(threads, caller, run, s) ensures NothingLeft(s.m) {
        CallerAloneLeavesNothing(run, s);
      }
    }
  }
}
