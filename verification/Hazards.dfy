/**
 The discipline of single execution is tight. It is split into eight rules; a policy that
 enforces some of them keeps every scheduler safe exactly when it enforces all of them. For
 each rule there is a run that breaks only this one and ends with a failed assertion of
 `swapIn` or `reset`, or with one worker inside a fiber whose stack another still uses.
 */
module Hazards {
  import opened Prelude
  import opened SchedulerModel
  import opened SingleExecution
  import opened Stranding

  datatype Rule =
    | SharesOnlyItself      // a fiber schedules no handle of another one
    | SharesOnce            // it schedules its own handle only while it has given out none
    | GivesFirst            // it entrusts its handle to somebody only while it has given out none
    | WatchesFirst          // it registers for an event only while it has given out none
    | ReadiesFirst          // it calls YieldToReady only while it has given out none
    | HoldsFirst            // it calls YieldToHold only while it has given out none
    | OwnEndsFirst          // a callback's own fiber ends only while it has given out none
    | OutsideSharesNone     // outside threads schedule no handle of an existing fiber

  predicate ObeysOp(rules: set<Rule>, pc: Pc, op: Op)
    requires pc.Inside?
  {
    match op
    case Share(g, _) => (SharesOnlyItself in rules ==> g == pc.f) && (SharesOnce in rules ==> !pc.gave)
    case Give => GivesFirst in rules ==> !pc.gave
    case WatchSelf => WatchesFirst in rules ==> !pc.gave
    case YieldReady => ReadiesFirst in rules ==> !pc.gave
    case YieldHold => HoldsFirst in rules ==> !pc.gave
    case Finish(_) => OwnEndsFirst in rules ==> !pc.gave || !pc.own
    case _ => true
  }

  predicate Obeys(rules: set<Rule>, s: State, a: Action) {
    match a
    case Outside(op) => OutsideSharesNone in rules ==> !op.Share?
    case User(w, op) => w < |s.ws| && s.ws[w].pc.Inside? ==> ObeysOp(rules, s.ws[w].pc, op)
    case _ => true
  }

  predicate ObeyingRun(rules: set<Rule>, s: State, run: seq<Action>)
    requires Exec(s, run).Some?
    decreases |run|
  {
    run == [] || (Obeys(rules, s, run[0]) && ObeyingRun(rules, Next(s, run[0]).value, run[1..]))
  }

  /** No assertion has failed, and no two workers are busy with the same fiber, from swapping it in to being done with it. */
  ghost predicate Safe(s: State) {
    && !s.m.crashed
    && forall w, x :: 0 <= w < x < |s.ws| && Grip(s.ws[w].pc).Some? ==> Grip(s.ws[w].pc) != Grip(s.ws[x].pc)
  }

  /** The policy keeps every scheduler safe. */
  ghost predicate Enforces(rules: set<Rule>) {
    forall threads, caller, run :: Exec(Init(threads, caller), run).Some? && ObeyingRun(rules, Init(threads, caller), run)
      ==> Safe(Exec(Init(threads, caller), run).value)
  }

  // ---- obeying runs ----------------------------------------------------------------------------

  ghost predicate Leads(rules: set<Rule>, s: State, s1: State) {
    exists run :: Exec(s, run) == Some(s1) && ObeyingRun(rules, s, run)
  }

  lemma LeadsNowhere(rules: set<Rule>, s: State)
    ensures Leads(rules, s, s)
  {
    assert Exec(s, []) == Some(s) && ObeyingRun(rules, s, []);
  }

  lemma {:induction false} ObeyingConcat(rules: set<Rule>, s: State, a: seq<Action>, b: seq<Action>)
    requires Exec(s, a).Some? && ObeyingRun(rules, s, a)
    requires Exec(Exec(s, a).value, b).Some? && ObeyingRun(rules, Exec(s, a).value, b)
    ensures Exec(s, a + b) == Exec(Exec(s, a).value, b) && ObeyingRun(rules, s, a + b)
    decreases |a|
  {
    if a == [] {
      assert a + b == b;
    } else {
      assert (a + b)[0] == a[0] && (a + b)[1..] == a[1..] + b;
      var s1 := Next(s, a[0]).value;
      assert Exec(s, a) == Exec(s1, a[1..]);
      ObeyingConcat(rules, s1, a[1..], b);
    }
  }

  lemma AndThen(rules: set<Rule>, s0: State, s: State, a: Action)
    requires Leads(rules, s0, s) && Next(s, a).Some? && Obeys(rules, s, a)
    ensures Leads(rules, s0, Next(s, a).value)
  {
    var run :| Exec(s0, run) == Some(s) && ObeyingRun(rules, s0, run);
    assert [a][1..] == [] && Exec(s, [a]) == Exec(Next(s, a).value, []);
    ObeyingConcat(rules, s0, run, [a]);
    assert Exec(s0, run + [a]) == Some(Next(s, a).value);
  }

  lemma Steps(rules: set<Rule>, s0: State, s: State, w: nat, me: Worker, m: Mem, me1: Worker, m1: Mem)
    requires w < |s.ws| && Leads(rules, s0, At(s, w, me, m))
    requires !m.crashed && WorkerStep(me, w, m) == Some((me1, m1))
    ensures Leads(rules, s0, At(s, w, me1, m1))
  {
    AndThen(rules, s0, At(s, w, me, m), Step(w));
    assert At(s, w, me, m).ws[w := me1] == s.ws[w := me1];
  }

  lemma Acts(rules: set<Rule>, s0: State, s: State, w: nat, me: Worker, m: Mem, op: Op, me1: Worker, m1: Mem)
    requires w < |s.ws| && Leads(rules, s0, At(s, w, me, m))
    requires !m.crashed && UserStep(me, m, op) == Some((me1, m1)) && ObeysOp(rules, me.pc, op)
    ensures Leads(rules, s0, At(s, w, me1, m1))
  {
    AndThen(rules, s0, At(s, w, me, m), User(w, op));
    assert At(s, w, me, m).ws[w := me1] == s.ws[w := me1];
  }

  /** Worker w takes the task at the front of the list. */
  lemma Takes(rules: set<Rule>, s0: State, s: State, w: nat, me: Worker, m: Mem, t: Task, rest: seq<Task>)
    requires w < |s.ws| && Leads(rules, s0, At(s, w, me, m)) && me.pc == LoopHead
    requires !m.crashed && Free(m) && m.tasks.queue == [t] + rest && Eligible(m, t, w)
    ensures Leads(rules, s0, At(s, w, me.(pc := Picked(t)), m.(tasks := m.tasks.(queue := rest))))
  {
    var locked := SetLock(m, Some(w));
    Steps(rules, s0, s, w, me, m, me.(pc := Scanning(0)), locked);
    assert Without(m.tasks.queue, 0) == rest && Eligible(locked, t, w);
    assert Take(locked, 0) == m.(tasks := m.tasks.(queue := rest));
    Steps(rules, s0, s, w, me.(pc := Scanning(0)), locked, me.(pc := Picked(t)), Take(locked, 0));
  }

  /** The worker that picked a handle of fiber f is about to swap it in. */
  lemma ComesToEnter(rules: set<Rule>, s0: State, s: State, w: nat, m: Mem, t: Task, f: FiberId)
    requires w < |s.ws| && Leads(rules, s0, At(s, w, FRESH.(pc := Picked(t)), m))
    requires !m.crashed && t.work == Fib(f) && !Over(FiberOf(m, f))
    ensures Leads(rules, s0, At(s, w, FRESH.(pc := Entering(f, false)), Start(m.(active := m.active + 1), t)))
  {
    var m1 := m.(active := m.active + 1);
    Steps(rules, s0, s, w, FRESH.(pc := Picked(t)), m, FRESH.(pc := Counted(t)), m1);
    Steps(rules, s0, s, w, FRESH.(pc := Counted(t)), m1, FRESH.(pc := Entering(f, false)), Start(m1, t));
  }

  /** It swaps the fiber in. */
  lemma Enters(rules: set<Rule>, s0: State, s: State, w: nat, m: Mem, t: Task, f: FiberId)
    requires w < |s.ws| && Leads(rules, s0, At(s, w, FRESH.(pc := Picked(t)), m))
    requires !m.crashed && t.work == Fib(f) && FiberOf(m, f) != EXEC && !Over(FiberOf(m, f))
    ensures Leads(rules, s0, At(s, w, FRESH.(pc := Inside(f, false, false, false)), SetFiber(Start(m.(active := m.active + 1), t), f, EXEC)))
  {
    ComesToEnter(rules, s0, s, w, m, t, f);
    var m1 := Start(m.(active := m.active + 1), t);
    Steps(rules, s0, s, w, FRESH.(pc := Entering(f, false)), m1, FRESH.(pc := Admitted(f, false)), m1);
    Steps(rules, s0, s, w, FRESH.(pc := Admitted(f, false)), m1, FRESH.(pc := Inside(f, false, false, false)), SetFiber(m1, f, EXEC));
  }

  /** Fiber 0 leaves by a plain `swapOut`. */
  lemma LeavesFiber(rules: set<Rule>, s0: State, s: State, w: nat, me: Worker, m: Mem)
    requires w < |s.ws| && Leads(rules, s0, At(s, w, me, m))
    requires !m.crashed && (me == INSIDE || me == GAVE)
    ensures Leads(rules, s0, At(s, w, FRESH.(pc := Uncounted(0, false)), m.(active := m.active - 1)))
  {
    Acts(rules, s0, s, w, me, m, Park, AWAY, m);
    Steps(rules, s0, s, w, AWAY, m, FRESH.(pc := Returned(0, false)), m);
    Steps(rules, s0, s, w, FRESH.(pc := Returned(0, false)), m, FRESH.(pc := Uncounted(0, false)), m.(active := m.active - 1));
  }

  /** Fiber 0 parks, and its worker is back at the loop head. */
  lemma Parks(rules: set<Rule>, s0: State, s: State, w: nat, me: Worker, m: Mem)
    requires w < |s.ws| && Leads(rules, s0, At(s, w, me, m))
    requires !m.crashed && |m.fibers| > 0 && m.fibers[0] == EXEC && (me == INSIDE || me == GAVE)
    ensures Leads(rules, s0, At(s, w, FRESH, SetFiber(m.(active := m.active - 1), 0, HOLD)))
  {
    LeavesFiber(rules, s0, s, w, me, m);
    IsMarked(rules, s0, s, w, m.(active := m.active - 1));
  }

  lemma IsMarked(rules: set<Rule>, s0: State, s: State, w: nat, m: Mem)
    requires w < |s.ws| && Leads(rules, s0, At(s, w, FRESH.(pc := Uncounted(0, false)), m))
    requires !m.crashed && |m.fibers| > 0 && m.fibers[0] == EXEC
    ensures Leads(rules, s0, At(s, w, FRESH, SetFiber(m, 0, HOLD)))
  {
    Steps(rules, s0, s, w, FRESH.(pc := Uncounted(0, false)), m, FRESH.(pc := Recheck(0, false)), m);
    Steps(rules, s0, s, w, FRESH.(pc := Recheck(0, false)), m, FRESH.(pc := Parking(0, false)), m);
    Steps(rules, s0, s, w, FRESH.(pc := Parking(0, false)), m, FRESH, SetFiber(m, 0, HOLD));
  }

  // ---- two workers -----------------------------------------------------------------------------

  const PAIR: State := State([FRESH, FRESH], false, NotStopping, INIT_MEM)
  const INSIDE: Worker := FRESH.(pc := Inside(0, false, false, false))
  const GAVE: Worker := FRESH.(pc := Inside(0, false, true, false))
  const AWAY: Worker := FRESH.(pc := Leaving(0, false))

  function Handle(f: FiberId, ticket: nat): Task {
    Task(Fib(f), ANY, ticket)
  }

  /** The first n fibers have been created and scheduled from outside. */
  lemma Spawned(rules: set<Rule>) returns (m1: Mem, m2: Mem)
    ensures m1 == Push(INIT_MEM.(fibers := [INIT]), Fib(0), ANY) && m1.tasks.queue == [Handle(0, 0)]
    ensures m2 == Push(m1.(fibers := [INIT, INIT]), Fib(1), ANY) && m2.tasks.queue == [Handle(0, 0), Handle(1, 1)]
    ensures Leads(rules, PAIR, PAIR.(m := m1)) && Leads(rules, PAIR, PAIR.(m := m2))
  {
    LeadsNowhere(rules, PAIR);
    assert [] + [INIT] == [INIT] && [INIT] + [INIT] == [INIT, INIT];
    m1 := Push(INIT_MEM.(fibers := [INIT]), Fib(0), ANY);
    AndThen(rules, PAIR, PAIR, Outside(Spawn(ANY)));
    m2 := Push(m1.(fibers := [INIT, INIT]), Fib(1), ANY);
    AndThen(rules, PAIR, PAIR.(m := m1), Outside(Spawn(ANY)));
  }

  /** Worker 0 takes fiber 0 off a list whose rest is `rest` and swaps it in. */
  lemma RunsFirst(rules: set<Rule>, m: Mem, rest: seq<Task>) returns (m1: Mem)
    requires Leads(rules, PAIR, PAIR.(m := m)) && !m.crashed && Free(m)
    requires m.tasks.queue == [Handle(0, 0)] + rest && |m.fibers| > 0 && m.fibers[0] == INIT
    ensures Leads(rules, PAIR, At(PAIR, 0, INSIDE, m1)) && Free(m1) && !m1.crashed && m1.tasks.queue == rest
    ensures m1.fibers == m.fibers[0 := EXEC] && m1.tasks.issued == m.tasks.issued && m1.io == m.io
  {
    assert At(PAIR, 0, FRESH, m) == PAIR.(m := m);
    Takes(rules, PAIR, PAIR, 0, FRESH, m, Handle(0, 0), rest);
    var m0 := m.(tasks := m.tasks.(queue := rest));
    Enters(rules, PAIR, PAIR, 0, m0, Handle(0, 0), 0);
    m1 := SetFiber(Start(m0.(active := m0.active + 1), Handle(0, 0)), 0, EXEC);
  }

  /** Two workers have picked handles of one fiber: the first swaps it in, and the second fails the assertion of `swapIn`. */
  lemma SecondEntryFails(rules: set<Rule>, m: Mem, t: Task, u: Task, f: FiberId) returns (s: State)
    requires Leads(rules, PAIR, At(At(PAIR, 0, FRESH.(pc := Picked(t)), m), 1, FRESH.(pc := Picked(u)), m))
    requires !m.crashed && t.work == u.work == Fib(f) && f < |m.fibers| && FiberOf(m, f) != EXEC && !Over(FiberOf(m, f))
    ensures Leads(rules, PAIR, s) && s.m.crashed
  {
    var second := FRESH.(pc := Picked(u));
    var base := At(PAIR, 1, second, m);
    assert At(base, 0, FRESH.(pc := Picked(t)), m) == At(At(PAIR, 0, FRESH.(pc := Picked(t)), m), 1, second, m);
    Enters(rules, PAIR, base, 0, m, t, f);
    var inside := FRESH.(pc := Inside(f, false, false, false));
    var m1 := SetFiber(Start(m.(active := m.active + 1), t), f, EXEC);
    var s1 := At(base, 0, inside, m1);
    assert At(s1, 1, second, m1) == s1;
    ComesToEnter(rules, PAIR, s1, 1, m1, u, f);
    var m2 := Start(m1.(active := m1.active + 1), u);
    Steps(rules, PAIR, s1, 1, FRESH.(pc := Entering(f, false)), m2, FRESH.(pc := Entering(f, false)), Crash(m2));
    s := At(s1, 1, FRESH.(pc := Entering(f, false)), Crash(m2));
  }

  /** Two handles of one fiber that is not running are in the list: two workers pick them. */
  lemma TwoHandlesClash(rules: set<Rule>, m: Mem, t: Task, u: Task, f: FiberId) returns (s: State)
    requires Leads(rules, PAIR, PAIR.(m := m)) && !m.crashed && Free(m) && m.tasks.queue == [t, u]
    requires t.work == u.work == Fib(f) && f < |m.fibers| && FiberOf(m, f) != EXEC && !Over(FiberOf(m, f))
    requires t.thread == u.thread == ANY
    ensures Leads(rules, PAIR, s) && s.m.crashed
  {
    assert At(PAIR, 0, FRESH, m) == PAIR.(m := m) && [t, u] == [t] + [u] && [u] == [u] + [];
    Takes(rules, PAIR, PAIR, 0, FRESH, m, t, [u]);
    var m1 := m.(tasks := m.tasks.(queue := [u]));
    var s1 := At(PAIR, 0, FRESH.(pc := Picked(t)), m1);
    assert At(s1, 1, FRESH, m1) == s1;
    Takes(rules, PAIR, s1, 1, FRESH, m1, u, []);
    var m2 := m1.(tasks := m1.tasks.(queue := []));
    assert At(s1, 1, FRESH.(pc := Picked(u)), m2) == At(At(PAIR, 0, FRESH.(pc := Picked(t)), m2), 1, FRESH.(pc := Picked(u)), m2);
    s := SecondEntryFails(rules, m2, t, u, f);
  }

  /** Fiber 0 is on worker 0 and has given out one handle, which is the whole list. */
  lemma GivesHandle(rules: set<Rule>) returns (m: Mem)
    ensures Leads(rules, PAIR, At(PAIR, 0, GAVE, m)) && Free(m) && !m.crashed
    ensures m.fibers == [EXEC] && m.tasks.queue == [Handle(0, 1)] && m.io == INIT_MEM.io && |m.tasks.issued| == 2
  {
    var m1, _ := Spawned(rules);
    assert m1.tasks.queue == [Handle(0, 0)] + [];
    var m2 := RunsFirst(rules, m1, []);
    m := Push(m2, Fib(0), ANY);
    Acts(rules, PAIR, PAIR, 0, INSIDE, m2, Share(0, ANY), GAVE, m);
  }

  /**
   The handle is out and the fiber leaves by `YieldToReady` or `YieldToHold`, which publish the
   new state before the context is saved: one worker is still inside `swapOut` of the fiber
   and the other has swapped it in.
   */
  lemma YieldingRunsTwice(rules: set<Rule>, op: Op) returns (s: State)
    requires op == YieldReady || op == YieldHold
    requires op == YieldReady ==> ReadiesFirst !in rules
    requires op == YieldHold ==> HoldsFirst !in rules
    ensures Leads(rules, PAIR, s) && !s.m.crashed && |s.ws| == 2
    ensures Grip(s.ws[0].pc) == Some(0) && s.ws[0].pc.Leaving?
    ensures Grip(s.ws[1].pc) == Some(0) && s.ws[1].pc.Inside?
  {
    var m := GivesHandle(rules);
    var m1 := SetFiber(m, 0, if op == YieldReady then READY else HOLD);
    Acts(rules, PAIR, PAIR, 0, GAVE, m, op, AWAY, m1);
    s := OtherWorkerEnters(rules, m1);
  }

  /** While worker 0 is still leaving fiber 0, worker 1 takes its handle and swaps it in. */
  lemma OtherWorkerEnters(rules: set<Rule>, m: Mem) returns (s: State)
    requires Leads(rules, PAIR, At(PAIR, 0, AWAY, m)) && !m.crashed && Free(m)
    requires m.tasks.queue == [Handle(0, 1)] && FiberOf(m, 0) != EXEC && !Over(FiberOf(m, 0))
    ensures Leads(rules, PAIR, s) && !s.m.crashed && s.ws == [AWAY, INSIDE]
  {
    var s1 := At(PAIR, 0, AWAY, m);
    assert At(s1, 1, FRESH, m) == s1 && m.tasks.queue == [Handle(0, 1)] + [];
    Takes(rules, PAIR, s1, 1, FRESH, m, Handle(0, 1), []);
    var m1 := m.(tasks := m.tasks.(queue := []));
    Enters(rules, PAIR, s1, 1, m1, Handle(0, 1), 0);
    s := At(s1, 1, INSIDE, SetFiber(Start(m1.(active := m1.active + 1), Handle(0, 1)), 0, EXEC));
  }

  lemma YieldToHoldCanRunTwice(rules: set<Rule>) returns (s: State)
    requires HoldsFirst !in rules
    ensures Leads(rules, Init(2, false), s) && !s.m.crashed && |s.ws| == 2
    ensures Grip(s.ws[0].pc) == Some(0) && s.ws[0].pc.Leaving?
    ensures Grip(s.ws[1].pc) == Some(0) && s.ws[1].pc.Inside?
  {
    assert Init(2, false).ws == PAIR.ws;
    s := YieldingRunsTwice(rules, YieldHold);
  }

  /** The list holds two handles of a fiber when fiber 0 parks. */
  lemma ParkedWithTwoHandles(rules: set<Rule>, me: Worker, m: Mem, t: Task, u: Task, f: FiberId) returns (s: State)
    requires Leads(rules, PAIR, At(PAIR, 0, me, m)) && (me == GAVE || me == INSIDE)
    requires !m.crashed && Free(m) && m.tasks.queue == [t, u] && |m.fibers| > 0 && m.fibers[0] == EXEC
    requires t.work == u.work == Fib(f) && t.thread == u.thread == ANY
    requires f == 0 || (f < |m.fibers| && FiberOf(m, f) != EXEC && !Over(FiberOf(m, f)))
    ensures Leads(rules, PAIR, s) && s.m.crashed
  {
    Parks(rules, PAIR, PAIR, 0, me, m);
    var m1 := SetFiber(m.(active := m.active - 1), 0, HOLD);
    assert At(PAIR, 0, FRESH, m1) == PAIR.(m := m1);
    s := TwoHandlesClash(rules, m1, t, u, f);
  }

  /** A handle that waits with somebody else is scheduled beside the one in the list. */
  lemma GivingAfterSharingClashes(rules: set<Rule>) returns (s: State)
    requires GivesFirst !in rules
    ensures Leads(rules, PAIR, s) && s.m.crashed
  {
    var m := GivesHandle(rules);
    var m1 := m.(held := m.held + multiset{0});
    Acts(rules, PAIR, PAIR, 0, GAVE, m, Give, GAVE, m1);
    var m2 := Push(m1.(held := m1.held - multiset{0}), Fib(0), ANY);
    Acts(rules, PAIR, PAIR, 0, GAVE, m1, Redeem(0, ANY), GAVE, m2);
    s := ParkedWithTwoHandles(rules, GAVE, m2, Handle(0, 1), Handle(0, 2), 0);
  }

  lemma SharingTwiceClashes(rules: set<Rule>) returns (s: State)
    requires SharesOnce !in rules
    ensures Leads(rules, PAIR, s) && s.m.crashed
  {
    var m := GivesHandle(rules);
    var m1 := Push(m, Fib(0), ANY);
    Acts(rules, PAIR, PAIR, 0, GAVE, m, Share(0, ANY), GAVE, m1);
    s := ParkedWithTwoHandles(rules, GAVE, m1, Handle(0, 1), Handle(0, 2), 0);
  }

  /** The fiber triggers its own registration, as any thread might. */
  lemma WatchingAfterSharingClashes(rules: set<Rule>) returns (s: State)
    requires WatchesFirst !in rules
    ensures Leads(rules, PAIR, s) && s.m.crashed
  {
    var m := GivesHandle(rules);
    var m1 := AddSlot(m, Fib(0));
    Acts(rules, PAIR, PAIR, 0, GAVE, m, WatchSelf, GAVE, m1);
    var m2 := Trigger(m1, Fib(0)).value;
    var owed := FRESH.(pc := Inside(0, false, true, true));
    Acts(rules, PAIR, PAIR, 0, GAVE, m1, Cancel(Fib(0)), owed, m2);
    Acts(rules, PAIR, PAIR, 0, owed, m2, Settle, GAVE, Settled(m2));
    s := ParkedWithTwoHandles(rules, GAVE, Settled(m2), Handle(0, 1), Handle(0, 2), 0);
  }

  lemma SharingAnotherClashes(rules: set<Rule>) returns (s: State)
    requires SharesOnlyItself !in rules
    ensures Leads(rules, PAIR, s) && s.m.crashed
  {
    var _, m := Spawned(rules);
    assert m.tasks.queue == [Handle(0, 0)] + [Handle(1, 1)];
    var m1 := RunsFirst(rules, m, [Handle(1, 1)]);
    var m2 := Push(m1, Fib(1), ANY);
    Acts(rules, PAIR, PAIR, 0, INSIDE, m1, Share(1, ANY), INSIDE, m2);
    s := ParkedWithTwoHandles(rules, INSIDE, m2, Handle(1, 1), Handle(1, 2), 1);
  }

  lemma SharingOutsideClashes(rules: set<Rule>) returns (s: State)
    requires OutsideSharesNone !in rules
    ensures Leads(rules, PAIR, s) && s.m.crashed
  {
    var m, _ := Spawned(rules);
    var m1 := Push(m, Fib(0), ANY);
    AndThen(rules, PAIR, PAIR.(m := m), Outside(Share(0, ANY)));
    s := TwoHandlesClash(rules, m1, Handle(0, 0), Handle(0, 1), 0);
  }

  // ---- a callback's own fiber ------------------------------------------------------------------

  const JOB: Task := Task(Call(0), ANY, 0)
  const OWN: Worker := FRESH.(pc := Inside(0, true, false, false))
  const OWN_GAVE: Worker := FRESH.(pc := Inside(0, true, true, false))
  const SPARE: Worker := Worker(LoopHead, Some(0), INIT)

  /** Worker 0 runs a callback, which is the only task there is, on a new fiber. */
  lemma CallbackRuns(rules: set<Rule>) returns (m: Mem)
    ensures Leads(rules, PAIR, At(PAIR, 0, OWN, m)) && Free(m) && !m.crashed && !m.autoStop
    ensures m.fibers == [EXEC] && m.tasks.queue == [] && |m.tasks.issued| == 1
  {
    LeadsNowhere(rules, PAIR);
    var m0 := Push(INIT_MEM, Call(0), ANY);
    AndThen(rules, PAIR, PAIR, Outside(Submit(0, ANY)));
    assert At(PAIR, 0, FRESH, m0) == PAIR.(m := m0) && m0.tasks.queue == [JOB] + [];
    Takes(rules, PAIR, PAIR, 0, FRESH, m0, JOB, []);
    var m1 := m0.(tasks := m0.tasks.(queue := []));
    m := EntersOwn(rules, m1);
  }

  lemma EntersOwn(rules: set<Rule>, m1: Mem) returns (m: Mem)
    requires Leads(rules, PAIR, At(PAIR, 0, FRESH.(pc := Picked(JOB)), m1)) && !m1.crashed && m1.fibers == []
    ensures Leads(rules, PAIR, At(PAIR, 0, OWN, m)) && m == Start(m1.(active := m1.active + 1, fibers := [EXEC]), JOB)
  {
    var m2 := m1.(active := m1.active + 1);
    Steps(rules, PAIR, PAIR, 0, FRESH.(pc := Picked(JOB)), m1, FRESH.(pc := Counted(JOB)), m2);
    var m3 := Start(m2.(fibers := [INIT]), JOB);
    assert [] + [INIT] == [INIT];
    Steps(rules, PAIR, PAIR, 0, FRESH.(pc := Counted(JOB)), m2, FRESH.(pc := Entering(0, true)), m3);
    Steps(rules, PAIR, PAIR, 0, FRESH.(pc := Entering(0, true)), m3, FRESH.(pc := Admitted(0, true)), m3);
    m := SetFiber(m3, 0, EXEC);
    Steps(rules, PAIR, PAIR, 0, FRESH.(pc := Admitted(0, true)), m3, OWN, m);
  }

  /** It schedules its own fiber and ends; the fiber is reset and kept for the next callback. */
  lemma EndedFiberIsReset(rules: set<Rule>, m: Mem) returns (m1: Mem)
    requires OwnEndsFirst !in rules && Leads(rules, PAIR, At(PAIR, 0, OWN_GAVE, m))
    requires !m.crashed && m.fibers == [EXEC]
    ensures m1 == m.(active := m.active - 1, fibers := [INIT]) && Leads(rules, PAIR, At(PAIR, 0, SPARE, m1))
  {
    var m2 := SetFiber(m, 0, TERM);
    Acts(rules, PAIR, PAIR, 0, OWN_GAVE, m, Finish(false), FRESH.(pc := Leaving(0, true)), m2);
    Steps(rules, PAIR, PAIR, 0, FRESH.(pc := Leaving(0, true)), m2, FRESH.(pc := Returned(0, true)), m2);
    m1 := IsReset(rules, m2);
  }

  lemma IsReset(rules: set<Rule>, m: Mem) returns (m1: Mem)
    requires Leads(rules, PAIR, At(PAIR, 0, FRESH.(pc := Returned(0, true)), m)) && !m.crashed && m.fibers == [TERM]
    ensures m1 == m.(active := m.active - 1, fibers := [INIT]) && Leads(rules, PAIR, At(PAIR, 0, SPARE, m1))
  {
    var m2 := m.(active := m.active - 1);
    Steps(rules, PAIR, PAIR, 0, FRESH.(pc := Returned(0, true)), m, FRESH.(pc := Uncounted(0, true)), m2);
    Steps(rules, PAIR, PAIR, 0, FRESH.(pc := Uncounted(0, true)), m2, FRESH.(pc := Recheck(0, true)), m2);
    Steps(rules, PAIR, PAIR, 0, FRESH.(pc := Recheck(0, true)), m2, FRESH.(pc := Retire(0)), m2);
    m1 := SetFiber(m2, 0, INIT);
    Steps(rules, PAIR, PAIR, 0, FRESH.(pc := Retire(0)), m2, SPARE, m1);
  }

  /** Worker 1 runs the reset fiber from the stale handle; worker 0 takes the next callback and cannot reset it. */
  lemma SpareFiberRuns(rules: set<Rule>, m: Mem, t: Task, u: Task) returns (s: State)
    requires Leads(rules, PAIR, At(PAIR, 0, SPARE, m)) && !m.crashed && Free(m)
    requires m.tasks.queue == [t, u] && m.fibers == [INIT]
    requires t.work == Fib(0) && u.work.Call? && t.thread == u.thread == ANY
    ensures Leads(rules, PAIR, s) && s.m.crashed
  {
    var s1 := At(PAIR, 0, SPARE, m);
    assert At(s1, 1, FRESH, m) == s1 && [t, u] == [t] + [u] && [u] == [u] + [];
    Takes(rules, PAIR, s1, 1, FRESH, m, t, [u]);
    var m1 := m.(tasks := m.tasks.(queue := [u]));
    Enters(rules, PAIR, s1, 1, m1, t, 0);
    var m2 := SetFiber(Start(m1.(active := m1.active + 1), t), 0, EXEC);
    var s2 := At(s1, 1, INSIDE, m2);
    assert At(s2, 0, SPARE, m2) == s2;
    Takes(rules, PAIR, s2, 0, SPARE, m2, u, []);
    var m3 := m2.(tasks := m2.tasks.(queue := []));
    var m4 := m3.(active := m3.active + 1);
    Steps(rules, PAIR, s2, 0, SPARE.(pc := Picked(u)), m3, SPARE.(pc := Counted(u)), m4);
    Steps(rules, PAIR, s2, 0, SPARE.(pc := Counted(u)), m4, SPARE.(pc := Counted(u)), Crash(m4));
    s := At(s2, 0, SPARE.(pc := Counted(u)), Crash(m4));
  }

  lemma EndingAfterSharingClashes(rules: set<Rule>) returns (s: State)
    requires OwnEndsFirst !in rules
    ensures Leads(rules, PAIR, s) && s.m.crashed
  {
    var m := CallbackRuns(rules);
    var m1 := Push(m, Fib(0), ANY);
    Acts(rules, PAIR, PAIR, 0, OWN, m, Share(0, ANY), OWN_GAVE, m1);
    var m2 := EndedFiberIsReset(rules, m1);
    var m3 := Push(m2, Call(1), ANY);
    AndThen(rules, PAIR, At(PAIR, 0, SPARE, m2), Outside(Submit(1, ANY)));
    s := SpareFiberRuns(rules, m3, Handle(0, 1), Task(Call(1), ANY, 2));
  }

  // ---- the theorem -------------------------------------------------------------------------------

  /** Every rule is needed: without it there is a run, obeying all the others, that is not safe. */
  lemma EachRuleIsNeeded(rules: set<Rule>, r: Rule) returns (s: State)
    requires r !in rules
    ensures Leads(rules, PAIR, s) && !Safe(s)
    ensures r != ReadiesFirst && r != HoldsFirst ==> s.m.crashed
  {
    match r
    case SharesOnlyItself => s := SharingAnotherClashes(rules);
    case SharesOnce => s := SharingTwiceClashes(rules);
    case GivesFirst => s := GivingAfterSharingClashes(rules);
    case WatchesFirst => s := WatchingAfterSharingClashes(rules);
    case ReadiesFirst => s := YieldingRunsTwice(rules, YieldReady);
    case HoldsFirst => s := YieldingRunsTwice(rules, YieldHold);
    case OwnEndsFirst => s := EndingAfterSharingClashes(rules);
    case OutsideSharesNone => s := SharingOutsideClashes(rules);
  }

  lemma {:induction false} AllRulesDiscipline(rules: set<Rule>, s: State, run: seq<Action>)
    requires (forall r: Rule :: r in rules) && Exec(s, run).Some?
    ensures ObeyingRun(rules, s, run) <==> DisciplinedRun(false, s, run)
    decreases |run|
  {
    if run != [] {
      AllRulesDiscipline(rules, Next(s, run[0]).value, run[1..]);
    }
  }

  /** A set of rules keeps every scheduler safe in every run that obeys it, exactly when it has all eight. */
  lemma RulesSufficeIffAll(rules: set<Rule>)
    ensures Enforces(rules) <==> forall r: Rule :: r in rules
  {
    if forall r: Rule :: r in rules {
      forall threads, caller, run | Exec(Init(threads, caller), run).Some? && ObeyingRun(rules, Init(threads, caller), run)
        ensures Safe(Exec(Init(threads, caller), run).value)
      {
        AllRulesDiscipline(rules, Init(threads, caller), run);
        DisciplineIsSafe(threads, caller, run);
      }
    } else {
      var r: Rule :| r !in rules;
      var s := EachRuleIsNeeded(rules, r);
      assert PAIR.ws == Init(2, false).ws;
      var run :| Exec(PAIR, run) == Some(s) && ObeyingRun(rules, PAIR, run);
      assert !Safe(Exec(Init(2, false), run).value);
    }
  }

  lemma DisciplineIsSafe(threads: nat, caller: bool, run: seq<Action>)
    requires Exec(Init(threads, caller), run).Some? && DisciplinedRun(false, Init(threads, caller), run)
    ensures Safe(Exec(Init(threads, caller), run).value)
  {
    var s := Exec(Init(threads, caller), run).value;
    InitSound(false, threads, caller);
    RunKeepsSound(false, Init(threads, caller), run, s);
    forall w, x | 0 <= w < x < |s.ws| && Grip(s.ws[w].pc).Some? ensures Grip(s.ws[w].pc) != Grip(s.ws[x].pc) {
      NoFiberRunsTwice(false, threads, caller, run, s, w, x, Grip(s.ws[w].pc).value);
    }
  }
}
