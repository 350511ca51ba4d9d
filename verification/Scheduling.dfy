/**
 What is scheduled is what was asked for: over every run, the tasks ever pushed onto the list
 are the requests of the run, in order, each with its work and its thread.
 */
module Scheduling {
  import opened Prelude
  import opened SchedulerModel
  import opened SchedulerFacts
  import opened Drain

  /** A request to schedule something, on one thread or on any. */
  datatype Request = Request(work: Work, thread: int)

  /** What an operation of a fiber or of an outside thread asks for. A triggered continuation is for any worker. */
  function AskedBy(m: Mem, op: Op): seq<Request> {
    match op
    case Submit(c, thread) => [Request(Call(c), thread)]
    case Spawn(thread) => [Request(Fib(|m.fibers|), thread)]
    case Share(g, thread) => [Request(Fib(g), thread)]
    case Redeem(g, thread) => [Request(Fib(g), thread)]
    case Cancel(x) => [Request(x, ANY)]
    case _ => []
  }

  /** What an action asks for: also the event loop, the expired timers, and a worker whose fiber has yielded. */
  function Asked(s: State, a: Action): seq<Request> {
    match a
    case Outside(op) => AskedBy(s.m, op)
    case User(_, op) => AskedBy(s.m, op)
    case Fire(_, x) => [Request(x, ANY)]
    case Step(w) =>
      if w >= |s.ws| then []
      else if s.ws[w].pc.IdleBatch? then CallRequests(s.ws[w].pc.cbs)
      else if s.ws[w].pc.Requeue? then [Request(Fib(s.ws[w].pc.f), ANY)]
      else []
    case _ => []
  }

  function CallRequests(cbs: seq<CallbackId>): seq<Request> {
    seq(|cbs|, i requires 0 <= i < |cbs| => Request(Call(cbs[i]), ANY))
  }

  /** The tasks for these requests, with tickets from n on. */
  function Numbered(n: nat, rs: seq<Request>): (r: seq<Task>)
    ensures |r| == |rs| && forall i :: 0 <= i < |rs| ==> r[i] == Task(rs[i].work, rs[i].thread, n + i)
  {
    seq(|rs|, i requires 0 <= i < |rs| => Task(rs[i].work, rs[i].thread, n + i))
  }

  // ---- one action ----------------------------------------------------------------------------

  /** The list grows by the tasks for these requests. */
  ghost predicate Grows(l: TaskList, l1: TaskList, rs: seq<Request>) {
    Added(l, l1) == Numbered(|l.issued|, rs)
  }

  lemma PushGrows(m: Mem, l: TaskList, work: Work, thread: int)
    requires m.tasks == l
    ensures Grows(l, Push(m, work, thread).tasks, [Request(work, thread)])
  {
    assert Added(l, Push(m, work, thread).tasks) == [Task(work, thread, |l.issued|)];
  }

  lemma {:induction false} BatchIsNumbered(n: nat, cbs: seq<CallbackId>)
    ensures Batch(n, cbs) == Numbered(n, CallRequests(cbs))
    decreases |cbs|
  {
    if cbs != [] {
      BatchIsNumbered(n + 1, cbs[1..]);
      assert forall i :: 0 < i < |cbs| ==> cbs[i] == cbs[1..][i - 1];
      assert Batch(n, cbs) == [Task(Call(cbs[0]), ANY, n)] + Batch(n + 1, cbs[1..]);
    }
  }

  lemma SharedGrows(m: Mem, op: Op, m1: Mem)
    requires Shared(m, op) == Some(m1)
    ensures Grows(m.tasks, m1.tasks, AskedBy(m, op))
  {
    match op
    case Submit(c, thread) => PushGrows(m, m.tasks, Call(c), thread);
    case Spawn(thread) => PushGrows(m.(fibers := m.fibers + [INIT]), m.tasks, Fib(|m.fibers|), thread);
    case Share(g, thread) => PushGrows(m, m.tasks, Fib(g), thread);
    case Redeem(g, thread) => PushGrows(m.(held := m.held - multiset{g}), m.tasks, Fib(g), thread);
    case _ => SameListGrows(m.tasks, m1.tasks);
  }

  lemma SameListGrows(l: TaskList, l1: TaskList)
    requires l1.queue == l.queue || |l1.queue| < |l.queue|
    ensures Grows(l, l1, [])
  {
  }

  lemma TriggerGrows(m: Mem, x: Work, m1: Mem)
    requires Trigger(m, x) == Some(m1)
    ensures Grows(m.tasks, m1.tasks, [Request(x, ANY)])
  {
    PushGrows(m.(io := m.io.(slots := m.io.slots - multiset{x})), m.tasks, x, ANY);
  }

  lemma OutsideGrows(m: Mem, op: Op, m1: Mem)
    requires OutsideOp(m, op) == Some(m1)
    ensures Grows(m.tasks, m1.tasks, AskedBy(m, op))
  {
    match op
    case Cancel(x) => TriggerGrows(m, x, Trigger(m, x).value);
    case Settle => SameListGrows(m.tasks, m1.tasks);
    case _ => SharedGrows(m, op, m1);
  }

  lemma UserGrows(me: Worker, m: Mem, op: Op, r: Local)
    requires UserStep(me, m, op) == Some(r)
    ensures Grows(m.tasks, r.1.tasks, AskedBy(m, op))
  {
    if me.pc.owed || OnSelf(op) {
      FiberOpKeepsList(me, m, op, r, Task(Call(0), ANY, 0));
      SameListGrows(m.tasks, r.1.tasks);
    } else if op.Cancel? {
      TriggerGrows(m, op.x, r.1);
    } else {
      SharedGrows(m, op, r.1);
    }
  }

  lemma FinishGrows(me: Worker, m: Mem, r: Local)
    requires FinishStep(me, m) == Some(r)
    ensures Grows(m.tasks, r.1.tasks, if me.pc.Requeue? then [Request(Fib(me.pc.f), ANY)] else [])
  {
    if me.pc.Requeue? {
      PushGrows(m, m.tasks, Fib(me.pc.f), ANY);
    } else {
      FinishKeepsList(me, m, r, Task(Call(0), ANY, 0));
      SameListGrows(m.tasks, r.1.tasks);
    }
  }

  lemma IdleGrows(me: Worker, m: Mem, r: Local)
    requires IdleStep(me, m) == Some(r)
    ensures Grows(m.tasks, r.1.tasks, if me.pc.IdleBatch? then CallRequests(me.pc.cbs) else [])
  {
    if me.pc.IdleBatch? && me.pc.cbs != [] {
      assert r.1 == PushAll(m, me.pc.cbs);
      BatchIsNumbered(|m.tasks.issued|, me.pc.cbs);
      assert Added(m.tasks, r.1.tasks) == Batch(|m.tasks.issued|, me.pc.cbs);
    } else {
      IdleKeepsList(me, m, r, Task(Call(0), ANY, 0));
      SameListGrows(m.tasks, r.1.tasks);
    }
  }

  lemma ScanGrowsNothing(me: Worker, w: nat, m: Mem, r: Local)
    requires ScanStep(me, w, m) == Some(r)
    ensures Grows(m.tasks, r.1.tasks, [])
  {
    SameListGrows(m.tasks, r.1.tasks);
  }

  lemma BeginGrowsNothing(me: Worker, m: Mem, r: Local)
    requires BeginStep(me, m) == Some(r)
    ensures Grows(m.tasks, r.1.tasks, [])
  {
    SameListGrows(m.tasks, r.1.tasks);
  }

  lemma WorkerGrows(me: Worker, w: nat, m: Mem, r: Local)
    requires WorkerStep(me, w, m) == Some(r)
    ensures Grows(m.tasks, r.1.tasks,
                  if me.pc.IdleBatch? then CallRequests(me.pc.cbs)
                  else if me.pc.Requeue? then [Request(Fib(me.pc.f), ANY)]
                  else [])
  {
    match me.pc
    case LoopHead | Scanning(_) | Picked(_) | Empty => ScanGrowsNothing(me, w, m, r);
    case Counted(_) | Dead | Entering(_, _) | Admitted(_, _) => BeginGrowsNothing(me, m, r);
    case Leaving(_, _) | Returned(_, _) | Uncounted(_, _) | Requeue(_, _) | Recheck(_, _)
       | Parking(_, _) | Retire(_) => FinishGrows(me, m, r);
    case _ => IdleGrows(me, m, r);
  }

  /** An action appends the tasks that it asks for, in order, and no others. */
  lemma ActionAddsWhatItAsksFor(s: State, a: Action, s1: State)
    requires Next(s, a) == Some(s1)
    ensures Grows(s.m.tasks, s1.m.tasks, Asked(s, a))
  {
    match a
    case Outside(op) => OutsideGrows(s.m, op, s1.m);
    case StopStep =>
      StopMoves(s, s1);
      SameListGrows(s.m.tasks, s1.m.tasks);
    case Step(w) => WorkerGrows(s.ws[w], w, s.m, (s1.ws[w], s1.m));
    case User(w, op) => UserGrows(s.ws[w], s.m, op, (s1.ws[w], s1.m));
    case Fire(w, x) => TriggerGrows(s.m, x, s1.m);
    case Expire(_, _) => SameListGrows(s.m.tasks, s1.m.tasks);
  }

  // ---- over whole runs -------------------------------------------------------------------------

  /** The requests of a run, in the order in which they are made. */
  function Requests(s: State, run: seq<Action>): seq<Request>
    requires Exec(s, run).Some?
    decreases |run|
  {
    if run == [] then [] else Asked(s, run[0]) + Requests(Next(s, run[0]).value, run[1..])
  }

  /** First these requests, then those. */
  lemma IssuedTwice(i: multiset<Task>, i1: multiset<Task>, i2: multiset<Task>, a: seq<Request>, b: seq<Request>)
    requires i1 == i + multiset(Numbered(|i|, a)) && i2 == i1 + multiset(Numbered(|i1|, b))
    ensures i2 == i + multiset(Numbered(|i|, a + b))
  {
    assert |i1| == |i| + |a|;
    assert Numbered(|i|, a + b) == Numbered(|i|, a) + Numbered(|i| + |a|, b);
  }

  lemma ActionIssuesItsRequests(s: State, a: Action, s1: State)
    requires s.ws != [] && Next(s, a) == Some(s1)
    ensures s1.ws != [] && s1.m.tasks.issued == s.m.tasks.issued + multiset(Numbered(|s.m.tasks.issued|, Asked(s, a)))
  {
    NextMoves(s, a, s1, Task(Call(0), ANY, 0));
    ActionAddsWhatItAsksFor(s, a, s1);
  }

  lemma {:induction false} RunIssuesItsRequests(s: State, run: seq<Action>, s1: State)
    requires s.ws != [] && Exec(s, run) == Some(s1)
    ensures s1.m.tasks.issued == s.m.tasks.issued + multiset(Numbered(|s.m.tasks.issued|, Requests(s, run)))
    decreases |run|
  {
    if run == [] {
      assert multiset(Numbered(|s.m.tasks.issued|, [])) == multiset{};
    } else {
      var m := Next(s, run[0]).value;
      ActionIssuesItsRequests(s, run[0], m);
      RunIssuesItsRequests(m, run[1..], s1);
      IssuedTwice(s.m.tasks.issued, m.m.tasks.issued, s1.m.tasks.issued, Asked(s, run[0]), Requests(m, run[1..]));
    }
  }

  /** The tasks ever pushed are the requests of the run, each once. */
  lemma EverythingAskedForIsPushed(threads: nat, caller: bool, run: seq<Action>, s: State)
    requires threads > 0 && Exec(Init(threads, caller), run) == Some(s)
    ensures s.m.tasks.issued == multiset(Numbered(0, Requests(Init(threads, caller), run)))
  {
    RunIssuesItsRequests(Init(threads, caller), run, s);
  }

  /**
   When `stop` has returned, each callback scheduled for any worker in the course of the run,
   submitted, triggered or expired, has been started, once for each request.
   */
  lemma EveryRequestIsServed(threads: nat, caller: bool, run: seq<Action>, s: State, i: nat)
    requires threads > 0 && Exec(Init(threads, caller), run) == Some(s) && s.stopPc == Stopped
    requires i < |Requests(Init(threads, caller), run)| && Requests(Init(threads, caller), run)[i].thread == ANY
    ensures var r := Requests(Init(threads, caller), run)[i];
      var t := Task(r.work, ANY, i);
      && s.m.tasks.started[t] + s.m.tasks.dropped[t] == 1
      && (r.work.Call? ==> s.m.tasks.started[t] == 1)
  {
    EverythingAskedForIsPushed(threads, caller, run, s);
    var ts := Numbered(0, Requests(Init(threads, caller), run));
    assert ts[i] in multiset(ts);
    StopRunsEverything(threads, caller, run, s, ts[i]);
  }
}
