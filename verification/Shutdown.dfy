/**
 Shutdown: once the scheduler is quiescent it stays so, and every run from there ends, after
 a number of steps known in advance, with `stop` having returned.
 */
module Shutdown {
  import opened Prelude
  import opened SchedulerModel
  import opened SchedulerFacts
  import opened Drain
  import opened SingleExecution

  /** The worker holds no work: no task, no fiber, no listed timer, no half-counted event. */
  predicate EmptyHanded(pc: Pc) {
    match pc
    case LoopHead | Empty | IdleEntering | IdleTimers | IdleTasks | IdlePending | IdlePoll | IdleExpire => true
    case IdleReturned | IdleDiscounted | Exited | NotStarted => true
    case Scanning(i) => i == 0
    case IdleBatch(cbs) => cbs == []
    case IdleEvents(owed) => !owed
    case _ => false
  }

  /** Both flags set, nothing queued, counted, pending or timed, and nothing in flight. */
  ghost predicate Quiet(s: State) {
    && !s.m.crashed
    && s.m.autoStop && s.m.stopping
    && s.m.tasks.queue == [] && s.m.active == 0
    && s.m.io == NO_IO
    && (forall w :: 0 <= w < |s.ws| ==> EmptyHanded(s.ws[w].pc))
  }

  /** What every reachable state has, and the argument below needs. */
  ghost predicate InStep(s: State) {
    && s.ws != []
    && LockHeld(s) && StopWaits(s)
    && (forall w :: 0 <= w < |s.ws| ==> IdleFits(s.ws[w]))
    && (s.m.autoStop ==> s.stopPc != NotStopping)
    && (s.stopPc.Check? ==> s.stopPc.stage <= 2 && s.caller)
    && (forall w :: 0 <= w < |s.ws| && s.ws[w].pc == NotStarted
          ==> w == 0 && s.caller && s.stopPc != Joining && s.stopPc != Stopped)
  }

  ghost predicate Quiescent(s: State) {
    Quiet(s) && InStep(s)
  }

  lemma StepKeepsInStep(s: State, a: Action, s1: State)
    requires InStep(s) && Next(s, a) == Some(s1)
    ensures InStep(s1)
  {
    StepKeepsLock(s, a, s1);
    StepKeepsStopWaits(s, a, s1);
    match a
    case Outside(op) => OutsideYields(s.m, op, s1.m, 0);
    case StopStep => StopStaysInStep(s, s1);
    case _ =>
      IdleStaysFit(s.ws[a.w], s.m, a, (s1.ws[a.w], s1.m));
      LocalNextYields(s.ws[a.w], s.m, a, (s1.ws[a.w], s1.m), 0);
      LocalStaysInStep(s, a.w, s1.ws[a.w], s1.m);
  }

  lemma StopStaysInStep(s: State, s1: State)
    requires InStep(s) && Next(s, StopStep) == Some(s1) && LockHeld(s1) && StopWaits(s1)
    ensures InStep(s1)
  {
    StopMoves(s, s1);
  }

  lemma LocalStaysInStep(s: State, w: nat, me1: Worker, m1: Mem)
    requires InStep(s) && w < |s.ws| && Yields(s.ws[w], s.m, me1, m1) && IdleFits(me1)
    requires var s1 := s.(ws := s.ws[w := me1], m := m1); LockHeld(s1) && StopWaits(s1)
    ensures InStep(s.(ws := s.ws[w := me1], m := m1))
  {
  }

  lemma {:induction false} RunKeepsInStep(s: State, run: seq<Action>, s1: State)
    requires InStep(s) && Exec(s, run) == Some(s1)
    ensures InStep(s1)
    decreases |run|
  {
    if run != [] {
      StepKeepsInStep(s, run[0], Next(s, run[0]).value);
      RunKeepsInStep(Next(s, run[0]).value, run[1..], s1);
    }
  }

  // ---- the distance to the end -----------------------------------------------------------

  /** How many more steps the worker can take when nothing arrives. */
  function Distance(me: Worker): nat {
    if me.idle == TERM then
      match me.pc
      case Exited => 0
      case Empty => 1
      case Scanning(_) => 2
      case LoopHead => 3
      case IdleDiscounted => 4
      case IdleReturned => 5
      case _ => 20
    else
      match me.pc
      case Exited => 0
      case IdlePending => 6
      case IdleTasks => 7
      case IdleTimers => 8
      case IdleEntering => 9
      case Empty => 10
      case Scanning(_) => 11
      case LoopHead => 12
      case IdleDiscounted => 13
      case IdleReturned => 14
      case IdleEvents(_) => 15
      case IdleBatch(_) => 16
      case IdleExpire => 17
      case IdlePoll => 18
      case _ => 19
  }

  function StopDistance(pc: StopPc): nat {
    match pc
    case NotStopping => 8
    case AutoSet => 7
    case Check(stage, early) => if early then (if stage == 0 then 6 else if stage == 1 then 5 else 4)
                                else (if stage == 0 then 4 else if stage == 1 then 3 else 2)
    case FlagSetting => 5
    case Joining => 1
    case Stopped => 0
  }

  function TotalDistance(s: State): nat {
    Sum(Distance, s.ws) + StopDistance(s.stopPc)
  }

  /** What a worker finds in a quiescent state. */
  predicate NothingToDo(me: Worker, m: Mem) {
    && EmptyHanded(me.pc) && IdleFits(me) && !m.crashed
    && m.autoStop && m.stopping && m.tasks.queue == [] && m.active == 0
    && m.io == NO_IO
  }

  /** Still nothing, and strictly nearer the end. */
  predicate Nearer(me: Worker, m: Mem, r: Local) {
    && EmptyHanded(r.0.pc) && IdleFits(r.0)
    && r.1 == m.(tasks := m.tasks.(lock := r.1.tasks.lock), idling := r.1.idling)
    && Distance(r.0) < Distance(me)
    && me.pc != NotStarted && r.0.pc != NotStarted
  }

  lemma ScanComesNearer(me: Worker, w: nat, m: Mem, r: Local)
    requires ScanStep(me, w, m) == Some(r) && NothingToDo(me, m)
    ensures Nearer(me, m, r)
  {
  }

  lemma IdleComesNearer(me: Worker, m: Mem, r: Local)
    requires IdleStep(me, m) == Some(r) && NothingToDo(me, m)
    ensures Nearer(me, m, r)
  {
  }

  lemma ExpireComesNearer(me: Worker, m: Mem, due: seq<TimerEntry>, r: Local)
    requires ExpireStep(me, m, due) == Some(r) && NothingToDo(me, m)
    ensures Nearer(me, m, r)
  {
    assert |multiset(due)| == |due|;
    assert due == [];
    assert m.io.timers - multiset(due) + Recurring(due) == multiset{};
  }

  /** A worker's own steps in a quiescent state. */
  lemma WorkerComesNearer(me: Worker, m: Mem, a: Action, r: Local)
    requires !a.Outside? && !a.StopStep? && LocalNext(me, m, a) == Some(r) && NothingToDo(me, m)
    ensures Nearer(me, m, r)
  {
    match a
    case Expire(_, due) => ExpireComesNearer(me, m, due, r);
    case Fire(_, _) | User(_, _) =>
    case Step(w) =>
      if me.pc.LoopHead? || me.pc.Scanning? || me.pc.Empty? {
        ScanComesNearer(me, w, m, r);
      } else {
        IdleComesNearer(me, m, r);
      }
  }

  lemma StopComesNearer(s: State, s1: State)
    requires Quiescent(s) && Next(s, StopStep) == Some(s1)
    ensures Quiescent(s1) && StopDistance(s1.stopPc) < StopDistance(s.stopPc)
    ensures s1.ws == s.ws[0 := s1.ws[0]] && Distance(s1.ws[0]) <= Distance(s.ws[0])
  {
    StopMoves(s, s1);
    StepKeepsInStep(s, StopStep, s1);
    StopKeepsQuiet(s, s1);
  }

  lemma StopKeepsQuiet(s: State, s1: State)
    requires Quiet(s) && StopMove(s, s1) && s1.m == s.m
    ensures Quiet(s1)
  {
  }

  lemma LocalIsStable(s: State, w: nat, r: Local)
    requires Quiescent(s) && w < |s.ws| && Nearer(s.ws[w], s.m, r)
    requires LockHeld(s.(ws := s.ws[w := r.0], m := r.1))
    ensures var s1 := s.(ws := s.ws[w := r.0], m := r.1);
      Quiescent(s1) && TotalDistance(s1) < TotalDistance(s)
  {
    SumUpdate(Distance, s.ws, w, r.0);
  }

  /** Quiescence is stable, and every action uses up distance. */
  lemma QuiescenceIsStable(s: State, a: Action, s1: State)
    requires Quiescent(s) && Next(s, a) == Some(s1)
    ensures Quiescent(s1) && TotalDistance(s1) < TotalDistance(s)
  {
    match a
    case Outside(_) | Fire(_, _) | User(_, _) =>
    case StopStep =>
      StopComesNearer(s, s1);
      SumUpdate(Distance, s.ws, 0, s1.ws[0]);
    case Step(w) =>
      StepKeepsLock(s, a, s1);
      WorkerComesNearer(s.ws[w], s.m, a, (s1.ws[w], s1.m));
      LocalIsStable(s, w, (s1.ws[w], s1.m));
    case Expire(w, _) =>
      StepKeepsLock(s, a, s1);
      WorkerComesNearer(s.ws[w], s.m, a, (s1.ws[w], s1.m));
      LocalIsStable(s, w, (s1.ws[w], s1.m));
  }

  /** No deadlock: until `stop` has returned, somebody can move. */
  lemma QuiescentCanMove(s: State) returns (a: Action)
    requires Quiescent(s) && s.stopPc != Stopped
    ensures Next(s, a).Some?
  {
    if s.m.tasks.lock.Some? {
      a := Step(s.m.tasks.lock.value);
    } else if s.stopPc != Joining || forall w :: 0 <= w < |s.ws| ==> s.ws[w].pc == Exited {
      a := StopStep;
    } else {
      var w :| 0 <= w < |s.ws| && s.ws[w].pc != Exited;
      a := if s.ws[w].pc == IdleExpire then Expire(w, []) else Step(w);
    }
  }

  lemma {:induction false} QuiescentRunsEnd(s: State, run: seq<Action>, s1: State)
    requires Quiescent(s) && Exec(s, run) == Some(s1)
    ensures Quiescent(s1) && |run| + TotalDistance(s1) <= TotalDistance(s)
    ensures (forall a :: Next(s1, a) == None) ==> s1.stopPc == Stopped
    decreases |run|
  {
    if run == [] {
      if s.stopPc != Stopped {
        var a := QuiescentCanMove(s);
      }
    } else {
      QuiescenceIsStable(s, run[0], Next(s, run[0]).value);
      QuiescentRunsEnd(Next(s, run[0]).value, run[1..], s1);
    }
  }

  /**
   Shutdown ends: from any reachable quiet state no run is longer than the total distance,
   nothing ever appears again, and a run that cannot be continued has brought `stop` to its
   return with every worker out.
   */
  lemma ShutdownEnds(threads: nat, caller: bool, run: seq<Action>, s: State, more: seq<Action>, s1: State)
    requires threads > 0 && Exec(Init(threads, caller), run) == Some(s) && Quiet(s)
    requires Exec(s, more) == Some(s1)
    ensures Quiet(s1) && |more| <= TotalDistance(s)
    ensures (forall a :: Next(s1, a) == None) ==> s1.stopPc == Stopped && AllExited(s1)
  {
    InitLedger(threads, caller);
    RunKeepsInStep(Init(threads, caller), run, s);
    QuiescentRunsEnd(s, more, s1);
  }
}
