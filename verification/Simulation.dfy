/**
 Whole runs of the detailed models together: a system whose timers are the timer set and whose
 events are the event table, and whose threads do everything else as in the transition system.
 Every such run is a run of the transition system, so all theorems about it carry over.
 */
module Simulation {
  import opened Prelude
  import M = SchedulerModel
  import E = EventTable
  import EF = EventFacts
  import T = TimerSpec
  import TF = TimerFacts
  import L = Levels
  import D = Drain

  datatype Joint = Joint(s: M.State, t: E.Table, tm: T.Timers)

  /** Who makes a call: the fiber on worker w, its event loop, or a thread that is not a worker. */
  datatype Caller = Fiber(w: nat) | Loop(w: nat) | Outsider

  datatype Op =
    | Plain(act: M.Action)                                 // anything that leaves timers and events alone
    | Events(who: Caller, op: E.Op)
    | Arm(who: Caller, a: T.Addr, ms: nat, cb: T.Callback, recurring: bool, start: nat)
    | Disarm(who: Caller, a: T.Addr)
    | Retime(a: T.Addr, ms: nat, fromNow: bool, now: nat)
    | Renew(a: T.Addr, now: nat)
    | Expiry(w: nat, now: nat)

  /** The memory shows the table and the timer set. */
  ghost predicate Agrees(j: Joint) {
    && E.Booked(j.t) && T.Valid(j.tm)
    && L.Shows(j.s.m, j.t) && L.ShowsTimers(j.s.m, j.tm)
  }

  /** The caller is where it can make a call; other threads only before `stop` has begun. */
  predicate May(s: M.State, who: Caller) {
    && !s.m.crashed
    && match who
       case Fiber(w) => w < |s.ws| && s.ws[w].pc.Inside? && !s.ws[w].pc.owed
       case Loop(w) => w < |s.ws| && s.ws[w].pc == M.IdleEvents(false)
       case Outsider => !s.m.autoStop
  }

  /** The caller does something to the scheduler. */
  function By(who: Caller, op: M.Op): M.Action
    requires !who.Loop?
  {
    if who.Fiber? then M.User(who.w, op) else M.Outside(op)
  }

  /** Each operation is made by a thread that may make it. Those that schedule need the lock of the list. */
  ghost predicate Ready(j: Joint, op: Op)
    requires Agrees(j)
  {
    match op
    case Plain(a) => M.Next(j.s, a).Some? && M.Next(j.s, a).value.m.io == j.s.m.io
    case Events(who, e) =>
      && May(j.s, who) && (who.Loop? <==> e.Poll?)
      && M.Free(j.s.m) && E.Enabled(j.t, e) && E.Do(j.t, e).1 != E.Abort
      && (e.Add? && e.cb.None? ==> who.Fiber? && e.fiber == j.s.ws[who.w].pc.f && M.FiberOf(j.s.m, e.fiber) == M.EXEC)
    case Arm(who, a, _, _, _, _) => May(j.s, who) && !who.Loop? && a !in j.tm.heap
    case Disarm(who, a) => May(j.s, who) && !who.Loop? && T.Live(j.tm.heap, a)
    case Retime(a, _, _, _) => a in j.tm.heap
    case Renew(a, _) => a in j.tm.heap
    case Expiry(w, _) => !j.s.m.crashed && w < |j.s.ws| && j.s.ws[w].pc == M.IdleExpire
  }

  /** A trigger and its decrement. */
  function TriggerBy(who: Caller, x: M.Work): seq<M.Action> {
    match who
    case Fiber(w) => [M.User(w, M.Cancel(x)), M.User(w, M.Settle)]
    case Loop(w) => [M.Fire(w, x), M.Step(w)]
    case Outsider => [M.Outside(M.Cancel(x)), M.Outside(M.Settle)]
  }

  /** The actions that trigger these tasks, one after another. */
  function Triggers(who: Caller, ts: seq<E.Task>): seq<M.Action> {
    if ts == [] then [] else TriggerBy(who, L.WorkOf(ts[0].what)) + Triggers(who, ts[1..])
  }

  function EventActions(j: Joint, who: Caller, e: E.Op): seq<M.Action>
    requires E.Enabled(j.t, e) && (who.Loop? <==> e.Poll?)
  {
    match e
    case Add(_, _, _, _, cb, _) =>
      if E.Do(j.t, e).1 != E.Yes then []
      else [By(who, if cb.Some? then M.Watch(cb.value) else M.WatchSelf)]
    case Del(fd, event, _) =>
      if E.Do(j.t, e).1 != E.Yes then []
      else
        assert E.Fits(j.t.contexts[fd], fd);
        [By(who, M.Delete(L.WorkOf(E.TaskOf(E.SlotOf(j.t.contexts[fd], event)).what)))]
    case _ => Triggers(who, L.Newly(j.t, E.Do(j.t, e).0))
  }

  /** What an operation is for the transition system. */
  ghost function Actions(j: Joint, op: Op): seq<M.Action>
    requires Agrees(j) && Ready(j, op)
  {
    match op
    case Plain(a) => [a]
    case Events(who, e) => EventActions(j, who, e)
    case Arm(who, _, _, cb, recurring, _) => [By(who, M.AddTimer(M.TimerEntry(cb, recurring)))]
    case Disarm(who, a) => [By(who, M.DropTimer(L.Entry(j.tm.heap[a])))]
    case Retime(_, _, _, _) => []
    case Renew(_, _) => []
    case Expiry(w, now) =>
      TF.ExpiredFacts(j.tm, now);
      [M.Expire(w, L.Entries(j.tm.heap, T.Expired(j.tm, now)))]
  }

  /** What it does to the table and to the timer set. */
  ghost function TableAfter(j: Joint, op: Op): E.Table
    requires Agrees(j) && Ready(j, op)
  {
    if op.Events? then E.Do(j.t, op.op).0 else j.t
  }

  ghost function TimersAfter(j: Joint, op: Op): T.Timers
    requires Agrees(j) && Ready(j, op)
  {
    match op
    case Arm(_, a, ms, cb, recurring, start) => T.Add(j.tm, a, ms, Some(cb), recurring, start)
    case Disarm(_, a) => T.Cancel(j.tm, a).0
    case Retime(a, ms, fromNow, now) => T.Reset(j.tm, a, ms, fromNow, now).0
    case Renew(a, now) => T.Refresh(j.tm, a, now).0
    case Expiry(_, now) => T.Expire(j.tm, now)
    case _ => j.tm
  }

  // ---- one operation -----------------------------------------------------------------------------

  lemma OneAction(s: M.State, a: M.Action)
    ensures M.Exec(s, [a]) == M.Next(s, a)
  {
    assert [a][1..] == [];
  }

  lemma TwoActions(s: M.State, a: M.Action, b: M.Action, rest: seq<M.Action>)
    requires M.Next(s, a).Some? && M.Next(M.Next(s, a).value, b).Some?
    ensures M.Exec(s, [a, b] + rest) == M.Exec(M.Next(M.Next(s, a).value, b).value, rest)
  {
    assert ([a, b] + rest)[1..] == [b] + rest && ([b] + rest)[1..] == rest;
  }

  /** After a trigger and its decrement the caller is where it was. */
  ghost predicate ComesBack(s: M.State, who: Caller, x: M.Work)
    requires M.Trigger(s.m, x).Some?
  {
    var s1 := M.Next(s, TriggerBy(who, x)[0]);
    s1.Some? && M.Next(s1.value, TriggerBy(who, x)[1]) == Some(s.(m := M.Settled(M.Trigger(s.m, x).value)))
  }

  lemma FiberComesBack(s: M.State, w: nat, x: M.Work)
    requires May(s, Fiber(w)) && M.Trigger(s.m, x).Some?
    ensures ComesBack(s, Fiber(w), x)
  {
    var s1 := s.(ws := s.ws[w := s.ws[w].(pc := s.ws[w].pc.(owed := true))], m := M.Trigger(s.m, x).value);
    assert M.Next(s, M.User(w, M.Cancel(x))) == Some(s1) && s1.ws[w := s.ws[w]] == s.ws;
  }

  lemma LoopComesBack(s: M.State, w: nat, x: M.Work)
    requires May(s, Loop(w)) && M.Trigger(s.m, x).Some?
    ensures ComesBack(s, Loop(w), x)
  {
    var s1 := s.(ws := s.ws[w := s.ws[w].(pc := M.IdleEvents(true))], m := M.Trigger(s.m, x).value);
    assert M.Next(s, M.Fire(w, x)) == Some(s1) && s1.ws[w := s.ws[w]] == s.ws;
  }

  lemma OutsiderComesBack(s: M.State, x: M.Work)
    requires May(s, Outsider) && M.Trigger(s.m, x).Some?
    ensures ComesBack(s, Outsider, x)
  {
    var m1 := M.Trigger(s.m, x).value;
    assert M.Next(s, M.Outside(M.Cancel(x))) == Some(s.(m := m1.(io := m1.io.(owing := s.m.io.owing + 1))));
  }

  lemma TriggerAndSettle(s: M.State, who: Caller, x: M.Work, rest: seq<M.Action>)
    requires May(s, who) && M.Trigger(s.m, x).Some?
    ensures M.Exec(s, TriggerBy(who, x) + rest) == M.Exec(s.(m := M.Settled(M.Trigger(s.m, x).value)), rest)
  {
    match who {
      case Fiber(w) => FiberComesBack(s, w, x);
      case Loop(w) => LoopComesBack(s, w, x);
      case Outsider => OutsiderComesBack(s, x);
    }
    var both := TriggerBy(who, x);
    assert both == [both[0], both[1]];
    TwoActions(s, both[0], both[1], rest);
  }

  lemma {:induction false} TriggersReplay(s: M.State, who: Caller, ts: seq<E.Task>)
    requires May(s, who) && L.Replay(s.m, ts).Some?
    ensures M.Exec(s, Triggers(who, ts)) == Some(s.(m := L.Replay(s.m, ts).value))
    decreases |ts|
  {
    if ts != [] {
      var x := L.WorkOf(ts[0].what);
      TriggerAndSettle(s, who, x, Triggers(who, ts[1..]));
      TriggersReplay(s.(m := M.Settled(M.Trigger(s.m, x).value)), who, ts[1..]);
    }
  }

  /** Replaying changes neither timers nor fibers. */
  lemma {:induction false} ReplayKeepsTimers(m: M.Mem, ts: seq<E.Task>)
    requires L.Replay(m, ts).Some?
    ensures L.Replay(m, ts).value.io.timers == m.io.timers
    decreases |ts|
  {
    if ts != [] {
      ReplayKeepsTimers(M.Settled(M.Trigger(m, L.WorkOf(ts[0].what)).value), ts[1..]);
    }
  }

  lemma TriggeringSimulates(j: Joint, who: Caller, e: E.Op)
    requires Agrees(j) && Ready(j, Events(who, e)) && (e.Cancel? || e.All? || e.Poll?)
    ensures Simulates(j, Events(who, e))
  {
    L.TriggersAreReplayed(j.s.m, j.t, e);
    var ts := L.Newly(j.t, E.Do(j.t, e).0);
    TriggersReplay(j.s, who, ts);
    ReplayKeepsTimers(j.s.m, ts);
    EF.DoKeepsBooked(j.t, e);
  }

  /** The calls that do not concern the running fiber. */
  predicate Impersonal(op: M.Op) {
    op.Watch? || op.Delete? || op.AddTimer? || op.DropTimer?
  }

  lemma FiberCalls(s: M.State, w: nat, op: M.Op, m1: M.Mem)
    requires May(s, Fiber(w)) && Impersonal(op) && M.Shared(s.m, op) == Some(m1)
    ensures M.Next(s, M.User(w, op)) == Some(s.(m := m1))
  {
    assert M.UserStep(s.ws[w], s.m, op) == Some((s.ws[w], m1));
    assert s.ws[w := s.ws[w]] == s.ws;
  }

  /** Such a call changes the memory only. */
  lemma CallIsOneAction(s: M.State, who: Caller, op: M.Op, m1: M.Mem)
    requires May(s, who) && !who.Loop? && Impersonal(op) && M.Shared(s.m, op) == Some(m1)
    ensures M.Exec(s, [By(who, op)]) == Some(s.(m := m1))
  {
    OneAction(s, By(who, op));
    if who.Fiber? {
      FiberCalls(s, who.w, op, m1);
    } else {
      assert M.OutsideOp(s.m, op) == Some(m1);
    }
  }

  lemma WatchSelfIsOneAction(s: M.State, w: nat)
    requires May(s, Fiber(w)) && M.FiberOf(s.m, s.ws[w].pc.f) == M.EXEC
    ensures var r := M.Exec(s, [M.User(w, M.WatchSelf)]);
      r.Some? && r.value.m == M.AddSlot(s.m, M.Fib(s.ws[w].pc.f))
  {
    OneAction(s, M.User(w, M.WatchSelf));
  }

  lemma AddSimulates(j: Joint, who: Caller, e: E.Op)
    requires Agrees(j) && Ready(j, Events(who, e)) && e.Add?
    ensures Simulates(j, Events(who, e))
  {
    L.AddIsAddSlot(j.s.m, j.t, e);
    EF.DoKeepsBooked(j.t, e);
    if E.Do(j.t, e).1 == E.Yes {
      if e.cb.Some? {
        CallIsOneAction(j.s, who, M.Watch(e.cb.value), M.AddSlot(j.s.m, M.Call(e.cb.value)));
      } else {
        WatchSelfIsOneAction(j.s, who.w);
      }
    }
  }

  lemma DelSimulates(j: Joint, who: Caller, e: E.Op)
    requires Agrees(j) && Ready(j, Events(who, e)) && e.Del?
    ensures Simulates(j, Events(who, e))
  {
    EF.DoKeepsBooked(j.t, e);
    if E.Do(j.t, e).1 == E.Yes {
      L.DelIsDelete(j.s.m, j.t, e);
      var op := M.Delete(L.WorkOf(E.TaskOf(E.SlotOf(j.t.contexts[e.fd], e.event)).what));
      CallIsOneAction(j.s, who, op, M.Shared(j.s.m, op).value);
    }
  }

  /** The actions are enabled, and afterwards the memory shows what the operation made. */
  ghost predicate Simulates(j: Joint, op: Op)
    requires Agrees(j) && Ready(j, op)
  {
    var r := M.Exec(j.s, Actions(j, op));
    r.Some? && Agrees(Joint(r.value, TableAfter(j, op), TimersAfter(j, op)))
  }

  lemma ArmSimulates(j: Joint, op: Op)
    requires Agrees(j) && Ready(j, op) && op.Arm?
    ensures Simulates(j, op)
  {
    L.AddIsAddTimer(j.s.m, j.tm, op.a, op.ms, op.cb, op.recurring, op.start);
    var add := M.AddTimer(M.TimerEntry(op.cb, op.recurring));
    CallIsOneAction(j.s, op.who, add, M.Shared(j.s.m, add).value);
  }

  lemma DisarmSimulates(j: Joint, op: Op)
    requires Agrees(j) && Ready(j, op) && op.Disarm?
    ensures Simulates(j, op)
  {
    L.CancelIsDropTimer(j.s.m, j.tm, op.a);
    var drop := M.DropTimer(L.Entry(j.tm.heap[op.a]));
    CallIsOneAction(j.s, op.who, drop, M.Shared(j.s.m, drop).value);
  }

  lemma TimerOpSimulates(j: Joint, op: Op)
    requires Agrees(j) && Ready(j, op) && (op.Arm? || op.Disarm? || op.Retime? || op.Renew?)
    ensures Simulates(j, op)
  {
    match op
    case Arm(_, _, _, _, _, _) => ArmSimulates(j, op);
    case Disarm(_, _) => DisarmSimulates(j, op);
    case Retime(a, ms, fromNow, now) => L.RetimingIsInvisible(j.s.m, j.tm, a, ms, fromNow, now);
    case Renew(a, now) => L.RetimingIsInvisible(j.s.m, j.tm, a, 0, false, now);
  }

  lemma ExpirySimulates(j: Joint, w: nat, now: nat)
    requires Agrees(j) && Ready(j, Expiry(w, now))
    ensures Simulates(j, Expiry(w, now))
  {
    TF.ExpiredFacts(j.tm, now);
    TF.ExpiryIsExact(j.tm, now);
    var due := L.Entries(j.tm.heap, T.Expired(j.tm, now));
    L.ExpiryIsExpireStep(j.s.ws[w], j.s.m, j.tm, now);
    ExpireLeavesEvents(j.s, w, due, j.t);
    OneAction(j.s, M.Expire(w, due));
  }

  lemma ExpireLeavesEvents(s: M.State, w: nat, due: seq<M.TimerEntry>, t: E.Table)
    requires !s.m.crashed && w < |s.ws| && M.ExpireStep(s.ws[w], s.m, due).Some? && L.Shows(s.m, t)
    ensures var r := M.Next(s, M.Expire(w, due));
      r.Some? && r.value.m == M.ExpireStep(s.ws[w], s.m, due).value.1 && L.Shows(r.value.m, t)
  {
  }

  lemma OpSimulates(j: Joint, op: Op)
    requires Agrees(j) && Ready(j, op)
    ensures Simulates(j, op)
  {
    match op
    case Plain(a) => OneAction(j.s, a);
    case Events(who, e) =>
      if e.Add? { AddSimulates(j, who, e); } else if e.Del? { DelSimulates(j, who, e); } else { TriggeringSimulates(j, who, e); }
    case Expiry(w, now) => ExpirySimulates(j, w, now);
    case _ => TimerOpSimulates(j, op);
  }

  // ---- runs --------------------------------------------------------------------------------------

  /** One operation of the joint system. */
  ghost function After(j: Joint, op: Op): (r: Joint)
    requires Agrees(j) && Ready(j, op)
    ensures Agrees(r)
  {
    OpSimulates(j, op);
    Joint(M.Exec(j.s, Actions(j, op)).value, TableAfter(j, op), TimersAfter(j, op))
  }

  ghost predicate Runs(j: Joint, ops: seq<Op>)
    requires Agrees(j)
    decreases |ops|
  {
    ops == [] || (Ready(j, ops[0]) && Runs(After(j, ops[0]), ops[1..]))
  }

  ghost function Final(j: Joint, ops: seq<Op>): (r: Joint)
    requires Agrees(j) && Runs(j, ops)
    ensures Agrees(r)
    decreases |ops|
  {
    if ops == [] then j else Final(After(j, ops[0]), ops[1..])
  }

  /** Every run of the joint system is a run of the transition system, with the same timers and events at its end. */
  lemma {:induction false} JointRunsAreRuns(j: Joint, ops: seq<Op>) returns (run: seq<M.Action>)
    requires Agrees(j) && Runs(j, ops)
    ensures M.Exec(j.s, run) == Some(Final(j, ops).s)
    decreases |ops|
  {
    if ops == [] {
      run := [];
    } else {
      OpSimulates(j, ops[0]);
      var rest := JointRunsAreRuns(After(j, ops[0]), ops[1..]);
      run := Actions(j, ops[0]) + rest;
      M.ExecConcat(j.s, Actions(j, ops[0]), rest);
    }
  }

  lemma FreshTableHoldsNothing(t: E.Table)
    requires |t.contexts| >= 32 && t.pending == 0 && forall i :: 0 <= i < |t.contexts| ==> t.contexts[i] == E.Fresh(i)
    ensures E.Booked(t) && forall x :: L.Held(t, x) == 0
  {
    SumZero(E.Bits, t.contexts);
    forall x ensures L.Held(t, x) == 0 {
      SumZero(L.InContext(x), t.contexts);
    }
  }

  lemma NoTimersShowNothing(m: M.Mem, tm: T.Timers)
    requires m.io.timers == multiset{} && tm.heap == map[] && tm.order == []
    ensures T.Valid(tm) && L.ShowsTimers(m, tm)
  {
  }

  lemma NoEventsShowNothing(m: M.Mem, t: E.Table)
    requires m.io.slots == multiset{} && m.io.pending == 0 && t == E.Init()
    ensures E.Booked(t) && L.Shows(m, t)
  {
    FreshTableHoldsNothing(t);
  }

  /** A scheduler that starts with no timer and no event. */
  ghost function Start(threads: nat, caller: bool, now: nat): (j: Joint)
    ensures Agrees(j)
  {
    var j := Joint(M.Init(threads, caller), E.Init(), T.Timers(map[], [], false, now));
    NoEventsShowNothing(j.s.m, j.t);
    NoTimersShowNothing(j.s.m, j.tm);
    j
  }

  /** For instance the drain theorem, with real timers and a real event table. */
  lemma NothingUnpinnedIsStranded(threads: nat, caller: bool, now: nat, ops: seq<Op>)
    requires threads > 0 && Runs(Start(threads, caller, now), ops)
    requires D.AllExited(Final(Start(threads, caller, now), ops).s)
    ensures var q := Final(Start(threads, caller, now), ops).s.m.tasks.queue;
      forall i :: 0 <= i < |q| ==> q[i].thread != M.ANY
  {
    var run := JointRunsAreRuns(Start(threads, caller, now), ops);
    D.NoUnpinnedTaskIsStranded(threads, caller, run, Final(Start(threads, caller, now), ops).s);
  }
}
