/**
 Fairness of the task list: a callback cannot be overtaken by more dequeues than there were
 tasks before it, whatever the interleaving and however much is scheduled meanwhile. For an
 unpinned callback all dequeues count, for a pinned one those of its worker, which takes it.
 */
module Bypass {
  import opened Prelude
  import opened SchedulerModel
  import opened SchedulerFacts

  /** A callback that worker w may take at any time. */
  predicate Meant(t: Task, w: nat) {
    t.work.Call? && (t.thread == ANY || t.thread == w)
  }

  /** Every worker may take it, or at least the worker `whose`. */
  predicate Ripe(t: Task, whose: Option<nat>) {
    t.work.Call? && (t.thread == ANY || (whose.Some? && t.thread == whose.value))
  }

  /** A running scan has passed only tasks that it had to pass. */
  ghost predicate NoneSkipped(s: State) {
    forall w, j :: 0 <= w < |s.ws| && s.ws[w].pc.Scanning? && 0 <= j < s.ws[w].pc.i && j < |s.m.tasks.queue|
      ==> !Meant(s.m.tasks.queue[j], w)
  }

  ghost predicate Orderly(s: State) {
    s.ws != [] && LockHeld(s) && NoneSkipped(s)
  }

  /** This action takes a task off the list. */
  predicate Dequeues(s: State, a: Action, s1: State) {
    a.Step? && a.w < |s.ws| && a.w < |s1.ws| && s.ws[a.w].pc.Scanning? && s1.ws[a.w].pc.Picked?
  }

  /** What an action does to the list: it erases the scanned element, or appends. */
  lemma ListChange(s: State, a: Action, s1: State)
    requires s.ws != [] && Next(s, a) == Some(s1) && !s.m.crashed
    ensures Dequeues(s, a, s1) ==> var i, q := s.ws[a.w].pc.i, s.m.tasks.queue;
      && i < |q| && s1.m.tasks.queue == Without(q, i)
      && s1.ws[a.w].pc.t == q[i] && (q[i].thread == ANY || q[i].thread == a.w)
    ensures !Dequeues(s, a, s1) ==> s1.m.tasks.queue == s.m.tasks.queue + Added(s.m.tasks, s1.m.tasks)
  {
    if Dequeues(s, a, s1) {
      ScanTakes(s.ws[a.w], a.w, s.m, (s1.ws[a.w], s1.m));
    } else {
      NextMoves(s, a, s1, Task(Call(0), ANY, 0));
      NotDequeuedStays(s, a, s1);
    }
  }

  lemma ScanTakes(me: Worker, w: nat, m: Mem, r: Local)
    requires ScanStep(me, w, m) == Some(r) && me.pc.Scanning? && r.0.pc.Picked?
    ensures var i, q := me.pc.i, m.tasks.queue;
      && i < |q| && r.1.tasks.queue == Without(q, i)
      && r.0.pc.t == q[i] && (q[i].thread == ANY || q[i].thread == w)
  {
  }

  lemma NotDequeuedStays(s: State, a: Action, s1: State)
    requires Next(s, a) == Some(s1) && !Dequeues(s, a, s1)
    ensures Added(s.m.tasks, s1.m.tasks) == [] ==> s1.m.tasks.queue == s.m.tasks.queue
  {
    match a
    case Step(w) => StepStays(s.ws[w], w, s.m, (s1.ws[w], s1.m));
    case User(w, op) => UserStays(s.ws[w], s.m, op, (s1.ws[w], s1.m));
    case Outside(op) => OutsideStays(s.m, op, s1.m);
    case _ =>
  }

  lemma StepStays(me: Worker, w: nat, m: Mem, r: Local)
    requires WorkerStep(me, w, m) == Some(r)
    requires !(me.pc.Scanning? && r.0.pc.Picked?)
    ensures Added(m.tasks, r.1.tasks) == [] ==> r.1.tasks.queue == m.tasks.queue
  {
  }

  lemma OutsideStays(m: Mem, op: Op, m1: Mem)
    requires OutsideOp(m, op) == Some(m1)
    ensures Added(m.tasks, m1.tasks) == [] ==> m1.tasks.queue == m.tasks.queue
  {
  }

  lemma UserStays(me: Worker, m: Mem, op: Op, r: Local)
    requires UserStep(me, m, op) == Some(r)
    ensures Added(m.tasks, r.1.tasks) == [] ==> r.1.tasks.queue == m.tasks.queue
  {
  }

  lemma StepKeepsOrderly(s: State, a: Action, s1: State)
    requires Orderly(s) && Next(s, a) == Some(s1)
    ensures Orderly(s1)
  {
    StepKeepsLock(s, a, s1);
    if a.Outside? {
      OutsideSkipsNone(s, a.op, s1);
    } else if a.StopStep? {
      StopMoves(s, s1);
    } else {
      LocalNextRespects(s.ws[a.w], a.w, s.m, a, (s1.ws[a.w], s1.m));
      if s.ws[a.w].pc.Scanning? && s1.ws[a.w].pc.Scanning? {
        SkipsOthers(s.ws[a.w], s.m, a, (s1.ws[a.w], s1.m));
      }
      LocalKeepsOrderly(s, a.w, s1.ws[a.w], s1.m);
    }
  }

  /** Outside threads append only while nobody scans. */
  lemma OutsideSkipsNone(s: State, op: Op, s1: State)
    requires Orderly(s) && Next(s, Outside(op)) == Some(s1)
    ensures NoneSkipped(s1)
  {
    OutsideRespects(s.m, op, s1.m);
  }

  lemma LocalKeepsOrderly(s: State, w: nat, me1: Worker, m1: Mem)
    requires Orderly(s) && w < |s.ws| && Respects(s.ws[w], w, s.m, me1, m1)
    requires LockHeld(s.(ws := s.ws[w := me1], m := m1))
    requires s.ws[w].pc.Scanning? && me1.pc.Scanning? ==> !Meant(s.m.tasks.queue[s.ws[w].pc.i], w)
    ensures NoneSkipped(s.(ws := s.ws[w := me1], m := m1))
  {
  }

  lemma SkipsOthers(me: Worker, m: Mem, a: Action, r: Local)
    requires !a.Outside? && !a.StopStep? && LocalNext(me, m, a) == Some(r)
    requires me.pc.Scanning? && r.0.pc.Scanning? && me.pc.i < |m.tasks.queue|
    ensures !Meant(m.tasks.queue[me.pc.i], a.w)
  {
  }

  /** How many tasks are taken off the list in the course of a run, by everybody or by one worker. */
  function Dequeued(s: State, run: seq<Action>, whose: Option<nat>): nat
    requires Exec(s, run).Some?
    decreases |run|
  {
    if run == [] then 0
    else
      var m := Next(s, run[0]).value;
      Taken(s, run[0], m, whose) + Dequeued(m, run[1..], whose)
  }

  function Taken(s: State, a: Action, s1: State, whose: Option<nat>): nat {
    if Dequeues(s, a, s1) && (whose.None? || a.w == whose.value) then 1 else 0
  }

  predicate StandsAt(t: Task, k: int, l: TaskList) {
    0 <= k < |l.queue| && l.queue[k] == t
  }

  /** The task `t` of index k is off the list, or d places nearer the front; or more, when only the dequeues of one worker are counted. */
  ghost predicate Advanced(t: Task, k: nat, d: nat, l: TaskList, whose: Option<nat>) {
    t !in l.queue || exists j: nat :: StandsAt(t, j, l) && j <= k - d && (whose.None? ==> j == k - d)
  }

  /** What every reachable state is, and every action keeps. */
  ghost predicate Tidy(s: State) {
    Ledger(s) && Orderly(s)
  }

  lemma StepKeepsTidy(s: State, a: Action, s1: State)
    requires Tidy(s) && Next(s, a) == Some(s1)
    ensures Tidy(s1)
  {
    StepKeepsLedger(s, a, s1);
    StepKeepsOrderly(s, a, s1);
  }

  lemma OnceInList(s: State, k: nat)
    requires Ledger(s) && k < |s.m.tasks.queue|
    ensures s.m.tasks.queue[k] !in Without(s.m.tasks.queue, k) && s.m.tasks.queue[k] in s.m.tasks.issued
  {
    var t := s.m.tasks.queue[k];
    WithoutMultiset(s.m.tasks.queue, k);
    assert s.m.tasks.issued[t] == Seen(s.m.tasks, t) + InHand(s.ws, t);
  }

  /** A task that has left the list does not come back. */
  lemma GoneIsGone(s: State, a: Action, s1: State, t: Task)
    requires Tidy(s) && Next(s, a) == Some(s1) && t in s.m.tasks.issued && t !in s.m.tasks.queue
    ensures t in s1.m.tasks.issued && t !in s1.m.tasks.queue
  {
    NextMoves(s, a, s1, t);
    ListChange(s, a, s1);
  }

  /** Erasing the element at i moves the one at k. */
  lemma ErasingMoves(t: Task, l: TaskList, l1: TaskList, i: nat, k: nat)
    requires StandsAt(t, k, l) && t !in Without(l.queue, k) && i < |l.queue| && l1.queue == Without(l.queue, i)
    ensures if i == k then t !in l1.queue else StandsAt(t, if i < k then k - 1 else k, l1)
  {
  }

  lemma AppendingKeepsPlace(t: Task, l: TaskList, l1: TaskList, more: seq<Task>, k: nat)
    requires StandsAt(t, k, l) && l1.queue == l.queue + more
    ensures StandsAt(t, k, l1)
  {
  }

  /** A task leaves the list only into the hands of a worker that it is for. */
  lemma TakenByItsWorker(s: State, a: Action, s1: State, t: Task)
    requires Tidy(s) && Next(s, a) == Some(s1) && t in s.m.tasks.queue && t !in s1.m.tasks.queue
    ensures a.Step? && a.w < |s1.ws| && s1.ws[a.w].pc == Picked(t) && (t.thread == ANY || t.thread == a.w)
  {
    ListChange(s, a, s1);
    var k: nat :| k < |s.m.tasks.queue| && s.m.tasks.queue[k] == t;
    OnceInList(s, k);
    if Dequeues(s, a, s1) {
      ErasingMoves(t, s.m.tasks, s1.m.tasks, s.ws[a.w].pc.i, k);
    } else {
      AppendingKeepsPlace(t, s.m.tasks, s1.m.tasks, Added(s.m.tasks, s1.m.tasks), k);
    }
  }

  /** One action takes the task at k, or leaves it where it is less one dequeue. */
  lemma OneAction(s: State, a: Action, s1: State, k: nat, whose: Option<nat>)
    requires Tidy(s) && Next(s, a) == Some(s1)
    requires k < |s.m.tasks.queue| && Ripe(s.m.tasks.queue[k], whose)
    ensures s.m.tasks.queue[k] in s1.m.tasks.issued && Advanced(s.m.tasks.queue[k], k, Taken(s, a, s1, whose), s1.m.tasks, whose)
  {
    var t := s.m.tasks.queue[k];
    NextMoves(s, a, s1, t);
    ListChange(s, a, s1);
    OnceInList(s, k);
    if Dequeues(s, a, s1) {
      ErasingMoves(t, s.m.tasks, s1.m.tasks, s.ws[a.w].pc.i, k);
      assert k < s.ws[a.w].pc.i ==> !Meant(t, a.w);
    } else {
      AppendingKeepsPlace(t, s.m.tasks, s1.m.tasks, Added(s.m.tasks, s1.m.tasks), k);
    }
  }

  lemma {:induction false} RunKeepsTidy(s: State, run: seq<Action>, s1: State)
    requires Tidy(s) && Exec(s, run) == Some(s1)
    ensures Tidy(s1)
    decreases |run|
  {
    if run != [] {
      StepKeepsTidy(s, run[0], Next(s, run[0]).value);
      RunKeepsTidy(Next(s, run[0]).value, run[1..], s1);
    }
  }

  /** An action leaves a task that is gone gone, and takes one in the list or moves it as counted. */
  ghost predicate Fair(s: State, a: Action, s1: State, t: Task, whose: Option<nat>) {
    && (t in s.m.tasks.issued && t !in s.m.tasks.queue ==> t in s1.m.tasks.issued && t !in s1.m.tasks.queue)
    && forall k: nat :: StandsAt(t, k, s.m.tasks) ==> t in s1.m.tasks.issued && Advanced(t, k, Taken(s, a, s1, whose), s1.m.tasks, whose)
  }

  lemma ActionIsFair(s: State, a: Action, s1: State, t: Task, whose: Option<nat>)
    requires Tidy(s) && Next(s, a) == Some(s1) && Ripe(t, whose)
    ensures Fair(s, a, s1, t, whose)
  {
    if t in s.m.tasks.issued && t !in s.m.tasks.queue {
      GoneIsGone(s, a, s1, t);
    }
    forall k: nat | StandsAt(t, k, s.m.tasks)
      ensures t in s1.m.tasks.issued && Advanced(t, k, Taken(s, a, s1, whose), s1.m.tasks, whose)
    {
      OneAction(s, a, s1, k, whose);
    }
  }

  /** The states a run goes through; each action is fair to t. */
  ghost predicate FairPath(path: seq<State>, run: seq<Action>, t: Task, whose: Option<nat>) {
    |path| == |run| + 1 && forall i :: 0 <= i < |run| ==> Fair(path[i], run[i], path[i + 1], t, whose)
  }

  function DequeuedAlong(path: seq<State>, run: seq<Action>, whose: Option<nat>): nat
    requires |path| == |run| + 1
    decreases |run|
  {
    if run == [] then 0 else Taken(path[0], run[0], path[1], whose) + DequeuedAlong(path[1..], run[1..], whose)
  }

  lemma {:induction false} RunIsFair(s: State, run: seq<Action>, s1: State, t: Task, whose: Option<nat>) returns (path: seq<State>)
    requires Tidy(s) && Exec(s, run) == Some(s1) && Ripe(t, whose)
    ensures FairPath(path, run, t, whose) && path[0] == s && path[|run|] == s1
    ensures DequeuedAlong(path, run, whose) == Dequeued(s, run, whose)
    decreases |run|
  {
    if run == [] {
      path := [s];
    } else {
      var m := Next(s, run[0]).value;
      ActionIsFair(s, run[0], m, t, whose);
      StepKeepsTidy(s, run[0], m);
      var rest := RunIsFair(m, run[1..], s1, t, whose);
      path := [s] + rest;
      PathGrows(s, run, rest, t, whose);
    }
  }

  lemma PathGrows(s: State, run: seq<Action>, rest: seq<State>, t: Task, whose: Option<nat>)
    requires run != [] && FairPath(rest, run[1..], t, whose) && Fair(s, run[0], rest[0], t, whose)
    ensures FairPath([s] + rest, run, t, whose) && ([s] + rest)[|run|] == rest[|run| - 1]
    ensures DequeuedAlong([s] + rest, run, whose) == Taken(s, run[0], rest[0], whose) + DequeuedAlong(rest, run[1..], whose)
  {
    var path := [s] + rest;
    assert path[1..] == rest;
    forall i | 0 <= i < |run| ensures Fair(path[i], run[i], path[i + 1], t, whose) {
      if i > 0 {
        assert path[i] == rest[i - 1] && path[i + 1] == rest[i] && run[i] == run[1..][i - 1];
      }
    }
  }

  lemma PathShrinks(path: seq<State>, run: seq<Action>, t: Task, whose: Option<nat>)
    requires run != [] && FairPath(path, run, t, whose)
    ensures FairPath(path[1..], run[1..], t, whose) && Fair(path[0], run[0], path[1], t, whose) && path[1..][|run| - 1] == path[|run|]
  {
    forall i | 0 <= i < |run| - 1 ensures Fair(path[1..][i], run[1..][i], path[1..][i + 1], t, whose) {
      assert Fair(path[i + 1], run[i + 1], path[i + 2], t, whose);
    }
  }

  lemma {:induction false} StaysGone(path: seq<State>, run: seq<Action>, t: Task, whose: Option<nat>)
    requires FairPath(path, run, t, whose) && t in path[0].m.tasks.issued && t !in path[0].m.tasks.queue
    ensures t !in path[|run|].m.tasks.queue
    decreases |run|
  {
    if run != [] {
      PathShrinks(path, run, t, whose);
      StaysGone(path[1..], run[1..], t, whose);
    }
  }

  lemma FurtherAdvanced(t: Task, k: nat, j: nat, d: nat, e: nat, l: TaskList, whose: Option<nat>)
    requires j <= k - d && (whose.None? ==> j == k - d) && Advanced(t, j, e, l, whose)
    ensures Advanced(t, k, d + e, l, whose)
  {
    if t in l.queue {
      var i: nat :| StandsAt(t, i, l) && i <= j - e && (whose.None? ==> i == j - e);
      assert i <= k - (d + e);
    }
  }

  lemma {:induction false} NotOvertaken(path: seq<State>, run: seq<Action>, t: Task, k: nat, whose: Option<nat>)
    requires FairPath(path, run, t, whose) && StandsAt(t, k, path[0].m.tasks)
    ensures Advanced(t, k, DequeuedAlong(path, run, whose), path[|run|].m.tasks, whose)
    decreases |run|
  {
    if run != [] {
      PathShrinks(path, run, t, whose);
      var d := Taken(path[0], run[0], path[1], whose);
      if t in path[1].m.tasks.queue {
        var j: nat :| StandsAt(t, j, path[1].m.tasks) && j <= k - d && (whose.None? ==> j == k - d);
        NotOvertaken(path[1..], run[1..], t, j, whose);
        FurtherAdvanced(t, k, j, d, DequeuedAlong(path[1..], run[1..], whose), path[|run|].m.tasks, whose);
      } else {
        StaysGone(path[1..], run[1..], t, whose);
      }
    }
  }

  /** `s` is the state after `past`. */
  ghost predicate After(threads: nat, caller: bool, past: seq<Action>, s: State) {
    threads > 0 && Exec(Init(threads, caller), past) == Some(s)
  }

  lemma ReachableIsTidy(threads: nat, caller: bool, past: seq<Action>, s: State)
    requires After(threads, caller, past, s)
    ensures Tidy(s)
  {
    InitLedger(threads, caller);
    RunKeepsTidy(Init(threads, caller), past, s);
  }

  lemma Overtaking(threads: nat, caller: bool, past: seq<Action>, s: State, k: nat, run: seq<Action>, s1: State, whose: Option<nat>)
    requires After(threads, caller, past, s) && Exec(s, run) == Some(s1)
    requires k < |s.m.tasks.queue| && Ripe(s.m.tasks.queue[k], whose)
    ensures Advanced(s.m.tasks.queue[k], k, Dequeued(s, run, whose), s1.m.tasks, whose)
  {
    ReachableIsTidy(threads, caller, past, s);
    var path := RunIsFair(s, run, s1, s.m.tasks.queue[k], whose);
    NotOvertaken(path, run, s.m.tasks.queue[k], k, whose);
  }

  /**
   Bounded bypass: an unpinned callback at index k of the list has either been taken, or
   stands exactly as many places nearer the front as there were dequeues.
   */
  lemma CallbackIsNotOvertaken(threads: nat, caller: bool, past: seq<Action>, s: State, k: nat, run: seq<Action>, s1: State)
    requires After(threads, caller, past, s) && Exec(s, run) == Some(s1)
    requires k < |s.m.tasks.queue| && s.m.tasks.queue[k].work.Call? && s.m.tasks.queue[k].thread == ANY
    ensures var t := s.m.tasks.queue[k];
      t !in s1.m.tasks.queue || StandsAt(t, k - Dequeued(s, run, None), s1.m.tasks)
  {
    Overtaking(threads, caller, past, s, k, run, s1, None);
  }

  /** So k + 1 dequeues by any workers always take it. */
  lemma DequeuesTakeCallback(threads: nat, caller: bool, past: seq<Action>, s: State, k: nat, run: seq<Action>, s1: State)
    requires After(threads, caller, past, s) && Exec(s, run) == Some(s1)
    requires k < |s.m.tasks.queue| && s.m.tasks.queue[k].work.Call? && s.m.tasks.queue[k].thread == ANY
    requires Dequeued(s, run, None) >= k + 1
    ensures s.m.tasks.queue[k] !in s1.m.tasks.queue
  {
    CallbackIsNotOvertaken(threads, caller, past, s, k, run, s1);
  }

  /** A callback at index k that worker w may take is taken by the time w has taken k + 1 tasks. */
  lemma OwnDequeuesTakeCallback(threads: nat, caller: bool, past: seq<Action>, s: State, k: nat,
                                run: seq<Action>, s1: State, w: nat)
    requires After(threads, caller, past, s) && Exec(s, run) == Some(s1)
    requires k < |s.m.tasks.queue| && s.m.tasks.queue[k].work.Call?
    requires s.m.tasks.queue[k].thread == ANY || s.m.tasks.queue[k].thread == w
    requires Dequeued(s, run, Some(w)) >= k + 1
    ensures s.m.tasks.queue[k] !in s1.m.tasks.queue
  {
    Overtaking(threads, caller, past, s, k, run, s1, Some(w));
  }

  /** In every reachable state a worker has in its hands only tasks for any worker or for itself. */
  lemma HandsHoldOwnTasks(threads: nat, caller: bool, run: seq<Action>, s: State, w: nat, t: Task)
    requires After(threads, caller, run, s) && w < |s.ws| && (s.ws[w].pc == Picked(t) || s.ws[w].pc == Counted(t))
    ensures t.thread == ANY || t.thread == w
  {
    RunKeepsOwnHands(Init(threads, caller), run, s);
  }

  ghost predicate OwnHands(s: State) {
    forall w :: 0 <= w < |s.ws| && (s.ws[w].pc.Picked? || s.ws[w].pc.Counted?)
      ==> s.ws[w].pc.t.thread == ANY || s.ws[w].pc.t.thread == w
  }

  lemma StepKeepsOwnHands(s: State, a: Action, s1: State)
    requires OwnHands(s) && Next(s, a) == Some(s1)
    ensures OwnHands(s1)
  {
    if a.StopStep? {
      StopMoves(s, s1);
    } else if !a.Outside? {
      LocalHands(s.ws[a.w], s.m, a, (s1.ws[a.w], s1.m));
    }
  }

  lemma LocalHands(me: Worker, m: Mem, a: Action, r: Local)
    requires !a.Outside? && !a.StopStep? && LocalNext(me, m, a) == Some(r)
    ensures r.0.pc.Picked? ==> r.0.pc.t.thread == ANY || r.0.pc.t.thread == a.w
    ensures r.0.pc.Counted? ==> me.pc == Picked(r.0.pc.t) || me.pc == r.0.pc
  {
  }

  lemma {:induction false} RunKeepsOwnHands(s: State, run: seq<Action>, s1: State)
    requires OwnHands(s) && Exec(s, run) == Some(s1)
    ensures OwnHands(s1)
    decreases |run|
  {
    if run != [] {
      StepKeepsOwnHands(s, run[0], Next(s, run[0]).value);
      RunKeepsOwnHands(Next(s, run[0]).value, run[1..], s1);
    }
  }
}
