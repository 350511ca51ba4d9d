/**
 The task list as `scheduler.h` and the scan of `Scheduler::run` work on it: in place, under
 the lock. The loops compute what the transition system does in one action (batch
 `schedule`) or in one action per element (the scan).
 */
module TaskListCode {
  import opened Prelude
  import opened SchedulerModel
  import opened SchedulerFacts

  /** The callbacks that are set, in order. */
  function Present(cbs: seq<Option<CallbackId>>): seq<CallbackId> {
    if cbs == [] then []
    else Present(cbs[..|cbs| - 1]) + if cbs[|cbs| - 1].Some? then [cbs[|cbs| - 1].value] else []
  }

  /** One entry after the other: a callback that is set comes once, an empty entry not at all. */
  lemma {:induction false} PresentIs(a: seq<Option<CallbackId>>, b: seq<Option<CallbackId>>)
    ensures Present(a + b) == Present(a) + Present(b)
    ensures |b| == 1 ==> Present(b) == if b[0].Some? then [b[0].value] else []
    decreases |b|
  {
    if b == [] {
      assert a + b == a;
    } else {
      var n := |b| - 1;
      assert (a + b)[..|a + b| - 1] == a + b[..n] && (a + b)[|a + b| - 1] == b[n];
      PresentIs(a, b[..n]);
      assert n == 0 ==> b[..n] == [];
    }
  }

  /** A batch appends the next callback behind the tasks of those before it. */
  lemma {:induction false} BatchSnoc(n: nat, cbs: seq<CallbackId>, c: CallbackId)
    ensures Batch(n, cbs + [c]) == Batch(n, cbs) + [Task(Call(c), ANY, n + |cbs|)]
    decreases |cbs|
  {
    if cbs == [] {
      assert [c][1..] == [] && Batch(n + 1, []) == [];
    } else {
      assert (cbs + [c])[1..] == cbs[1..] + [c];
      BatchSnoc(n + 1, cbs[1..], c);
    }
  }

  /** Worker w has to leave the task: it is for another worker, or its fiber is running. */
  predicate Barred(m: Mem, t: Task, w: nat) {
    (t.thread == ANY || t.thread == w) ==> t.work.Fib? && FiberOf(m, t.work.f) == EXEC
  }

  /**
   Of the first i tasks none is a callback for worker w or for any worker, and each fiber for
   them was running when it was looked at, in the memory of its own moment.
   */
  ghost predicate Passed(seen: seq<Mem>, tasks: seq<Task>, w: nat, i: nat) {
    i <= |tasks| && i <= |seen| && forall j :: 0 <= j < i ==> Barred(seen[j], tasks[j], w)
  }

  /** The task at i is the first that worker w may take. */
  ghost predicate First(seen: seq<Mem>, tasks: seq<Task>, w: nat, i: nat) {
    Passed(seen, tasks, w, i) && i < |tasks| && i < |seen| && !Barred(seen[i], tasks[i], w)
  }

  class TaskQueue {
    var tasks: seq<Task>
    var pushes: nat

    constructor ()
      ensures tasks == [] && pushes == 0
    {
      tasks, pushes := [], 0;
    }

    /** A null function or fiber is not stored, but the answer is the same: was the list empty? */
    method ScheduleNoLock(work: Option<Work>, thread: int) returns (needTickle: bool)
      modifies this
      ensures needTickle == (old(tasks) == [])
      ensures work.None? ==> tasks == old(tasks) && pushes == old(pushes)
      ensures work.Some? ==> tasks == old(tasks) + [Task(work.value, thread, old(pushes))] && pushes == old(pushes) + 1
    {
      needTickle := tasks == [];
      if work.Some? {
        tasks := tasks + [Task(work.value, thread, pushes)];
        pushes := pushes + 1;
      }
    }

    /**
     The batch form moves each callback out of its source by swap: the list grows by exactly
     the present callbacks in order, and every source entry is left empty.
     */
    method ScheduleBatch(cbs: array<Option<CallbackId>>) returns (needTickle: bool)
      modifies this, cbs
      ensures tasks == old(tasks) + Batch(old(pushes), Present(old(cbs[..])))
      ensures pushes == old(pushes) + |Present(old(cbs[..]))|
      ensures forall i :: 0 <= i < cbs.Length ==> cbs[i] == None
      ensures needTickle == (old(tasks) == [] && cbs.Length > 0)
    {
      needTickle := false;
      var i := 0;
      while i < cbs.Length
        invariant 0 <= i <= cbs.Length
        invariant tasks == old(tasks) + Batch(old(pushes), Present(old(cbs[..])[..i]))
        invariant pushes == old(pushes) + |Present(old(cbs[..])[..i])|
        invariant forall j :: 0 <= j < i ==> cbs[j] == None
        invariant forall j :: i <= j < cbs.Length ==> cbs[j] == old(cbs[j])
        invariant needTickle == (old(tasks) == [] && i > 0)
      {
        ghost var before := old(cbs[..])[..i];
        assert old(cbs[..])[..i + 1] == before + [cbs[i]];
        assert (before + [cbs[i]])[..i] == before;
        assert Present(before + [cbs[i]]) == Present(before) + if cbs[i].Some? then [cbs[i].value] else [];
        if cbs[i].Some? {
          BatchSnoc(old(pushes), Present(before), cbs[i].value);
        } else {
          assert Present(before) + [] == Present(before);
        }
        var work := if cbs[i].Some? then Some(Call(cbs[i].value)) else None;
        cbs[i] := None;
        var wasEmpty := ScheduleNoLock(work, ANY);
        needTickle := wasEmpty || needTickle;
        i := i + 1;
      }
      assert old(cbs[..])[..i] == old(cbs[..]);
    }

    /**
     The scan: the first eligible task leaves the list and the order of the others stays. Fiber
     states change meanwhile: `seen` holds the memory at the moment of each look.
     */
    method TakeFirst(seen: seq<Mem>, w: nat) returns (tk: Option<Task>)
      requires |seen| >= |tasks|
      modifies this
      ensures tk.None? ==> tasks == old(tasks) && Passed(seen, old(tasks), w, |old(tasks)|)
      ensures tk.Some? ==> exists i: nat :: First(seen, old(tasks), w, i) && tk.value == old(tasks)[i] && tasks == Without(old(tasks), i)
      ensures pushes == old(pushes)
    {
      var it := 0;
      while it < |tasks|
        invariant 0 <= it <= |tasks| && tasks == old(tasks) && pushes == old(pushes)
        invariant Passed(seen, tasks, w, it)
      {
        var t := tasks[it];
        if t.thread != ANY && t.thread != w {
          it := it + 1;
          continue;
        }
        if t.work.Fib? && FiberOf(seen[it], t.work.f) == EXEC {
          it := it + 1;
          continue;
        }
        tk := Some(t);
        tasks := Without(tasks, it);
        return;
      }
      tk := None;
    }
  }

  // ---- the scan in a run ---------------------------------------------------------------------

  /** Worker w is in its scan all along. */
  predicate Scans(s: State, run: seq<Action>, w: nat)
    decreases |run|
  {
    && w < |s.ws| && s.ws[w].pc.Scanning?
    && (run == [] || (Next(s, run[0]).Some? && Scans(Next(s, run[0]).value, run[1..], w)))
  }

  /** The memories in which worker w looks at an element of the list, whatever the others do in between. */
  function Looks(s: State, run: seq<Action>, w: nat): seq<Mem>
    requires Scans(s, run, w)
    decreases |run|
  {
    if run == [] then []
    else (if run[0] == Step(w) then [s.m] else []) + Looks(Next(s, run[0]).value, run[1..], w)
  }

  /** While worker w scans, nobody else touches the list. */
  lemma OthersLeaveTheList(s: State, a: Action, w: nat, s1: State)
    requires LockHeld(s) && Next(s, a) == Some(s1) && w < |s.ws| && s.ws[w].pc.Scanning?
    requires a.Outside? || a.StopStep? || a.w != w
    ensures s1.m.tasks.queue == s.m.tasks.queue
    ensures w < |s1.ws| && s1.ws[w] == s.ws[w]
  {
    if a.StopStep? {
      StopMoves(s, s1);
    } else if a.Outside? {
      OutsideRespects(s.m, a.op, s1.m);
    } else {
      LocalNextRespects(s.ws[a.w], a.w, s.m, a, (s1.ws[a.w], s1.m));
    }
  }

  /** One look of worker w that does not end its scan passes over a task that it may not take. */
  lemma LookPasses(s: State, w: nat, s1: State)
    requires LockHeld(s) && w < |s.ws| && s.ws[w].pc.Scanning? && Next(s, Step(w)) == Some(s1)
    requires s1.ws[w].pc.Scanning?
    ensures var i := s.ws[w].pc.i;
      && i < |s.m.tasks.queue| && Barred(s.m, s.m.tasks.queue[i], w)
      && s1.ws[w].pc.i == i + 1 && s1.m.tasks.queue == s.m.tasks.queue
  {
  }

  lemma OwnStepOnly(s: State, a: Action, w: nat)
    requires w < |s.ws| && s.ws[w].pc.Scanning? && Next(s, a).Some?
    requires !a.Outside? && !a.StopStep? && a.w == w
    ensures a == Step(w)
  {
  }

  /** The list stays as it is as long as worker w scans. */
  lemma {:induction false} ScanKeepsList(s: State, run: seq<Action>, w: nat, s1: State)
    requires LockHeld(s) && Scans(s, run, w) && Exec(s, run) == Some(s1)
    ensures LockHeld(s1) && w < |s1.ws| && s1.ws[w].pc.Scanning?
    ensures s1.m.tasks.queue == s.m.tasks.queue
    decreases |run|
  {
    if run != [] {
      var m := Next(s, run[0]).value;
      StepKeepsLock(s, run[0], m);
      OneStepOfScan(s, run[0], w, m);
      ScanKeepsList(m, run[1..], w, s1);
    }
  }

  /**
   In every run, worker w steps through a list that nobody else changes, passing over exactly
   the tasks it may not take at the moment it looks at them.
   */
  lemma {:induction false} ScanPasses(s: State, run: seq<Action>, w: nat, s1: State)
    requires LockHeld(s) && Scans(s, run, w) && Exec(s, run) == Some(s1)
    ensures w < |s1.ws| && s1.ws[w].pc.Scanning?
    ensures s1.ws[w].pc.i == s.ws[w].pc.i + |Looks(s, run, w)|
    ensures PassedFrom(Looks(s, run, w), s.m.tasks.queue, w, s.ws[w].pc.i)
    decreases |run|
  {
    if run != [] {
      var m := Next(s, run[0]).value;
      StepKeepsLock(s, run[0], m);
      OneStepOfScan(s, run[0], w, m);
      ScanPasses(m, run[1..], w, s1);
      var rest := Looks(m, run[1..], w);
      assert Looks(s, run, w) == (if run[0] == Step(w) then [s.m] else []) + rest;
      MoreLooks(s.m, rest, s.m.tasks.queue, w, s.ws[w].pc.i, run[0] == Step(w));
    }
  }

  lemma MoreLooks(m: Mem, rest: seq<Mem>, tasks: seq<Task>, w: nat, i: nat, own: bool)
    requires PassedFrom(rest, tasks, w, i + if own then 1 else 0)
    requires own ==> i < |tasks| && Barred(m, tasks[i], w)
    ensures PassedFrom((if own then [m] else []) + rest, tasks, w, i)
    ensures |(if own then [m] else []) + rest| == |rest| + if own then 1 else 0
  {
    assert ([m] + rest)[1..] == rest && [] + rest == rest;
  }

  /** The tasks from i on were passed over one by one. */
  predicate PassedFrom(looks: seq<Mem>, tasks: seq<Task>, w: nat, i: nat)
    decreases |looks|
  {
    looks == [] || (i < |tasks| && Barred(looks[0], tasks[i], w) && PassedFrom(looks[1..], tasks, w, i + 1))
  }

  lemma {:induction false} PassedFromStart(looks: seq<Mem>, tasks: seq<Task>, w: nat, i: nat, j: nat)
    requires PassedFrom(looks, tasks, w, i) && j < |looks|
    ensures i + j < |tasks| && Barred(looks[j], tasks[i + j], w)
    decreases |looks|
  {
    if j > 0 {
      PassedFromStart(looks[1..], tasks, w, i + 1, j - 1);
    }
  }

  lemma OneStepOfScan(s: State, a: Action, w: nat, s1: State)
    requires LockHeld(s) && Next(s, a) == Some(s1) && w < |s.ws| && w < |s1.ws|
    requires s.ws[w].pc.Scanning? && s1.ws[w].pc.Scanning?
    ensures s1.m.tasks.queue == s.m.tasks.queue
    ensures s1.ws[w].pc.i == s.ws[w].pc.i + if a == Step(w) then 1 else 0
    ensures a == Step(w) ==> s.ws[w].pc.i < |s.m.tasks.queue| && Barred(s.m, s.m.tasks.queue[s.ws[w].pc.i], w)
  {
    if a.Outside? || a.StopStep? || a.w != w {
      OthersLeaveTheList(s, a, w, s1);
    } else {
      OwnStepOnly(s, a, w);
      LookPasses(s, w, s1);
    }
  }

  /**
   A whole scan of the transition system, interleaved with everybody else, does what the loop
   does: it takes the first task that worker w may take when it looks at it, or finds that
   there is none and leaves the list as it is. `TakeFirst` has the same contract.
   */
  lemma ScanIsRepeatedStep(s: State, run: seq<Action>, w: nat, s1: State, s2: State)
    requires LockHeld(s) && Scans(s, run, w) && s.ws[w].pc == Scanning(0)
    requires Exec(s, run) == Some(s1) && Next(s1, Step(w)) == Some(s2) && !s2.ws[w].pc.Scanning?
    ensures var k, seen, q := |Looks(s, run, w)|, Looks(s, run, w) + [s1.m], s.m.tasks.queue;
      if s2.ws[w].pc.Picked?
      then First(seen, q, w, k) && s2.ws[w].pc.t == q[k] && s2.m.tasks.queue == Without(q, k) && Free(s2.m)
      else Passed(seen, q, w, |q|) && s2.ws[w].pc == Empty && s2.m.tasks.queue == q && Free(s2.m)
  {
    ScanKeepsList(s, run, w, s1);
    ScanPasses(s, run, w, s1);
    var looks, q := Looks(s, run, w), s.m.tasks.queue;
    forall j | 0 <= j < |looks| ensures j < |q| && Barred((looks + [s1.m])[j], q[j], w) {
      PassedFromStart(looks, q, w, 0, j);
    }
    ScanEnds(s1, w, s2);
  }

  /**
   When the scan of worker w has found nothing, the list holds no callback for w or for any
   worker, and each fiber for them was running at the look.
   */
  lemma EmptyScanFindsNothing(s: State, run: seq<Action>, w: nat, s1: State, s2: State, j: nat)
    requires LockHeld(s) && Scans(s, run, w) && s.ws[w].pc == Scanning(0)
    requires Exec(s, run) == Some(s1) && Next(s1, Step(w)) == Some(s2) && s2.ws[w].pc == Empty
    requires j < |s2.m.tasks.queue| && (s2.m.tasks.queue[j].thread == ANY || s2.m.tasks.queue[j].thread == w)
    ensures s2.m.tasks.queue[j].work.Fib?
    ensures var looks := Looks(s, run, w);
      j < |looks| && FiberOf(looks[j], s2.m.tasks.queue[j].work.f) == EXEC
  {
    ScanIsRepeatedStep(s, run, w, s1, s2);
    ScanKeepsList(s, run, w, s1);
    ScanPasses(s, run, w, s1);
    ScanEnds(s1, w, s2);
    assert Barred((Looks(s, run, w) + [s1.m])[j], s.m.tasks.queue[j], w);
  }

  lemma ScanEnds(s: State, w: nat, s1: State)
    requires w < |s.ws| && s.ws[w].pc.Scanning? && Next(s, Step(w)) == Some(s1) && !s1.ws[w].pc.Scanning?
    ensures var i, q := s.ws[w].pc.i, s.m.tasks.queue;
      if i < |q|
      then !Barred(s.m, q[i], w) && s1.ws[w].pc == Picked(q[i]) && s1.m.tasks.queue == Without(q, i) && Free(s1.m)
      else s1.ws[w].pc == Empty && s1.m.tasks.queue == q && Free(s1.m)
  {
  }
}
