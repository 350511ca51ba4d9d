/**
 The timers over whole runs of operations, with the clock and with what the poller saw last.
 */
module TimerRuns {
  import opened Prelude
  import opened TimerSpec
  import opened TimerFacts

  /** One operation, made under the lock at time `now`; `read` is a clock value read earlier, outside the lock. */
  datatype Op =
    | AddOp(a: Addr, ms: nat, cb: Callback, recurring: bool, read: nat, now: nat)
    | CancelOp(a: Addr, now: nat)
    | RefreshOp(a: Addr, now: nat)
    | ResetOp(a: Addr, ms: nat, fromNow: bool, now: nat)
    | PollOp(now: nat)
    | ExpireOp(read: nat, now: nat)

  /** `clock` is the time of the last operation, `seen` the first deadline at the last poll, U64 for none. */
  datatype World = World(s: Timers, clock: nat, seen: nat)

  function Deadline(s: Timers): nat
    requires Known(s.heap, s.order)
  {
    if s.order == [] then U64 else s.heap[s.order[0]].next
  }

  predicate Enabled(s: Timers, op: Op) {
    match op
    case AddOp(a, _, _, _, _, _) => a !in s.heap
    case CancelOp(a, _) => a in s.heap
    case RefreshOp(a, _) => a in s.heap
    case ResetOp(a, _, _, _) => a in s.heap
    case _ => true
  }

  function Do(w: World, op: Op): World
    requires Known(w.s.heap, w.s.order) && Enabled(w.s, op)
  {
    match op
    case AddOp(a, ms, cb, recurring, read, now) => World(Add(w.s, a, ms, Some(cb), recurring, read), now, w.seen)
    case CancelOp(a, now) => World(Cancel(w.s, a).0, now, w.seen)
    case RefreshOp(a, now) => World(Refresh(w.s, a, now).0, now, w.seen)
    case ResetOp(a, ms, fromNow, now) => World(Reset(w.s, a, ms, fromNow, now).0, now, w.seen)
    case PollOp(now) => World(NextTimer(w.s, now).0, now, Deadline(w.s))
    case ExpireOp(read, now) => World(Expire(w.s, read), now, w.seen)
  }

  lemma DoKeepsValid(w: World, op: Op)
    requires Valid(w.s) && Enabled(w.s, op)
    ensures Valid(Do(w, op).s)
    ensures w.s.heap.Keys <= Do(w, op).s.heap.Keys
  {
    match op
    case AddOp(a, ms, cb, recurring, read, _) => AddKeepsValid(w.s, a, ms, Some(cb), recurring, read);
    case CancelOp(a, _) => CancelKeepsValid(w.s, a);
    case RefreshOp(a, now) => RefreshKeepsValid(w.s, a, now);
    case ResetOp(a, ms, fromNow, now) => ResetKeepsValid(w.s, a, ms, fromNow, now);
    case PollOp(_) =>
    case ExpireOp(read, _) => ExpiryIsExact(w.s, read);
  }

  // ---- no missed earlier deadline ------------------------------------------------------------

  /** Somebody was notified, or the first deadline is not before the one the poller saw. */
  predicate Notified(w: World)
    requires Known(w.s.heap, w.s.order)
  {
    w.s.tickled || Deadline(w.s) >= w.seen
  }

  /** A monotone clock past its first hour, read no more than an hour before it is used, and no 64-bit overflow. */
  predicate Timely(w: World, op: Op) {
    && op.now >= w.clock
    && match op
       case AddOp(_, ms, _, _, read, now) => read <= now && read + ms < U64
       case RefreshOp(a, now) => a in w.s.heap ==> now + w.s.heap[a].ms < U64
       case ResetOp(a, ms, fromNow, now) => now + ms < U64
       case ExpireOp(read, now) =>
         HOUR <= read <= now <= read + HOUR && forall a :: a in w.s.heap ==> read + w.s.heap[a].ms < U64
       case _ => true
  }

  /** Every live timer was started at some time up to now. */
  predicate Started(w: World, a: Addr) {
    Live(w.s.heap, a) ==> w.s.heap[a].ms <= w.s.heap[a].next <= w.clock + w.s.heap[a].ms && w.s.heap[a].next < U64
  }

  /** The last expiry was neither in the first hour of the clock nor in the future. */
  predicate Steady(w: World) {
    HOUR <= w.s.previous <= w.clock && w.s.previous < U64
  }

  ghost predicate InTime(w: World) {
    Valid(w.s) && Notified(w) && Steady(w) && forall a :: Started(w, a)
  }

  lemma NoRollover(w: World, op: Op)
    requires Steady(w) && op.ExpireOp? && Timely(w, op)
    ensures !Rollover(w.s, op.read)
  {
    RolloverIff(w.s, op.read);
  }

  lemma DeadlineIsLeast(s: Timers, a: Addr)
    requires Valid(s)
    ensures Live(s.heap, a) ==> Deadline(s) <= s.heap[a].next
    ensures s.order != [] ==> Live(s.heap, s.order[0]) && Deadline(s) == s.heap[s.order[0]].next
  {
    if Live(s.heap, a) {
      var i :| 0 <= i < |s.order| && s.order[i] == a;
      assert i > 0 ==> Less(s.heap, s.order[0], s.order[i]);
    }
    assert s.order != [] ==> s.order[0] in s.order;
  }

  /** An operation that lowers no deadline of a live timer does not lower the first one. */
  lemma FirstDoesNotDrop(s: Timers, s1: Timers)
    requires Valid(s) && Valid(s1)
    requires forall a :: Live(s1.heap, a) ==> Live(s.heap, a) && s.heap[a].next <= s1.heap[a].next < U64
    requires forall a :: Live(s.heap, a) ==> s.heap[a].next < U64
    ensures Deadline(s) <= Deadline(s1)
  {
    if s1.order != [] {
      DeadlineIsLeast(s1, s1.order[0]);
      DeadlineIsLeast(s, s1.order[0]);
    } else if s.order != [] {
      DeadlineIsLeast(s, s.order[0]);
    }
  }

  /** Publishing a timer either keeps the first deadline or notifies. */
  lemma PublishNotifies(s: Timers, a: Addr)
    requires Known(s.heap, s.order) && Sorted(s.heap, s.order) && a in s.heap && a !in s.order
    ensures Known(Publish(s, a).heap, Publish(s, a).order)
    ensures Publish(s, a).tickled || Deadline(Publish(s, a)) == Deadline(s)
  {
    InsertFacts(s.heap, s.order, a);
  }

  lemma AddInTime(w: World, op: Op)
    requires InTime(w) && op.AddOp? && Enabled(w.s, op) && Timely(w, op)
    ensures InTime(Do(w, op))
  {
    DoKeepsValid(w, op);
    var h := w.s.heap[op.a := Rec(op.recurring, op.ms, Wrap(op.read + op.ms), Some(op.cb))];
    SortedElsewhere(w.s.heap, h, w.s.order);
    PublishNotifies(w.s.(heap := h), op.a);
    assert Deadline(w.s.(heap := h)) == Deadline(w.s) by {
      assert w.s.order != [] ==> w.s.order[0] in w.s.order;
    }
    forall a ensures Started(Do(w, op), a) {
      assert Started(w, a);
    }
  }

  lemma ResetStarted(w: World, op: Op, a: Addr)
    requires InTime(w) && op.ResetOp? && Enabled(w.s, op) && Timely(w, op)
    ensures Started(Do(w, op), a)
  {
    assert Started(w, a) && Started(w, op.a);
  }

  lemma ResetNotifies(w: World, op: Op)
    requires InTime(w) && op.ResetOp? && Enabled(w.s, op)
    ensures Valid(Do(w, op).s) && Notified(Do(w, op))
  {
    DoKeepsValid(w, op);
    var t := w.s.heap[op.a];
    if t.cb.Some? && (op.ms != t.ms || op.fromNow) {
      var next := Wrap((if op.fromNow then op.now else Wrap(t.next - t.ms)) + op.ms);
      SetNextFacts(w.s, op.a, op.ms, next);
      PublishNotifies(SetNext(w.s, op.a, op.ms, next), op.a);
      LiveBelowU64(w);
      RemovalDoesNotLower(w.s, op.a, op.ms, next);
    }
  }

  lemma LiveBelowU64(w: World)
    requires forall a :: Started(w, a)
    ensures forall x :: Live(w.s.heap, x) ==> w.s.heap[x].next < U64
  {
    forall x | Live(w.s.heap, x) ensures w.s.heap[x].next < U64 {
      assert Started(w, x);
    }
  }

  lemma ResetInTime(w: World, op: Op)
    requires InTime(w) && op.ResetOp? && Enabled(w.s, op) && Timely(w, op)
    ensures InTime(Do(w, op))
  {
    ResetNotifies(w, op);
    forall a ensures Started(Do(w, op), a) {
      ResetStarted(w, op, a);
    }
  }

  /** Taking a timer out of the set never lowers the first deadline. */
  lemma RemovalDoesNotLower(s: Timers, a: Addr, ms: nat, next: nat)
    requires Valid(s) && Live(s.heap, a)
    requires forall x :: Live(s.heap, x) ==> s.heap[x].next < U64
    ensures Known(SetNext(s, a, ms, next).heap, SetNext(s, a, ms, next).order)
    ensures Deadline(s) <= Deadline(SetNext(s, a, ms, next))
  {
    SetNextFacts(s, a, ms, next);
    var s1 := SetNext(s, a, ms, next);
    if s1.order != [] {
      assert s1.order[0] in s1.order;
      DeadlineIsLeast(s, s1.order[0]);
    } else {
      DeadlineIsLeast(s, a);
    }
  }

  /** An expiry moves no deadline of a timer that stays live back. */
  lemma ExpireRaises(w: World, op: Op, a: Addr)
    requires InTime(w) && op.ExpireOp? && Timely(w, op)
    ensures Started(Do(w, op), a)
    ensures var h, h1 := w.s.heap, Do(w, op).s.heap; Live(h1, a) ==> Live(h, a) && h[a].next <= h1[a].next < U64
  {
    NoRollover(w, op);
    ExpiryIsExact(w.s, op.read);
    assert Started(w, a);
    if a in w.s.heap {
      RaisedByExpiry(w.s.heap[a], a in Expired(w.s, op.read), op.read, w.clock, op.now);
    }
  }

  lemma RaisedByExpiry(t: Rec, taken: bool, read: nat, clock: nat, now: nat)
    requires t.cb.Some? ==> t.ms <= t.next <= clock + t.ms && t.next < U64
    requires read + t.ms < U64 && clock <= now && read <= now && (taken ==> t.next <= read)
    ensures var t1 := if taken then After(t, read) else t;
      t1.cb.Some? ==> t.cb.Some? && t.next <= t1.next < U64 && t1.ms <= t1.next <= now + t1.ms
  {
    assert taken && t.recurring ==> Wrap(read + t.ms) == read + t.ms;
  }

  /** `refresh` and `cancel` move no deadline of a timer that stays live back. */
  lemma QuietOpRaises(w: World, op: Op, a: Addr)
    requires InTime(w) && (op.RefreshOp? || op.CancelOp?) && Enabled(w.s, op) && Timely(w, op)
    ensures Started(Do(w, op), a)
    ensures var h, h1 := w.s.heap, Do(w, op).s.heap; Live(h1, a) ==> Live(h, a) && h[a].next <= h1[a].next < U64
  {
    assert Started(w, a);
  }

  /** Operations that notify nobody need not: no deadline of a live timer drops. */
  lemma QuietOpsInTime(w: World, op: Op)
    requires InTime(w) && (op.RefreshOp? || op.CancelOp? || op.ExpireOp?) && Enabled(w.s, op) && Timely(w, op)
    ensures InTime(Do(w, op))
  {
    DoKeepsValid(w, op);
    forall a ensures Started(Do(w, op), a) && var h, h1 := w.s.heap, Do(w, op).s.heap; Live(h1, a) ==> Live(h, a) && h[a].next <= h1[a].next < U64 {
      if op.ExpireOp? { ExpireRaises(w, op, a); } else { QuietOpRaises(w, op, a); }
    }
    LiveBelowU64(w);
    FirstDoesNotDrop(w.s, Do(w, op).s);
    assert Do(w, op).s.tickled == w.s.tickled by {
      if op.ExpireOp? { ExpiryIsExact(w.s, op.read); }
    }
  }

  lemma StepInTime(w: World, op: Op)
    requires InTime(w) && Enabled(w.s, op) && Timely(w, op)
    ensures InTime(Do(w, op))
  {
    match op
    case AddOp(_, _, _, _, _, _) => AddInTime(w, op);
    case ResetOp(_, _, _, _) => ResetInTime(w, op);
    case PollOp(_) =>
      forall a ensures Started(Do(w, op), a) {
        assert Started(w, a);
      }
    case _ => QuietOpsInTime(w, op);
  }

  ghost predicate Runs(w: World, ops: seq<Op>)
    requires Valid(w.s)
    decreases |ops|
  {
    ops == [] || (Enabled(w.s, ops[0]) && (DoKeepsValid(w, ops[0]); Runs(Do(w, ops[0]), ops[1..])))
  }

  function RunAll(w: World, ops: seq<Op>): World
    requires Valid(w.s) && Runs(w, ops)
    decreases |ops|
  {
    if ops == [] then w else (DoKeepsValid(w, ops[0]); RunAll(Do(w, ops[0]), ops[1..]))
  }

  ghost predicate AllTimely(w: World, ops: seq<Op>)
    requires Valid(w.s) && Runs(w, ops)
    decreases |ops|
  {
    ops == [] || (DoKeepsValid(w, ops[0]); Timely(w, ops[0]) && AllTimely(Do(w, ops[0]), ops[1..]))
  }

  /** No missed earlier deadline, over every run under a monotone clock. */
  lemma {:induction false} NoEarlierDeadlineIsMissed(w: World, ops: seq<Op>)
    requires InTime(w) && Runs(w, ops) && AllTimely(w, ops)
    ensures InTime(RunAll(w, ops))
    decreases |ops|
  {
    if ops != [] {
      DoKeepsValid(w, ops[0]);
      StepInTime(w, ops[0]);
      NoEarlierDeadlineIsMissed(Do(w, ops[0]), ops[1..]);
    }
  }

  /**
   Without a monotone clock `refresh` can lower the first deadline unnoticed; it keeps the
   notification claim exactly when somebody is notified or the new deadline is not before
   the one the poller saw.
   */
  lemma RefreshKeepsNoticeIff(w: World, a: Addr, now: nat)
    requires Valid(w.s) && Notified(w) && Live(w.s.heap, a) && now + w.s.heap[a].ms < U64
    requires w.seen <= U64 && forall x :: Live(w.s.heap, x) ==> w.s.heap[x].next < U64
    ensures Valid(Do(w, RefreshOp(a, now)).s)
    ensures Notified(Do(w, RefreshOp(a, now))) <==> w.s.tickled || now + w.s.heap[a].ms >= w.seen
  {
    var ms := w.s.heap[a].ms;
    RefreshKeepsValid(w.s, a, now);
    SetNextFacts(w.s, a, ms, now + ms);
    RemovalDoesNotLower(w.s, a, ms, now + ms);
    var s1 := SetNext(w.s, a, ms, now + ms);
    InsertFacts(s1.heap, s1.order, a);
    var s2 := Refresh(w.s, a, now).0;
    DeadlineIsLeast(s2, a);
    assert s2.order[0] == a || s2.order[0] == s1.order[0];
  }

  // ---- firing -----------------------------------------------------------------------------------

  /** The clock values at which the callback of timer a is listed in the course of a run. */
  ghost function Firings(w: World, ops: seq<Op>, a: Addr): seq<nat>
    requires Valid(w.s) && Runs(w, ops)
    decreases |ops|
  {
    if ops == [] then []
    else
      DoKeepsValid(w, ops[0]);
      (if ops[0].ExpireOp? && a in Expired(w.s, ops[0].read) then [ops[0].read] else [])
      + Firings(Do(w, ops[0]), ops[1..], a)
  }

  /** A timer without a callback stays so: nothing ever gives it one. */
  lemma DeadStaysDead(w: World, op: Op, a: Addr)
    requires Valid(w.s) && Enabled(w.s, op) && a in w.s.heap && !Live(w.s.heap, a)
    ensures a in Do(w, op).s.heap && !Live(Do(w, op).s.heap, a)
    ensures op.ExpireOp? ==> a !in Expired(w.s, op.read)
    ensures op == CancelOp(a, op.now) ==> !Cancel(w.s, a).1
  {
    if op.ExpireOp? {
      ExpiryIsExact(w.s, op.read);
    }
  }

  /** Never after a successful cancel, nor after the firing of a one-shot timer. */
  lemma {:induction false} DeadTimerNeverFires(w: World, ops: seq<Op>, a: Addr)
    requires Valid(w.s) && Runs(w, ops) && a in w.s.heap && !Live(w.s.heap, a)
    ensures Firings(w, ops, a) == []
    decreases |ops|
  {
    if ops != [] {
      DoKeepsValid(w, ops[0]);
      DeadStaysDead(w, ops[0], a);
      DeadTimerNeverFires(Do(w, ops[0]), ops[1..], a);
    }
  }

  lemma OneShotStays(w: World, op: Op, a: Addr)
    requires Valid(w.s) && Enabled(w.s, op) && a in w.s.heap && !w.s.heap[a].recurring
    ensures a in Do(w, op).s.heap && !Do(w, op).s.heap[a].recurring
    ensures op.ExpireOp? && a in Expired(w.s, op.read) ==> !Live(Do(w, op).s.heap, a)
  {
    if op.ExpireOp? {
      ExpiryIsExact(w.s, op.read);
    }
  }

  /** A one-shot timer fires at most once, whatever is done to it and whatever the clock does. */
  lemma {:induction false} OneShotFiresOnce(w: World, ops: seq<Op>, a: Addr)
    requires Valid(w.s) && Runs(w, ops) && a in w.s.heap && !w.s.heap[a].recurring
    ensures |Firings(w, ops, a)| <= 1
    decreases |ops|
  {
    if ops != [] {
      DoKeepsValid(w, ops[0]);
      OneShotStays(w, ops[0], a);
      if ops[0].ExpireOp? && a in Expired(w.s, ops[0].read) {
        DeadTimerNeverFires(Do(w, ops[0]), ops[1..], a);
      } else {
        OneShotFiresOnce(Do(w, ops[0]), ops[1..], a);
      }
    }
  }

  /** The operation leaves the deadline of timer a to the expiries. */
  predicate LeavesAlone(op: Op, a: Addr) {
    match op
    case RefreshOp(b, _) => b != a
    case ResetOp(b, _, _, _) => b != a
    case _ => true
  }

  ghost predicate Undisturbed(w: World, ops: seq<Op>, a: Addr)
    requires Valid(w.s) && Runs(w, ops)
    decreases |ops|
  {
    ops == [] || (DoKeepsValid(w, ops[0]);
      && LeavesAlone(ops[0], a)
      && (ops[0].ExpireOp? ==> !Rollover(w.s, ops[0].read) && (a in w.s.heap ==> ops[0].read + w.s.heap[a].ms < U64))
      && Undisturbed(Do(w, ops[0]), ops[1..], a))
  }

  lemma RecurringStep(w: World, op: Op, a: Addr)
    requires Valid(w.s) && Enabled(w.s, op) && a in w.s.heap && w.s.heap[a].recurring && LeavesAlone(op, a)
    requires op.ExpireOp? ==> !Rollover(w.s, op.read) && op.read + w.s.heap[a].ms < U64
    ensures var h, h1 := w.s.heap, Do(w, op).s.heap;
      && a in h1 && h1[a].recurring && h1[a].ms == h[a].ms
      && (op.ExpireOp? && a in Expired(w.s, op.read) ==> h[a].next <= op.read && h1[a].next == op.read + h[a].ms)
      && (!(op.ExpireOp? && a in Expired(w.s, op.read)) ==> h1[a].next == h[a].next)
  {
    if op.ExpireOp? {
      ExpiryIsExact(w.s, op.read);
    }
  }

  /**
   The k-th firing of a recurring timer that is neither refreshed nor reset comes no earlier
   than its first deadline plus k periods, counting from 0.
   */
  lemma {:induction false} RecurringKeepsItsPeriod(w: World, ops: seq<Op>, a: Addr, k: nat)
    requires Valid(w.s) && Runs(w, ops) && Undisturbed(w, ops, a)
    requires a in w.s.heap && w.s.heap[a].recurring && k < |Firings(w, ops, a)|
    ensures Firings(w, ops, a)[k] >= w.s.heap[a].next + k * w.s.heap[a].ms
    decreases |ops|
  {
    DoKeepsValid(w, ops[0]);
    RecurringStep(w, ops[0], a);
    var w1 := Do(w, ops[0]);
    var rest := Firings(w1, ops[1..], a);
    if ops[0].ExpireOp? && a in Expired(w.s, ops[0].read) {
      assert Firings(w, ops, a) == [ops[0].read] + rest;
      if k > 0 {
        RecurringKeepsItsPeriod(w1, ops[1..], a, k - 1);
        assert Firings(w, ops, a)[k] == rest[k - 1];
        assert (k - 1) * w.s.heap[a].ms + w.s.heap[a].ms == k * w.s.heap[a].ms;
      }
    } else {
      assert Firings(w, ops, a) == rest;
      RecurringKeepsItsPeriod(w1, ops[1..], a, k);
    }
  }

  predicate AllLeaveAlone(ops: seq<Op>, a: Addr) {
    forall i :: 0 <= i < |ops| ==> LeavesAlone(ops[i], a)
  }

  lemma {:induction false} SteadyIsUndisturbed(w: World, ops: seq<Op>, a: Addr)
    requires InTime(w) && Runs(w, ops) && AllTimely(w, ops) && AllLeaveAlone(ops, a)
    ensures Undisturbed(w, ops, a)
    decreases |ops|
  {
    if ops != [] {
      DoKeepsValid(w, ops[0]);
      if ops[0].ExpireOp? {
        NoRollover(w, ops[0]);
      }
      StepInTime(w, ops[0]);
      assert forall i :: 0 <= i < |ops[1..]| ==> ops[1..][i] == ops[i + 1];
      SteadyIsUndisturbed(Do(w, ops[0]), ops[1..], a);
    }
  }

  /** Under a monotone clock no rollover is detected, and the bound holds for every run that leaves the timer alone. */
  lemma RecurringKeepsItsPeriodInTime(w: World, ops: seq<Op>, a: Addr, k: nat)
    requires InTime(w) && Runs(w, ops) && AllTimely(w, ops) && AllLeaveAlone(ops, a)
    requires a in w.s.heap && w.s.heap[a].recurring && k < |Firings(w, ops, a)|
    ensures Firings(w, ops, a)[k] >= w.s.heap[a].next + k * w.s.heap[a].ms
  {
    SteadyIsUndisturbed(w, ops, a);
    RecurringKeepsItsPeriod(w, ops, a, k);
  }

  // ---- when a timer fires first -------------------------------------------------------------------

  /** Nobody retimes or cancels timer a. */
  predicate Untouched(ops: seq<Op>, a: Addr) {
    forall i :: 0 <= i < |ops| ==> LeavesAlone(ops[i], a) && !(ops[i].CancelOp? && ops[i].a == a)
  }

  /** The clock values of the expiries at or after the deadline. */
  function DueAt(ops: seq<Op>, deadline: int): seq<nat> {
    if ops == [] then []
    else (if ops[0].ExpireOp? && ops[0].read >= deadline then [ops[0].read] else []) + DueAt(ops[1..], deadline)
  }

  lemma UntouchedStep(w: World, op: Op, a: Addr)
    requires InTime(w) && Enabled(w.s, op) && Timely(w, op) && Live(w.s.heap, a)
    requires LeavesAlone(op, a) && !(op.CancelOp? && op.a == a)
    ensures op.ExpireOp? ==> (a in Expired(w.s, op.read) <==> op.read >= w.s.heap[a].next)
    ensures !(op.ExpireOp? && op.read >= w.s.heap[a].next)
      ==> Live(Do(w, op).s.heap, a) && Do(w, op).s.heap[a].next == w.s.heap[a].next
  {
    if op.ExpireOp? {
      NoRollover(w, op);
      ExpiryIsExact(w.s, op.read);
    }
  }

  /** A live timer that is left alone fires first at the first expiry at or after its deadline, if there is one. */
  lemma {:induction false} FirstFiringIs(w: World, ops: seq<Op>, a: Addr)
    requires InTime(w) && Runs(w, ops) && AllTimely(w, ops) && Untouched(ops, a) && Live(w.s.heap, a)
    ensures var f, due := Firings(w, ops, a), DueAt(ops, w.s.heap[a].next);
      (f == [] <==> due == []) && (f != [] ==> f[0] == due[0])
    decreases |ops|
  {
    if ops != [] {
      DoKeepsValid(w, ops[0]);
      UntouchedStep(w, ops[0], a);
      if !(ops[0].ExpireOp? && ops[0].read >= w.s.heap[a].next) {
        StepInTime(w, ops[0]);
        assert forall i :: 0 <= i < |ops[1..]| ==> ops[1..][i] == ops[i + 1];
        FirstFiringIs(Do(w, ops[0]), ops[1..], a);
      }
    }
  }

  /** The deadline that an operation on a live timer promises. */
  function Promised(w: World, op: Op): int
    requires Enabled(w.s, op) && (op.AddOp? || op.RefreshOp? || op.ResetOp?)
  {
    match op
    case AddOp(_, ms, _, _, read, _) => read + ms
    case RefreshOp(a, now) => now + w.s.heap[a].ms
    case ResetOp(a, ms, fromNow, now) => if fromNow then now + ms else w.s.heap[a].next - w.s.heap[a].ms + ms
  }

  lemma ResetPromiseIsKept(w: World, op: Op)
    requires InTime(w) && Enabled(w.s, op) && Timely(w, op) && op.ResetOp? && Live(w.s.heap, op.a)
    ensures Live(Do(w, op).s.heap, op.a) && Do(w, op).s.heap[op.a].next == Promised(w, op)
  {
    var t := w.s.heap[op.a];
    assert Started(w, op.a);
    assert 0 <= t.next - t.ms + op.ms < U64;
    ResetIs(w.s, op.a, op.ms, op.fromNow, op.now);
  }

  lemma PromiseIsKept(w: World, op: Op)
    requires InTime(w) && Enabled(w.s, op) && Timely(w, op) && (op.AddOp? || op.RefreshOp? || op.ResetOp?)
    requires op.AddOp? || Live(w.s.heap, op.a)
    ensures Live(Do(w, op).s.heap, op.a) && Do(w, op).s.heap[op.a].next == Promised(w, op)
  {
    match op
    case AddOp(a, ms, cb, recurring, read, _) => AddIs(w.s, a, ms, Some(cb), recurring, read);
    case RefreshOp(a, now) => RefreshIs(w.s, a, now);
    case ResetOp(_, _, _, _) => ResetPromiseIsKept(w, op);
  }

  /**
   After `addTimer`, `refresh` or `reset` a timer that is left alone fires first at the first
   expiry at or after the deadline promised, and never before.
   */
  lemma RetimedTimerFires(w: World, ops: seq<Op>)
    requires InTime(w) && Runs(w, ops) && AllTimely(w, ops)
    requires ops != [] && (ops[0].AddOp? || ops[0].RefreshOp? || ops[0].ResetOp?)
    requires (ops[0].AddOp? || Live(w.s.heap, ops[0].a)) && Untouched(ops[1..], ops[0].a)
    ensures var f, due := Firings(w, ops, ops[0].a), DueAt(ops, Promised(w, ops[0]));
      (f == [] <==> due == []) && (f != [] ==> f[0] == due[0])
  {
    DoKeepsValid(w, ops[0]);
    StepInTime(w, ops[0]);
    PromiseIsKept(w, ops[0]);
    FirstFiringIs(Do(w, ops[0]), ops[1..], ops[0].a);
  }

  /** A timer refreshed at `now` does not fire before now + ms, unless it is retimed again. */
  lemma RefreshPostpones(w: World, ops: seq<Op>, i: nat)
    requires InTime(w) && Runs(w, ops) && AllTimely(w, ops)
    requires ops != [] && ops[0].RefreshOp? && AllLeaveAlone(ops[1..], ops[0].a)
    requires i < |Firings(w, ops, ops[0].a)|
    ensures Firings(w, ops, ops[0].a)[i] >= ops[0].now + w.s.heap[ops[0].a].ms
  {
    var op := ops[0];
    DoKeepsValid(w, op);
    StepInTime(w, op);
    if Live(w.s.heap, op.a) {
      PromiseIsKept(w, op);
      NoneBeforeDeadline(Do(w, op), ops[1..], op.a, i);
    } else {
      DeadTimerNeverFires(w, ops, op.a);
    }
  }

  /** One operation that leaves timer a to the expiries: it fires at or after its deadline, which does not drop. */
  lemma AloneStep(w: World, op: Op, a: Addr)
    requires InTime(w) && Enabled(w.s, op) && Timely(w, op) && LeavesAlone(op, a) && a in w.s.heap
    ensures a in Do(w, op).s.heap && InTime(Do(w, op))
    ensures op.ExpireOp? && a in Expired(w.s, op.read) ==> op.read >= w.s.heap[a].next
    ensures Live(Do(w, op).s.heap, a) ==> w.s.heap[a].next <= Do(w, op).s.heap[a].next
  {
    StepInTime(w, op);
    if op.ExpireOp? {
      NoRollover(w, op);
      ExpiryIsExact(w.s, op.read);
      ExpireRaises(w, op, a);
    }
  }

  /** No firing of a timer that nobody retimes comes before its deadline. */
  lemma {:induction false} NoneBeforeDeadline(w: World, ops: seq<Op>, a: Addr, i: nat)
    requires InTime(w) && Runs(w, ops) && AllTimely(w, ops) && AllLeaveAlone(ops, a) && a in w.s.heap
    requires i < |Firings(w, ops, a)|
    ensures Firings(w, ops, a)[i] >= w.s.heap[a].next
    decreases |ops|
  {
    DoKeepsValid(w, ops[0]);
    AloneStep(w, ops[0], a);
    var w1 := Do(w, ops[0]);
    var own := ops[0].ExpireOp? && a in Expired(w.s, ops[0].read);
    var rest := Firings(w1, ops[1..], a);
    assert Firings(w, ops, a) == (if own then [ops[0].read] else []) + rest;
    if !own || i > 0 {
      var j := if own then i - 1 else i;
      assert Firings(w, ops, a)[i] == rest[j];
      if Live(w1.s.heap, a) {
        assert forall k :: 0 <= k < |ops[1..]| ==> ops[1..][k] == ops[k + 1];
        NoneBeforeDeadline(w1, ops[1..], a, j);
      } else {
        DeadTimerNeverFires(w1, ops[1..], a);
      }
    }
  }

  // ---- the timeout of epoll_wait ---------------------------------------------------------------

  const LONG: nat := 0x8000_0000

  /** No timer is ever given a period of `bound` or more. */
  predicate PeriodsBelow(ops: seq<Op>, bound: nat) {
    forall i :: 0 <= i < |ops| ==>
      (ops[i].AddOp? ==> ops[i].ms < bound) && (ops[i].ResetOp? ==> ops[i].ms < bound)
  }

  predicate Short(w: World, bound: nat) {
    forall a :: a in w.s.heap ==> w.s.heap[a].ms < bound
  }

  lemma StepKeepsShort(w: World, op: Op, bound: nat)
    requires Valid(w.s) && Enabled(w.s, op) && Short(w, bound)
    requires (op.AddOp? ==> op.ms < bound) && (op.ResetOp? ==> op.ms < bound)
    ensures Short(Do(w, op), bound)
  {
    if op.ExpireOp? {
      ExpiryIsExact(w.s, op.read);
    }
  }

  lemma {:induction false} RunKeepsShort(w: World, ops: seq<Op>, bound: nat)
    requires InTime(w) && Short(w, bound) && Runs(w, ops) && AllTimely(w, ops) && PeriodsBelow(ops, bound)
    ensures InTime(RunAll(w, ops)) && Short(RunAll(w, ops), bound)
    decreases |ops|
  {
    if ops != [] {
      DoKeepsValid(w, ops[0]);
      StepInTime(w, ops[0]);
      StepKeepsShort(w, ops[0], bound);
      assert forall i :: 0 <= i < |ops[1..]| ==> ops[1..][i] == ops[i + 1];
      RunKeepsShort(Do(w, ops[0]), ops[1..], bound);
    }
  }

  /** The timeout that the idle loop computes at `now`. */
  function TimeoutAt(w: World, now: nat): int
    requires Known(w.s.heap, w.s.order)
  {
    PollTimeout(NextTimer(w.s, now).1)
  }

  /** With short periods the wait is short, so the cast keeps it. */
  lemma ShortWaitIsKept(w: World, now: nat)
    requires InTime(w) && Short(w, LONG) && now >= w.clock
    ensures TimeoutAt(w, now) == if NextTimer(w.s, now).1 < 3000 then NextTimer(w.s, now).1 else 3000
  {
    var wait := NextTimer(w.s, now).1;
    if w.s.order != [] {
      assert w.s.order[0] in w.s.order && Started(w, w.s.order[0]);
    }
    TimeoutInRangeIff(wait);
  }

  function Fresh(start: nat): World {
    World(Timers(map[], [], false, start), start, U64)
  }

  /** The run is one of a new manager under a monotone clock. */
  ghost predicate TimelyFrom(start: nat, ops: seq<Op>) {
    HOUR <= start < U64 && Valid(Fresh(start).s) && Runs(Fresh(start), ops) && AllTimely(Fresh(start), ops)
  }

  /** The timeout computed at `now` or later after a timely run is one `epoll_wait` returns from. */
  ghost predicate InRangeAfter(start: nat, ops: seq<Op>, now: nat) {
    TimelyFrom(start, ops) && now >= RunAll(Fresh(start), ops).clock ==>
      var w := RunAll(Fresh(start), ops);
      Known(w.s.heap, w.s.order) && 0 <= TimeoutAt(w, now) <= MAX_TIMEOUT
  }

  /** Periods below the bound keep every timeout of every timely run in range. */
  ghost predicate KeepsTimeouts(bound: nat) {
    forall start: nat, ops: seq<Op>, now: nat :: PeriodsBelow(ops, bound) ==> InRangeAfter(start, ops, now)
  }

  /** A timer whose period casts to a negative number, polled when it is added: `epoll_wait` is told to wait for ever. */
  lemma LongTimerWaitsForever(start: nat, a: Addr, ms: nat, cb: Callback)
    requires HOUR <= start && start + ms < U64 && ms % 0x1_0000_0000 >= LONG
    ensures var op := AddOp(a, ms, cb, false, start, start);
      && TimelyFrom(start, [op]) && RunAll(Fresh(start), [op]).clock == start
      && var w := RunAll(Fresh(start), [op]); Known(w.s.heap, w.s.order) && TimeoutAt(w, start) == ToInt32(ms) < 0
  {
    var op := AddOp(a, ms, cb, false, start, start);
    DoKeepsValid(Fresh(start), op);
    assert [op][1..] == [];
    var w := Do(Fresh(start), op);
    assert RunAll(Fresh(start), [op]) == RunAll(w, []) == w;
    assert w.s.order == [a] && NextTimer(w.s, start).1 == ms;
  }

  /** Timeouts stay in range exactly for periods below 2^31. */
  lemma KeepsTimeoutsIff(bound: nat)
    ensures KeepsTimeouts(bound) <==> bound <= LONG
  {
    if bound <= LONG {
      forall start: nat, ops: seq<Op>, now: nat | PeriodsBelow(ops, bound) ensures InRangeAfter(start, ops, now) {
        if TimelyFrom(start, ops) && now >= RunAll(Fresh(start), ops).clock {
          RunKeepsShort(Fresh(start), ops, bound);
          ShortWaitIsKept(RunAll(Fresh(start), ops), now);
        }
      }
    } else {
      LongTimerWaitsForever(HOUR, 0, LONG, 0);
      var op := AddOp(0, LONG, 0, false, HOUR, HOUR);
      assert PeriodsBelow([op], bound) && !InRangeAfter(HOUR, [op], HOUR);
    }
  }
}
