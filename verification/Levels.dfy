/**
 The event table and the timer set are what the transition system says they are: seen through
 the multiset of registered continuations, the pending count and the multiset of live timers,
 each operation of the detailed models is a sequence of actions on the shared memory.
 */
module Levels {
  import opened Prelude
  import M = SchedulerModel
  import E = EventTable
  import EF = EventFacts
  import T = TimerSpec
  import TF = TimerFacts

  // ---- the event table ---------------------------------------------------------------------------

  function WorkOf(c: E.Continuation): M.Work {
    match c
    case Call(cb) => M.Call(cb)
    case Resume(f) => M.Fib(f)
  }

  predicate InSlot(s: E.Slot, x: M.Work) {
    if s.cb.Some? then x == M.Call(s.cb.value) else s.fiber.Some? && x == M.Fib(s.fiber.value)
  }

  function InContext(x: M.Work): E.Context -> nat {
    (c: E.Context) => (if InSlot(c.read, x) then 1 else 0) + if InSlot(c.write, x) then 1 else 0
  }

  /** How often the table holds this continuation, for whatever scheduler. */
  function Held(t: E.Table, x: M.Work): nat {
    Sum(InContext(x), t.contexts)
  }

  /** The memory has the registrations and the pending count of the table. */
  ghost predicate Shows(m: M.Mem, t: E.Table) {
    m.io.pending == t.pending && forall x :: m.io.slots[x] == Held(t, x)
  }

  /** The triggers and decrements for these tasks, one after another. */
  function Replay(m: M.Mem, ts: seq<E.Task>): Option<M.Mem>
    decreases |ts|
  {
    if ts == [] then Some(m)
    else match M.Trigger(m, WorkOf(ts[0].what))
      case None => None
      case Some(m1) => Replay(M.Settled(m1), ts[1..])
  }

  /** The tasks an operation has scheduled. */
  function Newly(t: E.Table, t1: E.Table): seq<E.Task> {
    if |t.scheduled| <= |t1.scheduled| then t1.scheduled[|t.scheduled|..] else []
  }

  /** From t to t1 the memory goes by triggers alone. */
  ghost predicate Replays(m: M.Mem, t: E.Table, t1: E.Table) {
    && t.scheduled <= t1.scheduled
    && Replay(m, Newly(t, t1)).Some?
    && Shows(Replay(m, Newly(t, t1)).value, t1)
  }

  lemma FireIsTrigger(m: M.Mem, t: E.Table, fd: nat, e: E.Event)
    requires E.Booked(t) && fd < |t.contexts| && E.Has(t.contexts[fd].events, e) && M.Free(m) && Shows(m, t)
    ensures var t1, x := E.Fire(t, fd, e), E.TaskOf(E.SlotOf(t.contexts[fd], e));
      && t1.scheduled == t.scheduled + [x]
      && M.Trigger(m, WorkOf(x.what)).Some?
      && var m1 := M.Settled(M.Trigger(m, WorkOf(x.what)).value); M.Free(m1) && Shows(m1, t1)
  {
    assert E.Fits(t.contexts[fd], fd);
    var x := WorkOf(E.TaskOf(E.SlotOf(t.contexts[fd], e)).what);
    forall y ensures Held(t, y) == Held(E.Fire(t, fd, e), y) + if y == x then 1 else 0 {
      SlotEmptied(t, E.Fire(t, fd, e), fd, e, y);
    }
  }

  /** Emptying a slot takes its continuation out of the table, and no other. */
  lemma SlotEmptied(t: E.Table, t1: E.Table, fd: nat, e: E.Event, y: M.Work)
    requires fd < |t.contexts| && E.SlotFits(E.SlotOf(t.contexts[fd], e), true)
    requires t1.contexts == t.contexts[fd := E.PutSlot(t.contexts[fd], e, false, E.EMPTY)]
    ensures Held(t, y) == Held(t1, y) + if y == WorkOf(E.TaskOf(E.SlotOf(t.contexts[fd], e)).what) then 1 else 0
  {
    SumUpdate(InContext(y), t.contexts, fd, E.PutSlot(t.contexts[fd], e, false, E.EMPTY));
  }

  lemma SlotFilled(t: E.Table, t1: E.Table, fd: nat, e: E.Event, s: E.Slot, y: M.Work)
    requires fd < |t.contexts| && E.SlotOf(t.contexts[fd], e) == E.EMPTY && E.SlotFits(s, true)
    requires t1.contexts == t.contexts[fd := E.PutSlot(t.contexts[fd], e, true, s)]
    ensures Held(t1, y) == Held(t, y) + if y == WorkOf(E.TaskOf(s).what) then 1 else 0
  {
    SumUpdate(InContext(y), t.contexts, fd, E.PutSlot(t.contexts[fd], e, true, s));
  }

  lemma FireIfReplays(m: M.Mem, t: E.Table, fd: nat, e: E.Event, wanted: bool)
    requires E.Booked(t) && fd < |t.contexts| && M.Free(m) && Shows(m, t)
    ensures Replays(m, t, E.FireIf(t, fd, e, wanted).0)
    ensures M.Free(Replay(m, Newly(t, E.FireIf(t, fd, e, wanted).0)).value)
  {
    var t1 := E.FireIf(t, fd, e, wanted).0;
    if wanted && E.Has(t.contexts[fd].events, e) {
      FireIsTrigger(m, t, fd, e);
      var x := E.TaskOf(E.SlotOf(t.contexts[fd], e));
      assert Newly(t, t1) == [x] && [x][1..] == [];
      var m1 := M.Settled(M.Trigger(m, WorkOf(x.what)).value);
      assert Replay(m, [x]) == Replay(m1, []);
    } else {
      assert Newly(t, t1) == [];
    }
  }

  lemma {:induction false} ReplayConcat(m: M.Mem, a: seq<E.Task>, b: seq<E.Task>)
    requires Replay(m, a).Some?
    ensures Replay(m, a + b) == Replay(Replay(m, a).value, b)
    decreases |a|
  {
    if a == [] {
      assert a + b == b;
    } else {
      assert (a + b)[1..] == a[1..] + b;
      ReplayConcat(M.Settled(M.Trigger(m, WorkOf(a[0].what)).value), a[1..], b);
    }
  }

  lemma FireBothReplays(m: M.Mem, t: E.Table, fd: nat, wanted: E.Mask)
    requires E.Booked(t) && fd < |t.contexts| && M.Free(m) && Shows(m, t)
    ensures Replays(m, t, E.FireBoth(t, fd, wanted).0)
  {
    EF.FireIfFacts(t, fd, E.Read, wanted.read);
    var t1 := E.FireIf(t, fd, E.Read, wanted.read).0;
    FireIfReplays(m, t, fd, E.Read, wanted.read);
    var m1 := Replay(m, Newly(t, t1)).value;
    FireIfReplays(m1, t1, fd, E.Write, wanted.write);
    var t2 := E.FireIf(t1, fd, E.Write, wanted.write).0;
    assert Newly(t, t2) == Newly(t, t1) + Newly(t1, t2);
    ReplayConcat(m, Newly(t, t1), Newly(t1, t2));
    assert Newly(t1, t1) == [];
  }

  lemma CancelIsReplayed(m: M.Mem, t: E.Table, op: E.Op)
    requires E.Enabled(t, op) && op.Cancel? && M.Free(m) && Shows(m, t)
    ensures Replays(m, t, E.Do(t, op).0)
  {
    assert Newly(t, t) == [];
    if op.fd < |t.contexts| {
      var left := E.Put(t.contexts[op.fd].events, op.event, false);
      var k := E.EpollCtl(t.kernel, if left == E.NONE then E.DEL else E.MOD, op.fd, left, op.ok).0;
      FireIfReplays(m, t.(kernel := k), op.fd, op.event, true);
    }
  }

  lemma AllIsReplayed(m: M.Mem, t: E.Table, op: E.Op)
    requires E.Enabled(t, op) && op.All? && M.Free(m) && Shows(m, t)
    ensures Replays(m, t, E.Do(t, op).0)
  {
    assert Newly(t, t) == [];
    if op.fd < |t.contexts| {
      var k := E.EpollCtl(t.kernel, E.DEL, op.fd, E.NONE, op.ok).0;
      FireBothReplays(m, t.(kernel := k), op.fd, t.contexts[op.fd].events);
    }
  }

  lemma PollIsReplayed(m: M.Mem, t: E.Table, op: E.Op)
    requires E.Enabled(t, op) && op.Poll? && M.Free(m) && Shows(m, t)
    ensures Replays(m, t, E.Do(t, op).0)
  {
    assert Newly(t, t) == [];
    var c := t.contexts[op.fd];
    var acted := E.RealEvents(op.ready, op.broken, c.events);
    var left := E.Minus(c.events, acted);
    var k := E.EpollCtl(t.kernel, if left == E.NONE then E.DEL else E.MOD, c.fd, left, op.ok).0;
    FireBothReplays(m, t.(kernel := k), op.fd, acted);
  }

  /** `cancelEvent`, `cancelAll` and the handling of a report trigger continuations of the table, in the order scheduled. */
  lemma TriggersAreReplayed(m: M.Mem, t: E.Table, op: E.Op)
    requires E.Enabled(t, op) && (op.Cancel? || op.All? || op.Poll?) && M.Free(m) && Shows(m, t)
    ensures Replays(m, t, E.Do(t, op).0)
  {
    if op.Cancel? {
      CancelIsReplayed(m, t, op);
    } else if op.All? {
      AllIsReplayed(m, t, op);
    } else {
      PollIsReplayed(m, t, op);
    }
  }

  lemma GrowthShows(m: M.Mem, t: E.Table, fd: nat)
    requires E.Booked(t) && fd >= |t.contexts| && Shows(m, t)
    ensures Shows(m, E.Grown(t, fd))
  {
    var more := E.Grown(t, fd).contexts[|t.contexts|..];
    assert E.Grown(t, fd).contexts == t.contexts + more;
    forall x ensures Held(E.Grown(t, fd), x) == Held(t, x) {
      SumAppend(InContext(x), t.contexts, more);
      SumZero(InContext(x), more);
    }
  }

  /** A successful `addEvent` is the action that registers its continuation; any other answer changes nothing seen. */
  lemma AddIsAddSlot(m: M.Mem, t: E.Table, op: E.Op)
    requires E.Enabled(t, op) && op.Add? && Shows(m, t)
    ensures var (t1, r) := E.Do(t, op);
      Shows(if r == E.Yes then M.AddSlot(m, if op.cb.Some? then M.Call(op.cb.value) else M.Fib(op.fiber)) else m, t1)
  {
    E.GrowthCovers(t, op.fd);
    if op.fd >= |t.contexts| {
      EF.GrowthKeepsBooked(t, op.fd);
      GrowthShows(m, t, op.fd);
    }
    RegisterIsAddSlot(m, if op.fd < |t.contexts| then t else E.Grown(t, op.fd), op.fd, op.event,
                      E.Filled(Some(op.scheduler), op.fiber, op.cb), op.ok);
  }

  lemma RegisterIsAddSlot(m: M.Mem, t: E.Table, fd: nat, e: E.Event, s: E.Slot, ok: bool)
    requires E.Booked(t) && fd < |t.contexts| && E.SlotFits(s, true) && Shows(m, t)
    ensures var (t1, r) := E.Register(t, fd, e, s, ok);
      Shows(if r == E.Yes then M.AddSlot(m, WorkOf(E.TaskOf(s).what)) else m, t1)
  {
    assert E.Fits(t.contexts[fd], fd);
    var (t1, r) := E.Register(t, fd, e, s, ok);
    if r == E.Yes {
      forall y ensures Held(t1, y) == Held(t, y) + if y == WorkOf(E.TaskOf(s).what) then 1 else 0 {
        SlotFilled(t, t1, fd, e, s, y);
      }
    }
  }

  /** A successful `delEvent` is the action that forgets the continuation. */
  lemma DelIsDelete(m: M.Mem, t: E.Table, op: E.Op)
    requires E.Enabled(t, op) && op.Del? && E.Do(t, op).1 == E.Yes && Shows(m, t)
    ensures E.SlotFits(E.SlotOf(t.contexts[op.fd], op.event), true)
    ensures var m1 := M.Shared(m, M.Delete(WorkOf(E.TaskOf(E.SlotOf(t.contexts[op.fd], op.event)).what)));
      m1.Some? && Shows(m1.value, E.Do(t, op).0)
  {
    assert E.Fits(t.contexts[op.fd], op.fd);
    var t1 := E.Do(t, op).0;
    var x := WorkOf(E.TaskOf(E.SlotOf(t.contexts[op.fd], op.event)).what);
    forall y ensures Held(t, y) == Held(t1, y) + if y == x then 1 else 0 {
      SlotEmptied(t, t1, op.fd, op.event, y);
    }
  }

  // ---- the timers ----------------------------------------------------------------------------------

  function Entry(t: T.Rec): M.TimerEntry {
    M.TimerEntry(if t.cb.Some? then t.cb.value else 0, t.recurring)
  }

  /** How many timers of a sequence have this entry. */
  function Count(h: T.Heap, o: seq<T.Addr>, e: M.TimerEntry): nat
    requires T.Known(h, o)
  {
    if o == [] then 0 else (if Entry(h[o[0]]) == e then 1 else 0) + Count(h, o[1..], e)
  }

  /** The memory has the timers of the set. */
  ghost predicate ShowsTimers(m: M.Mem, s: T.Timers)
    requires T.Known(s.heap, s.order)
  {
    forall e :: m.io.timers[e] == Count(s.heap, s.order, e)
  }

  lemma {:induction false} CountAgrees(h: T.Heap, h1: T.Heap, o: seq<T.Addr>, e: M.TimerEntry)
    requires T.Known(h, o) && T.Known(h1, o) && forall a :: a in o ==> Entry(h[a]) == Entry(h1[a])
    ensures Count(h, o, e) == Count(h1, o, e)
  {
    if o != [] {
      assert o[0] in o && forall a :: a in o[1..] ==> a in o;
      CountAgrees(h, h1, o[1..], e);
    }
  }

  lemma {:induction false} CountSplit(h: T.Heap, a: seq<T.Addr>, b: seq<T.Addr>, e: M.TimerEntry)
    requires T.Known(h, a) && T.Known(h, b)
    ensures Count(h, a + b, e) == Count(h, a, e) + Count(h, b, e)
  {
    if a == [] {
      assert a + b == b;
    } else {
      assert (a + b)[1..] == a[1..] + b;
      CountSplit(h, a[1..], b, e);
    }
  }

  lemma {:induction false} InsertCounts(h: T.Heap, o: seq<T.Addr>, a: T.Addr, e: M.TimerEntry)
    requires T.Known(h, o) && a in h
    ensures Count(h, T.Insert(h, o, a), e) == Count(h, o, e) + if Entry(h[a]) == e then 1 else 0
  {
    if o == [] || T.Less(h, a, o[0]) {
      assert ([a] + o)[1..] == o;
    } else {
      InsertCounts(h, o[1..], a, e);
      assert ([o[0]] + T.Insert(h, o[1..], a))[1..] == T.Insert(h, o[1..], a);
    }
  }

  lemma {:induction false} RemoveCounts(h: T.Heap, o: seq<T.Addr>, a: T.Addr, e: M.TimerEntry)
    requires T.Known(h, o) && a in o
    ensures Count(h, T.Remove(o, a), e) + (if Entry(h[a]) == e then 1 else 0) == Count(h, o, e)
  {
    if o[0] != a {
      RemoveCounts(h, o[1..], a, e);
      assert ([o[0]] + T.Remove(o[1..], a))[1..] == T.Remove(o[1..], a);
    }
  }

  /** `addTimer` is the action that adds the entry of the new timer. */
  lemma AddIsAddTimer(m: M.Mem, s: T.Timers, a: T.Addr, ms: nat, cb: T.Callback, recurring: bool, start: nat)
    requires T.Valid(s) && a !in s.heap && ShowsTimers(m, s)
    ensures T.Valid(T.Add(s, a, ms, Some(cb), recurring, start))
    ensures var m1 := M.Shared(m, M.AddTimer(M.TimerEntry(cb, recurring)));
      m1.Some? && ShowsTimers(m1.value, T.Add(s, a, ms, Some(cb), recurring, start))
  {
    TF.AddKeepsValid(s, a, ms, Some(cb), recurring, start);
    var h := s.heap[a := T.Rec(recurring, ms, T.Wrap(start + ms), Some(cb))];
    forall e ensures Count(h, T.Insert(h, s.order, a), e) == Count(s.heap, s.order, e) + if M.TimerEntry(cb, recurring) == e then 1 else 0 {
      CountAgrees(s.heap, h, s.order, e);
      InsertCounts(h, s.order, a, e);
    }
  }

  /** A successful `cancel` is the action that drops the entry. */
  lemma CancelIsDropTimer(m: M.Mem, s: T.Timers, a: T.Addr)
    requires T.Valid(s) && T.Live(s.heap, a) && ShowsTimers(m, s)
    ensures T.Valid(T.Cancel(s, a).0)
    ensures var m1 := M.Shared(m, M.DropTimer(Entry(s.heap[a]))); m1.Some? && ShowsTimers(m1.value, T.Cancel(s, a).0)
  {
    TF.CancelKeepsValid(s, a);
    var s1 := T.Cancel(s, a).0;
    T.RemoveFacts(s.heap, s.order, a);
    forall e ensures Count(s1.heap, s1.order, e) + (if Entry(s.heap[a]) == e then 1 else 0) == Count(s.heap, s.order, e) {
      RemoveCounts(s.heap, s.order, a, e);
      CountAgrees(s.heap, s1.heap, s1.order, e);
    }
  }

  /** `refresh` and `reset` move a timer in the set and are invisible to the transition system. */
  lemma RetimingIsInvisible(m: M.Mem, s: T.Timers, a: T.Addr, ms: nat, fromNow: bool, now: nat)
    requires T.Valid(s) && a in s.heap && ShowsTimers(m, s)
    ensures T.Valid(T.Refresh(s, a, now).0) && ShowsTimers(m, T.Refresh(s, a, now).0)
    ensures T.Valid(T.Reset(s, a, ms, fromNow, now).0) && ShowsTimers(m, T.Reset(s, a, ms, fromNow, now).0)
  {
    TF.RefreshKeepsValid(s, a, now);
    TF.ResetKeepsValid(s, a, ms, fromNow, now);
    if s.heap[a].cb.Some? {
      MovedTimer(s, a, s.heap[a].ms, T.Wrap(now + s.heap[a].ms));
      MovedTimer(s, a, ms, T.Wrap((if fromNow then now else T.Wrap(s.heap[a].next - s.heap[a].ms)) + ms));
    }
  }

  lemma MovedTimer(s: T.Timers, a: T.Addr, ms: nat, next: nat)
    requires T.Valid(s) && T.Live(s.heap, a)
    ensures var s1 := T.SetNext(s, a, ms, next);
      && T.Known(s1.heap, s1.order)
      && forall e :: Count(s1.heap, T.Insert(s1.heap, s1.order, a), e) == Count(s.heap, s.order, e)
  {
    TF.SetNextFacts(s, a, ms, next);
    var s1 := T.SetNext(s, a, ms, next);
    forall e ensures Count(s1.heap, T.Insert(s1.heap, s1.order, a), e) == Count(s.heap, s.order, e) {
      RemoveCounts(s.heap, s.order, a, e);
      CountAgrees(s.heap, s1.heap, s1.order, e);
      InsertCounts(s1.heap, s1.order, a, e);
    }
  }

  lemma {:induction false} RearmCounts(h: T.Heap, o: seq<T.Addr>, taken: seq<T.Addr>, now: nat, e: M.TimerEntry)
    requires T.Known(h, o) && T.Known(h, taken)
    requires forall i, j :: 0 <= i < j < |taken| ==> taken[i] != taken[j]
    requires forall x :: x in taken ==> x !in o
    ensures var r := T.Rearm(h, o, taken, now);
      && T.Known(r.0, r.1)
      && Count(r.0, r.1, e) == Count(h, o, e) + if e.recurring then Count(h, taken, e) else 0
    decreases |taken|
  {
    if taken != [] {
      var a := taken[0];
      var h1 := h[a := TF.After(h[a], now)];
      assert forall i :: 0 <= i < |taken[1..]| ==> taken[1..][i] == taken[i + 1];
      assert a in taken && forall x :: x in taken[1..] ==> x in taken && x != a;
      CountAgrees(h, h1, o, e);
      CountAgrees(h, h1, taken[1..], e);
      if h[a].recurring {
        InsertCounts(h1, o, a, e);
        InsertedIsOther(h1, o, a, taken[1..]);
        RearmCounts(h1, T.Insert(h1, o, a), taken[1..], now, e);
      } else {
        RearmCounts(h1, o, taken[1..], now, e);
      }
    }
  }

  lemma {:induction false} InsertedIsOther(h: T.Heap, o: seq<T.Addr>, a: T.Addr, rest: seq<T.Addr>)
    requires T.Known(h, o) && a in h && a !in rest && forall x :: x in rest ==> x !in o
    ensures forall x :: x in rest ==> x !in T.Insert(h, o, a)
  {
    if o != [] && !T.Less(h, a, o[0]) {
      assert o[0] in o && forall x :: x in o[1..] ==> x in o;
      InsertedIsOther(h, o[1..], a, rest);
    }
  }

  function Entries(h: T.Heap, o: seq<T.Addr>): seq<M.TimerEntry>
    requires T.Known(h, o)
  {
    if o == [] then [] else [Entry(h[o[0]])] + Entries(h, o[1..])
  }

  lemma {:induction false} EntriesCount(h: T.Heap, o: seq<T.Addr>, e: M.TimerEntry)
    requires T.Known(h, o)
    ensures multiset(Entries(h, o))[e] == Count(h, o, e)
  {
    if o != [] {
      EntriesCount(h, o[1..], e);
      var first, rest := [Entry(h[o[0]])], Entries(h, o[1..]);
      assert multiset(first + rest) == multiset(first) + multiset(rest);
    }
  }

  lemma {:induction false} RecurringCount(h: T.Heap, o: seq<T.Addr>, e: M.TimerEntry)
    requires T.Known(h, o)
    ensures M.Recurring(Entries(h, o))[e] == if e.recurring then Count(h, o, e) else 0
  {
    if o != [] {
      RecurringCount(h, o[1..], e);
      assert Entries(h, o)[1..] == Entries(h, o[1..]);
    }
  }

  lemma {:induction false} DueIsCallbacks(h: T.Heap, taken: seq<T.Addr>)
    requires T.Known(h, taken) && forall a :: a in taken ==> T.Live(h, a)
    ensures |M.Due(Entries(h, taken))| == |taken| == |T.Callbacks(h, taken)|
    ensures forall i :: 0 <= i < |taken| ==> T.Callbacks(h, taken)[i] == Some(M.Due(Entries(h, taken))[i])
  {
    if taken != [] {
      assert taken[0] in taken && forall a :: a in taken[1..] ==> a in taken;
      DueIsCallbacks(h, taken[1..]);
      assert Entries(h, taken)[1..] == Entries(h, taken[1..]);
    }
  }

  lemma ExpiryCounts(s: T.Timers, now: nat, e: M.TimerEntry)
    requires T.Valid(s)
    ensures T.Known(s.heap, T.Expired(s, now)) && T.Known(T.Expire(s, now).heap, T.Expire(s, now).order)
    ensures Count(s.heap, T.Expired(s, now), e) <= Count(s.heap, s.order, e)
    ensures Count(T.Expire(s, now).heap, T.Expire(s, now).order, e)
      == Count(s.heap, s.order, e) - if e.recurring then 0 else Count(s.heap, T.Expired(s, now), e)
  {
    TF.ExpiredFacts(s, now);
    TF.ExpiryIsExact(s, now);
    var taken := T.Expired(s, now);
    var rest := s.order[|taken|..];
    TF.Split(s.heap, s.order, |taken|);
    assert s.order == taken + rest;
    CountSplit(s.heap, taken, rest, e);
    RearmCounts(s.heap, rest, taken, now, e);
  }

  /**
   `listExpiredCb` is the expiry action of the idle loop for the entries of the timers taken:
   they were in the set, the recurring ones stay in it, and the callbacks listed are the same.
   */
  lemma ExpiryIsExpireStep(me: M.Worker, m: M.Mem, s: T.Timers, now: nat)
    requires T.Valid(s) && ShowsTimers(m, s) && me.pc == M.IdleExpire
    ensures T.Known(s.heap, T.Expired(s, now)) && T.Known(T.Expire(s, now).heap, T.Expire(s, now).order)
    ensures var due := Entries(s.heap, T.Expired(s, now)); var r := M.ExpireStep(me, m, due);
      && r.Some? && ShowsTimers(r.value.1, T.Expire(s, now)) && r.value.0.pc == M.IdleBatch(M.Due(due))
  {
    TF.ExpiredFacts(s, now);
    var due := Entries(s.heap, T.Expired(s, now));
    forall e
      ensures T.Known(T.Expire(s, now).heap, T.Expire(s, now).order)
      ensures multiset(due)[e] <= m.io.timers[e]
      ensures (m.io.timers - multiset(due) + M.Recurring(due))[e] == Count(T.Expire(s, now).heap, T.Expire(s, now).order, e)
    {
      ExpiryCounts(s, now, e);
      EntriesCount(s.heap, T.Expired(s, now), e);
      RecurringCount(s.heap, T.Expired(s, now), e);
    }
    assert multiset(due) <= m.io.timers;
  }

  /** The callbacks the action lists are those `listExpiredCb` returns. */
  lemma ExpiryListsTheSame(s: T.Timers, now: nat, i: nat)
    requires T.Valid(s) && i < |T.Expired(s, now)|
    ensures T.Known(s.heap, T.Expired(s, now))
    ensures var due := M.Due(Entries(s.heap, T.Expired(s, now))); var cbs := T.Callbacks(s.heap, T.Expired(s, now));
      |due| == |cbs| == |T.Expired(s, now)| && cbs[i] == Some(due[i])
  {
    TF.ExpiredFacts(s, now);
    DueIsCallbacks(s.heap, T.Expired(s, now));
  }
}
