/**
 What every operation on the event table keeps, what it answers, and where each continuation goes.
 */
module EventFacts {
  import opened Prelude
  import opened EventTable

  // ---- growing, and changing one entry -------------------------------------------------------

  lemma GrowthKeepsBooked(t: Table, fd: nat)
    requires Booked(t) && |t.contexts| <= 3 * fd / 2
    ensures Booked(Grown(t, fd))
    ensures |t.contexts| <= fd ==> EventsOf(Grown(t, fd), fd) == NONE
  {
    var g := Grown(t, fd);
    var more := g.contexts[|t.contexts|..];
    assert g.contexts == t.contexts + more;
    SumAppend(Bits, t.contexts, more);
    SumZero(Bits, more);
  }

  /** A descriptor the table does not reach is not watched, so the new entries mirror the kernel. */
  lemma GrowthKeepsMirror(t: Table, fd: nat)
    requires Booked(t) && fd >= |t.contexts| && Mirrors(t)
    ensures Mirrors(Grown(t, fd))
  {
    var g := Grown(t, fd);
    forall i | 0 <= i < |g.contexts| ensures Watched(g.kernel, i, g.contexts[i].events) {
      assert i < |t.contexts| || (i !in t.kernel && g.contexts[i].events == NONE);
    }
  }

  lemma OneEntry(t: Table, t1: Table, fd: nat, c: Context)
    requires Booked(t) && fd < |t.contexts| && Fits(c, fd)
    requires t1.contexts == t.contexts[fd := c]
    requires t1.pending == t.pending + Bits(c) - Bits(t.contexts[fd])
    ensures Booked(t1)
  {
    SumUpdate(Bits, t.contexts, fd, c);
  }

  lemma OneEntryMirrors(t: Table, t1: Table, fd: nat, c: Context)
    requires Mirrors(t) && fd < |t.contexts| && t1.contexts == t.contexts[fd := c]
    requires forall x :: x != fd ==> (x in t.kernel <==> x in t1.kernel) && (x in t.kernel ==> t1.kernel[x] == t.kernel[x])
    ensures Mirrors(t1) <==> Watched(t1.kernel, fd, c.events)
  {
    assert t1.contexts[fd] == c;
    forall i | 0 <= i < |t1.contexts| && i != fd ensures Watched(t1.kernel, i, t1.contexts[i].events) {
      assert t1.contexts[i] == t.contexts[i];
    }
  }

  /** `epoll_ctl` touches one descriptor, and afterwards watches what it was told to. */
  lemma ControlIsLocal(k: Interest, c: Control, fd: nat, m: Mask, ok: bool)
    requires c == DEL <==> m == NONE
    ensures var (k1, done) := EpollCtl(k, c, fd, m, ok);
      && (forall x :: x != fd ==> (x in k <==> x in k1) && (x in k ==> k1[x] == k[x]))
      && (done ==> Watched(k1, fd, m)) && (!done ==> k1 == k)
  {
  }

  lemma FireBothFacts(t: Table, fd: nat, wanted: Mask)
    requires Booked(t) && fd < |t.contexts|
    ensures var (t1, r) := FireBoth(t, fd, wanted);
      && Booked(t1) && t1.kernel == t.kernel && (r == Yes || r == Abort)
      && (r == Yes <==> Minus(wanted, t.contexts[fd].events) == NONE)
      && |t1.contexts| == |t.contexts| && t1.contexts == t.contexts[fd := t1.contexts[fd]]
      && (r == Yes ==> EventsOf(t1, fd) == Minus(t.contexts[fd].events, wanted))
  {
    FireIfFacts(t, fd, Read, wanted.read);
    var (t1, r) := FireIf(t, fd, Read, wanted.read);
    FireIfFacts(t1, fd, Write, wanted.write);
    var t2 := FireIf(t1, fd, Write, wanted.write).0;
    assert t2.contexts == t.contexts[fd := t2.contexts[fd]];
  }

  lemma FireIfFacts(t: Table, fd: nat, e: Event, wanted: bool)
    requires Booked(t) && fd < |t.contexts|
    ensures var (t1, r) := FireIf(t, fd, e, wanted);
      && Booked(t1) && t1.kernel == t.kernel && (r == Yes || r == Abort)
      && (r == Yes <==> (wanted ==> Has(t.contexts[fd].events, e)))
      && |t1.contexts| == |t.contexts| && t1.contexts == t.contexts[fd := t1.contexts[fd]]
      && (if r == Yes && wanted then t1.contexts[fd] == PutSlot(t.contexts[fd], e, false, EMPTY) else t1 == t)
  {
    if wanted && Has(t.contexts[fd].events, e) {
      OneEntry(t, Fire(t, fd, e), fd, PutSlot(t.contexts[fd], e, false, EMPTY));
    } else {
      assert t.contexts == t.contexts[fd := t.contexts[fd]];
    }
  }

  // ---- one operation -----------------------------------------------------------------------

  /** Only the entry of the descriptor changes; the table may have grown before. */
  ghost predicate Local(t: Table, t1: Table, fd: nat) {
    && |t1.contexts| >= |t.contexts|
    && (forall i :: 0 <= i < |t.contexts| && i != fd ==> t1.contexts[i] == t.contexts[i])
    && (forall i :: |t.contexts| <= i < |t1.contexts| && i != fd ==> t1.contexts[i] == Fresh(i))
  }

  /** Each operation keeps the table well-formed and stays within its descriptor, aborting or not; `addEvent` may grow it to half as much again as the descriptor. */
  lemma DoKeepsBooked(t: Table, op: Op)
    requires Enabled(t, op)
    ensures Booked(Do(t, op).0) && Local(t, Do(t, op).0, op.fd)
    ensures |Do(t, op).0.contexts| == if op.Add? && op.fd >= |t.contexts| then op.fd + op.fd / 2 else |t.contexts|
  {
    match op
    case Add(fd, e, scheduler, fiber, cb, ok) =>
      AddKeepsBooked(t, fd, e, Filled(Some(scheduler), fiber, cb), ok);
    case Del(fd, e, ok) =>
      if fd < |t.contexts| && Has(t.contexts[fd].events, e) {
        OneEntry(t, DelEvent(t, fd, e, ok).0, fd, PutSlot(t.contexts[fd], e, false, EMPTY));
      }
    case Cancel(_, _, _) => CancelKeepsBooked(t, op);
    case All(_, _) => AllKeepsBooked(t, op);
    case Poll(_, _, _, _) => PollKeepsBooked(t, op);
  }

  lemma CancelKeepsBooked(t: Table, op: Op)
    requires Enabled(t, op) && op.Cancel?
    ensures Booked(Do(t, op).0) && Local(t, Do(t, op).0, op.fd)
  {
    if op.fd < |t.contexts| {
      var left := Put(t.contexts[op.fd].events, op.event, false);
      FireIfFacts(t.(kernel := EpollCtl(t.kernel, if left == NONE then DEL else MOD, op.fd, left, op.ok).0), op.fd, op.event, true);
    }
  }

  lemma AllKeepsBooked(t: Table, op: Op)
    requires Enabled(t, op) && op.All?
    ensures Booked(Do(t, op).0) && Local(t, Do(t, op).0, op.fd)
  {
    if op.fd < |t.contexts| {
      FireBothFacts(t.(kernel := EpollCtl(t.kernel, DEL, op.fd, NONE, op.ok).0), op.fd, t.contexts[op.fd].events);
    }
  }

  lemma PollKeepsBooked(t: Table, op: Op)
    requires Enabled(t, op) && op.Poll?
    ensures Booked(Do(t, op).0) && Local(t, Do(t, op).0, op.fd)
  {
    var acted := RealEvents(op.ready, op.broken, t.contexts[op.fd].events);
    var left := Minus(t.contexts[op.fd].events, acted);
    var k := EpollCtl(t.kernel, if left == NONE then DEL else MOD, t.contexts[op.fd].fd, left, op.ok).0;
    FireBothFacts(t.(kernel := k), op.fd, acted);
  }

  lemma AddKeepsBooked(t: Table, fd: nat, e: Event, s: Slot, ok: bool)
    requires Booked(t) && SlotFits(s, true)
    ensures Covered(t, fd)
    ensures Booked(AddEvent(t, fd, e, s, ok).0) && Local(t, AddEvent(t, fd, e, s, ok).0, fd)
  {
    GrowthCovers(t, fd);
    if fd >= |t.contexts| {
      GrowthKeepsBooked(t, fd);
    }
    var t1 := if fd < |t.contexts| then t else Grown(t, fd);
    if Register(t1, fd, e, s, ok).1 == Yes {
      OneEntry(t1, Register(t1, fd, e, s, ok).0, fd, PutSlot(t1.contexts[fd], e, true, s));
    }
  }

  /** Called on a thread without a scheduler, a successful `addEvent` leaves a slot that cannot be triggered. */
  lemma AddKeepsBookedIff(t: Table, fd: nat, e: Event, scheduler: Option<nat>, fiber: nat, cb: Option<nat>, ok: bool)
    requires Booked(t)
    ensures Covered(t, fd)
    ensures var (t1, r) := AddEvent(t, fd, e, Filled(scheduler, fiber, cb), ok);
      |t1.contexts| > fd && (Booked(t1) <==> r != Yes || scheduler.Some?)
  {
    GrowthCovers(t, fd);
    var s := Filled(scheduler, fiber, cb);
    if scheduler.Some? {
      AddKeepsBooked(t, fd, e, s, ok);
    } else {
      if fd >= |t.contexts| {
        GrowthKeepsBooked(t, fd);
      }
      var t0 := if fd < |t.contexts| then t else Grown(t, fd);
      assert Fits(t0.contexts[fd], fd);
      if Register(t0, fd, e, s, ok).1 == Yes {
        assert !Fits(Register(t0, fd, e, s, ok).0.contexts[fd], fd);
      }
    }
  }

  // ---- what each operation answers ---------------------------------------------------------

  /** The answer in terms of the registered events alone: every `epoll_ctl` call is a legal one. */
  function Answer(events: Mask, op: Op): Outcome {
    match op
    case Add(_, e, _, _, _, ok) => if Has(events, e) then Abort else if ok then Yes else No
    case Del(_, e, _) => if Has(events, e) then Yes else No
    case Cancel(_, e, ok) => if events == NONE || !ok then No else if Has(events, e) then Yes else Abort
    case All(_, ok) => if events == NONE || !ok then No else Yes
    case Poll(_, ready, broken, ok) =>
      if !ok || events == NONE || (!broken && Overlap(events, ready) == NONE) then No
      else if Minus(ready, events) == NONE then Yes
      else Abort
  }

  /** What stays registered when the answer is yes. */
  function Left(events: Mask, op: Op): Mask {
    match op
    case Add(_, e, _, _, _, _) => Put(events, e, true)
    case Del(_, e, _) => Put(events, e, false)
    case Cancel(_, e, _) => Put(events, e, false)
    case All(_, _) => NONE
    case Poll(_, ready, broken, _) => if broken then NONE else Minus(events, ready)
  }

  predicate FailedDelete(t: Table, op: Op) {
    op.Del? && !op.ok && Has(EventsOf(t, op.fd), op.event)
  }

  /**
   With the kernel and the table in agreement, the answer and the events afterwards are those of
   the two tables above, and the agreement survives exactly when the operation is not a `delEvent`
   whose `epoll_ctl` call failed.
   */
  lemma DoIs(t: Table, op: Op)
    requires Enabled(t, op) && Mirrors(t)
    ensures Do(t, op).1 == Answer(EventsOf(t, op.fd), op)
    ensures Do(t, op).1 == Yes ==> EventsOf(Do(t, op).0, op.fd) == Left(EventsOf(t, op.fd), op)
    ensures Do(t, op).1 == No ==> EventsOf(Do(t, op).0, op.fd) == EventsOf(t, op.fd)
    ensures Do(t, op).1 != Abort ==> (Mirrors(Do(t, op).0) <==> !FailedDelete(t, op))
  {
    match op
    case Add(_, _, _, _, _, _) => AddIs(t, op);
    case Del(_, _, _) => DelIs(t, op);
    case Cancel(_, _, _) => CancelIs(t, op);
    case All(_, _) => AllIs(t, op);
    case Poll(_, _, _, _) => PollIs(t, op);
  }

  ghost predicate Is(t: Table, op: Op)
    requires Enabled(t, op)
  {
    var events, (t1, r) := EventsOf(t, op.fd), Do(t, op);
    && r == Answer(events, op)
    && (r == Yes ==> EventsOf(t1, op.fd) == Left(events, op))
    && (r == No ==> EventsOf(t1, op.fd) == events)
    && (r != Abort ==> (Mirrors(t1) <==> !FailedDelete(t, op)))
  }

  lemma AddIs(t: Table, op: Op)
    requires Enabled(t, op) && Mirrors(t) && op.Add?
    ensures Is(t, op)
  {
    GrowthCovers(t, op.fd);
    if op.fd >= |t.contexts| {
      GrowthKeepsBooked(t, op.fd);
      GrowthKeepsMirror(t, op.fd);
    }
    var t1 := if op.fd < |t.contexts| then t else Grown(t, op.fd);
    var c, s := t1.contexts[op.fd], Filled(Some(op.scheduler), op.fiber, op.cb);
    assert Watched(t1.kernel, op.fd, c.events);
    ControlIsLocal(t1.kernel, if c.events == NONE then ADD else MOD, op.fd, Put(c.events, op.event, true), op.ok);
    if !Has(c.events, op.event) && op.ok {
      OneEntryMirrors(t1, Do(t, op).0, op.fd, PutSlot(c, op.event, true, s));
    }
  }

  lemma DelIs(t: Table, op: Op)
    requires Enabled(t, op) && Mirrors(t) && op.Del?
    ensures Is(t, op)
  {
    if op.fd < |t.contexts| && Has(t.contexts[op.fd].events, op.event) {
      var c := t.contexts[op.fd];
      var left := Put(c.events, op.event, false);
      assert Watched(t.kernel, op.fd, c.events);
      ControlIsLocal(t.kernel, if left == NONE then DEL else MOD, op.fd, left, op.ok);
      OneEntryMirrors(t, Do(t, op).0, op.fd, PutSlot(c, op.event, false, EMPTY));
    }
  }

  lemma CancelIs(t: Table, op: Op)
    requires Enabled(t, op) && Mirrors(t) && op.Cancel?
    ensures Is(t, op)
  {
    if op.fd < |t.contexts| && t.contexts[op.fd].events != NONE {
      var c := t.contexts[op.fd];
      var left := Put(c.events, op.event, false);
      assert Watched(t.kernel, op.fd, c.events);
      var ctl := if left == NONE then DEL else MOD;
      ControlIsLocal(t.kernel, ctl, op.fd, left, op.ok);
      FireIfFacts(t.(kernel := EpollCtl(t.kernel, ctl, op.fd, left, op.ok).0), op.fd, op.event, true);
      if Do(t, op).1 == Yes {
        OneEntryMirrors(t, Do(t, op).0, op.fd, PutSlot(c, op.event, false, EMPTY));
      }
    }
  }

  lemma AllIs(t: Table, op: Op)
    requires Enabled(t, op) && Mirrors(t) && op.All?
    ensures Is(t, op)
  {
    if op.fd < |t.contexts| && t.contexts[op.fd].events != NONE {
      var c := t.contexts[op.fd];
      assert Watched(t.kernel, op.fd, c.events);
      ControlIsLocal(t.kernel, DEL, op.fd, NONE, op.ok);
      FireBothFacts(t.(kernel := EpollCtl(t.kernel, DEL, op.fd, NONE, op.ok).0), op.fd, c.events);
      if Do(t, op).1 == Yes {
        OneEntryMirrors(t, Do(t, op).0, op.fd, Do(t, op).0.contexts[op.fd]);
      }
    }
  }

  lemma PollIs(t: Table, op: Op)
    requires Enabled(t, op) && Mirrors(t) && op.Poll?
    ensures Is(t, op)
  {
    var c := t.contexts[op.fd];
    var acted := RealEvents(op.ready, op.broken, c.events);
    if Overlap(c.events, acted) != NONE {
      var left := Minus(c.events, acted);
      assert Watched(t.kernel, op.fd, c.events);
      var ctl := if left == NONE then DEL else MOD;
      ControlIsLocal(t.kernel, ctl, op.fd, left, op.ok);
      FireBothFacts(t.(kernel := EpollCtl(t.kernel, ctl, op.fd, left, op.ok).0), op.fd, acted);
      if Do(t, op).1 == Yes {
        OneEntryMirrors(t, Do(t, op).0, op.fd, Do(t, op).0.contexts[op.fd]);
      }
    }
  }

  // ---- where continuations go -----------------------------------------------------------------

  function SlotHolds(s: Slot, k: Task): bool {
    s.scheduler == Some(k.scheduler)
    && if s.cb.Some? then k.what == Call(s.cb.value) else s.fiber.Some? && k.what == Resume(s.fiber.value)
  }

  function Holds(k: Task): Context -> nat {
    (c: Context) => (if SlotHolds(c.read, k) then 1 else 0) + if SlotHolds(c.write, k) then 1 else 0
  }

  /** How many slots of the table hold the continuation. */
  function Waiting(t: Table, k: Task): nat {
    Sum(Holds(k), t.contexts)
  }

  function Scheduled(t: Table, k: Task): nat {
    multiset(t.scheduled)[k]
  }

  /** What the caller of `addEvent` registers: its callback, or else its fiber, for its own scheduler. */
  function Registration(op: Op): Task
    requires op.Add?
  {
    Task(op.scheduler, if op.cb.Some? then Call(op.cb.value) else Resume(op.fiber))
  }

  /** One for a continuation that this operation registers. */
  function Added(t: Table, op: Op, k: Task): nat
    requires Enabled(t, op)
  {
    if op.Add? && Do(t, op).1 == Yes && Registration(op) == k then 1 else 0
  }

  /** One for a continuation that this operation forgets. */
  function Dropped(t: Table, op: Op, k: Task): nat {
    if op.Del? && op.fd < |t.contexts| && SlotHolds(SlotOf(t.contexts[op.fd], op.event), k) then 1 else 0
  }

  lemma FireMoves(t: Table, fd: nat, e: Event, k: Task)
    requires Booked(t) && fd < |t.contexts| && Has(t.contexts[fd].events, e)
    ensures Scheduled(Fire(t, fd, e), k) + Waiting(Fire(t, fd, e), k) == Scheduled(t, k) + Waiting(t, k)
  {
    SumUpdate(Holds(k), t.contexts, fd, PutSlot(t.contexts[fd], e, false, EMPTY));
  }

  lemma FireIfMoves(t: Table, fd: nat, e: Event, wanted: bool, k: Task)
    requires Booked(t) && fd < |t.contexts|
    ensures var t1 := FireIf(t, fd, e, wanted).0;
      Scheduled(t1, k) + Waiting(t1, k) == Scheduled(t, k) + Waiting(t, k)
  {
    if wanted && Has(t.contexts[fd].events, e) {
      FireMoves(t, fd, e, k);
    }
  }

  lemma FireBothMoves(t: Table, fd: nat, wanted: Mask, k: Task)
    requires Booked(t) && fd < |t.contexts|
    ensures var t1 := FireBoth(t, fd, wanted).0;
      Scheduled(t1, k) + Waiting(t1, k) == Scheduled(t, k) + Waiting(t, k)
  {
    FireIfFacts(t, fd, Read, wanted.read);
    FireIfMoves(t, fd, Read, wanted.read, k);
    FireIfMoves(FireIf(t, fd, Read, wanted.read).0, fd, Write, wanted.write, k);
  }

  /** Registered plus scheduled changes only by what is added and what is dropped. */
  lemma DoConserves(t: Table, op: Op, k: Task)
    requires Enabled(t, op)
    ensures var t1 := Do(t, op).0;
      Scheduled(t1, k) + Waiting(t1, k) + Dropped(t, op, k) == Scheduled(t, k) + Waiting(t, k) + Added(t, op, k)
  {
    match op
    case Add(_, _, _, _, _, _) => AddConserves(t, op, k);
    case Del(_, _, _) => DelConserves(t, op, k);
    case Cancel(_, _, _) => CancelConserves(t, op, k);
    case All(_, _) => AllConserves(t, op, k);
    case Poll(_, _, _, _) => PollConserves(t, op, k);
  }

  lemma GrowthAddsNothing(t: Table, fd: nat, k: Task)
    requires Booked(t) && fd >= |t.contexts|
    ensures Waiting(Grown(t, fd), k) == Waiting(t, k)
  {
    var more := Grown(t, fd).contexts[|t.contexts|..];
    assert Grown(t, fd).contexts == t.contexts + more;
    SumAppend(Holds(k), t.contexts, more);
    SumZero(Holds(k), more);
  }

  lemma RegisterAdds(t: Table, fd: nat, e: Event, s: Slot, ok: bool, k: Task)
    requires Booked(t) && fd < |t.contexts| && SlotFits(s, true)
    ensures var (t1, r) := Register(t, fd, e, s, ok);
      && t1.scheduled == t.scheduled
      && Waiting(t1, k) == Waiting(t, k) + if r == Yes && TaskOf(s) == k then 1 else 0
  {
    assert Fits(t.contexts[fd], fd);
    SumUpdate(Holds(k), t.contexts, fd, PutSlot(t.contexts[fd], e, true, s));
  }

  lemma AddConserves(t: Table, op: Op, k: Task)
    requires Enabled(t, op) && op.Add?
    ensures Scheduled(Do(t, op).0, k) == Scheduled(t, k)
    ensures Waiting(Do(t, op).0, k) == Waiting(t, k) + Added(t, op, k)
  {
    GrowthCovers(t, op.fd);
    if op.fd >= |t.contexts| {
      GrowthKeepsBooked(t, op.fd);
      GrowthAddsNothing(t, op.fd, k);
    }
    var t1 := if op.fd < |t.contexts| then t else Grown(t, op.fd);
    RegisterAdds(t1, op.fd, op.event, Filled(Some(op.scheduler), op.fiber, op.cb), op.ok, k);
  }

  lemma DelConserves(t: Table, op: Op, k: Task)
    requires Enabled(t, op) && op.Del?
    ensures Scheduled(Do(t, op).0, k) == Scheduled(t, k)
    ensures Waiting(Do(t, op).0, k) + Dropped(t, op, k) == Waiting(t, k)
  {
    if op.fd < |t.contexts| {
      assert Fits(t.contexts[op.fd], op.fd);
      SumUpdate(Holds(k), t.contexts, op.fd, PutSlot(t.contexts[op.fd], op.event, false, EMPTY));
    }
  }

  lemma CancelConserves(t: Table, op: Op, k: Task)
    requires Enabled(t, op) && op.Cancel?
    ensures Scheduled(Do(t, op).0, k) + Waiting(Do(t, op).0, k) == Scheduled(t, k) + Waiting(t, k)
  {
    if op.fd < |t.contexts| {
      var left := Put(t.contexts[op.fd].events, op.event, false);
      var k1 := EpollCtl(t.kernel, if left == NONE then DEL else MOD, op.fd, left, op.ok).0;
      FireIfMoves(t.(kernel := k1), op.fd, op.event, true, k);
    }
  }

  lemma AllConserves(t: Table, op: Op, k: Task)
    requires Enabled(t, op) && op.All?
    ensures Scheduled(Do(t, op).0, k) + Waiting(Do(t, op).0, k) == Scheduled(t, k) + Waiting(t, k)
  {
    if op.fd < |t.contexts| {
      FireBothMoves(t.(kernel := EpollCtl(t.kernel, DEL, op.fd, NONE, op.ok).0), op.fd, t.contexts[op.fd].events, k);
    }
  }

  lemma PollConserves(t: Table, op: Op, k: Task)
    requires Enabled(t, op) && op.Poll?
    ensures Scheduled(Do(t, op).0, k) + Waiting(Do(t, op).0, k) == Scheduled(t, k) + Waiting(t, k)
  {
    var acted := RealEvents(op.ready, op.broken, t.contexts[op.fd].events);
    var left := Minus(t.contexts[op.fd].events, acted);
    var k1 := EpollCtl(t.kernel, if left == NONE then DEL else MOD, t.contexts[op.fd].fd, left, op.ok).0;
    FireBothMoves(t.(kernel := k1), op.fd, acted, k);
  }

  // ---- what each operation schedules ----------------------------------------------------------

  /**
   What was appended to the tasks when these events of the entry c were triggered: the
   continuation in the read slot, then the one in the write slot.
   */
  ghost predicate Triggered(c: Context, fired: Mask, before: seq<Task>, after: seq<Task>) {
    var n := |before|;
    && n <= |after| && after[..n] == before
    && |after| == n + (if fired.read then 1 else 0) + (if fired.write then 1 else 0)
    && (fired.read ==> SlotHolds(c.read, after[n]))
    && (fired.write ==> SlotHolds(c.write, after[|after| - 1]))
  }

  lemma FireBothTriggers(t: Table, fd: nat, wanted: Mask)
    requires Booked(t) && fd < |t.contexts| && FireBoth(t, fd, wanted).1 == Yes
    ensures Triggered(t.contexts[fd], wanted, t.scheduled, FireBoth(t, fd, wanted).0.scheduled)
  {
    assert Fits(t.contexts[fd], fd);
    FireIfFacts(t, fd, Read, wanted.read);
  }

  /** An operation schedules exactly the continuations of the events that it takes off, read before write. */
  lemma DoSchedules(t: Table, op: Op)
    requires Enabled(t, op) && Mirrors(t) && Do(t, op).1 != Abort
    ensures var t1, events := Do(t, op).0, EventsOf(t, op.fd);
      if op.Add? || op.Del? || Do(t, op).1 == No then t1.scheduled == t.scheduled
      else op.fd < |t.contexts| && Triggered(t.contexts[op.fd], Minus(events, Left(events, op)), t.scheduled, t1.scheduled)
  {
    DoIs(t, op);
    match op
    case Add(_, _, _, _, _, _) => AddConserves(t, op, Registration(op));
    case Del(_, _, _) =>
    case Cancel(fd, e, ok) =>
      if Do(t, op).1 == Yes {
        assert Fits(t.contexts[fd], fd);
      }
    case All(fd, ok) =>
      if Do(t, op).1 == Yes {
        FireBothTriggers(t.(kernel := EpollCtl(t.kernel, DEL, fd, NONE, ok).0), fd, t.contexts[fd].events);
      }
    case Poll(_, _, _, _) =>
      if Do(t, op).1 == Yes {
        PollTriggers(t, op);
      }
  }

  lemma PollTriggers(t: Table, op: Op)
    requires Enabled(t, op) && Mirrors(t) && op.Poll? && Do(t, op).1 == Yes
    ensures var events := t.contexts[op.fd].events;
      Triggered(t.contexts[op.fd], Minus(events, Left(events, op)), t.scheduled, Do(t, op).0.scheduled)
  {
    DoIs(t, op);
    var events := t.contexts[op.fd].events;
    var acted := RealEvents(op.ready, op.broken, events);
    var left := Minus(events, acted);
    var k := EpollCtl(t.kernel, if left == NONE then DEL else MOD, t.contexts[op.fd].fd, left, op.ok).0;
    FireBothTriggers(t.(kernel := k), op.fd, acted);
    assert Minus(acted, events) == NONE && Minus(events, Left(events, op)) == acted;
  }
}
