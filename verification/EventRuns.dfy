/**
 Whole runs of the event table: exactly-once delivery, the agreement with the kernel, and the
 situations in which an operation aborts, a descriptor is lost or a table shrinks.
 */
module EventRuns {
  import opened Prelude
  import opened EventTable
  import opened EventFacts

  /** The table with a ledger of what was registered and what was forgotten. */
  datatype World = World(t: Table, added: multiset<Task>, dropped: multiset<Task>, aborted: bool)

  function Start(): World {
    World(Init(), multiset{}, multiset{}, false)
  }

  ghost predicate Good(w: World) {
    Booked(w.t) && forall k :: w.added[k] == Scheduled(w.t, k) + w.dropped[k] + Waiting(w.t, k)
  }

  /** An aborted process does nothing more; `epoll_wait` never reports a descriptor outside the table. */
  function Next(w: World, op: Op): World {
    if w.aborted || !Enabled(w.t, op) then w
    else
      var (t1, r) := Do(w.t, op);
      World(t1,
            w.added + if op.Add? && r == Yes then multiset{Registration(op)} else multiset{},
            w.dropped + if op.Del? && r == Yes then Forgotten(w.t, op) else multiset{},
            r == Abort)
  }

  function Forgotten(t: Table, op: Op): multiset<Task>
    requires Booked(t) && op.Del? && Has(EventsOf(t, op.fd), op.event)
  {
    assert Fits(t.contexts[op.fd], op.fd);
    multiset{TaskOf(SlotOf(t.contexts[op.fd], op.event))}
  }

  function Exec(w: World, ops: seq<Op>): World
    decreases |ops|
  {
    if ops == [] then w else Exec(Next(w, ops[0]), ops[1..])
  }

  lemma FreshTableIsGood(t: Table)
    requires |t.contexts| >= 32 && forall i :: 0 <= i < |t.contexts| ==> t.contexts[i] == Fresh(i)
    requires t.kernel == map[] && t.pending == 0 && t.scheduled == []
    ensures Booked(t) && Mirrors(t) && forall k :: Waiting(t, k) == 0
  {
    SumZero(Bits, t.contexts);
    forall k ensures Waiting(t, k) == 0 {
      SumZero(Holds(k), t.contexts);
    }
  }

  lemma StartIsGood()
    ensures Good(Start()) && Mirrors(Start().t) && |Start().t.contexts| == 32
  {
    FreshTableIsGood(Init());
  }

  lemma NextKeepsGood(w: World, op: Op)
    requires Good(w)
    ensures Good(Next(w, op))
  {
    if !w.aborted && Enabled(w.t, op) {
      DoKeepsBooked(w.t, op);
      var w1 := Next(w, op);
      forall k ensures w1.added[k] == Scheduled(w1.t, k) + w1.dropped[k] + Waiting(w1.t, k) {
        LedgerFollows(w, op, k);
      }
    }
  }

  lemma LedgerFollows(w: World, op: Op, k: Task)
    requires Booked(w.t) && !w.aborted && Enabled(w.t, op)
    requires w.added[k] == Scheduled(w.t, k) + w.dropped[k] + Waiting(w.t, k)
    ensures var w1 := Next(w, op); w1.added[k] == Scheduled(w1.t, k) + w1.dropped[k] + Waiting(w1.t, k)
  {
    DoConserves(w.t, op, k);
    LedgerAdds(w, op, k);
  }

  lemma LedgerAdds(w: World, op: Op, k: Task)
    requires Booked(w.t) && !w.aborted && Enabled(w.t, op)
    ensures Next(w, op).added[k] == w.added[k] + Added(w.t, op, k)
    ensures Next(w, op).dropped[k] == w.dropped[k] + Dropped(w.t, op, k)
  {
    assert op.fd < |w.t.contexts| ==> Fits(w.t.contexts[op.fd], op.fd);
  }

  lemma {:induction false} ExecKeepsGood(w: World, ops: seq<Op>)
    requires Good(w)
    ensures Good(Exec(w, ops))
    decreases |ops|
  {
    if ops != [] {
      NextKeepsGood(w, ops[0]);
      ExecKeepsGood(Next(w, ops[0]), ops[1..]);
    }
  }

  /**
   Over every run, whatever fails and whether or not it aborts: each registered continuation is
   scheduled, forgotten by `delEvent`, or still in the table, one of the three and once.
   */
  lemma EachContinuationHasOneFate(ops: seq<Op>, k: Task)
    ensures var w := Exec(Start(), ops);
      && w.added[k] == Scheduled(w.t, k) + w.dropped[k] + Waiting(w.t, k)
      && (w.added[k] <= 1 ==> Scheduled(w.t, k) <= 1)
      && (k in w.t.scheduled ==> k in w.added)
  {
    StartIsGood();
    ExecKeepsGood(Start(), ops);
  }

  /** `m_pendingEventCount` is zero, as `stopping` asks, exactly when nothing is registered. */
  lemma PendingIsZeroIffNothingIsRegistered(ops: seq<Op>)
    ensures var t := Exec(Start(), ops).t;
      t.pending == 0 <==> forall fd :: 0 <= fd < |t.contexts| ==> t.contexts[fd].events == NONE
  {
    StartIsGood();
    ExecKeepsGood(Start(), ops);
    var t := Exec(Start(), ops).t;
    if t.pending == 0 {
      forall fd | 0 <= fd < |t.contexts| ensures t.contexts[fd].events == NONE {
        SumAtLeast(Bits, t.contexts, fd);
      }
    } else if forall fd :: 0 <= fd < |t.contexts| ==> t.contexts[fd].events == NONE {
      SumZero(Bits, t.contexts);
    }
  }

  /** The kernel and the table agree along every run in which no `delEvent` met an `epoll_ctl` failure. */
  lemma {:induction false} KernelAgrees(w: World, ops: seq<Op>)
    requires Good(w) && Mirrors(w.t) && !w.aborted
    requires forall i :: 0 <= i < |ops| && ops[i].Del? ==> ops[i].ok
    ensures Exec(w, ops).aborted || Mirrors(Exec(w, ops).t)
    decreases |ops|
  {
    if ops != [] {
      NextKeepsGood(w, ops[0]);
      if Enabled(w.t, ops[0]) {
        DoIs(w.t, ops[0]);
      }
      assert forall i :: 0 <= i < |ops[1..]| ==> ops[1..][i] == ops[i + 1];
      if Next(w, ops[0]).aborted {
        AbortedStays(Next(w, ops[0]), ops[1..]);
      } else {
        KernelAgrees(Next(w, ops[0]), ops[1..]);
      }
    }
  }

  lemma {:induction false} AbortedStays(w: World, ops: seq<Op>)
    requires w.aborted
    ensures Exec(w, ops) == w
  {
    if ops != [] {
      AbortedStays(w, ops[1..]);
    }
  }

  // ---- a failed deletion ---------------------------------------------------------------------------

  /** Nothing is registered in the table, yet the kernel still watches the descriptor. */
  predicate Stale(t: Table, fd: nat) {
    fd < |t.contexts| && t.contexts[fd].events == NONE && fd in t.kernel
  }

  lemma StaleStays(t: Table, fd: nat, op: Op)
    requires Enabled(t, op) && Stale(t, fd)
    ensures Stale(Do(t, op).0, fd)
    ensures op.Add? && op.fd == fd ==> Do(t, op).1 == No
  {
    DoKeepsBooked(t, op);
    if op.fd != fd {
      KernelIsLocal(t, op, fd);
    }
  }

  lemma KernelIsLocal(t: Table, op: Op, fd: nat)
    requires Enabled(t, op) && op.fd != fd
    ensures fd in t.kernel <==> fd in Do(t, op).0.kernel
  {
    if op.Cancel? && op.fd < |t.contexts| {
      FireIfFacts(t.(kernel := Do(t, op).0.kernel), op.fd, op.event, true);
    }
    if op.All? && op.fd < |t.contexts| {
      FireBothFacts(t.(kernel := EpollCtl(t.kernel, DEL, op.fd, NONE, op.ok).0), op.fd, t.contexts[op.fd].events);
    }
    if op.Poll? {
      PollIsLocal(t, op, fd);
    }
  }

  lemma PollIsLocal(t: Table, op: Op, fd: nat)
    requires Enabled(t, op) && op.fd != fd && op.Poll?
    ensures fd in t.kernel <==> fd in Do(t, op).0.kernel
  {
    assert Fits(t.contexts[op.fd], op.fd);
    var acted := RealEvents(op.ready, op.broken, t.contexts[op.fd].events);
    var left := Minus(t.contexts[op.fd].events, acted);
    var k1 := EpollCtl(t.kernel, if left == NONE then DEL else MOD, t.contexts[op.fd].fd, left, op.ok).0;
    FireBothFacts(t.(kernel := k1), op.fd, acted);
  }

  /**
   `delEvent` forgets the last event of a descriptor although the kernel refused: from then on no
   `addEvent` on that descriptor succeeds, whatever else happens, because it chooses ADD.
   */
  lemma FailedDeleteBlocksTheDescriptor(w: World, e: Event, fd: nat, ops: seq<Op>, again: Op)
    requires Good(w) && Mirrors(w.t) && !w.aborted
    requires Has(EventsOf(w.t, fd), e) && Put(EventsOf(w.t, fd), e, false) == NONE
    requires again.Add? && again.fd == fd
    ensures var w1 := Exec(Next(w, Del(fd, e, false)), ops);
      Enabled(w1.t, again) && (w1.aborted || Do(w1.t, again).1 == No)
  {
    assert Watched(w.t.kernel, fd, w.t.contexts[fd].events);
    var w0 := Next(w, Del(fd, e, false));
    NextKeepsGood(w, Del(fd, e, false));
    StaleForever(w0, fd, ops);
    ExecKeepsGood(w0, ops);
    StaleStays(Exec(w0, ops).t, fd, again);
  }

  lemma {:induction false} StaleForever(w: World, fd: nat, ops: seq<Op>)
    requires Good(w) && Stale(w.t, fd)
    ensures Stale(Exec(w, ops).t, fd)
    decreases |ops|
  {
    if ops != [] {
      if !w.aborted && Enabled(w.t, ops[0]) {
        StaleStays(w.t, fd, ops[0]);
      }
      NextKeepsGood(w, ops[0]);
      StaleForever(Next(w, ops[0]), fd, ops[1..]);
    }
  }

  /**
   When another event of the descriptor stays, the kernel goes on watching both, and handling a
   report of both aborts.
   */
  lemma FailedDeleteLetsReportsAbort(w: World, e: Event, fd: nat)
    requires Good(w) && Mirrors(w.t) && !w.aborted && EventsOf(w.t, fd) == Mask(true, true)
    ensures var w1 := Next(w, Del(fd, e, false));
      && !w1.aborted && Registered(w1.t.kernel, fd) == Mask(true, true)
      && Next(w1, Poll(fd, Mask(true, true), false, true)).aborted
  {
    assert Watched(w.t.kernel, fd, w.t.contexts[fd].events);
    var w1 := Next(w, Del(fd, e, false));
    NextKeepsGood(w, Del(fd, e, false));
    var t := w1.t;
    assert EventsOf(t, fd) == Put(Mask(true, true), e, false) && Fits(t.contexts[fd], fd);
    FireBothFacts(t.(kernel := EpollCtl(t.kernel, DEL, fd, NONE, true).0), fd, Mask(true, true));
  }

  // ---- aborting ------------------------------------------------------------------------------------

  type Masks = map<nat, Mask>

  /** One operation on the masks alone. */
  function MaskStep(ms: Masks, op: Op): (Masks, Outcome) {
    var r := Answer(Registered(ms, op.fd), op);
    (if r == Yes then ms[op.fd := Left(Registered(ms, op.fd), op)] else ms, r)
  }

  /** Whether a sequence of operations asks for an event that is not registered while it matters. */
  predicate Aborts(ms: Masks, ops: seq<Op>)
    decreases |ops|
  {
    ops != [] && var (ms1, r) := MaskStep(ms, ops[0]); r == Abort || Aborts(ms1, ops[1..])
  }

  ghost predicate Agrees(t: Table, ms: Masks) {
    forall fd :: EventsOf(t, fd) == Registered(ms, fd)
  }

  lemma MaskStepAgrees(w: World, ms: Masks, op: Op)
    requires Good(w) && Mirrors(w.t) && !w.aborted && Agrees(w.t, ms) && (op.Del? ==> op.ok)
    ensures var w1, (ms1, r) := Next(w, op), MaskStep(ms, op);
      && (w1.aborted <==> r == Abort)
      && (!w1.aborted ==> Mirrors(w1.t) && Agrees(w1.t, ms1))
  {
    assert EventsOf(w.t, op.fd) == Registered(ms, op.fd);
    if Enabled(w.t, op) {
      DoIs(w.t, op);
      DoKeepsBooked(w.t, op);
      var t1, ms1 := Do(w.t, op).0, MaskStep(ms, op).0;
      if Do(w.t, op).1 != Abort {
        forall fd ensures EventsOf(t1, fd) == Registered(ms1, fd) {
          assert EventsOf(w.t, fd) == Registered(ms, fd);
        }
      }
    }
  }

  /**
   Over runs without an `epoll_ctl` failure in `delEvent`: the process aborts exactly when the
   masks say so, which a caller can work out without looking at slots, kernel or counters.
   */
  lemma {:induction false} RunAbortsIff(w: World, ms: Masks, ops: seq<Op>)
    requires Good(w) && Mirrors(w.t) && !w.aborted && Agrees(w.t, ms)
    requires forall i :: 0 <= i < |ops| && ops[i].Del? ==> ops[i].ok
    ensures Exec(w, ops).aborted <==> Aborts(ms, ops)
    decreases |ops|
  {
    if ops != [] {
      MaskStepAgrees(w, ms, ops[0]);
      NextKeepsGood(w, ops[0]);
      assert forall i :: 0 <= i < |ops[1..]| ==> ops[1..][i] == ops[i + 1];
      if Next(w, ops[0]).aborted {
        AbortedStays(Next(w, ops[0]), ops[1..]);
      } else {
        RunAbortsIff(Next(w, ops[0]), MaskStep(ms, ops[0]).0, ops[1..]);
      }
    }
  }

  /** The same from the start, where nothing is registered. */
  lemma RunFromStartAbortsIff(ops: seq<Op>)
    requires forall i :: 0 <= i < |ops| && ops[i].Del? ==> ops[i].ok
    ensures Exec(Start(), ops).aborted <==> Aborts(map[], ops)
  {
    StartIsGood();
    assert forall fd :: EventsOf(Start().t, fd) == NONE;
    RunAbortsIff(Start(), map[], ops);
  }

  /** A descriptor has one event, and `cancelEvent` is called for the other. */
  lemma CancelOfOtherEventAborts(fd: nat, scheduler: nat, fiber: nat, cb: Option<nat>)
    ensures Exec(Start(), [Add(fd, Read, scheduler, fiber, cb, true), Cancel(fd, Write, true)]).aborted
  {
    var a, c := Add(fd, Read, scheduler, fiber, cb, true), Cancel(fd, Write, true);
    RunFromStartAbortsIff([a, c]);
    assert [a, c][1..] == [c];
    assert Aborts(map[fd := Mask(true, false)], [c]);
    assert MaskStep(map[], a) == (map[fd := Mask(true, false)], Yes);
  }

  predicate Takes(op: Op, fd: nat) {
    op.fd == fd && !op.Add?
  }

  lemma OneOpStays(w: World, fd: nat, op: Op)
    requires Good(w) && !Takes(op, fd)
    ensures Minus(EventsOf(w.t, fd), EventsOf(Next(w, op).t, fd)) == NONE
  {
    if !w.aborted && Enabled(w.t, op) && fd < |w.t.contexts| {
      if op.fd == fd {
        AddStays(w.t, op);
      } else {
        DoKeepsBooked(w.t, op);
      }
    }
  }

  lemma AddStays(t: Table, op: Op)
    requires Enabled(t, op) && op.Add? && op.fd < |t.contexts|
    ensures Minus(EventsOf(t, op.fd), EventsOf(Do(t, op).0, op.fd)) == NONE
  {
  }

  /** Operations that take nothing from a descriptor leave its events registered. */
  lemma {:induction false} EventsStay(w: World, fd: nat, ops: seq<Op>)
    requires Good(w)
    requires forall i :: 0 <= i < |ops| ==> !Takes(ops[i], fd)
    ensures Minus(EventsOf(w.t, fd), EventsOf(Exec(w, ops).t, fd)) == NONE
    decreases |ops|
  {
    if ops != [] {
      NextKeepsGood(w, ops[0]);
      OneOpStays(w, fd, ops[0]);
      assert forall i :: 0 <= i < |ops[1..]| ==> ops[1..][i] == ops[i + 1];
      EventsStay(Next(w, ops[0]), fd, ops[1..]);
    }
  }

  /**
   A report of `epoll_wait` says nothing but what the kernel watched then. If between the report
   and its handling nobody takes an event from that descriptor, handling it does not abort.
   */
  lemma UndisturbedReportIsSafe(w: World, ops: seq<Op>, report: Op)
    requires Good(w) && Mirrors(w.t) && !w.aborted && report.Poll?
    requires Minus(report.ready, Registered(w.t.kernel, report.fd)) == NONE
    requires forall i :: 0 <= i < |ops| ==> !Takes(ops[i], report.fd)
    requires Enabled(Exec(w, ops).t, report) && !Exec(w, ops).aborted
    ensures Do(Exec(w, ops).t, report).1 != Abort
  {
    assert report.fd < |w.t.contexts| ==> Watched(w.t.kernel, report.fd, w.t.contexts[report.fd].events);
    EventsStay(w, report.fd, ops);
    assert forall i :: 0 <= i < |ops| && ops[i].fd == report.fd ==> ops[i].Add?;
    var t := Exec(w, ops).t;
    var events := t.contexts[report.fd].events;
    var acted := RealEvents(report.ready, report.broken, events);
    var left := Minus(events, acted);
    var k := EpollCtl(t.kernel, if left == NONE then DEL else MOD, t.contexts[report.fd].fd, left, report.ok).0;
    FireBothFacts(t.(kernel := k), report.fd, acted);
  }

  /** A report overtaken by `delEvent` aborts: `idle` triggers what was reported, not what is left. */
  lemma OvertakenReportAborts(w: World, fd: nat, e: Event)
    requires Good(w) && Mirrors(w.t) && !w.aborted && EventsOf(w.t, fd) == Mask(true, true)
    ensures var w1 := Next(w, Del(fd, e, true));
      !w1.aborted && Next(w1, Poll(fd, Registered(w.t.kernel, fd), false, true)).aborted
  {
    var d := Del(fd, e, true);
    assert Watched(w.t.kernel, fd, w.t.contexts[fd].events);
    NextKeepsGood(w, d);
    DoKeepsBooked(w.t, d);
    DoIs(w.t, d);
    DoIs(Next(w, d).t, Poll(fd, Registered(w.t.kernel, fd), false, true));
  }

  /** Both events of a descriptor can be registered, so the situation above is reached. */
  lemma BothEventsCanBeRegistered(w: World, fd: nat, a: Op, b: Op)
    requires Good(w) && Mirrors(w.t) && !w.aborted && EventsOf(w.t, fd) == NONE
    requires a.Add? && b.Add? && a.fd == b.fd == fd && a.event != b.event && a.ok && b.ok
    ensures var w1 := Exec(w, [a, b]);
      Good(w1) && Mirrors(w1.t) && !w1.aborted && EventsOf(w1.t, fd) == Mask(true, true)
  {
    NextKeepsGood(w, a);
    DoIs(w.t, a);
    NextKeepsGood(Next(w, a), b);
    DoIs(Next(w, a).t, b);
    assert [a, b][1..] == [b] && [b][1..] == [];
    assert Exec(Next(w, a), [b]) == Exec(Next(Next(w, a), b), []);
  }

  // ---- two adds racing ---------------------------------------------------------------------------------

  /** Cutting a well-formed table keeps it so exactly when the part cut off has nothing registered. */
  lemma CutIsBookedIff(t: Table, size: nat)
    requires Booked(t) && 32 <= size <= |t.contexts|
    ensures Booked(t.(contexts := t.contexts[..size])) <==> forall i :: size <= i < |t.contexts| ==> t.contexts[i].events == NONE
  {
    var kept, rest := t.contexts[..size], t.contexts[size..];
    assert t.contexts == kept + rest;
    SumAppend(Bits, kept, rest);
    if forall i :: size <= i < |t.contexts| ==> t.contexts[i].events == NONE {
      forall i | 0 <= i < |rest| ensures Bits(rest[i]) == 0 {
        assert rest[i] == t.contexts[size + i];
      }
      SumZero(Bits, rest);
    } else {
      var i :| size <= i < |t.contexts| && t.contexts[i].events != NONE;
      assert rest[i - size] == t.contexts[i];
      SumAtLeast(Bits, rest, i - size);
    }
  }

  /**
   Two `addEvent` calls find the table too small; the one for b resizes and registers, then the
   one for a resizes by its own descriptor. The table stays well-formed exactly when that size
   still covers b; otherwise the event of b is counted and watched, yet nobody can delete it.
   */
  lemma RacingAddsLoseAnEventIff(t: Table, a: nat, b: nat, e: Event, s: Slot)
    requires Booked(t) && Mirrors(t) && |t.contexts| <= a && |t.contexts| <= b && SlotFits(s, true)
    ensures Covered(t, b)
    ensures var (t1, r) := AddEvent(t, b, e, s, true); var t2 := Grown(t1, a);
      && r == Yes
      && (Booked(t2) <==> b < 3 * a / 2)
      && (b >= 3 * a / 2 ==>
            && t2.pending > 0 && b in t2.kernel
            && DelEvent(t2, b, e, true) == (t2, No))
  {
    AddToFreshEntry(t, b, e, s);
    var t1 := AddEvent(t, b, e, s, true).0;
    SumAtLeast(Bits, t1.contexts, b);
    if 3 * a / 2 <= |t1.contexts| {
      CutIsBookedIff(t1, 3 * a / 2);
    } else {
      GrowthKeepsBooked(t1, a);
    }
  }

  lemma AddToFreshEntry(t: Table, b: nat, e: Event, s: Slot)
    requires Booked(t) && Mirrors(t) && |t.contexts| <= b && SlotFits(s, true)
    ensures Covered(t, b)
    ensures var (t1, r) := AddEvent(t, b, e, s, true);
      && r == Yes && Booked(t1) && b in t1.kernel && |t1.contexts| == 3 * b / 2 > b
      && forall i :: |t.contexts| <= i < |t1.contexts| ==> (t1.contexts[i].events == NONE <==> i != b)
  {
    GrowthKeepsBooked(t, b);
    AddKeepsBooked(t, b, e, s, true);
  }
}
