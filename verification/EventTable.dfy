/**
 The event table of `IOManager`: for each descriptor an event mask and two continuation slots,
 the count of pending events, and the interest set the kernel holds. Every operation is a
 function of the table; `ok` says whether the `epoll_ctl` call it makes succeeds when it is legal.
 */
module EventTable {
  import opened Prelude

  datatype Event = Read | Write

  datatype Mask = Mask(read: bool, write: bool)

  const NONE := Mask(false, false)

  function Has(m: Mask, e: Event): bool {
    if e.Read? then m.read else m.write
  }

  function Put(m: Mask, e: Event, on: bool): Mask {
    if e.Read? then m.(read := on) else m.(write := on)
  }

  function Minus(m: Mask, n: Mask): Mask {
    Mask(m.read && !n.read, m.write && !n.write)
  }

  function Overlap(m: Mask, n: Mask): Mask {
    Mask(m.read && n.read, m.write && n.write)
  }

  datatype Continuation = Call(cb: nat) | Resume(fiber: nat)

  /** A continuation handed to a scheduler. */
  datatype Task = Task(scheduler: nat, what: Continuation)

  datatype Slot = Slot(scheduler: Option<nat>, fiber: Option<nat>, cb: Option<nat>)

  const EMPTY := Slot(None, None, None)

  datatype Context = Context(fd: nat, events: Mask, read: Slot, write: Slot)

  function SlotOf(c: Context, e: Event): Slot {
    if e.Read? then c.read else c.write
  }

  function PutSlot(c: Context, e: Event, on: bool, s: Slot): Context {
    if e.Read? then c.(events := Put(c.events, e, on), read := s)
    else c.(events := Put(c.events, e, on), write := s)
  }

  type Interest = map<nat, Mask>

  datatype Table = Table(contexts: seq<Context>, kernel: Interest, pending: int, scheduled: seq<Task>)

  // ---- well-formed tables --------------------------------------------------------------------

  /** A slot is filled, with exactly one kind of continuation, if and only if its bit is set. */
  predicate SlotFits(s: Slot, on: bool) {
    if on then s.scheduler.Some? && s.cb.Some? != s.fiber.Some? else s == EMPTY
  }

  predicate Fits(c: Context, fd: nat) {
    c.fd == fd && SlotFits(c.read, c.events.read) && SlotFits(c.write, c.events.write)
  }

  function Bits(c: Context): nat {
    (if c.events.read then 1 else 0) + if c.events.write then 1 else 0
  }

  /** The table by itself: entry i is for descriptor i, and the counter counts the set bits. */
  predicate Booked(t: Table) {
    && |t.contexts| >= 32
    && (forall i :: 0 <= i < |t.contexts| ==> Fits(t.contexts[i], i))
    && t.pending == Sum(Bits, t.contexts)
  }

  function Registered(k: Interest, fd: nat): Mask {
    if fd in k then k[fd] else NONE
  }

  /** What the kernel watches for a descriptor is what the table says. */
  predicate Watched(k: Interest, fd: nat, m: Mask) {
    if m == NONE then fd !in k else fd in k && k[fd] == m
  }

  predicate Mirrors(t: Table) {
    && (forall i :: 0 <= i < |t.contexts| ==> Watched(t.kernel, i, t.contexts[i].events))
    && (forall fd :: fd in t.kernel ==> fd < |t.contexts|)
  }

  // ---- the operations --------------------------------------------------------------------------

  datatype Control = ADD | MOD | DEL

  /** `epoll_ctl`: ADD needs an unknown descriptor, MOD and DEL a known one. */
  function EpollCtl(k: Interest, c: Control, fd: nat, m: Mask, ok: bool): (Interest, bool) {
    if !ok || (c == ADD) == (fd in k) then (k, false)
    else if c == DEL then (k - {fd}, true)
    else (k[fd := m], true)
  }

  function Fresh(fd: nat): Context {
    Context(fd, NONE, EMPTY, EMPTY)
  }

  /** `contextResize`: also cuts the table when the size asked for is smaller. */
  function Resized(cs: seq<Context>, size: nat): (r: seq<Context>)
    ensures |r| == size && forall i :: 0 <= i < size ==> r[i] == if i < |cs| then cs[i] else Fresh(i)
  {
    if size <= |cs| then cs[..size] else cs + seq(size - |cs|, i requires 0 <= i => Fresh(|cs| + i))
  }

  /** The new size: `fd * 1.5`, truncated. */
  function Grown(t: Table, fd: nat): Table {
    t.(contexts := Resized(t.contexts, 3 * fd / 2))
  }

  datatype Outcome = Yes | No | Abort

  /**
   A continuation as `addEvent` stores it: the callback when there is one, else the calling
   fiber. A thread that belongs to no scheduler leaves that field empty.
   */
  function Filled(scheduler: Option<nat>, fiber: nat, cb: Option<nat>): Slot {
    if cb.Some? then Slot(scheduler, None, cb) else Slot(scheduler, Some(fiber), None)
  }

  /** `addEvent` from the moment it holds the lock of the descriptor. */
  function Register(t: Table, fd: nat, e: Event, s: Slot, ok: bool): (Table, Outcome)
    requires fd < |t.contexts|
  {
    var c := t.contexts[fd];
    if Has(c.events, e) then (t, Abort)
    else
      var (k, done) := EpollCtl(t.kernel, if c.events == NONE then ADD else MOD, fd, Put(c.events, e, true), ok);
      if !done then (t, No)
      else if SlotOf(c, e) != EMPTY then
        (t.(kernel := k, pending := t.pending + 1,
            contexts := t.contexts[fd := c.(events := Put(c.events, e, true))]), Abort)
      else
        (t.(kernel := k, pending := t.pending + 1,
            contexts := t.contexts[fd := PutSlot(c, e, true, s)]), Yes)
  }

  predicate Covered(t: Table, fd: nat) {
    fd < |t.contexts| || fd < 3 * fd / 2
  }

  function AddEvent(t: Table, fd: nat, e: Event, s: Slot, ok: bool): (Table, Outcome)
    requires Covered(t, fd)
  {
    Register(if fd < |t.contexts| then t else Grown(t, fd), fd, e, s, ok)
  }

  /** The table is changed whether or not the kernel could be told. */
  function DelEvent(t: Table, fd: nat, e: Event, ok: bool): (Table, Outcome) {
    if fd >= |t.contexts| || !Has(t.contexts[fd].events, e) then (t, No)
    else
      var c := t.contexts[fd];
      var left := Put(c.events, e, false);
      var (k, _) := EpollCtl(t.kernel, if left == NONE then DEL else MOD, fd, left, ok);
      (t.(kernel := k, pending := t.pending - 1,
          contexts := t.contexts[fd := PutSlot(c, e, false, EMPTY)]), Yes)
  }

  function TaskOf(s: Slot): Task
    requires SlotFits(s, true)
  {
    Task(s.scheduler.value, if s.cb.Some? then Call(s.cb.value) else Resume(s.fiber.value))
  }

  /** `triggerEvent` and the decrement that follows it. */
  function Fire(t: Table, fd: nat, e: Event): Table
    requires fd < |t.contexts| && SlotFits(SlotOf(t.contexts[fd], e), true)
  {
    var c := t.contexts[fd];
    t.(contexts := t.contexts[fd := PutSlot(c, e, false, EMPTY)],
       scheduled := t.scheduled + [TaskOf(SlotOf(c, e))],
       pending := t.pending - 1)
  }

  /** Trigger an event if it is asked for; the assertion at the top of `triggerEvent` may fail. */
  function FireIf(t: Table, fd: nat, e: Event, wanted: bool): (Table, Outcome)
    requires fd < |t.contexts| && Fits(t.contexts[fd], fd)
  {
    if !wanted then (t, Yes)
    else if !Has(t.contexts[fd].events, e) then (t, Abort)
    else (Fire(t, fd, e), Yes)
  }

  function FireBoth(t: Table, fd: nat, wanted: Mask): (Table, Outcome)
    requires fd < |t.contexts| && Fits(t.contexts[fd], fd)
  {
    var (t1, r) := FireIf(t, fd, Read, wanted.read);
    if r == Abort then (t1, Abort) else FireIf(t1, fd, Write, wanted.write)
  }

  /** Any registered event lets the call through, not only the one it names. */
  function CancelEvent(t: Table, fd: nat, e: Event, ok: bool): (Table, Outcome)
    requires Booked(t)
  {
    if fd >= |t.contexts| || t.contexts[fd].events == NONE then (t, No)
    else
      var left := Put(t.contexts[fd].events, e, false);
      var (k, done) := EpollCtl(t.kernel, if left == NONE then DEL else MOD, fd, left, ok);
      if !done then (t, No) else FireIf(t.(kernel := k), fd, e, true)
  }

  function CancelAll(t: Table, fd: nat, ok: bool): (Table, Outcome)
    requires Booked(t)
  {
    if fd >= |t.contexts| || t.contexts[fd].events == NONE then (t, No)
    else
      var (k, done) := EpollCtl(t.kernel, DEL, fd, NONE, ok);
      if !done then (t, No) else FireBoth(t.(kernel := k), fd, t.contexts[fd].events)
  }

  /** The events `idle` acts on: an error or hang-up stands for everything registered. */
  function RealEvents(ready: Mask, broken: bool, events: Mask): Mask {
    Mask(ready.read || (broken && events.read), ready.write || (broken && events.write))
  }

  /** One entry of the result of `epoll_wait`, as `idle` handles it. */
  function Handle(t: Table, fd: nat, ready: Mask, broken: bool, ok: bool): (Table, Outcome)
    requires Booked(t) && fd < |t.contexts|
  {
    var events := t.contexts[fd].events;
    var acted := RealEvents(ready, broken, events);
    if Overlap(events, acted) == NONE then (t, No)
    else
      var left := Minus(events, acted);
      var (k, done) := EpollCtl(t.kernel, if left == NONE then DEL else MOD, t.contexts[fd].fd, left, ok);
      if !done then (t, No) else FireBoth(t.(kernel := k), fd, acted)
  }

  // ---- runs --------------------------------------------------------------------------------------

  datatype Op =
    | Add(fd: nat, event: Event, scheduler: nat, fiber: nat, cb: Option<nat>, ok: bool)
    | Del(fd: nat, event: Event, ok: bool)
    | Cancel(fd: nat, event: Event, ok: bool)
    | All(fd: nat, ok: bool)
    | Poll(fd: nat, ready: Mask, broken: bool, ok: bool)

  /** The polling loop only sees descriptors that were added. */
  predicate Enabled(t: Table, op: Op) {
    Booked(t) && (op.Poll? ==> op.fd < |t.contexts|)
  }

  lemma GrowthCovers(t: Table, fd: nat)
    requires Booked(t)
    ensures Covered(t, fd)
    ensures fd >= |t.contexts| ==> |t.contexts| <= fd < |Grown(t, fd).contexts|
  {
  }

  function Do(t: Table, op: Op): (Table, Outcome)
    requires Enabled(t, op)
  {
    match op
    case Add(fd, e, scheduler, fiber, cb, ok) => AddEvent(t, fd, e, Filled(Some(scheduler), fiber, cb), ok)
    case Del(fd, e, ok) => DelEvent(t, fd, e, ok)
    case Cancel(fd, e, ok) => CancelEvent(t, fd, e, ok)
    case All(fd, ok) => CancelAll(t, fd, ok)
    case Poll(fd, ready, broken, ok) => Handle(t, fd, ready, broken, ok)
  }

  /** The events of a descriptor, NONE beyond the end of the table. */
  function EventsOf(t: Table, fd: nat): Mask {
    if fd < |t.contexts| then t.contexts[fd].events else NONE
  }

  function Init(): Table {
    Table(Resized([], 32), map[], 0, [])
  }
}
