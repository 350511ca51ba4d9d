/**
 The event table of `iomanager.cpp` on objects: each method computes the operation of the same
 name in `EventTable` on the view of the manager. Each method body runs under the mutex of its
 descriptor; `ok` is what the kernel decides, and the calls of `schedule` are kept in order.
 */
module EventCode {
  import opened Prelude
  import opened EventTable
  import opened EventFacts

  class FdContext {
    var fd: nat
    var events: Mask
    var read: Slot
    var write: Slot

    constructor ()
      ensures View() == Fresh(0)
    {
      fd, events, read, write := 0, NONE, EMPTY, EMPTY;
    }

    function View(): Context
      reads this
    {
      Context(fd, events, read, write)
    }

    function GetContext(e: Event): Slot
      reads this
    {
      if e.Read? then read else write
    }

    method SetContext(e: Event, s: Slot)
      modifies this`read, this`write
      ensures View() == if e.Read? then old(View()).(read := s) else old(View()).(write := s)
    {
      if e.Read? {
        read := s;
      } else {
        write := s;
      }
    }

    method ResetContext(e: Event)
      modifies this`read, this`write
      ensures View() == if e.Read? then old(View()).(read := EMPTY) else old(View()).(write := EMPTY)
    {
      SetContext(e, GetContext(e).(scheduler := None, fiber := None, cb := None));
    }

    /** The task that is scheduled, or None when the assertion at the top fails. */
    method TriggerEvent(e: Event) returns (task: Option<Task>)
      requires Fits(View(), fd)
      modifies this`events, this`read, this`write
      ensures !Has(old(events), e) ==> task == None && View() == old(View())
      ensures Has(old(events), e) ==>
          && task == Some(TaskOf(SlotOf(old(View()), e)))
          && View() == PutSlot(old(View()), e, false, EMPTY)
    {
      if !Has(events, e) {
        return None;
      }
      events := Put(events, e, false);
      var ctx := GetContext(e);
      if ctx.cb.Some? {
        task := Some(Task(ctx.scheduler.value, Call(ctx.cb.value)));
        ctx := ctx.(cb := None);
      } else {
        task := Some(Task(ctx.scheduler.value, Resume(ctx.fiber.value)));
        ctx := ctx.(fiber := None);
      }
      SetContext(e, ctx.(scheduler := None));
    }
  }

  function Views(cs: seq<FdContext?>): (r: seq<Context>)
    requires forall i :: 0 <= i < |cs| ==> cs[i] != null
    reads cs
  {
    seq(|cs|, i requires 0 <= i < |cs| && cs[i] != null reads cs => cs[i].View())
  }

  class IOManager {
    var fdContexts: seq<FdContext?>
    var pending: int
    var kernel: Interest
    var scheduled: seq<Task>

    ghost predicate Shape()
      reads this, fdContexts
    {
      forall i :: 0 <= i < |fdContexts| ==> fdContexts[i] != null && fdContexts[i].fd == i
    }

    ghost function View(): Table
      requires Shape()
      reads this, fdContexts
    {
      Table(Views(fdContexts), kernel, pending, scheduled)
    }

    ghost predicate Valid()
      reads this, fdContexts
    {
      Shape() && Booked(View())
    }

    method EpollCtl(c: Control, fd: nat, m: Mask, ok: bool) returns (done: bool)
      modifies this`kernel
      ensures (kernel, done) == EventTable.EpollCtl(old(kernel), c, fd, m, ok)
    {
      if !ok || (c == ADD) == (fd in kernel) {
        return false;
      }
      kernel := if c == DEL then kernel - {fd} else kernel[fd := m];
      return true;
    }

    /** `resize`, then a new context wherever there is none. */
    method ContextResize(size: nat)
      requires Shape()
      modifies this`fdContexts
      ensures Shape() && forall i :: |old(fdContexts)| <= i < |fdContexts| ==> fresh(fdContexts[i])
      ensures forall i :: 0 <= i < |fdContexts| && i < |old(fdContexts)| ==> fdContexts[i] == old(fdContexts)[i]
      ensures View() == old(View()).(contexts := Resized(old(View()).contexts, size))
    {
      var nulls: seq<FdContext?> := seq(if size <= |fdContexts| then 0 else size - |fdContexts|, i => null);
      ghost var cs := fdContexts;
      ghost var v := View();
      fdContexts := if size <= |fdContexts| then fdContexts[..size] else fdContexts + nulls;
      var i := 0;
      while i < |fdContexts|
        invariant 0 <= i <= |fdContexts| == size
        invariant forall j :: 0 <= j < size && j < |cs| ==> fdContexts[j] == cs[j]
        invariant forall j :: |cs| <= j < i ==> fdContexts[j] != null && fresh(fdContexts[j]) && fdContexts[j].View() == Fresh(j)
        invariant forall j :: |cs| <= j < size && i <= j ==> fdContexts[j] == null
        invariant forall j :: 0 <= j < |cs| ==> cs[j].View() == v.contexts[j]
        invariant kernel == v.kernel && pending == v.pending && scheduled == v.scheduled
      {
        if fdContexts[i] == null {
          var c := new FdContext();
          c.fd := i;
          fdContexts := fdContexts[i := c];
        }
        i := i + 1;
      }
      assert Views(fdContexts) == Resized(v.contexts, size);
    }

    /** `addEvent` once the context is found and locked. */
    method Register(c: FdContext, e: Event, s: Slot, ok: bool) returns (r: Outcome)
      requires Shape() && c in fdContexts
      modifies this`kernel, this`pending, c`events, c`read, c`write
      ensures Shape() && (View(), r) == EventTable.Register(old(View()), c.fd, e, s, ok)
    {
      assert View().contexts[c.fd] == c.View();
      if Has(c.events, e) {
        return Abort;
      }
      var op := if c.events != NONE then MOD else ADD;
      var done := EpollCtl(op, c.fd, Put(c.events, e, true), ok);
      if !done {
        return No;
      }
      pending := pending + 1;
      c.events := Put(c.events, e, true);
      if c.GetContext(e) != EMPTY {
        assert View().contexts == old(View()).contexts[c.fd := c.View()];
        return Abort;
      }
      c.SetContext(e, s);
      assert View().contexts == old(View()).contexts[c.fd := c.View()];
      return Yes;
    }

    /** `scheduler` is the one of the calling thread, if it has one. */
    method AddEvent(fd: nat, e: Event, scheduler: Option<nat>, fiber: nat, cb: Option<nat>, ok: bool) returns (r: Outcome)
      requires Valid()
      modifies this, fdContexts
      ensures Shape() && Covered(old(View()), fd)
      ensures (View(), r) == EventTable.AddEvent(old(View()), fd, e, Filled(scheduler, fiber, cb), ok)
      ensures Valid() <==> r != Yes || scheduler.Some?
    {
      AddKeepsBookedIff(View(), fd, e, scheduler, fiber, cb, ok);
      if |fdContexts| <= fd {
        ContextResize(3 * fd / 2);
      }
      var c := fdContexts[fd];
      r := Register(c, e, Filled(scheduler, fiber, cb), ok);
    }

    method DelEvent(fd: nat, e: Event, ok: bool) returns (r: Outcome)
      requires Valid()
      modifies this, fdContexts
      ensures Valid() && (View(), r) == Do(old(View()), Del(fd, e, ok))
    {
      DoKeepsBooked(View(), Del(fd, e, ok));
      if |fdContexts| <= fd {
        return No;
      }
      var c := fdContexts[fd];
      assert View().contexts[fd] == c.View();
      if !Has(c.events, e) {
        return No;
      }
      var left := Put(c.events, e, false);
      var op := if left != NONE then MOD else DEL;
      var done := EpollCtl(op, fd, left, ok);
      Forget(c, e, left);
      return Yes;
    }

    /** The registration is forgotten, whether or not the kernel was told. */
    method Forget(c: FdContext, e: Event, left: Mask)
      requires Shape() && c in fdContexts && left == Put(c.events, e, false)
      modifies this`pending, c`events, c`read, c`write
      ensures Shape()
      ensures View() == old(View()).(pending := old(pending) - 1,
        contexts := old(View()).contexts[c.fd := PutSlot(old(View()).contexts[c.fd], e, false, EMPTY)])
    {
      assert View().contexts[c.fd] == c.View();
      pending := pending - 1;
      c.events := left;
      c.ResetContext(e);
      assert View().contexts == old(View()).contexts[c.fd := c.View()];
    }

    /** `triggerEvent` and `--m_pendingEventCount`. */
    method Fire(c: FdContext, e: Event) returns (r: Outcome)
      requires Shape() && c in fdContexts && Fits(c.View(), c.fd)
      modifies this`pending, this`scheduled, c`events, c`read, c`write
      ensures Shape() && Fits(c.View(), c.fd)
      ensures (View(), r) == FireIf(old(View()), c.fd, e, true)
    {
      assert View().contexts[c.fd] == c.View();
      var task := c.TriggerEvent(e);
      assert View().contexts == old(View()).contexts[c.fd := c.View()];
      if task.None? {
        assert View().contexts == old(View()).contexts;
        return Abort;
      }
      scheduled := scheduled + [task.value];
      pending := pending - 1;
      return Yes;
    }

    method CancelEvent(fd: nat, e: Event, ok: bool) returns (r: Outcome)
      requires Valid()
      modifies this, fdContexts
      ensures Valid() && (View(), r) == Do(old(View()), Cancel(fd, e, ok))
    {
      DoKeepsBooked(View(), Cancel(fd, e, ok));
      if |fdContexts| <= fd {
        return No;
      }
      var c := fdContexts[fd];
      if c.events == NONE {
        return No;
      }
      var left := Put(c.events, e, false);
      var op := if left != NONE then MOD else DEL;
      var done := EpollCtl(op, fd, left, ok);
      if !done {
        return No;
      }
      r := Fire(c, e);
    }

    /** The two guarded triggers at the end of `cancelAll` and of the loop of `idle`. */
    method FireBoth(c: FdContext, wanted: Mask) returns (r: Outcome)
      requires Shape() && c in fdContexts && Fits(c.View(), c.fd)
      modifies this`pending, this`scheduled, c`events, c`read, c`write
      ensures Shape() && (View(), r) == EventTable.FireBoth(old(View()), c.fd, wanted)
    {
      r := Yes;
      if wanted.read {
        r := Fire(c, Read);
        if r == Abort {
          return;
        }
      }
      if wanted.write {
        r := Fire(c, Write);
      }
    }

    method CancelAll(fd: nat, ok: bool) returns (r: Outcome)
      requires Valid()
      modifies this, fdContexts
      ensures Valid() && (View(), r) == Do(old(View()), All(fd, ok))
    {
      DoKeepsBooked(View(), All(fd, ok));
      if |fdContexts| <= fd {
        return No;
      }
      var c := fdContexts[fd];
      if c.events == NONE {
        return No;
      }
      var done := EpollCtl(DEL, fd, NONE, ok);
      if !done {
        return No;
      }
      r := FireBoth(c, c.events);
    }

    /** One turn of the loop of `idle` over the reported events. */
    method Handle(c: FdContext, ready: Mask, broken: bool, ok: bool) returns (r: Outcome)
      requires Valid() && c in fdContexts
      modifies this`kernel, this`pending, this`scheduled, c`events, c`read, c`write
      ensures Valid() && (View(), r) == Do(old(View()), Poll(c.fd, ready, broken, ok))
    {
      DoKeepsBooked(View(), Poll(c.fd, ready, broken, ok));
      assert View().contexts[c.fd] == c.View();
      var reported := ready;
      if broken {
        reported := Mask(reported.read || c.events.read, reported.write || c.events.write);
      }
      var acted := NONE;
      if reported.read {
        acted := acted.(read := true);
      }
      if reported.write {
        acted := acted.(write := true);
      }
      if Overlap(c.events, acted) == NONE {
        return No;
      }
      var left := Minus(c.events, acted);
      var op := if left != NONE then MOD else DEL;
      var done := EpollCtl(op, c.fd, left, ok);
      if !done {
        return No;
      }
      r := FireBoth(c, acted);
    }

    /** The loop of `idle` over what `epoll_wait` reported; the pipe of `tickle` is only drained. */
    method HandleReports(reports: seq<Report>) returns (r: Outcome)
      requires Valid() && forall i :: 0 <= i < |reports| && reports[i].Ready? ==> reports[i].fd < |fdContexts|
      modifies this, fdContexts
      ensures Valid() && (View(), r == Abort) == HandleAll(old(View()), reports)
    {
      r := Yes;
      var i := 0;
      assert reports[0..] == reports;
      while i < |reports|
        invariant 0 <= i <= |reports| && Valid() && fdContexts == old(fdContexts) && r != Abort
        invariant HandleAll(old(View()), reports) == HandleAll(View(), reports[i..])
      {
        var report := reports[i];
        assert reports[i..][1..] == reports[i + 1..];
        if report.Ready? {
          var c := fdContexts[report.fd];
          r := Handle(c, report.ready, report.broken, report.ok);
          if r == Abort {
            return;
          }
        }
        i := i + 1;
      }
    }
  }

  datatype Report = Tickle | Ready(fd: nat, ready: Mask, broken: bool, ok: bool)

  /** The reports in order, up to the first assertion that fails; says whether one did. */
  function HandleAll(t: Table, reports: seq<Report>): (Table, bool)
    requires Booked(t) && forall i :: 0 <= i < |reports| && reports[i].Ready? ==> reports[i].fd < |t.contexts|
    decreases |reports|
  {
    if reports == [] then (t, false)
    else if reports[0].Tickle? then HandleAll(t, reports[1..])
    else
      var op := Poll(reports[0].fd, reports[0].ready, reports[0].broken, reports[0].ok);
      DoKeepsBooked(t, op);
      var (t1, r) := Do(t, op);
      if r == Abort then (t1, true) else HandleAll(t1, reports[1..])
  }
}
