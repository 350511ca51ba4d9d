/**
 `timer.cpp` on timer objects: each method computes the operation of the same name in
 `TimerSpec` on the view of the manager. Each method body runs under the manager's lock;
 the clock values it reads are parameters.
 */
module TimerCode {
  import opened Prelude
  import opened TimerSpec
  import opened TimerFacts

  lemma {:induction false} RemoveAt(o: seq<Addr>, i: nat)
    requires i < |o| && forall j :: 0 <= j < i ==> o[j] != o[i]
    ensures TimerSpec.Remove(o, o[i]) == o[..i] + o[i + 1..]
  {
    if i > 0 {
      var rest := o[1..];
      assert rest[i - 1] == o[i] && forall j :: 0 <= j < i - 1 ==> rest[j] == o[j + 1];
      RemoveAt(rest, i - 1);
      CutsAgree(o, i);
    }
  }

  lemma CutsAgree(o: seq<Addr>, i: nat)
    requires 0 < i < |o|
    ensures [o[0]] + (o[1..][..i - 1] + o[1..][i..]) == o[..i] + o[i + 1..]
  {
  }

  lemma {:induction false} InsertFrom(h: Heap, o: seq<Addr>, a: Addr, i: nat)
    requires Known(h, o) && a in h && i <= |o|
    requires forall j :: 0 <= j < i ==> !Less(h, a, o[j])
    requires i < |o| ==> Less(h, a, o[i])
    ensures TimerSpec.Insert(h, o, a) == o[..i] + [a] + o[i..]
  {
    if i > 0 {
      assert forall j :: 0 <= j < |o| - 1 ==> o[1..][j] == o[j + 1];
      InsertFrom(h, o[1..], a, i - 1);
      assert o[..i] == [o[0]] + o[1..][..i - 1];
      assert o[1..][i - 1..] == o[i..];
    }
  }

  lemma {:induction false} InsertMembers(h: Heap, o: seq<Addr>, a: Addr)
    requires Known(h, o) && a in h
    ensures forall x :: x in TimerSpec.Insert(h, o, a) ==> x == a || x in o
  {
    if o != [] && !Less(h, a, o[0]) {
      InsertMembers(h, o[1..], a);
    }
  }

  lemma RearmFirst(h: Heap, o: seq<Addr>, taken: seq<Addr>, i: nat, now: nat)
    requires i < |taken| && Known(h, o) && Known(h, taken[i..]) && taken[i] in h
    ensures var a, h1 := taken[i], h[taken[i] := After(h[taken[i]], now)];
      && Known(h1, taken[i + 1..]) && Known(h1, o)
      && Rearm(h, o, taken[i..], now)
         == Rearm(h1, if h[a].recurring then TimerSpec.Insert(h1, o, a) else o, taken[i + 1..], now)
  {
    assert taken[i..][0] == taken[i] && taken[i..][1..] == taken[i + 1..];
    assert forall x :: x in taken[i + 1..] ==> x in taken[i..];
  }

  /** Rearming one timer does not change the callbacks of the others. */
  lemma CallbacksElsewhere(h: Heap, taken: seq<Addr>, i: nat, now: nat)
    requires i < |taken| && Known(h, taken[i..]) && taken[i] in h && taken[i] !in taken[i + 1..]
    ensures var h1 := h[taken[i] := After(h[taken[i]], now)];
      && Known(h1, taken[i + 1..]) && Known(h, taken[i + 1..])
      && Callbacks(h, taken[i..]) == [h[taken[i]].cb] + Callbacks(h, taken[i + 1..])
      && Callbacks(h1, taken[i + 1..]) == Callbacks(h, taken[i + 1..])
  {
    assert taken[i..][0] == taken[i] && taken[i..][1..] == taken[i + 1..];
    assert forall x :: x in taken[i + 1..] ==> x in taken[i..];
    CallbacksAgree(h, h[taken[i] := After(h[taken[i]], now)], taken[i + 1..]);
  }

  lemma {:induction false} CallbacksAgree(h: Heap, h1: Heap, taken: seq<Addr>)
    requires Known(h, taken) && Known(h1, taken) && forall a :: a in taken ==> h[a] == h1[a]
    ensures Callbacks(h, taken) == Callbacks(h1, taken)
  {
    if taken != [] {
      assert taken[0] in taken;
      CallbacksAgree(h, h1, taken[1..]);
    }
  }

  class Timer {
    const addr: Addr
    const manager: TimerManager?
    var recurring: bool
    var ms: nat
    var next: nat
    var cb: Option<Callback>

    constructor (addr: Addr, ms: nat, cb: Option<Callback>, recurring: bool, manager: TimerManager, start: nat)
      ensures this.addr == addr && this.manager == manager
      ensures Record() == Rec(recurring, ms, Wrap(start + ms), cb)
    {
      this.addr, this.manager, this.recurring, this.ms := addr, manager, recurring, ms;
      this.next, this.cb := Wrap(start + ms), cb;
    }

    /** The probe of an expiry: a deadline and nothing else. */
    constructor Probe(addr: Addr, next: nat)
      ensures this.addr == addr && this.next == next
    {
      this.addr, this.manager, this.recurring, this.ms := addr, null, false, 0;
      this.next, this.cb := next, None;
    }

    function Record(): Rec
      reads this
    {
      Rec(recurring, ms, next, cb)
    }

    predicate Before(other: Timer)
      reads this, other
    {
      next < other.next || (next == other.next && addr < other.addr)
    }

    /** Write the mutable fields; no other timer is affected. */
    method Assign(ms: nat, next: nat, cb: Option<Callback>)
      requires manager != null && manager.Shape() && manager.Has(this)
      modifies this
      ensures manager.Shape() && Record() == Rec(recurring, ms, next, cb) && recurring == old(recurring)
      ensures manager.View() == old(manager.View()).(heap := old(manager.View()).heap[addr := Record()])
    {
      this.ms, this.next, this.cb := ms, next, cb;
    }

    method Cancel() returns (ok: bool)
      requires manager != null && manager.Valid() && manager.Has(this)
      modifies manager, this
      ensures manager.Valid() && manager.at == old(manager.at)
      ensures (manager.View(), ok) == TimerSpec.Cancel(old(manager.View()), addr)
    {
      CancelKeepsValid(manager.View(), addr);
      if cb.Some? {
        Assign(ms, next, None);
        manager.Erase(this);
        return true;
      }
      return false;
    }

    /** `find`, `erase` and the new deadline, in that order: the timer is out of the set meanwhile. */
    method Retime(ms: nat, next: nat) returns (found: bool)
      requires manager != null && manager.Valid() && manager.Has(this) && cb.Some?
      modifies manager`timers, this
      ensures found && manager.Shape() && manager.Has(this)
      ensures manager.View() == SetNext(old(manager.View()), addr, ms, next)
      ensures addr !in Addrs(manager.timers)
    {
      SetNextFacts(manager.View(), addr, ms, next);
      var i := manager.Find(this);
      if i == |manager.timers| {
        return false;
      }
      manager.Erase(this);
      Assign(ms, next, cb);
      return true;
    }

    method Refresh(now: nat) returns (ok: bool)
      requires manager != null && manager.Valid() && manager.Has(this)
      modifies manager, this
      ensures manager.Valid() && manager.at == old(manager.at)
      ensures (manager.View(), ok) == TimerSpec.Refresh(old(manager.View()), addr, now)
    {
      if cb.None? {
        return false;
      }
      ghost var v := manager.View();
      assert TimerSpec.Refresh(v, addr, now) == (PutBack(SetNext(v, addr, ms, Wrap(now + ms)), addr), true);
      var found := Retime(ms, Wrap(now + ms));
      if !found {
        return false;
      }
      manager.Insert(this);
      ok := true;
      assert TimerSpec.Valid(manager.View()) by { RefreshKeepsValid(v, addr, now); }
    }

    method Reset(ms: nat, fromNow: bool, now: nat) returns (ok: bool, notify: bool)
      requires manager != null && manager.Valid() && manager.Has(this)
      modifies manager, this
      ensures manager.Valid() && manager.at == old(manager.at)
      ensures (manager.View(), ok) == TimerSpec.Reset(old(manager.View()), addr, ms, fromNow, now)
      ensures notify == (manager.tickled && !old(manager.tickled))
    {
      if ms == this.ms && !fromNow {
        return true, false;
      }
      if cb.None? {
        return false, false;
      }
      ghost var v := manager.View();
      var start := if fromNow then now else Wrap(next - this.ms);
      assert TimerSpec.Reset(v, addr, ms, fromNow, now) == (Publish(SetNext(v, addr, ms, Wrap(start + ms)), addr), true);
      var found := Retime(ms, Wrap(start + ms));
      if !found {
        return false, false;
      }
      notify := manager.PublishTimer(this);
      ok := true;
      assert TimerSpec.Valid(manager.View()) by { ResetKeepsValid(v, addr, ms, fromNow, now); }
    }
  }

  function Addrs(ts: seq<Timer>): seq<Addr> {
    seq(|ts|, i requires 0 <= i < |ts| => ts[i].addr)
  }

  lemma AddrsSplice(ts: seq<Timer>, t: Timer, i: nat)
    requires i <= |ts|
    ensures Addrs(ts[..i] + [t] + ts[i..]) == Addrs(ts)[..i] + [t.addr] + Addrs(ts)[i..]
  {
  }

  class TimerManager {
    var timers: seq<Timer>
    var tickled: bool
    var previous: nat
    ghost var at: map<Addr, Timer>   // every timer ever published, by its address

    /** Addresses name timers. */
    ghost predicate Shape()
      reads this
    {
      && (forall a :: a in at ==> at[a].addr == a)
      && (forall i :: 0 <= i < |timers| ==> Has(timers[i]))
    }

    ghost predicate Has(t: Timer)
      reads this
    {
      t.addr in at && at[t.addr] == t
    }

    ghost function View(): Timers
      reads this, at.Values
    {
      Timers(map a | a in at :: at[a].Record(), Addrs(timers), tickled, previous)
    }

    ghost predicate Valid()
      reads this, at.Values
    {
      Shape() && TimerSpec.Valid(View())
    }

    constructor (now: nat)
      ensures Valid() && View() == Timers(map[], [], false, now) && at == map[]
    {
      timers, tickled, previous, at := [], false, now, map[];
    }

    /** `std::set::find`: the element that is neither before nor after t. */
    method Find(t: Timer) returns (i: nat)
      requires Shape() && Has(t)
      ensures i <= |timers| && (i < |timers| ==> timers[i] == t)
      ensures i == |timers| <==> t.addr !in Addrs(timers)
      ensures forall j :: 0 <= j < i ==> timers[j].addr != t.addr
    {
      i := 0;
      while i < |timers|
        invariant 0 <= i <= |timers|
        invariant forall j :: 0 <= j < i ==> timers[j].addr != t.addr
      {
        if !timers[i].Before(t) && !t.Before(timers[i]) {
          assert Addrs(timers)[i] == t.addr;
          return;
        }
        i := i + 1;
      }
    }

    /** `find` and `erase`; the iterator is never the end. */
    method Erase(t: Timer)
      requires Shape() && Has(t) && t.addr in Addrs(timers)
      modifies this`timers
      ensures Shape()
      ensures View() == old(View()).(order := TimerSpec.Remove(old(View()).order, t.addr))
    {
      var i := Find(t);
      RemoveAt(Addrs(timers), i);
      timers := timers[..i] + timers[i + 1..];
      assert Addrs(timers) == old(Addrs(timers))[..i] + old(Addrs(timers))[i + 1..];
    }

    method Insert(t: Timer)
      requires Shape() && Has(t) && t.addr !in Addrs(timers)
      modifies this`timers
      ensures Shape() && Known(old(View()).heap, old(View()).order)
      ensures View() == PutBack(old(View()), t.addr)
    {
      var i := 0;
      while i < |timers| && !t.Before(timers[i])
        invariant 0 <= i <= |timers|
        invariant forall j :: 0 <= j < i ==> !t.Before(timers[j])
      {
        i := i + 1;
      }
      InsertFrom(View().heap, View().order, t.addr, i);
      AddrsSplice(timers, t, i);
      timers := timers[..i] + [t] + timers[i..];
    }

    /** The private `addTimer`; the answer is whether `onTimerInsertedAtFront` is called after unlocking. */
    method PublishTimer(t: Timer) returns (atFront: bool)
      requires Shape() && Has(t) && t.addr !in Addrs(timers)
      modifies this`timers, this`tickled
      ensures Shape() && Known(old(View()).heap, old(View()).order)
      ensures View() == Publish(old(View()), t.addr)
      ensures atFront == (tickled && !old(tickled))
    {
      Insert(t);
      assert Addrs(timers)[0] == timers[0].addr;
      atFront := timers[0] == t && !tickled;
      if atFront {
        tickled := true;
      }
    }

    /** The callback may be empty; then the set is no longer valid. */
    method AddTimer(addr: Addr, ms: nat, cb: Option<Callback>, recurring: bool, start: nat)
      returns (t: Timer, notify: bool)
      requires Valid() && addr !in at
      modifies this
      ensures Shape() && (Valid() <==> cb.Some?)
      ensures fresh(t) && at == old(at)[addr := t] && t.manager == this
      ensures View() == Add(old(View()), addr, ms, cb, recurring, start)
      ensures notify == (tickled && !old(tickled))
    {
      AddKeepsValid(View(), addr, ms, cb, recurring, start);
      t := new Timer(addr, ms, cb, recurring, this, start);
      at := at[addr := t];
      assert View().heap == old(View()).heap[addr := t.Record()];
      notify := PublishTimer(t);
    }

    method GetNextTimer(now: nat) returns (wait: nat)
      requires Valid()
      modifies this`tickled
      ensures Valid() && (View(), wait) == NextTimer(old(View()), now)
    {
      tickled := false;
      assert View() == old(View()).(tickled := false);
      assert |Addrs(timers)| == |timers|;
      if timers == [] {
        return FOREVER;
      }
      assert Addrs(timers)[0] == timers[0].addr;
      if now >= timers[0].next {
        return 0;
      }
      return timers[0].next - now;
    }
  
    method DetectClockRollover(now: nat) returns (rollover: bool)
      modifies this`previous
      ensures rollover == Rollover(old(View()), now) && View() == old(View()).(previous := now)
    {
      rollover := now < previous && now < Wrap(previous - HOUR);
      previous := now;
    }

    /**
     `lower_bound` of the probe, then past the equal deadlines: whatever address the probe has,
     the iterator ends behind exactly the timers that are due.
     */
    method EndOfDue(probe: Timer) returns (n: nat)
      requires Valid() && probe.addr !in at
      ensures n == DueCount(View().heap, View().order, probe.next)
    {
      n := 0;
      while n < |timers| && timers[n].Before(probe)
        invariant 0 <= n <= |timers|
        invariant forall i :: 0 <= i < n ==> timers[i].next <= probe.next
      {
        n := n + 1;
      }
      while n < |timers| && timers[n].next == probe.next
        invariant 0 <= n <= |timers|
        invariant forall i :: 0 <= i < n ==> timers[i].next <= probe.next
        invariant n < |timers| ==> timers[n].next >= probe.next
      {
        assert n + 1 < |timers| ==> Less(View().heap, View().order[n], View().order[n + 1]);
        n := n + 1;
      }
      assert n < |timers| ==> View().heap[View().order[n]].next > probe.next;
      assert n > 0 ==> View().heap[View().order[n - 1]].next <= probe.next;
      DueCountIs(View().heap, View().order, n, probe.next);
    }

    /** One turn of the loop over the expired timers. */
    method Release(t: Timer, now: nat)
      requires Shape() && Has(t) && t.addr !in Addrs(timers)
      modifies this`timers, t
      ensures Shape() && Known(old(View()).heap, old(View()).order)
      ensures View() == (var v, h1 := old(View()), old(View()).heap[t.addr := After(old(t.Record()), now)];
        v.(heap := h1, order := if t.recurring then TimerSpec.Insert(h1, v.order, t.addr) else v.order))
      ensures forall x :: x in Addrs(timers) ==> x == t.addr || x in old(Addrs(timers))
      ensures t.recurring == old(t.recurring)
    {
      if t.recurring {
        t.next := Wrap(now + t.ms);
        assert View().heap == old(View()).heap[t.addr := After(old(t.Record()), now)];
        InsertMembers(View().heap, View().order, t.addr);
        Insert(t);
      } else {
        t.cb := None;
        assert View().heap == old(View()).heap[t.addr := After(old(t.Record()), now)];
      }
    }

    /** From i on, the timers are known and out of the set. */
    ghost predicate Out(ts: seq<Timer>, i: nat)
      reads this, ts
    {
      && (forall j :: i <= j < |ts| ==> Has(ts[j]) && ts[j].addr !in Addrs(timers))
      && (forall j, k :: i <= j < k < |ts| ==> ts[j].addr != ts[k].addr)
    }

    /** The same turn, seen from the list of expired timers. */
    method ReleaseTurn(expired: seq<Timer>, i: nat, now: nat)
      requires Shape() && Out(expired, i) && i < |expired|
      modifies this`timers, expired[i]
      ensures Shape() && Out(expired, i + 1) && Known(old(View()).heap, old(View()).order)
      ensures View() == (var v, h1 := old(View()), old(View()).heap[expired[i].addr := After(old(expired[i].Record()), now)];
        v.(heap := h1, order := if expired[i].recurring then TimerSpec.Insert(h1, v.order, expired[i].addr) else v.order))
      ensures expired[i].recurring == old(expired[i].recurring)
    {
      Release(expired[i], now);
    }

    /** The loop stands at i: what is still to come from here is what was to come from the start. */
    ghost predicate Midway(expired: seq<Timer>, i: nat, now: nat, cbs: seq<Option<Callback>>,
                           start: Timers, goal: (Heap, seq<Addr>), all: seq<Option<Callback>>)
      reads this, at.Values, expired
    {
      && Shape() && Out(expired, i) && i <= |expired|
      && var v, rest := View(), Addrs(expired)[i..];
      && v == start.(heap := v.heap, order := v.order)
      && Known(v.heap, v.order) && Known(v.heap, rest)
      && Rearm(v.heap, v.order, rest, now) == goal
      && cbs + Callbacks(v.heap, rest) == all
    }

    /** The body of the loop over the expired timers. */
    method ReleaseNext(expired: seq<Timer>, i: nat, now: nat, cbs: seq<Option<Callback>>,
                       ghost start: Timers, ghost goal: (Heap, seq<Addr>), ghost all: seq<Option<Callback>>)
      returns (more: seq<Option<Callback>>)
      requires i < |expired| && Midway(expired, i, now, cbs, start, goal, all)
      modifies this`timers, expired[i]
      ensures Midway(expired, i + 1, now, more, start, goal, all)
    {
      ghost var v, taken := View(), Addrs(expired);
      RearmFirst(v.heap, v.order, taken, i, now);
      CallbacksElsewhere(v.heap, taken, i, now);
      more := cbs + [expired[i].cb];
      assert cbs + Callbacks(v.heap, taken[i..]) == more + Callbacks(v.heap, taken[i + 1..]);
      ReleaseTurn(expired, i, now);
    }

    /** The loop over the expired timers. */
    method ReleaseAll(expired: seq<Timer>, now: nat) returns (cbs: seq<Option<Callback>>)
      requires Shape() && Out(expired, 0)
      modifies this`timers, expired
      ensures Shape() && Known(old(View()).heap, old(View()).order) && Known(old(View()).heap, Addrs(expired))
      ensures View() == (var v, r := old(View()), Rearm(old(View()).heap, old(View()).order, Addrs(expired), now);
        v.(heap := r.0, order := r.1))
      ensures cbs == Callbacks(old(View()).heap, Addrs(expired))
    {
      ghost var v, taken := View(), Addrs(expired);
      assert taken[0..] == taken && [] + Callbacks(v.heap, taken) == Callbacks(v.heap, taken);
      ghost var goal, all := Rearm(v.heap, v.order, taken, now), Callbacks(v.heap, taken);
      cbs := [];
      var i := 0;
      while i < |expired|
        invariant 0 <= i <= |expired| && Midway(expired, i, now, cbs, v, goal, all)
      {
        cbs := ReleaseNext(expired, i, now, cbs, v, goal, all);
        i := i + 1;
      }
      assert cbs + [] == cbs;
    }

    /** Erase the first n timers and hand them out. */
    method Cut(n: nat) returns (expired: seq<Timer>)
      requires Valid() && n <= |timers|
      modifies this`timers
      ensures Shape() && Out(expired, 0)
      ensures View() == old(View()).(order := old(View()).order[n..]) && Addrs(expired) == old(View()).order[..n]
      ensures forall j :: 0 <= j < |expired| ==> expired[j] in at.Values
    {
      ghost var o := View().order;
      Split(View().heap, o, n);
      expired := timers[..n];
      timers := timers[n..];
      assert Addrs(timers) == o[n..] && Addrs(expired) == o[..n];
      forall j | 0 <= j < |expired|
        ensures Has(expired[j]) && expired[j].addr !in Addrs(timers)
      {
        assert o[j] == expired[j].addr && o[j] in o && o[..n][j] in o[..n];
      }
      forall j, k | 0 <= j < k < |expired| ensures expired[j].addr != expired[k].addr {
        assert Less(View().heap, o[j], o[k]);
      }
    }

    /** How many timers the expiry takes, after the clock has been looked at. */
    method CountDue(now: nat, probeAddr: Addr, rollover: bool) returns (n: nat)
      requires Valid() && probeAddr !in at && timers != []
      ensures n == if rollover then |timers| else DueCount(View().heap, View().order, now)
    {
      assert View().order[0] == timers[0].addr;
      if !rollover && timers[0].next > now {
        return 0;
      }
      if rollover {
        return |timers|;
      }
      var probe := new Timer.Probe(probeAddr, now);
      n := EndOfDue(probe);
    }

    /** The first half of the expiry: look at the clock, and take the due timers out of the set. */
    method CollectDue(now: nat, probeAddr: Addr) returns (expired: seq<Timer>)
      requires Valid() && probeAddr !in at && timers != []
      modifies this`timers, this`previous
      ensures Shape() && Out(expired, 0)
      ensures Addrs(expired) == Expired(old(View()), now)
      ensures View() == old(View()).(order := old(View()).order[|Expired(old(View()), now)|..], previous := now)
      ensures forall j :: 0 <= j < |expired| ==> expired[j] in at.Values
    {
      ghost var v := View();
      var rollover := DetectClockRollover(now);
      assert View() == v.(previous := now);
      assert |v.order| == |timers|;
      var n := CountDue(now, probeAddr, rollover);
      assert Expired(v, now) == v.order[..n];
      expired := Cut(n);
    }

    /** The callbacks of the expired timers in the order of the set; the set afterwards is that of `Expire`. */
    method ListExpiredCb(now: nat, probeAddr: Addr) returns (cbs: seq<Option<Callback>>)
      requires Valid() && probeAddr !in at
      modifies this, at.Values
      ensures Valid() && at == old(at)
      ensures View() == Expire(old(View()), now)
      ensures cbs == Callbacks(old(View()).heap, Expired(old(View()), now))
    {
      ghost var v := View();
      ExpiredFacts(v, now);
      assert |v.order| == |timers|;
      if timers == [] {
        return [];
      }
      var expired := CollectDue(now, probeAddr);
      cbs := ReleaseAll(expired, now);
      assert View() == Expire(v, now);
      ExpiryIsExact(v, now);
    }
  }
}
