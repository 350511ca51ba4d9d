/**
 The timer set: timers by address, the set ordered by (deadline, address), the notification
 flag and the time of the last expiry. Every operation of `timer.cpp` as a function; the
 arithmetic is that of 64-bit unsigned integers.
 */
module TimerSpec {
  import opened Prelude

  type Addr = nat
  type Callback = nat

  const U64: nat := 0x1_0000_0000_0000_0000
  const FOREVER: nat := U64 - 1          // ~0ull
  const HOUR: nat := 60 * 60 * 1000

  function Wrap(x: int): nat {
    x % U64
  }

  /** A timer object; `cb` is None after cancel and after the firing of a one-shot timer. */
  datatype Rec = Rec(recurring: bool, ms: nat, next: nat, cb: Option<Callback>)

  type Heap = map<Addr, Rec>

  datatype Timers = Timers(heap: Heap, order: seq<Addr>, tickled: bool, previous: nat)

  /** `Timer::Comparator` on two timers that exist. */
  predicate Less(h: Heap, a: Addr, b: Addr)
    requires a in h && b in h
  {
    h[a].next < h[b].next || (h[a].next == h[b].next && a < b)
  }

  predicate Known(h: Heap, o: seq<Addr>) {
    forall x :: x in o ==> x in h
  }

  predicate Sorted(h: Heap, o: seq<Addr>)
    requires Known(h, o)
  {
    forall i, j :: 0 <= i < j < |o| ==> Less(h, o[i], o[j])
  }

  predicate Live(h: Heap, a: Addr) {
    a in h && h[a].cb.Some?
  }

  /** The set holds exactly the timers with a callback, strictly in order. */
  ghost predicate Valid(s: Timers) {
    && Known(s.heap, s.order)
    && Sorted(s.heap, s.order)
    && (forall a :: a in s.order <==> Live(s.heap, a))
  }

  // ---- the ordered set -------------------------------------------------------------------

  function Insert(h: Heap, o: seq<Addr>, a: Addr): (r: seq<Addr>)
    requires Known(h, o) && a in h
    ensures Known(h, r) && r != []
  {
    if o == [] || Less(h, a, o[0]) then [a] + o else [o[0]] + Insert(h, o[1..], a)
  }

  function Remove(o: seq<Addr>, a: Addr): (r: seq<Addr>)
    ensures forall x :: x in r ==> x in o
  {
    if o == [] then [] else if o[0] == a then o[1..] else [o[0]] + Remove(o[1..], a)
  }

  lemma {:induction false} InsertFacts(h: Heap, o: seq<Addr>, a: Addr)
    requires Known(h, o) && a in h && Sorted(h, o) && a !in o
    ensures Sorted(h, Insert(h, o, a))
    ensures forall x :: x in Insert(h, o, a) <==> x == a || x in o
    ensures Insert(h, o, a) != []
    ensures Insert(h, o, a)[0] == a <==> o == [] || Less(h, a, o[0])
    ensures Insert(h, o, a)[0] == a || (o != [] && Insert(h, o, a)[0] == o[0])
  {
    if o == [] || Less(h, a, o[0]) {
      assert forall i :: 0 <= i < |o| ==> o != [] && (o[i] == o[0] || Less(h, o[0], o[i]));
    } else {
      assert forall i :: 0 <= i < |o[1..]| ==> o[1..][i] == o[i + 1];
      InsertFacts(h, o[1..], a);
      var r := Insert(h, o[1..], a);
      forall i | 0 <= i < |r| ensures Less(h, o[0], r[i]) {
        assert r[i] in r;
      }
    }
  }

  /** A sorted rest may follow the first element. */
  lemma FrontIsLeast(h: Heap, o: seq<Addr>, r: seq<Addr>)
    requires Known(h, o) && Sorted(h, o) && o != [] && Known(h, r) && Sorted(h, r)
    requires forall x :: x in r ==> x in o[1..]
    ensures Known(h, [o[0]] + r) && Sorted(h, [o[0]] + r)
  {
    forall i | 0 <= i < |r| ensures Less(h, o[0], r[i]) {
      assert r[i] in o[1..];
    }
  }

  lemma {:induction false} RemoveFacts(h: Heap, o: seq<Addr>, a: Addr)
    requires Known(h, o) && Sorted(h, o)
    ensures Known(h, Remove(o, a)) && Sorted(h, Remove(o, a))
    ensures forall x :: x in Remove(o, a) <==> x in o && x != a
    ensures o != [] && o[0] != a ==> Remove(o, a) != [] && Remove(o, a)[0] == o[0]
  {
    if o != [] {
      assert forall i :: 0 <= i < |o[1..]| ==> o[1..][i] == o[i + 1];
      forall x ensures x in o[1..] <==> x in o && x != o[0] {
        SortedTail(h, o, x);
      }
      if o[0] != a {
        RemoveFacts(h, o[1..], a);
        FrontIsLeast(h, o, Remove(o[1..], a));
      }
    }
  }

  function Front(o: seq<Addr>): (r: Option<Addr>)
    ensures o == [] || (r.Some? && r.value in o)
  {
    if o == [] then None else Some(o[0])
  }

  /** The order of the set is determined by the timers in it. */
  lemma {:induction false} OrderIsUnique(h: Heap, o: seq<Addr>, p: seq<Addr>)
    requires Known(h, o) && Sorted(h, o) && Known(h, p) && Sorted(h, p)
    requires forall x :: x in o <==> x in p
    ensures o == p
  {
    var x, y := Front(o), Front(p);
    if o != [] && p != [] {
      assert o[0] in o && o[0] in p;
      assert p[0] in p && p[0] in o;
      assert o[0] == p[0];
      forall x ensures x in o[1..] <==> x in p[1..] {
        SortedTail(h, o, x);
        SortedTail(h, p, x);
      }
      OrderIsUnique(h, o[1..], p[1..]);
    }
  }

  lemma SortedTail(h: Heap, o: seq<Addr>, x: Addr)
    requires Known(h, o) && Sorted(h, o) && o != []
    ensures x in o[1..] <==> x in o && x != o[0]
  {
    if x in o[1..] {
      var i :| 0 <= i < |o[1..]| && o[1..][i] == x;
      assert Less(h, o[0], o[i + 1]);
    }
    if x in o && x != o[0] {
      var i :| 0 <= i < |o| && o[i] == x;
      assert o[1..][i - 1] == x;
    }
  }

  /** Changing timers that are not in the set does not disturb it. */
  lemma SortedElsewhere(h: Heap, h1: Heap, o: seq<Addr>)
    requires Known(h, o) && Sorted(h, o)
    requires forall x :: x in o ==> x in h1 && h1[x] == h[x]
    ensures Known(h1, o) && Sorted(h1, o)
  {
  }

  // ---- the operations ----------------------------------------------------------------------

  function PutBack(s: Timers, a: Addr): Timers
    requires Known(s.heap, s.order) && a in s.heap
  {
    s.(order := Insert(s.heap, s.order, a))
  }

  /** The private `addTimer`: insert, and notify if the timer is now first and nobody was notified. */
  function Publish(s: Timers, a: Addr): Timers
    requires Known(s.heap, s.order) && a in s.heap
  {
    var s1 := PutBack(s, a);
    s1.(tickled := s.tickled || s1.order[0] == a)
  }

  /** The deadline was computed from the clock at `start`, before the lock was taken. */
  function Add(s: Timers, a: Addr, ms: nat, cb: Option<Callback>, recurring: bool, start: nat): Timers
    requires Known(s.heap, s.order) && a !in s.heap
  {
    Publish(s.(heap := s.heap[a := Rec(recurring, ms, Wrap(start + ms), cb)]), a)
  }

  function Cancel(s: Timers, a: Addr): (Timers, bool)
    requires a in s.heap
  {
    if s.heap[a].cb.Some?
    then (s.(heap := s.heap[a := s.heap[a].(cb := None)], order := Remove(s.order, a)), true)
    else (s, false)
  }

  function SetNext(s: Timers, a: Addr, ms: nat, next: nat): Timers
    requires a in s.heap
  {
    s.(heap := s.heap[a := s.heap[a].(ms := ms, next := next)], order := Remove(s.order, a))
  }

  function Refresh(s: Timers, a: Addr, now: nat): (Timers, bool)
    requires Known(s.heap, s.order) && a in s.heap
  {
    if s.heap[a].cb.None? then (s, false)
    else
      (PutBack(SetNext(s, a, s.heap[a].ms, Wrap(now + s.heap[a].ms)), a), true)
  }

  /** The first test is made without looking at the callback: a dead timer answers true. */
  function Reset(s: Timers, a: Addr, ms: nat, fromNow: bool, now: nat): (Timers, bool)
    requires Known(s.heap, s.order) && a in s.heap
  {
    var t := s.heap[a];
    if ms == t.ms && !fromNow then (s, true)
    else if t.cb.None? then (s, false)
    else
      var start := if fromNow then now else Wrap(t.next - t.ms);
      (Publish(SetNext(s, a, ms, Wrap(start + ms)), a), true)
  }

  function NextTimer(s: Timers, now: nat): (Timers, nat)
    requires Known(s.heap, s.order)
  {
    (s.(tickled := false),
     if s.order == [] then FOREVER
     else if now >= s.heap[s.order[0]].next then 0
     else s.heap[s.order[0]].next - now)
  }

  predicate Rollover(s: Timers, now: nat) {
    now < s.previous && now < Wrap(s.previous - HOUR)
  }

  /** How many timers at the front are due. */
  function DueCount(h: Heap, o: seq<Addr>, now: nat): (n: nat)
    requires Known(h, o)
    ensures n <= |o|
  {
    if o == [] || h[o[0]].next > now then 0 else 1 + DueCount(h, o[1..], now)
  }

  /** The timers an expiry takes out. */
  function Expired(s: Timers, now: nat): seq<Addr>
    requires Known(s.heap, s.order)
  {
    if Rollover(s, now) then s.order else s.order[..DueCount(s.heap, s.order, now)]
  }

  /** What `listExpiredCb` hands to the scheduler. */
  function Callbacks(h: Heap, taken: seq<Addr>): seq<Option<Callback>>
    requires Known(h, taken)
  {
    if taken == [] then [] else [h[taken[0]].cb] + Callbacks(h, taken[1..])
  }

  /** The loop over the expired timers: one-shot timers lose their callback, recurring ones return. */
  function Rearm(h: Heap, o: seq<Addr>, taken: seq<Addr>, now: nat): (Heap, seq<Addr>)
    requires Known(h, o) && Known(h, taken)
    decreases |taken|
  {
    if taken == [] then (h, o)
    else
      var a := taken[0];
      if h[a].recurring then
        var h1 := h[a := h[a].(next := Wrap(now + h[a].ms))];
        Rearm(h1, Insert(h1, o, a), taken[1..], now)
      else
        Rearm(h[a := h[a].(cb := None)], o, taken[1..], now)
  }

  function Expire(s: Timers, now: nat): Timers
    requires Known(s.heap, s.order)
  {
    if s.order == [] then s
    else
      var taken := Expired(s, now);
      var r := Rearm(s.heap, s.order[|taken|..], taken, now);
      s.(heap := r.0, order := r.1, previous := now)
  }
}
