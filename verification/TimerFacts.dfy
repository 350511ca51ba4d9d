/**
 What the timer operations guarantee: the set stays valid, an expiry takes exactly the due
 timers, and the poll timeout agrees with the next expiry.
 */
module TimerFacts {
  import opened Prelude
  import opened TimerSpec

  // ---- the set invariant ---------------------------------------------------------------------

  lemma PublishKeepsValid(s: Timers, a: Addr)
    requires Known(s.heap, s.order) && Sorted(s.heap, s.order) && a !in s.order && Live(s.heap, a)
    requires forall x :: x in s.order || x == a <==> Live(s.heap, x)
    ensures Valid(Publish(s, a))
  {
    InsertFacts(s.heap, s.order, a);
  }

  /** An empty callback is accepted, and is the one thing that breaks the set. */
  lemma AddKeepsValid(s: Timers, a: Addr, ms: nat, cb: Option<Callback>, recurring: bool, start: nat)
    requires Valid(s) && a !in s.heap
    ensures Valid(Add(s, a, ms, cb, recurring, start)) <==> cb.Some?
  {
    var h := s.heap[a := Rec(recurring, ms, Wrap(start + ms), cb)];
    SortedElsewhere(s.heap, h, s.order);
    if cb.Some? {
      PublishKeepsValid(s.(heap := h), a);
    } else {
      InsertFacts(h, s.order, a);
      assert a in Add(s, a, ms, cb, recurring, start).order;
    }
  }

  /** A timer with an empty callback is in the set, and neither `cancel` nor `refresh` nor `reset` moves it. */
  lemma EmptyCallbackIsStuck(s: Timers, a: Addr, ms: nat, recurring: bool, start: nat, ms1: nat, fromNow: bool, now: nat)
    requires Valid(s) && a !in s.heap
    ensures var s1 := Add(s, a, ms, None, recurring, start);
      && Known(s1.heap, s1.order) && a in s1.order
      && Cancel(s1, a) == (s1, false) && Refresh(s1, a, now) == (s1, false) && Reset(s1, a, ms1, fromNow, now).0 == s1
  {
    var h := s.heap[a := Rec(recurring, ms, Wrap(start + ms), None)];
    SortedElsewhere(s.heap, h, s.order);
    InsertFacts(h, s.order, a);
  }

  lemma CancelKeepsValid(s: Timers, a: Addr)
    requires Valid(s) && a in s.heap
    ensures Valid(Cancel(s, a).0)
    ensures Cancel(s, a).1 <==> a in s.order
    ensures !Live(Cancel(s, a).0.heap, a)
  {
    if s.heap[a].cb.Some? {
      RemoveFacts(s.heap, s.order, a);
      SortedElsewhere(s.heap, s.heap[a := s.heap[a].(cb := None)], Remove(s.order, a));
    }
  }

  /** Out of the set, with a new deadline, and back in. */
  lemma SetNextFacts(s: Timers, a: Addr, ms: nat, next: nat)
    requires Valid(s) && Live(s.heap, a)
    ensures var s1 := SetNext(s, a, ms, next);
      && Known(s1.heap, s1.order) && Sorted(s1.heap, s1.order) && a !in s1.order && Live(s1.heap, a)
      && (forall x :: x in s1.order || x == a <==> Live(s1.heap, x))
      && (forall x :: x in s1.order <==> x in s.order && x != a)
  {
    RemoveFacts(s.heap, s.order, a);
    var h := s.heap[a := s.heap[a].(ms := ms, next := next)];
    SortedElsewhere(s.heap, h, Remove(s.order, a));
  }

  lemma RetimedIsValid(s: Timers, a: Addr, ms: nat, next: nat)
    requires Valid(s) && Live(s.heap, a)
    ensures Known(SetNext(s, a, ms, next).heap, SetNext(s, a, ms, next).order)
    ensures Valid(Publish(SetNext(s, a, ms, next), a)) && Valid(PutBack(SetNext(s, a, ms, next), a))
  {
    SetNextFacts(s, a, ms, next);
    PublishKeepsValid(SetNext(s, a, ms, next), a);
  }

  lemma RefreshKeepsValid(s: Timers, a: Addr, now: nat)
    requires Valid(s) && a in s.heap
    ensures Valid(Refresh(s, a, now).0)
  {
    if s.heap[a].cb.Some? {
      var ms := s.heap[a].ms;
      RetimedIsValid(s, a, ms, Wrap(now + ms));
      assert Refresh(s, a, now).0 == PutBack(SetNext(s, a, ms, Wrap(now + ms)), a);
    }
  }

  lemma ResetKeepsValid(s: Timers, a: Addr, ms: nat, fromNow: bool, now: nat)
    requires Valid(s) && a in s.heap
    ensures Valid(Reset(s, a, ms, fromNow, now).0)
  {
    if s.heap[a].cb.Some? {
      RetimedIsValid(s, a, ms, Wrap((if fromNow then now else Wrap(s.heap[a].next - s.heap[a].ms)) + ms));
    }
  }

  // ---- what each operation changes ----------------------------------------------------------

  /** The timer stands before all others of the set. */
  ghost predicate IsFirst(s: Timers, a: Addr)
    requires Known(s.heap, s.order)
  {
    a in s.heap && forall x :: x in s.order && x != a ==> Less(s.heap, a, x)
  }

  /** Timer a becomes t and no other changes; `heard` says whether somebody is told when a is now first. */
  ghost predicate Retimed(s: Timers, s1: Timers, a: Addr, t: Rec, heard: bool) {
    && s1.heap == s.heap[a := t] && s1.previous == s.previous
    && Known(s1.heap, s1.order)
    && (s1.tickled <==> s.tickled || (heard && IsFirst(s1, a)))
  }

  lemma PublishedIsFirst(s: Timers, a: Addr)
    requires Known(s.heap, s.order) && Sorted(s.heap, s.order) && a in s.heap && a !in s.order
    ensures var s1 := Publish(s, a);
      Known(s1.heap, s1.order) && (s1.tickled <==> s.tickled || IsFirst(s1, a))
  {
    InsertFacts(s.heap, s.order, a);
    var s1 := Publish(s, a);
    if s1.order[0] == a {
      assert forall i :: 0 < i < |s1.order| ==> Less(s1.heap, s1.order[0], s1.order[i]);
    } else {
      assert s1.order[0] in s1.order && Less(s1.heap, s1.order[0], a);
    }
  }

  lemma AddIs(s: Timers, a: Addr, ms: nat, cb: Option<Callback>, recurring: bool, start: nat)
    requires Valid(s) && a !in s.heap
    ensures Retimed(s, Add(s, a, ms, cb, recurring, start), a, Rec(recurring, ms, (start + ms) % 0x1_0000_0000_0000_0000, cb), true)
  {
    var h := s.heap[a := Rec(recurring, ms, Wrap(start + ms), cb)];
    SortedElsewhere(s.heap, h, s.order);
    PublishedIsFirst(s.(heap := h), a);
  }

  /** A live timer loses its callback and nothing else; a dead one is left alone. */
  lemma CancelIs(s: Timers, a: Addr)
    requires Valid(s) && a in s.heap
    ensures var (s1, r) := Cancel(s, a);
      if s.heap[a].cb.None? then s1 == s && !r
      else r && Retimed(s, s1, a, s.heap[a].(cb := None), false)
  {
    CancelKeepsValid(s, a);
  }

  /** `refresh` moves the deadline of a live timer to now + ms, tells nobody, and leaves a dead one alone. */
  lemma RefreshIs(s: Timers, a: Addr, now: nat)
    requires Valid(s) && a in s.heap
    ensures var t, (s1, r) := s.heap[a], Refresh(s, a, now);
      if t.cb.None? then s1 == s && !r
      else r && Retimed(s, s1, a, t.(next := (now + t.ms) % 0x1_0000_0000_0000_0000), false)
  {
    RefreshKeepsValid(s, a, now);
  }

  /**
   `reset` answers true for an unchanged period, and false for another one of a dead timer. The
   new deadline counts from now, or from where the old one counted from.
   */
  lemma ResetIs(s: Timers, a: Addr, ms: nat, fromNow: bool, now: nat)
    requires Valid(s) && a in s.heap
    ensures var t, (s1, r) := s.heap[a], Reset(s, a, ms, fromNow, now);
      if ms == t.ms && !fromNow then s1 == s && r
      else if t.cb.None? then s1 == s && !r
      else
        && r && Retimed(s, s1, a, Rec(t.recurring, ms, s1.heap[a].next, t.cb), true)
        && s1.heap[a].next == (if fromNow then now + ms else t.next - t.ms + ms) % 0x1_0000_0000_0000_0000
  {
    var t := s.heap[a];
    if t.cb.Some? {
      RepublishedIs(s, a, ms, Wrap((if fromNow then now else Wrap(t.next - t.ms)) + ms));
      WrapsOnce(t.next - t.ms, ms);
    }
  }

  lemma RepublishedIs(s: Timers, a: Addr, ms: nat, next: nat)
    requires Valid(s) && Live(s.heap, a)
    ensures Known(SetNext(s, a, ms, next).heap, SetNext(s, a, ms, next).order)
    ensures Retimed(s, Publish(SetNext(s, a, ms, next), a), a, Rec(s.heap[a].recurring, ms, next, s.heap[a].cb), true)
  {
    SetNextFacts(s, a, ms, next);
    PublishedIsFirst(SetNext(s, a, ms, next), a);
  }

  lemma WrapsOnce(x: int, y: nat)
    ensures Wrap(Wrap(x) + y) == (x + y) % 0x1_0000_0000_0000_0000
  {
  }

  /** A poll forgets that somebody was told, and changes nothing else. */
  lemma PollIs(s: Timers, now: nat)
    requires Valid(s)
    ensures var s1 := NextTimer(s, now).0;
      !s1.tickled && s1.heap == s.heap && s1.order == s.order && s1.previous == s.previous
  {
  }

  // ---- the clock ----------------------------------------------------------------------------

  /**
   A rollover is detected for a clock more than an hour behind the last expiry. Below one hour
   the unsigned subtraction wraps, and any step back counts.
   */
  lemma RolloverIff(s: Timers, now: nat)
    requires s.previous < U64
    ensures Rollover(s, now) <==> if s.previous >= 3_600_000 then now < s.previous - 3_600_000 else now < s.previous
  {
    assert s.previous >= HOUR ==> Wrap(s.previous - HOUR) == s.previous - HOUR;
    assert s.previous < HOUR ==> Wrap(s.previous - HOUR) == s.previous - HOUR + U64;
  }

  // ---- expiry -------------------------------------------------------------------------------

  lemma {:induction false} DueCountFacts(h: Heap, o: seq<Addr>, now: nat)
    requires Known(h, o) && Sorted(h, o)
    ensures forall i :: 0 <= i < |o| ==> (h[o[i]].next <= now <==> i < DueCount(h, o, now))
  {
    if o != [] && h[o[0]].next <= now {
      assert forall i :: 0 <= i < |o[1..]| ==> o[1..][i] == o[i + 1];
      DueCountFacts(h, o[1..], now);
      forall i | 0 < i < |o| ensures h[o[i]].next <= now <==> i < DueCount(h, o, now) {
        assert o[1..][i - 1] == o[i];
      }
    } else if o != [] {
      forall i | 0 <= i < |o| ensures h[o[i]].next > now {
        assert i > 0 ==> Less(h, o[0], o[i]);
      }
    }
  }

  lemma Split(h: Heap, o: seq<Addr>, n: nat)
    requires Known(h, o) && Sorted(h, o) && n <= |o|
    ensures Known(h, o[..n]) && Sorted(h, o[..n]) && Known(h, o[n..]) && Sorted(h, o[n..])
    ensures forall x :: x in o <==> x in o[..n] || x in o[n..]
    ensures forall x :: !(x in o[..n] && x in o[n..])
  {
    assert o == o[..n] + o[n..];
    forall x | x in o[..n] ensures x !in o[n..] {
      var i :| 0 <= i < n && o[i] == x;
      forall j | 0 <= j < |o[n..]| ensures o[n..][j] != x {
        assert Less(h, o[i], o[n + j]);
      }
    }
  }

  /** What one expired timer becomes. */
  function After(t: Rec, now: nat): Rec {
    if t.recurring then t.(next := Wrap(now + t.ms)) else t.(cb := None)
  }

  lemma {:induction false} RearmFacts(h: Heap, o: seq<Addr>, taken: seq<Addr>, now: nat)
    requires Known(h, o) && Sorted(h, o) && Known(h, taken)
    requires forall i, j :: 0 <= i < j < |taken| ==> taken[i] != taken[j]
    requires forall x :: x in taken ==> x !in o && Live(h, x)
    ensures var r := Rearm(h, o, taken, now);
      && r.0.Keys == h.Keys
      && (forall x :: x in h ==> r.0[x] == if x in taken then After(h[x], now) else h[x])
      && Known(r.0, r.1) && Sorted(r.0, r.1)
      && (forall x :: x in r.1 <==> x in o || (x in taken && h[x].recurring))
    decreases |taken|
  {
    if taken != [] {
      var a := taken[0];
      assert a in taken;
      assert forall x :: x in taken <==> x == a || x in taken[1..];
      assert a !in taken[1..];
      assert forall i :: 0 <= i < |taken[1..]| ==> taken[1..][i] == taken[i + 1];
      var h1 := h[a := After(h[a], now)];
      SortedElsewhere(h, h1, o);
      if h[a].recurring {
        InsertFacts(h1, o, a);
        RearmFacts(h1, Insert(h1, o, a), taken[1..], now);
      } else {
        RearmFacts(h1, o, taken[1..], now);
      }
    }
  }

  /** The number of due timers, from the two around the border. */
  lemma DueCountIs(h: Heap, o: seq<Addr>, n: nat, now: nat)
    requires Known(h, o) && Sorted(h, o) && n <= |o|
    requires n < |o| ==> h[o[n]].next > now
    requires n > 0 ==> h[o[n - 1]].next <= now
    ensures n == DueCount(h, o, now)
  {
    DueCountFacts(h, o, now);
  }

  lemma DuePrefix(h: Heap, o: seq<Addr>, now: nat, x: Addr)
    requires Known(h, o) && Sorted(h, o)
    ensures x in o[..DueCount(h, o, now)] <==> x in o && h[x].next <= now
  {
    DueCountFacts(h, o, now);
    var n := DueCount(h, o, now);
    if x in o {
      var i :| 0 <= i < |o| && o[i] == x;
      assert i < n ==> o[..n][i] == x;
    }
  }

  lemma ExpiredFacts(s: Timers, now: nat)
    requires Valid(s)
    ensures var taken := Expired(s, now);
      && Known(s.heap, taken) && Sorted(s.heap, taken) && |taken| <= |s.order| && taken == s.order[..|taken|]
      && (forall x :: x in taken ==> Live(s.heap, x) && x !in s.order[|taken|..])
      && (forall x :: x in taken <==> Live(s.heap, x) && (Rollover(s, now) || s.heap[x].next <= now))
  {
    var taken := Expired(s, now);
    assert s.order[..|s.order|] == s.order;
    Split(s.heap, s.order, |taken|);
    if !Rollover(s, now) {
      forall x ensures x in taken <==> Live(s.heap, x) && s.heap[x].next <= now {
        DuePrefix(s.heap, s.order, now, x);
      }
    }
  }

  /**
   Expiry takes exactly the due timers, or all of them after a rollover of the clock; their
   callbacks come out in the order of the set, recurring timers return at `now + ms`,
   one-shot timers lose their callback, and no other timer changes.
   */
  lemma ExpiryIsExact(s: Timers, now: nat)
    requires Valid(s)
    ensures var taken, s1 := Expired(s, now), Expire(s, now);
      && Valid(s1) && s1.heap.Keys == s.heap.Keys
      && (forall a :: a in taken <==> Live(s.heap, a) && (Rollover(s, now) || s.heap[a].next <= now))
      && (forall i, j :: 0 <= i < j < |taken| ==> var t, u := s.heap[taken[i]].next, s.heap[taken[j]].next;
            t < u || (t == u && taken[i] < taken[j]))
      && (forall a :: a in s.heap ==> s1.heap[a] == if a in taken then After(s.heap[a], now) else s.heap[a])
      && s1.tickled == s.tickled && s1.previous == (if s.order == [] then s.previous else now)
  {
    ExpiredFacts(s, now);
    var taken := Expired(s, now);
    Split(s.heap, s.order, |taken|);
    RearmFacts(s.heap, s.order[|taken|..], taken, now);
    if s.order == [] {
      assert forall a :: a in taken ==> a in s.order;
    }
  }

  lemma {:induction false} CallbacksInOrder(h: Heap, taken: seq<Addr>)
    requires Known(h, taken)
    ensures |Callbacks(h, taken)| == |taken|
    ensures forall i :: 0 <= i < |taken| ==> Callbacks(h, taken)[i] == h[taken[i]].cb
  {
    if taken != [] {
      CallbacksInOrder(h, taken[1..]);
      assert forall i :: 0 < i < |taken| ==> taken[i] == taken[1..][i - 1];
    }
  }

  /** An expiry hands out one live callback for each timer it takes, in the order of the set. */
  lemma ExpiryHandsOutLiveCallbacks(s: Timers, now: nat, i: nat)
    requires Valid(s) && i < |Expired(s, now)|
    ensures |Callbacks(s.heap, Expired(s, now))| == |Expired(s, now)|
    ensures Callbacks(s.heap, Expired(s, now))[i].Some?
    ensures Callbacks(s.heap, Expired(s, now))[i] == s.heap[Expired(s, now)[i]].cb
  {
    ExpiredFacts(s, now);
    CallbacksInOrder(s.heap, Expired(s, now));
    assert Live(s.heap, Expired(s, now)[i]);
  }

  // ---- poll and expiry -------------------------------------------------------------------------

  /**
   Poll and expiry agree: the wait that `getNextTimer` reports is the least after which an
   expiry finds something, 0 when it would now, and all ones when there is no timer.
   */
  lemma WaitIsLeast(s: Timers, now: nat, wait: nat)
    requires Valid(s) && !Rollover(s, now) && !Rollover(s, now + wait)
    ensures Expired(s, now + wait) != [] <==> s.order != [] && NextTimer(s, now).1 <= wait
    ensures s.order == [] ==> NextTimer(s, now).1 == 0xFFFF_FFFF_FFFF_FFFF
  {
    DueCountFacts(s.heap, s.order, now + wait);
    assert s.order != [] ==> (0 < DueCount(s.heap, s.order, now + wait) <==> s.heap[s.order[0]].next <= now + wait);
  }

  /** After an expiry with positive periods nothing is due at the same instant: the idle loop does not spin. */
  lemma NothingDueAfterExpiry(s: Timers, now: nat)
    requires Valid(s) && !Rollover(s, now)
    requires forall a :: a in s.heap && s.heap[a].recurring ==> s.heap[a].ms > 0 && now + s.heap[a].ms < U64
    ensures Valid(Expire(s, now)) && NextTimer(Expire(s, now), now).1 > 0
  {
    ExpiryIsExact(s, now);
    var s1 := Expire(s, now);
    if s1.order != [] {
      assert s1.order[0] in s1.order;
    }
  }

  // ---- the timeout of epoll_wait ----------------------------------------------------------------

  const MAX_TIMEOUT: int := 3000

  /** `(int)` of a 64-bit unsigned value. */
  function ToInt32(x: nat): int {
    var low := x % 0x1_0000_0000;
    if low < 0x8000_0000 then low else low - 0x1_0000_0000
  }

  /** What the idle loop passes to `epoll_wait`. */
  function PollTimeout(next: nat): int {
    if next == FOREVER || ToInt32(next) > MAX_TIMEOUT then MAX_TIMEOUT else ToInt32(next)
  }

  /**
   The timeout lies between 0 and 3000 exactly when the wait is all ones or the cast is not
   negative; otherwise `epoll_wait` is told to wait for ever. When it is in range it never
   exceeds the wait.
   */
  lemma TimeoutInRangeIff(next: nat)
    requires next < U64
    ensures 0 <= PollTimeout(next) <= MAX_TIMEOUT <==> (next == FOREVER || next % 0x1_0000_0000 < 0x8000_0000)
    ensures 0 <= PollTimeout(next) ==> PollTimeout(next) <= next
    ensures PollTimeout(next) < 0 || PollTimeout(next) <= MAX_TIMEOUT
  {
    if next < MAX_TIMEOUT { assert next % 0x1_0000_0000 == next; }
  }
}
