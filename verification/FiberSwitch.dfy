/**
 Context switching on one thread: `Fiber::swapIn` and `Fiber::swapOut` over saved contexts,
 against a plain stack of suspended code.

 `swapcontext(&a, &b)` stores the continuation of whatever code is executing in `a` and
 continues what is stored in `b`; nothing ties the stored continuation to the owner of `a`.
 */
module FiberSwitch {
  import opened Prelude
  import opened SchedulerModel

  /** What a context continues: the entry of `who`, or its code as suspended at time `at`. */
  datatype Ctx = Entry(who: FiberId) | Point(who: FiberId, at: nat)

  datatype FiberRec = FiberRec(main: bool, st: FiberState, ctx: Ctx)

  /** One thread. `cur` is the current-fiber pointer, `cpu` the code that is really executing. */
  datatype Thread = Thread(
    thr: FiberId,                    // t_threadFiber
    sched: Option<FiberId>,          // Scheduler::GetMainFiber()
    cur: FiberId,
    cpu: FiberId,
    fibers: map<FiberId, FiberRec>,
    clock: nat)                      // number of switches so far; stamps suspended code

  datatype Op =
    | In(f: FiberId)                 // f->swapIn()
    | Out(st: FiberState)            // the current fiber sets its state and calls swapOut
    | Mark(f: FiberId, st: FiberState) // setState by the scheduler
    | Reset(f: FiberId)
    | Create(f: FiberId)

  /** The fiber whose context `swapIn` of f saves into and `swapOut` of f continues. */
  function Base(t: Thread, f: FiberId): FiberId {
    if t.sched.None? || (f in t.fibers && t.fibers[f].main) then t.thr else t.sched.value
  }

  /** swapcontext(&save, &load). */
  function Switch(t: Thread, save: FiberId, load: FiberId): Thread
    requires save in t.fibers && load in t.fibers
  {
    var fibers := t.fibers[save := t.fibers[save].(ctx := Point(t.cpu, t.clock))];
    t.(fibers := fibers, cpu := fibers[load].ctx.who, clock := t.clock + 1)
  }

  /** None stands for a failed assertion or a missing fiber. */
  function SwapIn(t: Thread, f: FiberId): Option<Thread> {
    if f !in t.fibers || Base(t, f) !in t.fibers || t.fibers[f].st == EXEC then None
    else Some(Switch(t.(cur := f, fibers := t.fibers[f := t.fibers[f].(st := EXEC)]), Base(t, f), f))
  }

  function SwapOut(t: Thread, st: FiberState): Option<Thread> {
    var base := Base(t, t.cur);
    if t.cur !in t.fibers || base !in t.fibers then None
    else Some(Switch(t.(cur := base, fibers := t.fibers[t.cur := t.fibers[t.cur].(st := st)]), t.cur, base))
  }

  function Do(t: Thread, op: Op): Option<Thread> {
    match op
    case In(f) => SwapIn(t, f)
    case Out(st) => SwapOut(t, st)
    case Mark(f, st) =>
      if f in t.fibers then Some(t.(fibers := t.fibers[f := t.fibers[f].(st := st)])) else None
    case Reset(f) =>
      if f in t.fibers && (Over(t.fibers[f].st) || t.fibers[f].st == INIT)
      then Some(t.(fibers := t.fibers[f := t.fibers[f].(st := INIT, ctx := Entry(f))])) else None
    case Create(f) =>
      if f !in t.fibers then Some(t.(fibers := t.fibers[f := FiberRec(false, INIT, Entry(f))])) else None
  }

  // ---- the stack ---------------------------------------------------------------------------

  /** Code suspended below the running fiber, oldest first: whose, and when it was suspended. */
  datatype Frame = Frame(who: FiberId, at: nat)

  /** The discipline: fibers are swapped in only by the fiber they return to, alive and outside the stack. */
  predicate Allowed(t: Thread, frames: seq<Frame>, op: Op) {
    match op
    case In(f) => f in t.fibers && Base(t, f) == t.cur && t.fibers[f].st != EXEC && !Over(t.fibers[f].st)
    case Out(_) => frames != []
    case Mark(f, st) => f in t.fibers && !OnStack(t, frames, f) && st != INIT && st != EXEC
    case Reset(f) => f in t.fibers && !OnStack(t, frames, f) && (Over(t.fibers[f].st) || t.fibers[f].st == INIT)
    case Create(f) => f !in t.fibers
  }

  predicate OnStack(t: Thread, frames: seq<Frame>, f: FiberId) {
    f == t.cur || exists i :: 0 <= i < |frames| && frames[i].who == f
  }

  /** What a stack would do: push on `In`, pop on `Out`. */
  function Frames(t: Thread, frames: seq<Frame>, op: Op): seq<Frame> {
    match op
    case In(_) => frames + [Frame(t.cur, t.clock)]
    case Out(_) => if frames == [] then [] else frames[..|frames| - 1]
    case _ => frames
  }

  /** The fiber above frame i. */
  function Above(t: Thread, frames: seq<Frame>, i: nat): FiberId {
    if i + 1 < |frames| then frames[i + 1].who else t.cur
  }

  /** The saved contexts are the stack. */
  ghost predicate Nested(t: Thread, frames: seq<Frame>) {
    && t.cur == t.cpu && t.cur in t.fibers && t.thr in t.fibers
    && t.fibers[t.thr].main && (t.sched.Some? ==> t.sched.value in t.fibers && t.fibers[t.sched.value].main)
    && (frames == [] ==> t.cur == t.thr)
    && (forall i :: 0 <= i < |frames| ==> frames[i].who in t.fibers && frames[i].who != t.cur)
    && (forall i, j :: 0 <= i < j < |frames| ==> frames[i].who != frames[j].who)
    && (forall i :: 0 <= i < |frames| ==> t.fibers[frames[i].who].ctx == Point(frames[i].who, frames[i].at))
    && (forall i :: 0 <= i < |frames| ==> Base(t, Above(t, frames, i)) == frames[i].who)
    && (forall i :: 0 <= i < |frames| ==> t.fibers[frames[i].who].st == EXEC)
    && t.fibers[t.cur].st == EXEC
    && (forall f :: f in t.fibers && !OnStack(t, frames, f) ==> t.fibers[f].ctx.who == f)
    && (OnStack(t, frames, t.thr))
  }

  lemma InKeepsNested(t: Thread, frames: seq<Frame>, f: FiberId, t1: Thread)
    requires Nested(t, frames) && Allowed(t, frames, In(f)) && SwapIn(t, f) == Some(t1)
    ensures Nested(t1, frames + [Frame(t.cur, t.clock)])
    ensures t1.cur == f
  {
    var frames1 := frames + [Frame(t.cur, t.clock)];
    assert !OnStack(t, frames, f);
    forall i | 0 <= i < |frames1| ensures Base(t1, Above(t1, frames1, i)) == frames1[i].who {
      assert i < |frames| ==> Above(t1, frames1, i) == Above(t, frames, i);
    }
    forall g | g in t1.fibers && !OnStack(t1, frames1, g) ensures t1.fibers[g].ctx.who == g {
      assert frames1[|frames|].who == t.cur;
      forall i | 0 <= i < |frames| ensures frames[i].who != g {
        assert frames1[i] == frames[i];
      }
    }
    assert OnStack(t1, frames1, t.thr) by {
      if t.thr == t.cur {
        assert frames1[|frames|].who == t.thr;
      } else {
        var i :| 0 <= i < |frames| && frames[i].who == t.thr;
        assert frames1[i].who == t.thr;
      }
    }
  }

  lemma OutKeepsNested(t: Thread, frames: seq<Frame>, st: FiberState, t1: Thread)
    requires Nested(t, frames) && frames != [] && SwapOut(t, st) == Some(t1)
    ensures Nested(t1, frames[..|frames| - 1])
    ensures t1.cur == t1.cpu == frames[|frames| - 1].who
  {
    var n := |frames| - 1;
    var frames1 := frames[..n];
    assert Above(t, frames, n) == t.cur && Base(t, t.cur) == frames[n].who;
    assert t1.cur == t1.cpu == frames[n].who;
    forall i | 0 <= i < n ensures Base(t1, Above(t1, frames1, i)) == frames1[i].who {
      assert Above(t1, frames1, i) == Above(t, frames, i);
    }
    forall g | g in t1.fibers && !OnStack(t1, frames1, g) ensures t1.fibers[g].ctx.who == g {
      if g != t.cur {
        forall i | 0 <= i < |frames| ensures frames[i].who != g {
          assert i < n ==> frames1[i] == frames[i];
        }
      }
    }
    assert OnStack(t1, frames1, t.thr) by {
      if n == 0 { BottomIsThread(t, frames); }
      else {
        BottomIsThread(t, frames);
        assert frames1[0] == frames[0];
      }
    }
    if n == 0 { BottomIsThread(t, frames); }
  }

  /** The thread's own fiber is at the bottom: it is main, so nothing but itself is its base. */
  lemma BottomIsThread(t: Thread, frames: seq<Frame>)
    requires Nested(t, frames) && frames != []
    ensures frames[0].who == t.thr
  {
    assert Base(t, t.thr) == t.thr;
    assert Above(t, frames, |frames| - 1) == t.cur;
    forall k | 0 < k < |frames| ensures frames[k].who != t.thr {
      assert Base(t, Above(t, frames, k - 1)) == frames[k - 1].who && Above(t, frames, k - 1) == frames[k].who;
    }
  }

  lemma OpKeepsNested(t: Thread, frames: seq<Frame>, op: Op)
    requires Nested(t, frames) && Allowed(t, frames, op)
    ensures Do(t, op).Some? && Nested(Do(t, op).value, Frames(t, frames, op))
  {
    match op
    case In(f) => InKeepsNested(t, frames, f, SwapIn(t, f).value);
    case Out(st) =>
      assert Above(t, frames, |frames| - 1) == t.cur;
      OutKeepsNested(t, frames, st, SwapOut(t, st).value);
    case Mark(f, st) => ElsewhereKeepsNested(t, frames, f, t.fibers[f].(st := st));
    case Reset(f) => ElsewhereKeepsNested(t, frames, f, t.fibers[f].(st := INIT, ctx := Entry(f)));
    case Create(f) => ElsewhereKeepsNested(t, frames, f, FiberRec(false, INIT, Entry(f)));
  }

  /** Changing or creating a fiber that is not on the stack does not disturb it. */
  lemma ElsewhereKeepsNested(t: Thread, frames: seq<Frame>, f: FiberId, r: FiberRec)
    requires Nested(t, frames) && !OnStack(t, frames, f) && r.ctx.who == f
    requires f in t.fibers ==> r.main == t.fibers[f].main
    ensures Nested(t.(fibers := t.fibers[f := r]), frames)
  {
    var t1 := t.(fibers := t.fibers[f := r]);
    assert OnStack(t1, frames, t.thr);
    forall i | 0 <= i < |frames| ensures Base(t1, Above(t1, frames, i)) == frames[i].who {
      assert Above(t1, frames, i) == Above(t, frames, i) && Above(t, frames, i) != f;
    }
    forall g | g in t1.fibers && !OnStack(t1, frames, g) ensures t1.fibers[g].ctx.who == g {
      assert !OnStack(t, frames, g);
    }
  }

  // ---- the theorems --------------------------------------------------------------------------

  /** The continuations that the `Out` operations of a run resume. */
  function Resumed(t: Thread, ops: seq<Op>): seq<Ctx>
    decreases |ops|
  {
    if ops == [] || Do(t, ops[0]).None? then []
    else (if ops[0].Out? && Base(t, t.cur) in t.fibers then [t.fibers[Base(t, t.cur)].ctx] else [])
         + Resumed(Do(t, ops[0]).value, ops[1..])
  }

  /** What a stack resumes: always the code suspended by the matching `In`. */
  function Popped(t: Thread, frames: seq<Frame>, ops: seq<Op>): seq<Ctx>
    decreases |ops|
  {
    if ops == [] || Do(t, ops[0]).None? then []
    else (if ops[0].Out? && frames != [] then [Point(frames[|frames| - 1].who, frames[|frames| - 1].at)] else [])
         + Popped(Do(t, ops[0]).value, Frames(t, frames, ops[0]), ops[1..])
  }

  predicate AllAllowed(t: Thread, frames: seq<Frame>, ops: seq<Op>)
    decreases |ops|
  {
    ops == [] || (Allowed(t, frames, ops[0]) && Do(t, ops[0]).Some?
                  && AllAllowed(Do(t, ops[0]).value, Frames(t, frames, ops[0]), ops[1..]))
  }

  /** Swap discipline: every `swapOut` of a disciplined run resumes the code its `swapIn` suspended. */
  lemma {:induction false} SwapOutResumesMatchingSwapIn(t: Thread, frames: seq<Frame>, ops: seq<Op>)
    requires Nested(t, frames) && AllAllowed(t, frames, ops)
    ensures Resumed(t, ops) == Popped(t, frames, ops)
    decreases |ops|
  {
    if ops != [] {
      OpKeepsNested(t, frames, ops[0]);
      if ops[0].Out? {
        assert Above(t, frames, |frames| - 1) == t.cur;
      }
      SwapOutResumesMatchingSwapIn(Do(t, ops[0]).value, Frames(t, frames, ops[0]), ops[1..]);
    }
  }

  /** How a fiber that is not on the stack was left: where it goes on, and in which state. */
  datatype Parked = Parked(ctx: Ctx, st: FiberState)

  /** A new or reset fiber goes on at its entry, one that has swapped out where it did so. */
  function Remember(t: Thread, parked: map<FiberId, Parked>, op: Op): map<FiberId, Parked> {
    match op
    case In(_) => parked
    case Out(st) => parked[t.cur := Parked(Point(t.cur, t.clock), st)]
    case Mark(f, st) => if f in parked then parked[f := parked[f].(st := st)] else parked
    case Reset(f) => parked[f := Parked(Entry(f), INIT)]
    case Create(f) => parked[f := Parked(Entry(f), INIT)]
  }

  ghost predicate Remembers(t: Thread, frames: seq<Frame>, parked: map<FiberId, Parked>) {
    forall f :: f in t.fibers && !OnStack(t, frames, f) ==>
      f in parked && t.fibers[f].ctx == parked[f].ctx && t.fibers[f].st == parked[f].st
  }

  lemma OpKeepsRemembers(t: Thread, frames: seq<Frame>, parked: map<FiberId, Parked>, op: Op)
    requires Nested(t, frames) && Allowed(t, frames, op) && Remembers(t, frames, parked) && Do(t, op).Some?
    ensures Remembers(Do(t, op).value, Frames(t, frames, op), Remember(t, parked, op))
  {
    var t1, frames1, parked1 := Do(t, op).value, Frames(t, frames, op), Remember(t, parked, op);
    forall g | g in t1.fibers && !OnStack(t1, frames1, g)
      ensures g in parked1 && t1.fibers[g].ctx == parked1[g].ctx && t1.fibers[g].st == parked1[g].st
    {
      if op.In? {
        assert frames1[|frames|].who == t.cur;
        assert forall i :: 0 <= i < |frames| ==> frames1[i] == frames[i];
      } else if op.Out? {
        OutRemembers(t, frames, op.st, t1, g);
      }
    }
  }

  lemma OutRemembers(t: Thread, frames: seq<Frame>, st: FiberState, t1: Thread, g: FiberId)
    requires Nested(t, frames) && frames != [] && SwapOut(t, st) == Some(t1)
    requires g in t1.fibers && !OnStack(t1, frames[..|frames| - 1], g)
    ensures g in t.fibers && (g == t.cur || !OnStack(t, frames, g))
    ensures if g == t.cur then t1.fibers[g].ctx == Point(g, t.clock) && t1.fibers[g].st == st
            else t1.fibers[g] == t.fibers[g]
  {
    OutKeepsNested(t, frames, st, t1);
    var n := |frames| - 1;
    assert forall i :: 0 <= i < n ==> frames[..n][i] == frames[i];
    assert Above(t, frames, n) == t.cur && Base(t, t.cur) == frames[n].who;
  }

  /** The continuations and states that the `In` operations of a run find. */
  function Entered(t: Thread, ops: seq<Op>): seq<Parked>
    decreases |ops|
  {
    if ops == [] || Do(t, ops[0]).None? then []
    else (if ops[0].In? && ops[0].f in t.fibers then [Parked(t.fibers[ops[0].f].ctx, t.fibers[ops[0].f].st)] else [])
         + Entered(Do(t, ops[0]).value, ops[1..])
  }

  /** What was remembered of the fibers that are swapped in. */
  function Recalled(t: Thread, parked: map<FiberId, Parked>, ops: seq<Op>): seq<Parked>
    decreases |ops|
  {
    if ops == [] || Do(t, ops[0]).None? then []
    else (if ops[0].In? && ops[0].f in parked then [parked[ops[0].f]] else [])
         + Recalled(Do(t, ops[0]).value, Remember(t, parked, ops[0]), ops[1..])
  }

  /** Every `swapIn` of a disciplined run goes on where the fiber swapped out last, or at its entry. */
  lemma {:induction false} SwapInResumesLastDeparture(t: Thread, frames: seq<Frame>, parked: map<FiberId, Parked>, ops: seq<Op>)
    requires Nested(t, frames) && AllAllowed(t, frames, ops) && Remembers(t, frames, parked)
    ensures Entered(t, ops) == Recalled(t, parked, ops)
    decreases |ops|
  {
    if ops != [] {
      OpKeepsNested(t, frames, ops[0]);
      OpKeepsRemembers(t, frames, parked, ops[0]);
      if ops[0].In? {
        assert !OnStack(t, frames, ops[0].f);
      }
      SwapInResumesLastDeparture(Do(t, ops[0]).value, Frames(t, frames, ops[0]), Remember(t, parked, ops[0]), ops[1..]);
    }
  }

  /** After `f->swapIn()` and f's `swapOut`, the current-fiber pointer is right exactly if the caller was f's base. */
  lemma RoundTripIsRightIffCalledByBase(t: Thread, frames: seq<Frame>, f: FiberId, st: FiberState)
    requires Nested(t, frames) && f in t.fibers && !OnStack(t, frames, f) && SwapIn(t, f).Some?
    ensures SwapOut(SwapIn(t, f).value, st).Some?
    ensures var t2 := SwapOut(SwapIn(t, f).value, st).value;
      && t2.cpu == t.cur
      && (t2.cur == t2.cpu <==> Base(t, f) == t.cur)
  {
    assert Base(SwapIn(t, f).value, f) == Base(t, f);
  }

  /** With a scheduler the stack is at most three deep, without a separate scheduling fiber two. */
  lemma DepthIsBounded(t: Thread, frames: seq<Frame>)
    requires Nested(t, frames)
    ensures |frames| <= 2
    ensures t.sched.None? || t.sched.value == t.thr ==> |frames| <= 1
  {
    forall k | 0 <= k < |frames| ensures frames[k].who == t.thr || t.sched == Some(frames[k].who) {
      assert Base(t, Above(t, frames, k)) == frames[k].who;
    }
    var lowest, next, third := WhoAt(frames, 0), WhoAt(frames, 1), WhoAt(frames, 2);
  }

  function WhoAt(frames: seq<Frame>, i: nat): Option<FiberId> {
    if i < |frames| then Some(frames[i].who) else None
  }

  // ---- the code ------------------------------------------------------------------------------

  /** The thread-local variables of `fiber.cpp` and the fibers they point to. */
  class FiberThread {
    const thr: FiberId
    const sched: Option<FiberId>
    var cur: FiberId
    var cpu: FiberId
    var fibers: map<FiberId, FiberRec>
    var clock: nat

    ghost function View(): Thread
      reads this
    {
      Thread(thr, sched, cur, cpu, fibers, clock)
    }

    /** A worker thread of a scheduler: its own fiber is the scheduling fiber. */
    constructor Worker(thr: FiberId)
      ensures View() == Thread(thr, Some(thr), thr, thr, map[thr := FiberRec(true, EXEC, Entry(thr))], 0)
      ensures Nested(View(), [])
    {
      this.thr, this.sched, this.cur, this.cpu := thr, Some(thr), thr, thr;
      this.fibers, this.clock := map[thr := FiberRec(true, EXEC, Entry(thr))], 0;
    }

    /** The caller's thread: a root fiber, created but not yet swapped in, runs the scheduler. */
    constructor Caller(thr: FiberId, root: FiberId)
      requires root != thr
      ensures View() == Thread(thr, Some(root), thr, thr,
                               map[thr := FiberRec(true, EXEC, Entry(thr)), root := FiberRec(true, INIT, Entry(root))], 0)
      ensures Nested(View(), [])
    {
      this.thr, this.sched, this.cur, this.cpu := thr, Some(root), thr, thr;
      this.fibers := map[thr := FiberRec(true, EXEC, Entry(thr)), root := FiberRec(true, INIT, Entry(root))];
      this.clock := 0;
    }

    method SetThis(f: FiberId)
      modifies this`cur
      ensures cur == f
    {
      cur := f;
    }

    method SwapContext(save: FiberId, load: FiberId)
      requires save in fibers && load in fibers
      modifies this
      ensures View() == Switch(old(View()), save, load)
    {
      fibers := fibers[save := fibers[save].(ctx := Point(cpu, clock))];
      cpu, clock := fibers[load].ctx.who, clock + 1;
    }

    /** False stands for a failed assertion. */
    method SwapInFiber(f: FiberId) returns (ok: bool)
      requires f in fibers && thr in fibers && (sched.Some? ==> sched.value in fibers)
      modifies this
      ensures ok == SwapIn(old(View()), f).Some?
      ensures ok ==> View() == SwapIn(old(View()), f).value
    {
      SetThis(f);
      if fibers[f].st == EXEC {
        return false;
      }
      fibers := fibers[f := fibers[f].(st := EXEC)];
      if fibers[f].main || sched.None? {
        SwapContext(thr, f);
      } else {
        SwapContext(sched.value, f);
      }
      return true;
    }

    /** `YieldToReady`, `YieldToHold`, the end of `MainFunc`, or a plain swapOut of the current fiber. */
    method SetStateAndSwapOut(st: FiberState)
      requires cur in fibers && thr in fibers && (sched.Some? ==> sched.value in fibers)
      modifies this
      ensures SwapOut(old(View()), st) == Some(View())
    {
      var self := cur;
      fibers := fibers[self := fibers[self].(st := st)];
      if fibers[self].main || sched.None? {
        SetThis(thr);
      } else {
        SetThis(sched.value);
      }
      SwapContext(self, cur);
    }

    method ResetFiber(f: FiberId) returns (ok: bool)
      requires f in fibers
      modifies this`fibers
      ensures ok == Do(old(View()), Reset(f)).Some?
      ensures View() == if ok then Do(old(View()), Reset(f)).value else old(View())
    {
      ok := fibers[f].st == TERM || fibers[f].st == EXCEPT || fibers[f].st == INIT;
      if ok {
        fibers := fibers[f := fibers[f].(ctx := Entry(f))];
        fibers := fibers[f := fibers[f].(st := INIT)];
      }
    }
  }
}
