/**
 The worker loop of `Scheduler::run`, the idle loop of `IOManager::idle` and the shutdown
 protocol of `Scheduler::stop` as an interleaving transition system.

 One action is one atomic section of the program: a read or write of a shared variable, or
 a whole critical section where nothing else can happen while the lock is held. The scan of
 the task list is split into one action per list element, because fiber states change
 without the lock. All interleavings of all workers, of the user code running in fibers, of
 outside threads and of the thread in `stop` are sequences of actions.

 The model starts when `start()` has returned.
 */
module SchedulerModel {
  import opened Prelude

  type FiberId = nat
  type CallbackId = nat

  /** The `thread` of a task that any worker may take. */
  const ANY: int := -1

  datatype FiberState = INIT | HOLD | EXEC | TERM | READY | EXCEPT

  predicate Over(st: FiberState) {
    st == TERM || st == EXCEPT
  }

  /** What a task or an event slot holds: a fiber handle or a callback. */
  datatype Work = Fib(f: FiberId) | Call(c: CallbackId)

  /** `ticket` numbers the pushes onto the task list; the program has no such field. */
  datatype Task = Task(work: Work, thread: int, ticket: nat)

  datatype TimerEntry = TimerEntry(c: CallbackId, recurring: bool)

  /**
   Where a worker is. `own` says that the fiber is the worker's `cb_fiber`; while such a
   fiber is in use it is named here and not in `Worker.pool`.
   */
  datatype Pc =
    | NotStarted                                      // the caller's `run`, before `stop` swaps it in
    | LoopHead                                        // about to lock the task list
    | Scanning(i: nat)                                // holds the lock, iterator at index i
    | Picked(t: Task)                                 // task erased from the list, not yet counted
    | Counted(t: Task)                                // after ++m_activeThreadCount
    | Dead                                            // the task was a finished fiber
    | Entering(f: FiberId, own: bool)                 // about to call swapIn
    | Admitted(f: FiberId, own: bool)                 // swapIn has tested the state, about to set EXEC
    | Inside(f: FiberId, own: bool, gave: bool, owed: bool) // user code runs; gave: own handle given out;
                                                            // owed: an event was triggered, its count not yet taken
    | Leaving(f: FiberId, own: bool)                  // inside swapOut
    | Returned(f: FiberId, own: bool)                 // swapIn returned, still counted
    | Uncounted(f: FiberId, own: bool)                // after --m_activeThreadCount
    | Requeue(f: FiberId, own: bool)                  // saw READY, about to call schedule
    | Recheck(f: FiberId, own: bool)                  // did not see READY
    | Parking(f: FiberId, own: bool)                  // saw neither READY nor TERM nor EXCEPT
    | Retire(f: FiberId)                              // own fiber has ended, about to call reset(nullptr)
    | Empty                                           // the scan found nothing
    | IdleEntering                                    // after ++m_idleThreadCount
    | IdleTimers | IdleTasks | IdlePending            // the three reads of IOManager::stopping
    | IdlePoll | IdleExpire                           // epoll_wait, listExpiredCb
    | IdleBatch(cbs: seq<CallbackId>)                 // timers listed, not yet scheduled
    | IdleEvents(owed: bool)                          // the event loop
    | IdleReturned                                    // back from the idle fiber
    | IdleDiscounted                                  // after --m_idleThreadCount
    | Exited                                          // has left `run`, or never will enter it

  /** `pool` is the unused `cb_fiber`, `idle` the state of the idle fiber. */
  datatype Worker = Worker(pc: Pc, pool: Option<FiberId>, idle: FiberState)

  /** The task list with its lock, and the history of what was pushed, run and dropped. */
  datatype TaskList = TaskList(
    queue: seq<Task>,                // m_tasks
    lock: Option<nat>,               // the worker that holds m_mutex across actions
    issued: multiset<Task>,          // every task ever pushed
    started: multiset<Task>,         // tasks whose fiber or callback was run
    dropped: multiset<Task>)         // dequeued fibers that had already ended

  datatype IoState = IoState(
    timers: multiset<TimerEntry>,
    slots: multiset<Work>,           // continuations registered in the event table
    pending: int,                    // m_pendingEventCount
    owing: nat)                      // triggers by outside threads whose decrement is still to come

  /** What the threads share. */
  datatype Mem = Mem(
    tasks: TaskList,
    fibers: seq<FiberState>,         // indexed by fiber id
    held: multiset<FiberId>,         // handles entrusted to other fibers and threads, not yet scheduled
    io: IoState,
    active: int,                     // m_activeThreadCount
    idling: int,                     // m_idleThreadCount
    autoStop: bool,
    stopping: bool,
    crashed: bool)                   // a WILLE_ASSERT has failed

  /** Where the thread in `stop` is; `early` marks the first of the two calls of `stopping`. */
  datatype StopPc =
    | NotStopping
    | AutoSet
    | FlagSetting
    | Check(stage: nat, early: bool)
    | Joining
    | Stopped

  /** With `caller`, worker 0 is the thread that calls `stop`. */
  datatype State = State(ws: seq<Worker>, caller: bool, stopPc: StopPc, m: Mem)

  /** What user code in a fiber, or an outside thread, does to the scheduler. */
  datatype Op =
    | Submit(c: CallbackId, thread: int)       // schedule a callback
    | Spawn(thread: int)                       // create a fiber and schedule it
    | Share(g: FiberId, thread: int)           // schedule a handle of an existing fiber
    | Give                                     // entrust a handle of the running fiber to somebody
    | Redeem(g: FiberId, thread: int)          // schedule a handle one was entrusted with
    | AddTimer(e: TimerEntry)
    | DropTimer(e: TimerEntry)
    | Watch(c: CallbackId)                     // addEvent with a callback
    | WatchSelf                                // addEvent with the running fiber
    | Cancel(x: Work)                          // cancelEvent, cancelAll: trigger a continuation
    | Settle                                   // --m_pendingEventCount after one's trigger
    | Delete(x: Work)                          // delEvent
    | Park                                     // swapOut, leaving the state EXEC
    | YieldReady
    | YieldHold
    | Finish(threw: bool)

  datatype Action =
    | Step(w: nat)                             // worker w executes its next atomic section
    | Expire(w: nat, due: seq<TimerEntry>)     // listExpiredCb finds these timers due
    | Fire(w: nat, x: Work)                    // the event loop triggers this continuation
    | User(w: nat, op: Op)                     // the fiber running on worker w
    | Outside(op: Op)                          // a thread that is not a worker
    | StopStep                                 // the thread in `stop`

  const NO_TASKS: TaskList := TaskList([], None, multiset{}, multiset{}, multiset{})
  const NO_IO: IoState := IoState(multiset{}, multiset{}, 0, 0)
  const INIT_MEM: Mem := Mem(NO_TASKS, [], multiset{}, NO_IO, 0, 0, false, false, false)

  /** `threads` workers of which worker 0 is the caller's if `caller`. */
  function Init(threads: nat, caller: bool): State {
    State(seq(threads, i => Worker(if caller && i == 0 then NotStarted else LoopHead, None, INIT)),
          caller, NotStopping, INIT_MEM)
  }

  // ---- shared memory -------------------------------------------------------------------

  function FiberOf(m: Mem, f: FiberId): FiberState {
    if f < |m.fibers| then m.fibers[f] else INIT
  }

  function SetFiber(m: Mem, f: FiberId, st: FiberState): Mem {
    if f < |m.fibers| then m.(fibers := m.fibers[f := st]) else m
  }

  function SetLock(m: Mem, lock: Option<nat>): Mem {
    m.(tasks := m.tasks.(lock := lock))
  }

  predicate Free(m: Mem) {
    m.tasks.lock.None?
  }

  function Crash(m: Mem): Mem {
    m.(crashed := true)
  }

  /** `scheduleNoLock`: append, whatever the queue holds. */
  function Push(m: Mem, work: Work, thread: int): Mem {
    var t := Task(work, thread, |m.tasks.issued|);
    m.(tasks := m.tasks.(queue := m.tasks.queue + [t], issued := m.tasks.issued + multiset{t}))
  }

  /** The tasks a batch `schedule` appends, with tickets from `n` on. */
  function Batch(n: nat, cbs: seq<CallbackId>): seq<Task>
    decreases |cbs|
  {
    if cbs == [] then [] else [Task(Call(cbs[0]), ANY, n)] + Batch(n + 1, cbs[1..])
  }

  /** The batch form of `schedule`, under one lock. */
  function PushAll(m: Mem, cbs: seq<CallbackId>): Mem {
    var batch := Batch(|m.tasks.issued|, cbs);
    m.(tasks := m.tasks.(queue := m.tasks.queue + batch, issued := m.tasks.issued + multiset(batch)))
  }

  /** The scan takes the task at index i: erase it and unlock. */
  function Take(m: Mem, i: nat): Mem
    requires i < |m.tasks.queue|
  {
    m.(tasks := m.tasks.(queue := Without(m.tasks.queue, i), lock := None))
  }

  function Start(m: Mem, t: Task): Mem {
    m.(tasks := m.tasks.(started := m.tasks.started + multiset{t}))
  }

  function Drop(m: Mem, t: Task): Mem {
    m.(tasks := m.tasks.(dropped := m.tasks.dropped + multiset{t}))
  }

  /** The two tests of the scan: the task is for this worker, and its fiber is not running. */
  predicate Eligible(m: Mem, t: Task, w: nat) {
    && (t.thread == ANY || t.thread == w)
    && !(t.work.Fib? && FiberOf(m, t.work.f) == EXEC)
  }

  /** `Scheduler::stopping`, evaluated under the lock. */
  predicate TasksQuiet(m: Mem) {
    m.autoStop && m.stopping && m.tasks.queue == [] && m.active == 0
  }

  function Due(due: seq<TimerEntry>): seq<CallbackId> {
    if due == [] then [] else [due[0].c] + Due(due[1..])
  }

  function Recurring(due: seq<TimerEntry>): multiset<TimerEntry> {
    if due == [] then multiset{}
    else (if due[0].recurring then multiset{due[0]} else multiset{}) + Recurring(due[1..])
  }

  function AddSlot(m: Mem, x: Work): Mem {
    m.(io := m.io.(slots := m.io.slots + multiset{x}, pending := m.io.pending + 1))
  }

  function Settled(m: Mem): Mem {
    m.(io := m.io.(pending := m.io.pending - 1))
  }

  /** `triggerEvent`: the continuation moves from its slot to the task list. */
  function Trigger(m: Mem, x: Work): Option<Mem> {
    if Free(m) && x in m.io.slots
    then Some(Push(m.(io := m.io.(slots := m.io.slots - multiset{x})), x, ANY))
    else None
  }

  // ---- the worker loop -------------------------------------------------------------------

  type Local = (Worker, Mem)

  function Go(me: Worker, pc: Pc, m: Mem): Option<Local> {
    Some((me.(pc := pc), m))
  }

  /** Lines 121 to 152: scan the list, take the first eligible task, count. */
  function ScanStep(me: Worker, w: nat, m: Mem): Option<Local> {
    match me.pc
    case LoopHead => if Free(m) then Go(me, Scanning(0), SetLock(m, Some(w))) else None
    case Scanning(i) =>
      if i >= |m.tasks.queue| then Go(me, Empty, SetLock(m, None))
      else if Eligible(m, m.tasks.queue[i], w) then Go(me, Picked(m.tasks.queue[i]), Take(m, i))
      else Go(me, Scanning(i + 1), m)
    case Picked(t) => Go(me, Counted(t), m.(active := m.active + 1))
    case Empty =>
      if me.idle == TERM then Go(me, Exited, m) else Go(me, IdleEntering, m.(idling := m.idling + 1))
    case _ => None
  }

  /** Lines 154 to 171: decide what the dequeued task is, prepare its fiber and swap it in. */
  function BeginStep(me: Worker, m: Mem): Option<Local> {
    match me.pc
    case Counted(t) =>
      if t.work.Fib? then
        if Over(FiberOf(m, t.work.f)) then Go(me, Dead, Drop(m, t))
        else Go(me, Entering(t.work.f, false), Start(m, t))
      else if me.pool.Some? then
        var f := me.pool.value;
        if Over(FiberOf(m, f)) || FiberOf(m, f) == INIT
        then Go(me.(pool := None), Entering(f, true), Start(SetFiber(m, f, INIT), t))
        else Go(me, me.pc, Crash(m))
      else
        Go(me, Entering(|m.fibers|, true), Start(m.(fibers := m.fibers + [INIT]), t))
    case Dead => Go(me, LoopHead, m.(active := m.active - 1))
    case Entering(f, own) =>
      if FiberOf(m, f) == EXEC then Go(me, me.pc, Crash(m)) else Go(me, Admitted(f, own), m)
    case Admitted(f, own) => Go(me, Inside(f, own, false, false), SetFiber(m, f, EXEC))
    case _ => None
  }

  /** Lines 155 to 182: back from swapIn, uncount, requeue or park or retire the fiber. */
  function FinishStep(me: Worker, m: Mem): Option<Local> {
    match me.pc
    case Leaving(f, own) => Go(me, Returned(f, own), m)
    case Returned(f, own) => Go(me, Uncounted(f, own), m.(active := m.active - 1))
    case Uncounted(f, own) => Go(me, if FiberOf(m, f) == READY then Requeue(f, own) else Recheck(f, own), m)
    case Requeue(f, own) => if Free(m) then Go(me, LoopHead, Push(m, Fib(f), ANY)) else None
    case Recheck(f, own) =>
      Go(me, if !Over(FiberOf(m, f)) then Parking(f, own) else if own then Retire(f) else LoopHead, m)
    case Parking(f, own) => Go(me, LoopHead, SetFiber(m, f, HOLD))
    case Retire(f) =>
      if Over(FiberOf(m, f)) || FiberOf(m, f) == INIT
      then Go(me.(pool := Some(f)), LoopHead, SetFiber(m, f, INIT))
      else Go(me, me.pc, Crash(m))
    case _ => None
  }

  /** The idle fiber and the code around it. */
  function IdleStep(me: Worker, m: Mem): Option<Local> {
    match me.pc
    case IdleEntering =>
      if me.idle == EXEC then Go(me, me.pc, Crash(m)) else Go(me.(idle := EXEC), IdleTimers, m)
    case IdleTimers => Go(me, if m.io.timers == multiset{} then IdleTasks else IdlePoll, m)
    case IdleTasks =>
      if Free(m) then Go(me, if TasksQuiet(m) then IdlePending else IdlePoll, m) else None
    case IdlePending =>
      if m.io.pending == 0 then Go(me.(idle := TERM), IdleReturned, m) else Go(me, IdlePoll, m)
    case IdlePoll => Go(me, IdleExpire, m)
    case IdleBatch(cbs) =>
      if cbs == [] then Go(me, IdleEvents(false), m)
      else if Free(m) then Go(me, IdleEvents(false), PushAll(m, cbs))
      else None
    case IdleEvents(owed) => if owed then Go(me, IdleEvents(false), Settled(m)) else Go(me, IdleReturned, m)
    case IdleReturned => Go(me, IdleDiscounted, m.(idling := m.idling - 1))
    case IdleDiscounted => Go(if Over(me.idle) then me else me.(idle := HOLD), LoopHead, m)
    case _ => None
  }

  /** The next atomic section of worker `w`; None when it must wait or has none of its own. */
  function WorkerStep(me: Worker, w: nat, m: Mem): Option<Local> {
    match me.pc
    case LoopHead | Scanning(_) | Picked(_) | Empty => ScanStep(me, w, m)
    case Counted(_) | Dead | Entering(_, _) | Admitted(_, _) => BeginStep(me, m)
    case Leaving(_, _) | Returned(_, _) | Uncounted(_, _) | Requeue(_, _) | Recheck(_, _)
       | Parking(_, _) | Retire(_) => FinishStep(me, m)
    case _ => IdleStep(me, m)
  }

  // ---- user code, outside threads, and stop --------------------------------------------

  /** The operations that do not involve the running fiber. */
  function Shared(m: Mem, op: Op): Option<Mem> {
    match op
    case Submit(c, thread) => if Free(m) then Some(Push(m, Call(c), thread)) else None
    case Spawn(thread) =>
      if Free(m) then Some(Push(m.(fibers := m.fibers + [INIT]), Fib(|m.fibers|), thread)) else None
    case Share(g, thread) => if Free(m) && g < |m.fibers| then Some(Push(m, Fib(g), thread)) else None
    case Redeem(g, thread) =>
      if Free(m) && g in m.held then Some(Push(m.(held := m.held - multiset{g}), Fib(g), thread)) else None
    case AddTimer(e) => Some(m.(io := m.io.(timers := m.io.timers + multiset{e})))
    case DropTimer(e) =>
      if e in m.io.timers then Some(m.(io := m.io.(timers := m.io.timers - multiset{e}))) else None
    case Watch(c) => Some(AddSlot(m, Call(c)))
    case Delete(x) =>
      if x in m.io.slots
      then Some(m.(io := m.io.(slots := m.io.slots - multiset{x}, pending := m.io.pending - 1)))
      else None
    case _ => None
  }

  /** What an outside thread does; `owing` counts its triggers as `owed` does those of a fiber. */
  function OutsideOp(m: Mem, op: Op): Option<Mem> {
    match op
    case Cancel(x) =>
      var r := Trigger(m, x);
      if r.None? then None else Some(r.value.(io := r.value.io.(owing := m.io.owing + 1)))
    case Settle =>
      if m.io.owing == 0 then None else Some(Settled(m).(io := Settled(m).io.(owing := m.io.owing - 1)))
    case _ => Shared(m, op)
  }

  /** The operations of the running fiber on itself. */
  predicate OnSelf(op: Op) {
    op.Give? || op.WatchSelf? || op.Park? || op.YieldReady? || op.YieldHold? || op.Finish?
  }

  function With(me: Worker, m: Option<Mem>): Option<Local> {
    if m.Some? then Some((me, m.value)) else None
  }

  function FiberOp(me: Worker, m: Mem, op: Op): Option<Local>
    requires me.pc.Inside?
  {
    var f, own := me.pc.f, me.pc.own;
    match op
    case Give => Go(me, me.pc.(gave := true), m.(held := m.held + multiset{f}))
    case WatchSelf =>
      if FiberOf(m, f) != EXEC then Go(me, me.pc, Crash(m))
      else Go(me, me.pc.(gave := true), AddSlot(m, Fib(f)))
    case Park => Go(me, Leaving(f, own), m)
    case YieldReady =>
      if FiberOf(m, f) != EXEC then Go(me, me.pc, Crash(m))
      else Go(me, Leaving(f, own), SetFiber(m, f, READY))
    case YieldHold =>
      if FiberOf(m, f) != EXEC then Go(me, me.pc, Crash(m))
      else Go(me, Leaving(f, own), SetFiber(m, f, HOLD))
    case Finish(threw) => Go(me, Leaving(f, own), SetFiber(m, f, if threw then EXCEPT else TERM))
    case _ => None
  }

  function UserStep(me: Worker, m: Mem, op: Op): Option<Local> {
    if !me.pc.Inside? then None
    else if me.pc.owed then (if op == Settle then Go(me, me.pc.(owed := false), Settled(m)) else None)
    else match op
      case Share(g, _) => With(me.(pc := me.pc.(gave := me.pc.gave || g == me.pc.f)), Shared(m, op))
      case Cancel(x) => With(me.(pc := me.pc.(owed := true)), Trigger(m, x))
      case Give | WatchSelf | Park | YieldReady | YieldHold | Finish(_) => FiberOp(me, m, op)
      case _ => With(me, Shared(m, op))
  }

  function ExpireStep(me: Worker, m: Mem, due: seq<TimerEntry>): Option<Local> {
    if me.pc == IdleExpire && multiset(due) <= m.io.timers then
      Go(me, IdleBatch(Due(due)), m.(io := m.io.(timers := m.io.timers - multiset(due) + Recurring(due))))
    else None
  }

  function FireStep(me: Worker, m: Mem, x: Work): Option<Local> {
    if me.pc == IdleEvents(false) then With(me.(pc := IdleEvents(true)), Trigger(m, x)) else None
  }

  /** What an action does to worker 0, to the stop thread and to memory while `stop` runs. */
  function StopNext(ws: seq<Worker>, caller: bool, stopPc: StopPc, m: Mem): Option<(Pc, StopPc, Mem)>
    requires ws != []
  {
    var pc := ws[0].pc;
    var refused := (if pc == NotStarted then LoopHead else pc, Joining, m);
    match stopPc
    case NotStopping => Some((pc, AutoSet, m.(autoStop := true)))
    case AutoSet =>
      if caller && |ws| == 1 && (pc == NotStarted || pc == Exited)
      then Some((pc, Check(0, true), m.(stopping := true)))
      else Some((pc, FlagSetting, m))
    case FlagSetting => Some((pc, if caller then Check(0, false) else Joining, m.(stopping := true)))
    case Check(stage, early) =>
      if stage == 1 && !Free(m) then None
      else if (if stage == 0 then m.io.timers == multiset{} else if stage == 1 then TasksQuiet(m) else m.io.pending == 0)
      then if stage < 2 then Some((pc, Check(stage + 1, early), m))
           else Some((if pc == NotStarted then Exited else pc, if early then Stopped else Joining, m))
      else if early then Some((pc, FlagSetting, m)) else Some(refused)
    case Joining =>
      if forall w :: 0 <= w < |ws| ==> ws[w].pc == Exited then Some((pc, Stopped, m)) else None
    case Stopped => None
  }

  // ---- runs ------------------------------------------------------------------------------

  /** What an action of worker `w` does to the worker and to memory. */
  function LocalNext(me: Worker, m: Mem, a: Action): Option<Local>
    requires !a.Outside? && !a.StopStep?
  {
    match a
    case Step(w) => WorkerStep(me, w, m)
    case Expire(_, due) => ExpireStep(me, m, due)
    case Fire(_, x) => FireStep(me, m, x)
    case User(_, op) => UserStep(me, m, op)
  }

  /**
   One action; None when it is not enabled. Outside threads keep quiet once `stop` has begun,
   but for the decrements they still owe.
   */
  function Next(s: State, a: Action): Option<State> {
    if s.m.crashed then None else
    match a
    case Outside(op) =>
      if s.m.autoStop && op != Settle then None else
      var r := OutsideOp(s.m, op);
      if r.None? then None else Some(s.(m := r.value))
    case StopStep =>
      if s.ws == [] then None else
      var r := StopNext(s.ws, s.caller, s.stopPc, s.m);
      if r.None? then None
      else Some(s.(ws := s.ws[0 := s.ws[0].(pc := r.value.0)], stopPc := r.value.1, m := r.value.2))
    case _ =>
      if a.w >= |s.ws| then None else
      var r := LocalNext(s.ws[a.w], s.m, a);
      if r.None? then None else Some(s.(ws := s.ws[a.w := r.value.0], m := r.value.1))
  }

  /** The state after a sequence of actions; None when one of them is not enabled. */
  function Exec(s: State, run: seq<Action>): Option<State>
    decreases |run|
  {
    if run == [] then Some(s)
    else match Next(s, run[0])
      case None => None
      case Some(s1) => Exec(s1, run[1..])
  }

  lemma {:induction false} ExecConcat(s: State, r1: seq<Action>, r2: seq<Action>)
    requires Exec(s, r1).Some?
    ensures Exec(s, r1 + r2) == Exec(Exec(s, r1).value, r2)
    decreases |r1|
  {
    if r1 == [] {
      assert r1 + r2 == r2;
    } else {
      assert (r1 + r2)[0] == r1[0] && (r1 + r2)[1..] == r1[1..] + r2;
      ExecConcat(Next(s, r1[0]).value, r1[1..], r2);
    }
  }
}
