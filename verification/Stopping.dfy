/**
 When the scheduler takes itself for stopped: what each of the three reads of
 `IOManager::stopping` says about all workers, and what a lone caller's `stop` does.
 */
module Stopping {
  import opened Prelude
  import opened SchedulerModel
  import opened SchedulerFacts

  lemma SumIsZeroIff<T>(f: T -> nat, xs: seq<T>)
    ensures Sum(f, xs) == 0 <==> forall i :: 0 <= i < |xs| ==> f(xs[i]) == 0
  {
    if Sum(f, xs) == 0 {
      forall i | 0 <= i < |xs| ensures f(xs[i]) == 0 {
        SumAtLeast(f, xs, i);
      }
    } else if forall i :: 0 <= i < |xs| ==> f(xs[i]) == 0 {
      SumZero(f, xs);
    }
  }

  /** Both flags are set, the list is empty, and no worker is between counting and uncounting itself. */
  ghost predicate NothingRuns(s: State) {
    && s.m.autoStop && s.m.stopping && s.m.tasks.queue == []
    && forall x :: 0 <= x < |s.ws| ==> IsActive(s.ws[x]) == 0
  }

  /** No event is registered, and nobody has triggered one without having uncounted it. */
  ghost predicate NothingPends(s: State) {
    && s.m.io.slots == multiset{} && s.m.io.owing == 0
    && forall x :: 0 <= x < |s.ws| ==> Owes(s.ws[x]) == 0
  }

  lemma CountsAreReadRight(threads: nat, caller: bool, run: seq<Action>, s: State)
    requires threads > 0 && Exec(Init(threads, caller), run) == Some(s)
    ensures NothingRuns(s) <==> s.m.autoStop && s.m.stopping && s.m.tasks.queue == [] && s.m.active == 0
    ensures NothingPends(s) <==> s.m.io.pending == 0
  {
    ReachableBooks(threads, caller, run, s);
    SumIsZeroIff(IsActive, s.ws);
    SumIsZeroIff(Owes, s.ws);
    assert |s.m.io.slots| == 0 <==> s.m.io.slots == multiset{};
  }

  /**
   An idle worker in a reachable state goes on to the next read, and after the third one ends
   its idle fiber, exactly when there is no timer, when nothing runs, and when nothing pends;
   otherwise it polls.
   */
  lemma IdleGivesUpIff(threads: nat, caller: bool, run: seq<Action>, s: State, w: nat, s1: State)
    requires threads > 0 && Exec(Init(threads, caller), run) == Some(s)
    requires w < |s.ws| && Next(s, Step(w)) == Some(s1)
    requires s.ws[w].pc.IdleTimers? || s.ws[w].pc.IdleTasks? || s.ws[w].pc.IdlePending?
    ensures w < |s1.ws|
    ensures var goesOn := if s.ws[w].pc.IdleTimers? then s.m.io.timers == multiset{}
                          else if s.ws[w].pc.IdleTasks? then NothingRuns(s)
                          else NothingPends(s);
      s1.ws[w].pc == if !goesOn then IdlePoll
                     else if s.ws[w].pc.IdleTimers? then IdleTasks
                     else if s.ws[w].pc.IdleTasks? then IdlePending
                     else IdleReturned
    ensures s1.ws[w].pc == IdleReturned ==> s1.ws[w].idle == TERM
  {
    CountsAreReadRight(threads, caller, run, s);
    IdleReads(s.ws[w], s.m, (s1.ws[w], s1.m));
  }

  lemma IdleReads(me: Worker, m: Mem, r: Local)
    requires IdleStep(me, m) == Some(r)
    ensures me.pc.IdleTimers? ==> r.0.pc == if m.io.timers == multiset{} then IdleTasks else IdlePoll
    ensures me.pc.IdleTasks?
      ==> r.0.pc == if m.autoStop && m.stopping && m.tasks.queue == [] && m.active == 0 then IdlePending else IdlePoll
    ensures me.pc.IdlePending? ==> if m.io.pending == 0 then r.0.pc == IdleReturned && r.0.idle == TERM else r.0.pc == IdlePoll
  {
  }

  /** The same reads by the thread in `stop`: only when all three say so is the caller's worker not started. */
  lemma StopGivesUpIff(threads: nat, caller: bool, run: seq<Action>, s: State, s1: State)
    requires threads > 0 && Exec(Init(threads, caller), run) == Some(s)
    requires s.stopPc.Check? && s.stopPc.stage <= 2 && Next(s, StopStep) == Some(s1)
    ensures s.ws != [] && s1.ws != []
    ensures var goesOn := if s.stopPc.stage == 0 then s.m.io.timers == multiset{}
                          else if s.stopPc.stage == 1 then NothingRuns(s)
                          else NothingPends(s);
      if goesOn && s.stopPc.stage < 2 then s1.stopPc == Check(s.stopPc.stage + 1, s.stopPc.early) && s1.ws[0].pc == s.ws[0].pc
      else if goesOn then s1.stopPc == (if s.stopPc.early then Stopped else Joining)
      else if s.stopPc.early then s1.stopPc == FlagSetting
      else s1.stopPc == Joining && (s.ws[0].pc == NotStarted ==> s1.ws[0].pc == LoopHead)
  {
    CountsAreReadRight(threads, caller, run, s);
  }

  /** A caller without threads that has nothing to do stops at once: it never enters the loop and joins nobody. */
  lemma LoneCallerStopsAtOnce(s: State)
    requires |s.ws| == 1 && s.caller && s.stopPc == NotStopping && !s.m.crashed && Free(s.m)
    requires s.ws[0].pc == NotStarted || s.ws[0].pc == Exited
    requires s.m.tasks.queue == [] && s.m.active == 0 && s.m.io.timers == multiset{} && s.m.io.pending == 0
    ensures Exec(s, [StopStep, StopStep, StopStep, StopStep, StopStep]) ==
      Some(s.(ws := [s.ws[0].(pc := Exited)], stopPc := Stopped, m := s.m.(autoStop := true, stopping := true)))
  {
    var s1 := s.(stopPc := AutoSet, m := s.m.(autoStop := true));
    assert s.ws[0 := s.ws[0].(pc := s.ws[0].pc)] == s.ws;
    assert Next(s, StopStep) == Some(s1);
    var s2 := s1.(stopPc := Check(0, true), m := s1.m.(stopping := true));
    assert Next(s1, StopStep) == Some(s2);
    StopChecks(s2);
    assert Exec(s, [StopStep, StopStep, StopStep, StopStep, StopStep]) == Exec(s1, [StopStep, StopStep, StopStep, StopStep]);
    assert Exec(s1, [StopStep, StopStep, StopStep, StopStep]) == Exec(s2, [StopStep, StopStep, StopStep]);
  }

  lemma StopChecks(s: State)
    requires |s.ws| == 1 && s.stopPc == Check(0, true) && !s.m.crashed && Free(s.m) && TasksQuiet(s.m)
    requires s.ws[0].pc == NotStarted || s.ws[0].pc == Exited
    requires s.m.io.timers == multiset{} && s.m.io.pending == 0
    ensures Exec(s, [StopStep, StopStep, StopStep]) == Some(s.(ws := [s.ws[0].(pc := Exited)], stopPc := Stopped))
  {
    assert s.ws[0 := s.ws[0].(pc := s.ws[0].pc)] == s.ws && s.ws[0 := s.ws[0].(pc := Exited)] == [s.ws[0].(pc := Exited)];
    var s1, s2 := s.(stopPc := Check(1, true)), s.(stopPc := Check(2, true));
    assert Next(s, StopStep) == Some(s1) && Next(s1, StopStep) == Some(s2);
    var s3 := s.(ws := [s.ws[0].(pc := Exited)], stopPc := Stopped);
    assert Next(s2, StopStep) == Some(s3);
    assert Exec(s, [StopStep, StopStep, StopStep]) == Exec(s1, [StopStep, StopStep]);
    assert Exec(s1, [StopStep, StopStep]) == Exec(s2, [StopStep]);
    assert [StopStep][1..] == [] && Exec(s2, [StopStep]) == Exec(s3, []);
  }
}
