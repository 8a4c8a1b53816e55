/** The final flush of the accumulator and the end of main.

    drainAndFlush keeps `mu` locked while it calls doFlush, and doFlush locks `mu` again after a
    successful FlushBatch.  A Go mutex is not reentrant, so a final flush that succeeds never returns. */
module FinalFlush {
  import opened Sums
  import opened Pipeline
  import opened PipelineInvariants
  import opened PipelineTheorems
  import opened Shutdown
  import opened ZeroLoss

  /** The events left when the accumulator enters its final drain. */
  function Remaining(s: State): seq<Event> {
    s.proc.buffer + s.proc.inCh
  }

  // ---- the course of the final drain ----

  /** The accumulator of `t` is somewhere in the final drain that `s` began with events `rest`. */
  ghost predicate Draining(c: Config, s: State, rest: seq<Event>, t: State) {
    var a, before, after := t.acc, s.log.attempts, t.log.attempts;
    && Stage(t.main) >= 6
    && InFinalDrain(a)
    && (a.DrainLock? || a.Drain? ==> Remaining(t) == rest && after == before)
    && (a.Flush? ==> a.batch == rest && rest != [] && after == before)
    && (Flushed(a) || a.AddError? ==> rest != [] && after == before + [Attempt(rest, GracefulShutdown, Flushed(a))])
    && (a.Unlock? || a.Leave? || a.Ended? ==>
          if rest == [] then after == before
          else exists ok :: (ok ==> c.repaired) && after == before + [Attempt(rest, GracefulShutdown, ok)])
  }

  lemma DrainingOthers(c: Config, s: State, rest: seq<Event>, t: State, a: Action)
    requires Stages(c, t) && Draining(c, s, rest, t) && Enabled(c, t, a) && !a.AccumulatorStep?
    ensures Draining(c, s, rest, Apply(c, t, a))
  {
    hide ProducerNext, WorkerNext, AccumulatorNext, StepMain;
    match a
    case WorkerStep(_, _) => assert false;   // main has waited for all workers
    case MainStep(clean) =>
      MainFrame(t, clean);
      StaysClosed(c, t, a);
    case _ =>
  }

  lemma DrainingAccumulator(c: Config, s: State, rest: seq<Event>, t: State, which: Case, ok: bool)
    requires MutexOk(c, t) && Draining(c, s, rest, t) && AccumulatorEnabled(t.proc, t.acc, which)
    ensures Draining(c, s, rest, StepAccumulator(c, t, which, ok))
  {
    var u := StepAccumulator(c, t, which, ok);
    if t.acc.Drain? && t.proc.inCh != [] {
      Shift(t.proc.buffer, t.proc.inCh);
    } else if t.acc.Drain? {
      assert t.proc.buffer + [] == t.proc.buffer;
    } else if t.acc.AddError? {
      assert u.log.attempts == s.log.attempts + [Attempt(rest, GracefulShutdown, false)];
    } else if t.acc.Relocked? {
      assert c.repaired && u.log.attempts == s.log.attempts + [Attempt(rest, GracefulShutdown, true)];
    }
  }

  lemma {:induction false} DrainingRun(c: Config, s: State, rest: seq<Event>, t: State, acts: seq<Action>, u: State)
    requires Inv(c, t) && Draining(c, s, rest, t) && Run(c, t, acts, u)
    ensures Inv(c, u) && Draining(c, s, rest, u)
    decreases |acts|
  {
    if acts != [] {
      var a := acts[0];
      assert Stages(c, t) && MutexOk(c, t);
      hide Inv, Stages, MutexOk, Draining, AccumulatorNext, WorkerNext, ProducerNext, StepMain;
      InvStep(c, t, a);
      if a.AccumulatorStep? {
        DrainingAccumulator(c, s, rest, t, a.which, a.flushOk);
      } else {
        DrainingOthers(c, s, rest, t, a);
      }
      DrainingRun(c, s, rest, Apply(c, t, a), acts[1..], u);
    }
  }

  // ---- where it ends ----

  /** The accumulator cannot take another step, and no metrics reader is about to release `mu`. */
  ghost predicate Settled(c: Config, s: State) {
    && s.proc.mu != ByReader
    && forall which, ok :: !Enabled(c, s, AccumulatorStep(which, ok))
  }

  /** Waiting for a mutex that it owns itself. */
  predicate SelfDeadlocked(s: State) {
    s.acc == Relock(GracefulShutdown) && s.proc.mu == ByProcessor
  }

  lemma SettledShape(c: Config, s: State, rest: seq<Event>, t: State)
    requires Inv(c, t) && Draining(c, s, rest, t) && Settled(c, t)
    ensures t.acc.Ended? || (SelfDeadlocked(t) && !c.repaired)
  {
    assert MutexOk(c, t);
    hide Inv;
    assert !Enabled(c, t, AccumulatorStep(OnCancel, true));
  }

  /** The final flush, exactly.  Let `rest` be what the accumulator still has when it begins its final
      drain.  Wherever the run then settles, the goroutine has returned, and Stop with it, if and only
      if `rest` was empty or FlushBatch failed on it; otherwise it waits for ever for its own mutex,
      with the final batch committed and counted. */
  lemma FinalFlushReturnsIff(c: Config, s: State, acts: seq<Action>, t: State)
    requires !c.repaired && Reachable(c, s) && s.acc.DrainLock?
    requires Run(c, s, acts, t) && Settled(c, t)
    ensures var rest, before, after := Remaining(s), s.log.attempts, t.log.attempts;
            && (t.acc.Ended? <==> rest == [] || after == before + [Attempt(rest, GracefulShutdown, false)])
            && (SelfDeadlocked(t) <==> rest != [] && after == before + [Attempt(rest, GracefulShutdown, true)])
            && (t.acc.Ended? || SelfDeadlocked(t)) && (rest == [] ==> after == before)
            && t.proc.totalFlushed == |Outcome(after, true)|
  {
    ReachableInv(c, s);
    StagesAtDrain(c, s);
    DrainingRun(c, s, Remaining(s), s, acts, t);
    SettledShape(c, s, Remaining(s), t);
    assert Totalled(t) by { hide Stages, MutexOk, Batched, Placed, Streamed, Counted, CallsOk; }
    hide Inv;
    CommittedIsOutcome(t.log.attempts);
  }

  lemma StagesAtDrain(c: Config, s: State)
    requires Inv(c, s) && s.acc.DrainLock?
    ensures Draining(c, s, Remaining(s), s)
  {}

  /** The variant that releases `mu` before doFlush always returns. */
  lemma RepairedFlushReturns(c: Config, s: State, acts: seq<Action>, t: State)
    requires c.repaired && Reachable(c, s) && s.acc.DrainLock?
    requires Run(c, s, acts, t) && Settled(c, t)
    ensures t.acc.Ended?
    ensures Remaining(s) != [] ==>
              exists ok :: t.log.attempts == s.log.attempts + [Attempt(Remaining(s), GracefulShutdown, ok)]
  {
    ReachableInv(c, s);
    StagesAtDrain(c, s);
    DrainingRun(c, s, Remaining(s), s, acts, t);
    SettledShape(c, s, Remaining(s), t);
  }

  // ---- and it does end ----

  function FinalRank(s: State): nat {
    match s.acc
    case DrainLock => |s.proc.inCh| + 12 case Drain => |s.proc.inCh| + 11
    case Flush(_, _) => 10 case AddFlushed(_, _) => 9 case AddBatches(_) => 8 case Relock(_) => 7
    case Relocked(_) => 6 case AddError(_) => 6 case Unlock => 4 case Leave => 2
    case _ => 0
  }

  lemma FinalStepDescends(c: Config, s: State, which: Case, ok: bool)
    requires InFinalDrain(s.acc) && AccumulatorEnabled(s.proc, s.acc, which)
    ensures FinalRank(StepAccumulator(c, s, which, ok)) < FinalRank(s)
    ensures InFinalDrain(StepAccumulator(c, s, which, ok).acc)
  {}

  lemma OthersKeepRank(c: Config, s: State, a: Action)
    requires Stages(c, s) && InFinalDrain(s.acc) && Enabled(c, s, a) && !a.AccumulatorStep?
    ensures Apply(c, s, a).acc == s.acc && FinalRank(Apply(c, s, a)) == FinalRank(s)
  {
    hide ProducerNext, WorkerNext, AccumulatorNext, StepMain;
    match a
    case WorkerStep(_, _) => assert false;   // main has waited for all workers
    case MainStep(clean) => MainFrame(s, clean);
    case _ =>
  }

  function AccumulatorSteps(acts: seq<Action>): nat {
    if acts == [] then 0 else (if acts[0].AccumulatorStep? then 1 else 0) + AccumulatorSteps(acts[1..])
  }

  lemma {:induction false} FinalBound(c: Config, s: State, acts: seq<Action>, t: State)
    requires Stages(c, s) && InFinalDrain(s.acc) && Run(c, s, acts, t)
    ensures AccumulatorSteps(acts) + FinalRank(t) <= FinalRank(s)
    decreases |acts|
  {
    if acts != [] {
      var a := acts[0];
      StagesStep(c, s, a);
      if a.AccumulatorStep? { FinalStepDescends(c, s, a.which, a.flushOk); } else { OthersKeepRank(c, s, a); }
      hide Stages, FinalRank, Enabled, InFinalDrain, AccumulatorNext, WorkerNext, ProducerNext, StepMain;
      FinalBound(c, Apply(c, s, a), acts[1..], t);
    }
  }

  /** In every run, with or without the repair, the accumulator takes boundedly many steps once it is
      in its final drain; so it does settle. */
  lemma FinalDrainIsBounded(c: Config, s: State, acts: seq<Action>, t: State)
    requires Reachable(c, s) && s.acc.DrainLock? && Run(c, s, acts, t)
    ensures AccumulatorSteps(acts) <= |s.proc.inCh| + 12
  {
    ReachableInv(c, s);
    FinalBound(c, s, acts, t);
  }

  // ---- the deadlock is for ever ----

  /** No run leaves the self-deadlock, main never finishes, and no metrics reader gets the mutex again. */
  lemma DeadlockIsForEver(c: Config, s: State, acts: seq<Action>, t: State)
    requires !c.repaired && Reachable(c, s) && SelfDeadlocked(s) && Run(c, s, acts, t)
    ensures SelfDeadlocked(t) && !t.main.Finished? && ReaderLock !in acts
  {
    ReachableInv(c, s);
    DeadlockRun(c, s, acts, t);
  }

  lemma {:induction false} DeadlockRun(c: Config, s: State, acts: seq<Action>, t: State)
    requires !c.repaired && Stages(c, s) && SelfDeadlocked(s) && Run(c, s, acts, t)
    ensures SelfDeadlocked(t) && !t.main.Finished? && ReaderLock !in acts
    decreases |acts|
  {
    if acts != [] {
      StagesStep(c, s, acts[0]);
      hide Stages, Enabled, Apply, SelfDeadlocked;
      DeadlockRun(c, Apply(c, s, acts[0]), acts[1..], t);
    }
  }

  /** main prints its last line only if the final drain found nothing, or its flush failed: the
      program as written never terminates after a successful final flush. */
  lemma MainReturnsOnlyWithoutFinalCommit(c: Config, s: State)
    requires !c.repaired && Reachable(c, s) && s.main.Finished?
    ensures forall k :: 0 <= k < |s.log.attempts| && s.log.attempts[k].reason == GracefulShutdown ==>
              !s.log.attempts[k].ok
  {
    ReachableInv(c, s);
    assert Stages(c, s) && LastAttempt(c, s);
    hide Inv;
  }

  // ---- no other place to hang ----

  /** Only the environment can move: new calls, producers, metrics readers, ticks. */
  ghost predicate Halted(c: Config, s: State) {
    && s.proc.mu != ByReader
    && (forall i, which :: !Enabled(c, s, WorkerStep(i, which)))
    && (forall clean :: !Enabled(c, s, MainStep(clean)))
    && (forall which, ok :: Enabled(c, s, AccumulatorStep(which, ok)) ==> s.acc.Select? && which == OnTick)
  }

  /** After close, the shutdown can come to rest only at the end of main or in the self-deadlock. */
  lemma ShutdownEndsOrDeadlocks(c: Config, s: State)
    requires Reachable(c, s) && s.pool.closed && Halted(c, s)
    ensures s.main.Finished? || (SelfDeadlocked(s) && !c.repaired)
  {
    ReachableInv(c, s);
    assert Stages(c, s) && MutexOk(c, s);
    hide Inv;
    assert !Enabled(c, s, MainStep(true));
    if s.main.Waiting? {
      var i :| 0 <= i < |s.workers| && !s.workers[i].Gone?;
      WorkerNeverBlocks(c, s, i);
      assert false;
    } else if s.main.Joining? {
      assert !Enabled(c, s, AccumulatorStep(OnCancel, true));
    }
  }

  // ---- end to end ----

  /** The zero-drop guarantee of the shutdown.  If the load fits at close, then wherever the
      accumulator comes to its end, returned or deadlocked, every event that was ever sent has been
      handed to FlushBatch exactly once, except those that workers dropped, and counted as dropped,
      before the close; if FlushBatch never fails, all of them are committed. */
  lemma ZeroDrop(c: Config, s: State, acts: seq<Action>, t: State)
    requires AtClose(c, s) && Load(s) <= c.inCap
    requires Run(c, s, acts, t) && (t.acc.Ended? || SelfDeadlocked(t))
    ensures t.log.sent == s.log.sent
    ensures multiset(s.log.sent) == Outcome(t.log.attempts, true) + Outcome(t.log.attempts, false)
                                  + multiset(s.log.droppedAtSubmit)
    ensures t.log.lost == [] && t.log.droppedAtSubmit == s.log.droppedAtSubmit
    ensures (forall k :: 0 <= k < |t.log.attempts| ==> t.log.attempts[k].ok) ==>
              Outcome(t.log.attempts, false) == multiset{}
  {
    hide AtClose, Run, Load, Reachable, Outcome, Bag, Gathered;
    AtCloseIsReachable(c, s);
    ReachableRun(c, s, acts, t);
    AtCloseShape(c, s);
    FitsRun(c, s, acts, t);
    NothingLostBeforeCancel(c, s);
    ClosedRun(c, s, acts, t);
    EndedShape(c, t);
    NothingLeftBehind(c, t);
    ExactlyOnce(c, t);
    if forall k :: 0 <= k < |t.log.attempts| ==> t.log.attempts[k].ok {
      NoFailures(t.log.attempts);
    }
  }

  lemma AtCloseIsReachable(c: Config, s: State)
    requires AtClose(c, s)
    ensures Reachable(c, s)
  {}

  lemma {:induction false} NoFailures(attempts: seq<Attempt>)
    requires forall k :: 0 <= k < |attempts| ==> attempts[k].ok
    ensures Outcome(attempts, false) == multiset{}
    decreases |attempts|
  {
    if attempts != [] { NoFailures(attempts[..|attempts| - 1]); }
  }

  lemma EndedShape(c: Config, t: State)
    requires Reachable(c, t) && (t.acc.Ended? || SelfDeadlocked(t))
    ensures Stage(t.main) >= 5 && t.proc.inCh == [] && Gathered(t.proc, t.acc) == []
  {
    hide Reachable;
    ReachableInv(c, t);
    assert Stages(c, t) && Batched(c, t);
    hide Inv;
  }
}
