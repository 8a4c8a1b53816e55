/** The shutdown sequence of main: which handlers a late send kills, when the drain ends, and which
    events can be lost. */
module Shutdown {
  import opened Sums
  import opened Pipeline
  import opened PipelineInvariants
  import opened PipelineTheorems

  // ---- sends on the closed channel ----

  /** Once the channel is closed, nothing is sent any more: a late send kills its handler instead. */
  lemma ClosedStep(c: Config, s: State, a: Action)
    requires s.pool.closed && Enabled(c, s, a)
    ensures var t := Apply(c, s, a);
            && t.pool.closed && t.log.sent == s.log.sent
            && (!a.WorkerStep? ==> t.pool.taskCh == s.pool.taskCh && t.workers == s.workers)
  {
    hide WorkerNext, AccumulatorNext, StepMain, WorkerLog;
    match a
    case WorkerStep(i, which) =>
      WorkerFrame(c, s.pool, s.proc, s.workers[i], which);
      WorkerMoves(c, s, i, which);
    case MainStep(clean) =>
      MainFrame(s, clean);
      StaysClosed(c, s, a);
    case _ =>
  }

  lemma {:induction false} ClosedRun(c: Config, s: State, acts: seq<Action>, t: State)
    requires s.pool.closed && Run(c, s, acts, t)
    ensures t.pool.closed && t.log.sent == s.log.sent
    decreases |acts|
  {
    hide Enabled, Apply;
    if acts != [] {
      ClosedStep(c, s, acts[0]);
      ClosedRun(c, Apply(c, s, acts[0]), acts[1..], t);
    }
  }

  /** A handler that will not come back: about to send on the closed channel, or already dead there. */
  predicate Doomed(x: Producer) { x.Checked? || x.Dead? }

  /** After close a producer becomes or stays doomed only by having been so; and one that is dead, or
      about to die, never answers its caller. */
  lemma DoomStep(c: Config, s: State, a: Action, i: nat)
    requires s.pool.closed && s.pool.shuttingDown && Enabled(c, s, a) && i < |s.producers|
    ensures var t := Apply(c, s, a);
            && |t.producers| == |s.producers| && t.pool.shuttingDown
            && (Doomed(t.producers[i]) <==> Doomed(s.producers[i]))
            && (Doomed(s.producers[i]) ==> t.producers[i].call == s.producers[i].call)
            && (s.producers[i].Dead? ==> t.producers[i] == s.producers[i])
  {
    hide WorkerNext, AccumulatorNext, StepMain, WorkerLog;
    match a
    case WorkerStep(j, which) => WorkerFrame(c, s.pool, s.proc, s.workers[j], which);
    case MainStep(clean) =>
      MainFrame(s, clean);
      MainKeepsFlag(s, clean);
    case _ =>
  }

  lemma MainKeepsFlag(s: State, clean: bool)
    requires MainEnabled(s, clean)
    ensures s.pool.shuttingDown ==> StepMain(s, clean).pool.shuttingDown
  {}

  lemma {:induction false} DoomRun(c: Config, s: State, acts: seq<Action>, t: State, i: nat)
    requires s.pool.closed && s.pool.shuttingDown && Run(c, s, acts, t) && i < |s.producers|
    ensures |t.producers| == |s.producers| && (Doomed(t.producers[i]) <==> Doomed(s.producers[i]))
    ensures Doomed(s.producers[i]) ==> t.producers[i].call == s.producers[i].call
    ensures s.producers[i].Dead? ==> t.producers[i] == s.producers[i]
    decreases |acts|
  {
    hide Enabled, Apply, Doomed;
    if acts != [] {
      DoomStep(c, s, acts[0], i);
      ClosedStep(c, s, acts[0]);
      DoomRun(c, Apply(c, s, acts[0]), acts[1..], t, i);
    }
  }

  /** What the panic leaves.  The late send can always happen, and it changes nothing but its own
      producer: the event is neither sent nor counted, the call is not answered, the events after it in
      the batch are not tried, and all other threads, channels and counters are as before. */
  lemma DeathIsLocal(c: Config, s: State, i: nat)
    requires s.pool.closed && i < |s.producers| && s.producers[i].Checked?
    ensures Enabled(c, s, ProducerStep(i))
    ensures Apply(c, s, ProducerStep(i)) == s.(producers := s.producers[i := Dead(s.producers[i].call)])
  {}

  /** Until the close a producer that has passed the flag check still sends, also behind the flag: its event
      goes to the end of taskCh if there is room, and is rejected if not. */
  lemma CheckedStillSends(c: Config, s: State, i: nat)
    requires !s.pool.closed && i < |s.producers| && s.producers[i].Checked?
    ensures Enabled(c, s, ProducerStep(i))
    ensures var t, x := Apply(c, s, ProducerStep(i)), s.producers[i];
            if |s.pool.taskCh| < c.queueCap
            then t == s.(pool := s.pool.(taskCh := s.pool.taskCh + [x.ev]), producers := s.producers[i := Sent(x.call)],
                         log := s.log.(sent := s.log.sent + [x.ev]))
            else t == s.(producers := s.producers[i := Rejected(x.call)])
  {}

  /** Some continuation kills the handler of producer `i`. */
  ghost predicate CanDie(c: Config, s: State, i: nat) {
    exists acts, t :: Run(c, s, acts, t) && i < |t.producers| && t.producers[i].Dead?
  }

  /** After close(taskCh) a live handler can die on its send if and only if it had passed the flag check
      and not yet sent; and then it has no other way on: no continuation ever answers its call. */
  lemma HandlerDiesIff(c: Config, s: State, i: nat)
    requires Reachable(c, s) && s.pool.closed && i < |s.producers| && !s.producers[i].Dead?
    ensures CanDie(c, s, i) <==> s.producers[i].Checked?
    ensures s.producers[i].Checked? ==>
              forall acts, t :: Run(c, s, acts, t) ==>
                |t.producers| == |s.producers| && Doomed(t.producers[i]) && t.producers[i].call == s.producers[i].call
  {
    ReachableStages(c, s);
    assert s.pool.shuttingDown;
    if s.producers[i].Checked? {
      DeathIsLocal(c, s, i);
      RunOne(c, s, ProducerStep(i));
    }
    hide Reachable, Stages, Run;
    forall acts, t | Run(c, s, acts, t)
      ensures |t.producers| == |s.producers| && (Doomed(t.producers[i]) <==> Doomed(s.producers[i]))
      ensures Doomed(s.producers[i]) ==> t.producers[i].call == s.producers[i].call
    {
      DoomRun(c, s, acts, t, i);
    }
  }

  /** When the HTTP server stopped within its deadline, no handler is left to die, and none has. */
  lemma CleanStopKillsNone(c: Config, s: State)
    requires Reachable(c, s) && !s.accepting
    ensures forall i :: 0 <= i < |s.producers| ==> s.producers[i].Idle?
  {
    ReachableStages(c, s);
  }

  // ---- the workers' drain ends ----

  function WorkerRank(w: Worker): nat {
    match w
    case Holding(_) => 5 case Counting(_) => 4 case Selecting => 3
    case DrainHolding(_) => 4 case DrainCounting => 3 case Draining => 2
    case Exiting => 1 case Gone => 0
  }

  function DrainWork(s: State): nat {
    3 * |s.pool.taskCh| + Sum(s.workers, WorkerRank)
  }

  /** Every step of a worker, before close as after it, brings it nearer to the end of its work. */
  lemma WorkerDescends(c: Config, s: State, i: nat, which: Case)
    requires i < |s.workers| && WorkerEnabled(s.pool, s.workers[i], which)
    ensures DrainWork(StepWorker(c, s, i, which)) < DrainWork(s)
  {
    hide Sum;
    SumUpdate(s.workers, WorkerRank, i, StepWorker(c, s, i, which).workers[i]);
  }

  function WorkerSteps(acts: seq<Action>): nat {
    if acts == [] then 0 else (if acts[0].WorkerStep? then 1 else 0) + WorkerSteps(acts[1..])
  }

  /** In every run after close, the workers take at most `DrainWork` steps, whatever else happens. */
  lemma {:induction false} DrainIsBounded(c: Config, s: State, acts: seq<Action>, t: State)
    requires Reachable(c, s) && s.pool.closed && Run(c, s, acts, t)
    ensures WorkerSteps(acts) + DrainWork(t) <= DrainWork(s)
  {
    ReachableInv(c, s);
    DrainBound(c, s, acts, t);
  }

  lemma {:induction false} DrainBound(c: Config, s: State, acts: seq<Action>, t: State)
    requires Stages(c, s) && s.pool.closed && Run(c, s, acts, t)
    ensures WorkerSteps(acts) + DrainWork(t) <= DrainWork(s)
    decreases |acts|
  {
    if acts != [] {
      var a := acts[0];
      StagesStep(c, s, a);
      assert s.pool.shuttingDown;
      ClosedStep(c, s, a);
      StaysClosed(c, s, a);
      if a.WorkerStep? { WorkerDescends(c, s, a.i, a.which); }
      hide Sum, Stages, ProducerNext, WorkerNext, AccumulatorNext, StepMain;
      DrainBound(c, Apply(c, s, a), acts[1..], t);
    }
  }

  lemma StaysClosed(c: Config, s: State, a: Action)
    requires Enabled(c, s, a)
    ensures var t := Apply(c, s, a);
            && (s.pool.closed ==> t.pool.closed) && (s.pool.ctxDone ==> t.pool.ctxDone)
            && Stage(s.main) <= Stage(t.main)
  {
    hide ProducerNext, WorkerNext, AccumulatorNext;
    match a
    case ProducerStep(i) => ProducerFrame(c, s.pool, s.producers[i]);
    case WorkerStep(i, which) => WorkerFrame(c, s.pool, s.proc, s.workers[i], which);
    case _ =>
  }

  /** No worker ever blocks after close. */
  lemma WorkerNeverBlocks(c: Config, s: State, i: nat)
    requires Reachable(c, s) && s.pool.closed && i < |s.workers|
    ensures s.workers[i].Gone? || Enabled(c, s, WorkerStep(i, OnReceive))
  {}

  /** When wg.Wait has returned, taskCh and all hands are empty. */
  lemma NothingLeftBehind(c: Config, s: State)
    requires Reachable(c, s) && Stage(s.main) >= 5 && c.numWorkers >= 1
    ensures s.pool.taskCh == [] && Bag(s.workers, Hand) == multiset{}
  {
    ReachableInv(c, s);
    assert HasExited(s.workers[0]);
    hide Inv;
    BagSize(s.workers, Hand, HandSize);
    SumZero(s.workers, HandSize);
  }

  /** From then on inCh receives nothing: the submit stream and the losses are final. */
  lemma StreamIsFinal(c: Config, s: State, acts: seq<Action>, t: State)
    requires Reachable(c, s) && Stage(s.main) >= 5 && Run(c, s, acts, t)
    ensures t.log.submitted == s.log.submitted && t.log.lost == s.log.lost
    ensures t.log.droppedAtSubmit == s.log.droppedAtSubmit
  {
    ReachableInv(c, s);
    NoMoreSubmits(c, s, acts, t);
  }

  lemma {:induction false} NoMoreSubmits(c: Config, s: State, acts: seq<Action>, t: State)
    requires Stages(c, s) && Stage(s.main) >= 5 && Run(c, s, acts, t)
    ensures t.log.submitted == s.log.submitted && t.log.lost == s.log.lost
    ensures t.log.droppedAtSubmit == s.log.droppedAtSubmit
    decreases |acts|
  {
    if acts != [] {
      var a := acts[0];
      StagesStep(c, s, a);
      StaysClosed(c, s, a);
      if a.WorkerStep? {
        assert false;
      }
      NoMoreSubmits(c, Apply(c, s, a), acts[1..], t);
    }
  }

  /** Only the drain loop loses events silently, and no worker is in it before the cancel. */
  lemma NothingLostBeforeCancel(c: Config, s: State)
    requires Reachable(c, s) && !s.pool.ctxDone
    ensures s.log.lost == []
  {
    hide Run, Init;
    var n, acts :| Run(c, Init(c, n), acts, s);
    StartsClean(c, n);
    NothingLostRun(c, Init(c, n), acts, s);
  }

  lemma StartsClean(c: Config, n: nat)
    ensures Stages(c, Init(c, n)) && Init(c, n).log.lost == []
  {}

  lemma {:induction false} NothingLostRun(c: Config, s: State, acts: seq<Action>, t: State)
    requires Stages(c, s) && (s.pool.ctxDone || s.log.lost == []) && Run(c, s, acts, t)
    ensures t.pool.ctxDone || t.log.lost == []
    decreases |acts|
  {
    if acts != [] {
      StagesStep(c, s, acts[0]);
      NothingLostStep(c, s, acts[0]);
      hide Stages, Enabled, Apply;
      NothingLostRun(c, Apply(c, s, acts[0]), acts[1..], t);
    }
  }

  lemma NothingLostStep(c: Config, s: State, a: Action)
    requires Stages(c, s) && (s.pool.ctxDone || s.log.lost == []) && Enabled(c, s, a)
    ensures Apply(c, s, a).pool.ctxDone || Apply(c, s, a).log.lost == []
  {
    hide ProducerNext, WorkerNext, AccumulatorNext;
    StaysClosed(c, s, a);
    if a.WorkerStep? { assert !s.pool.ctxDone ==> !s.workers[a.i].DrainHolding?; }
  }

  // ---- which events can be lost ----

  /** What still has to pass through inCh. */
  function Load(s: State): nat {
    |s.pool.taskCh| + Sum(s.workers, HandSize) + |s.proc.inCh|
  }

  predicate SameLosses(s: State, t: State) {
    t.log.lost == s.log.lost && t.log.droppedAtSubmit == s.log.droppedAtSubmit
  }

  lemma WorkerLoad(c: Config, s: State, i: nat, which: Case)
    requires i < |s.workers| && WorkerEnabled(s.pool, s.workers[i], which)
    ensures var t := StepWorker(c, s, i, which);
            if HandSize(s.workers[i]) == 1 && |s.proc.inCh| >= c.inCap
            then Load(t) == Load(s) - 1 && t.proc == s.proc && t.pool.taskCh == s.pool.taskCh && !SameLosses(s, t)
            else Load(t) == Load(s) && SameLosses(s, t)
  {
    hide Sum;
    SumUpdate(s.workers, HandSize, i, StepWorker(c, s, i, which).workers[i]);
  }

  lemma FitsStep(c: Config, s: State, a: Action)
    requires s.pool.closed && Enabled(c, s, a) && Load(s) <= c.inCap
    ensures Load(Apply(c, s, a)) <= c.inCap && SameLosses(s, Apply(c, s, a))
  {
    hide Sum, ProducerNext, WorkerNext, StepMain, WorkerLog, SameLosses;
    ClosedStep(c, s, a);
    match a
    case WorkerStep(i, which) =>
      WorkerLoad(c, s, i, which);
      SumAtLeast(s.workers, HandSize, i);
    case MainStep(clean) =>
      MainFrame(s, clean);
      LossesUnchanged(s, Apply(c, s, a));
    case _ =>
      LossesUnchanged(s, Apply(c, s, a));
  }

  lemma LossesUnchanged(s: State, t: State)
    requires t.log.lost == s.log.lost && t.log.droppedAtSubmit == s.log.droppedAtSubmit
    ensures SameLosses(s, t)
  {}

  lemma {:induction false} FitsRun(c: Config, s: State, acts: seq<Action>, t: State)
    requires s.pool.closed && Load(s) <= c.inCap && Run(c, s, acts, t)
    ensures SameLosses(s, t)
    decreases |acts|
  {
    hide Enabled, Apply, Load;
    if acts != [] {
      FitsStep(c, s, acts[0]);
      ClosedStep(c, s, acts[0]);
      FitsRun(c, Apply(c, s, acts[0]), acts[1..], t);
    }
  }

  /** Some worker's range loop has an event to submit, now or after receiving it. */
  ghost predicate DrainHasWork(s: State) {
    s.pool.taskCh != [] || exists i :: 0 <= i < |s.workers| && s.workers[i].DrainHolding?
  }

  /** The worker to run when the aim is to overfill inCh from the drain loop: first those that hold an
      event from before the cancel, then those that drain, then any other, towards its drain loop. */
  lemma NextToOverfill(c: Config, s: State) returns (i: nat)
    requires Stages(c, s) && s.pool.ctxDone && c.numWorkers >= 1
    requires Load(s) > c.inCap && DrainHasWork(s)
    ensures i < |s.workers| && WorkerEnabled(s.pool, s.workers[i], OnCancel)
    ensures var t := StepWorker(c, s, i, OnCancel);
            || (|t.log.lost| > |s.log.lost|)
            || (Load(t) > c.inCap && DrainHasWork(t))
  {
    if exists j :: 0 <= j < |s.workers| && s.workers[j].Holding? {
      i :| 0 <= i < |s.workers| && s.workers[i].Holding?;
      WorkerLoad(c, s, i, OnCancel);
      StillHasWork(c, s, i);
      OthersHold(c, s, i);
    } else if exists j :: 0 <= j < |s.workers| && s.workers[j].DrainHolding? {
      i :| 0 <= i < |s.workers| && s.workers[i].DrainHolding?;
      if |s.proc.inCh| < c.inCap {
        WorkerLoad(c, s, i, OnCancel);
        LoadIsInDrain(c, StepWorker(c, s, i, OnCancel));
      }
    } else {
      i := 0;
      assert !HasExited(s.workers[0]);
      WorkerLoad(c, s, 0, OnCancel);
      var t := StepWorker(c, s, 0, OnCancel);
      assert t.workers[0].DrainHolding? || t.pool.taskCh == s.pool.taskCh;
    }
  }

  /** Submitting from the select leaves the drain loops and taskCh alone. */
  lemma StillHasWork(c: Config, s: State, i: nat)
    requires i < |s.workers| && s.workers[i].Holding? && DrainHasWork(s)
    ensures DrainHasWork(StepWorker(c, s, i, OnCancel))
  {
    var t := StepWorker(c, s, i, OnCancel);
    if s.pool.taskCh == [] {
      var j :| 0 <= j < |s.workers| && s.workers[j].DrainHolding?;
      assert t.workers[j] == s.workers[j];
    }
  }

  /** With inCh full, the drain's own work keeps the load above capacity when another event is dropped. */
  lemma OthersHold(c: Config, s: State, i: nat)
    requires |s.proc.inCh| <= c.inCap && Load(s) > c.inCap
    requires i < |s.workers| && s.workers[i].Holding? && DrainHasWork(s)
    ensures Load(StepWorker(c, s, i, OnCancel)) > c.inCap
  {
    hide Sum;
    WorkerLoad(c, s, i, OnCancel);
    var t := StepWorker(c, s, i, OnCancel);
    if s.pool.taskCh == [] {
      var j :| 0 <= j < |s.workers| && s.workers[j].DrainHolding?;
      assert t.workers[j] == s.workers[j];
      SumAtLeast(t.workers, HandSize, j);
    }
  }

  lemma LoadIsInDrain(c: Config, s: State)
    requires |s.proc.inCh| <= c.inCap && Load(s) > c.inCap
    requires forall j :: 0 <= j < |s.workers| ==> !s.workers[j].Holding?
    ensures DrainHasWork(s)
  {
    hide Sum;
    if s.pool.taskCh == [] {
      var j := SumPositive(s.workers, HandSize);
      assert s.workers[j].DrainHolding?;
    }
  }

  /** Overloaded, and with drain work to come, some run loses an event in the drain loop. */
  lemma {:induction false} LoseSilently(c: Config, s: State) returns (acts: seq<Action>, t: State)
    requires Stages(c, s) && s.pool.ctxDone && s.pool.closed && c.numWorkers >= 1
    requires Load(s) > c.inCap && DrainHasWork(s)
    ensures Run(c, s, acts, t) && |t.log.lost| > |s.log.lost|
    decreases DrainWork(s)
  {
    var i := NextToOverfill(c, s);
    var a := WorkerStep(i, OnCancel);
    var u := Apply(c, s, a);
    RunOne(c, s, a);
    if |u.log.lost| > |s.log.lost| {
      acts, t := [a], u;
    } else {
      StagesStep(c, s, a);
      StaysClosed(c, s, a);
      WorkerDescends(c, s, i, OnCancel);
      hide Stages, Load, DrainHasWork, DrainWork, Enabled, Apply, WorkerEnabled, Leads;
      var more;
      more, t := LoseSilently(c, u);
      RunJoin(c, s, [a], u, more, t);
      acts := [a] + more;
    }
  }
}
