/** The zero-drop claim of the graceful shutdown, and the exact condition under which it holds. */
module ZeroLoss {
  import opened Numbers
  import opened Sums
  import opened Pipeline
  import opened PipelineInvariants
  import opened PipelineTheorems
  import opened Shutdown

  /** The channel has just been closed.  Handlers may still be on their way to a late send. */
  ghost predicate AtClose(c: Config, s: State) {
    Reachable(c, s) && s.main.Closed? && c.numWorkers >= 1
  }

  ghost predicate ClosedShape(c: Config, s: State) {
    && Stages(c, s) && s.main.Closed? && c.numWorkers >= 1
    && s.pool.closed && |s.proc.inCh| <= c.inCap
    && forall i :: 0 <= i < |s.workers| ==> !InDrainLoop(s.workers[i])
  }

  lemma AtCloseShape(c: Config, s: State)
    requires AtClose(c, s)
    ensures ClosedShape(c, s)
  {
    ReachableStages(c, s);
    hide Reachable;
  }

  /** The cancel that follows close(taskCh). */
  lemma Cancel(c: Config, s: State) returns (u: State)
    requires ClosedShape(c, s)
    ensures Run(c, s, [MainStep(true)], u)
    ensures Stages(c, u) && u.pool.ctxDone && u.pool.closed
    ensures u.pool.taskCh == s.pool.taskCh && u.log == s.log && Load(u) == Load(s)
    ensures u.workers == s.workers && u.proc == s.proc
  {
    hide Load;
    var a := MainStep(true);
    RunOne(c, s, a);
    StagesStep(c, s, a);
    u := Apply(c, s, a);
    CancelKeepsLoad(s);
  }

  lemma CancelKeepsLoad(s: State)
    requires s.main.Closed?
    ensures Load(StepMain(s, true)) == Load(s)
  {}

  /** Overloaded by what the workers already hold: some run drops one of those events. */
  lemma {:induction false} DropFromHands(c: Config, s: State) returns (acts: seq<Action>, t: State)
    requires |s.proc.inCh| <= c.inCap && Load(s) > c.inCap && s.pool.taskCh == []
    ensures Run(c, s, acts, t) && Losses(t) > Losses(s)
    decreases c.inCap - |s.proc.inCh|
  {
    var i := SumPositive(s.workers, HandSize);
    var a := WorkerStep(i, OnCancel);
    var u := Apply(c, s, a);
    RunOne(c, s, a);
    WorkerLoad(c, s, i, OnCancel);
    if |s.proc.inCh| >= c.inCap {
      acts, t := [a], u;
    } else {
      assert u.pool.taskCh == [] && |u.proc.inCh| == |s.proc.inCh| + 1 && Losses(u) == Losses(s);
      hide Load, Enabled, Apply, Leads, Losses;
      var more;
      more, t := DropFromHands(c, u);
      RunJoin(c, s, [a], u, more, t);
      acts := [a] + more;
    }
  }

  function Losses(s: State): nat {
    |s.log.lost| + |s.log.droppedAtSubmit|
  }

  lemma {:induction false} LossesNeverShrink(c: Config, s: State, acts: seq<Action>, t: State)
    requires Run(c, s, acts, t)
    ensures |s.log.lost| <= |t.log.lost| && |s.log.droppedAtSubmit| <= |t.log.droppedAtSubmit|
    decreases |acts|
  {
    if acts != [] {
      hide Enabled, Apply;
      LossesNeverShrink(c, Apply(c, s, acts[0]), acts[1..], t);
    }
  }

  /** If the load does not fit, some interleaving loses or drops an event. */
  lemma OverloadLoses(c: Config, s: State) returns (acts: seq<Action>, t: State)
    requires ClosedShape(c, s) && Load(s) > c.inCap
    ensures Run(c, s, acts, t) && Losses(t) > Losses(s)
    ensures s.pool.taskCh != [] ==> |t.log.lost| > |s.log.lost|
  {
    hide Load, DrainHasWork, Leads, Stages;
    if s.pool.taskCh == [] {
      acts, t := DropFromHands(c, s);
    } else {
      var u := Cancel(c, s);
      assert DrainHasWork(u) by { HasWork(u); }
      var more;
      more, t := LoseSilently(c, u);
      LossesNeverShrink(c, u, more, t);
      acts := [MainStep(true)] + more;
      RunJoin(c, s, [MainStep(true)], u, more, t);
    }
  }

  lemma HasWork(u: State)
    requires u.pool.taskCh != []
    ensures DrainHasWork(u)
  {}

  /** The zero-drop guarantee, exactly: at close(taskCh), no interleaving whatsoever drops or loses an
      event if and only if the events in taskCh, in the workers' hands and in inCh together fit into inCh. */
  lemma ZeroLossIff(c: Config, s: State)
    requires AtClose(c, s)
    ensures (forall acts, t :: Run(c, s, acts, t) ==> SameLosses(s, t)) <==> Load(s) <= c.inCap
  {
    AtCloseShape(c, s);
    hide AtClose, Run, Load, Stages;
    if Load(s) <= c.inCap {
      forall acts, t | Run(c, s, acts, t) ensures SameLosses(s, t) {
        FitsRun(c, s, acts, t);
      }
    } else {
      var acts, t := OverloadLoses(c, s);
      assert !SameLosses(s, t);
    }
  }

  /** No event is on its way to a drain loop. */
  ghost predicate DrainIdle(s: State) {
    s.pool.taskCh == [] && forall i :: 0 <= i < |s.workers| ==> !s.workers[i].DrainHolding?
  }

  lemma DrainIdleStep(c: Config, s: State, a: Action)
    requires s.pool.closed && DrainIdle(s) && Enabled(c, s, a)
    ensures DrainIdle(Apply(c, s, a)) && Apply(c, s, a).log.lost == s.log.lost
  {
    hide ProducerNext, AccumulatorNext, StepMain;
    ClosedStep(c, s, a);
    if a.MainStep? { MainFrame(s, a.clean); }
  }

  lemma {:induction false} DrainIdleRun(c: Config, s: State, acts: seq<Action>, t: State)
    requires s.pool.closed && DrainIdle(s) && Run(c, s, acts, t)
    ensures t.log.lost == s.log.lost
    decreases |acts|
  {
    hide Enabled, Apply, DrainIdle;
    if acts != [] {
      DrainIdleStep(c, s, acts[0]);
      ClosedStep(c, s, acts[0]);
      DrainIdleRun(c, Apply(c, s, acts[0]), acts[1..], t);
    }
  }

  /** The silent form, exactly: some interleaving loses an event in the drain loop, which still counts
      it as processed, if and only if the load does not fit and taskCh is not yet empty. */
  lemma SilentLossIff(c: Config, s: State)
    requires AtClose(c, s)
    ensures (exists acts, t :: Run(c, s, acts, t) && t.log.lost != s.log.lost)
       <==> Load(s) > c.inCap && s.pool.taskCh != []
  {
    AtCloseShape(c, s);
    assert s.pool.taskCh == [] ==> DrainIdle(s);
    hide AtClose, Run, Load, Stages, DrainIdle;
    if Load(s) > c.inCap && s.pool.taskCh != [] {
      var acts, t := OverloadLoses(c, s);
    } else {
      forall acts, t | Run(c, s, acts, t) ensures t.log.lost == s.log.lost {
        if Load(s) <= c.inCap {
          FitsRun(c, s, acts, t);
        } else {
          DrainIdleRun(c, s, acts, t);
        }
      }
    }
  }

  /** main sizes inCh to half of taskCh: closing while the queue is more than half full always
      overloads the drain, whatever else the workers hold. */
  lemma HalfFullQueueCanLose(c: Config, s: State) returns (acts: seq<Action>, t: State)
    requires AtClose(c, s) && c.inCap == c.queueCap / 2 && |s.pool.taskCh| > c.queueCap / 2
    ensures Run(c, s, acts, t) && |t.log.lost| > |s.log.lost|
  {
    AtCloseShape(c, s);
    acts, t := OverloadLoses(c, s);
  }

  // ---- how much can be lost ----

  /** The part of the load that does not fit. */
  function Excess(c: Config, s: State): nat {
    if Load(s) <= c.inCap then 0 else Load(s) - c.inCap
  }

  lemma ExcessStep(c: Config, s: State, a: Action)
    requires s.pool.closed && Enabled(c, s, a)
    ensures var t := Apply(c, s, a);
            Losses(t) + Excess(c, t) <= Losses(s) + Excess(c, s)
  {
    hide Sum, ProducerNext, WorkerNext, StepMain;
    ClosedStep(c, s, a);
    match a
    case WorkerStep(i, which) =>
      WorkerLoad(c, s, i, which);
      SumAtLeast(s.workers, HandSize, i);
    case MainStep(clean) => MainFrame(s, clean);
    case _ =>
  }

  lemma {:induction false} ExcessRun(c: Config, s: State, acts: seq<Action>, t: State)
    requires s.pool.closed && Run(c, s, acts, t)
    ensures Losses(t) + Excess(c, t) <= Losses(s) + Excess(c, s)
    decreases |acts|
  {
    hide Enabled, Apply, Losses, Excess;
    if acts != [] {
      ExcessStep(c, s, acts[0]);
      ClosedStep(c, s, acts[0]);
      ExcessRun(c, Apply(c, s, acts[0]), acts[1..], t);
    }
  }

  lemma HandsEmpty(s: State)
    requires s.pool.taskCh == [] && forall i :: 0 <= i < |s.workers| ==> s.workers[i].Gone?
    ensures Load(s) == |s.proc.inCh|
  {
    SumZero(s.workers, HandSize);
  }

  lemma WorkerFills(c: Config, s: State, i: nat, which: Case)
    requires i < |s.workers| && WorkerEnabled(s.pool, s.workers[i], which) && |s.proc.inCh| <= c.inCap
    ensures var t := StepWorker(c, s, i, which);
            && |s.proc.inCh| <= |t.proc.inCh| <= c.inCap
            && Losses(t) + Load(t) == Losses(s) + Load(s)
            && (Losses(t) > Losses(s) ==> |t.proc.inCh| == c.inCap)
  {
    WorkerLoad(c, s, i, which);
    hide Load;
  }

  ghost predicate NoneHolding(s: State) {
    forall i :: 0 <= i < |s.workers| ==> !s.workers[i].Holding?
  }

  /** The workers alone, run to their end: what does not fit is lost or dropped; all of it is lost if
      they go through the drain loop. */
  lemma {:induction false} WorkersAlone(c: Config, s: State, which: Case) returns (acts: seq<Action>, t: State)
    requires Stages(c, s) && s.pool.closed && c.numWorkers >= 1
    requires which == OnReceive || (which == OnCancel && s.pool.ctxDone)
    ensures Run(c, s, acts, t) && Load(t) == |t.proc.inCh| <= c.inCap && |s.proc.inCh| <= |t.proc.inCh|
    ensures Losses(t) + Load(t) == Losses(s) + Load(s)
    ensures Losses(t) > Losses(s) ==> |t.proc.inCh| == c.inCap
    ensures which == OnCancel && NoneHolding(s) ==> t.log.droppedAtSubmit == s.log.droppedAtSubmit
    decreases DrainWork(s)
  {
    if i :| 0 <= i < |s.workers| && !s.workers[i].Gone? {
      var a := WorkerStep(i, which);
      assert Enabled(c, s, a);
      RunOne(c, s, a);
      StagesStep(c, s, a);
      StaysClosed(c, s, a);
      WorkerDescends(c, s, i, which);
      WorkerFills(c, s, i, which);
      var u := Apply(c, s, a);
      hide Stages, DrainWork, Leads, Enabled, WorkerNext, WorkerLog, Load, Losses, NoneHolding;
      var more;
      more, t := WorkersAlone(c, u, which);
      RunJoin(c, s, [a], u, more, t);
      acts := [a] + more;
    } else {
      assert HasExited(s.workers[0]);
      HandsEmpty(s);
      acts, t := [], s;
    }
  }

  /** The worst case, exactly: after close no run drops or loses more than the part of the load that
      does not fit into inCh, and some run drops or loses just that much. */
  lemma WorstLoss(c: Config, s: State) returns (acts: seq<Action>, t: State)
    requires AtClose(c, s)
    ensures forall more, u :: Run(c, s, more, u) ==> Losses(u) <= Losses(s) + Excess(c, s)
    ensures Run(c, s, acts, t) && Losses(t) == Losses(s) + Excess(c, s)
  {
    AtCloseShape(c, s);
    hide AtClose, Load, Stages, Leads;
    acts, t := WorkersAlone(c, s, OnReceive);
    hide Run;
    LossesNeverShrink(c, s, acts, t);
    ExcessRun(c, s, acts, t);
    forall more, u | Run(c, s, more, u) ensures Losses(u) <= Losses(s) + Excess(c, s) {
      ExcessRun(c, s, more, u);
    }
  }

  // ---- how much can be lost silently ----

  function DrainHandSize(w: Worker): nat { if w.DrainHolding? then 1 else 0 }

  /** Lost in the drain loop, or still able to be. */
  function LostOrDraining(s: State): nat {
    |s.log.lost| + |s.pool.taskCh| + Sum(s.workers, DrainHandSize)
  }

  lemma DrainLossStep(c: Config, s: State, a: Action)
    requires s.pool.closed && Enabled(c, s, a)
    ensures LostOrDraining(Apply(c, s, a)) <= LostOrDraining(s)
  {
    hide Sum, ProducerNext, AccumulatorNext, StepMain;
    ClosedStep(c, s, a);
    match a
    case WorkerStep(i, which) => SumUpdate(s.workers, DrainHandSize, i, StepWorker(c, s, i, which).workers[i]);
    case MainStep(clean) => MainFrame(s, clean);
    case _ =>
  }

  lemma {:induction false} DrainLossRun(c: Config, s: State, acts: seq<Action>, t: State)
    requires s.pool.closed && Run(c, s, acts, t)
    ensures LostOrDraining(t) <= LostOrDraining(s)
    decreases |acts|
  {
    hide Enabled, Apply, LostOrDraining;
    if acts != [] {
      DrainLossStep(c, s, acts[0]);
      ClosedStep(c, s, acts[0]);
      DrainLossRun(c, Apply(c, s, acts[0]), acts[1..], t);
    }
  }

  /** What of the excess can still be lost silently: what the hands hold is dropped, and counted so. */
  function SilentExcess(c: Config, s: State): nat {
    Min(Excess(c, s), |s.pool.taskCh|)
  }

  lemma SilentBound(c: Config, s: State, acts: seq<Action>, t: State)
    requires ClosedShape(c, s) && Run(c, s, acts, t)
    ensures |t.log.lost| <= |s.log.lost| + SilentExcess(c, s)
  {
    SumZero(s.workers, DrainHandSize);
    hide Run, Sum, Stages, Load;
    DrainLossRun(c, s, acts, t);
    ExcessRun(c, s, acts, t);
    LossesNeverShrink(c, s, acts, t);
  }

  /** First everything that the workers hold is submitted: it fits, or is dropped and counted. */
  lemma {:induction false} SubmitHands(c: Config, s: State) returns (acts: seq<Action>, u: State)
    requires ClosedShape(c, s)
    ensures Run(c, s, acts, u) && ClosedShape(c, u) && NoneHolding(u)
    ensures u.pool.taskCh == s.pool.taskCh && u.log.lost == s.log.lost
    ensures Losses(u) + Load(u) == Losses(s) + Load(s) && Load(u) == |u.pool.taskCh| + |u.proc.inCh|
    ensures |s.proc.inCh| <= |u.proc.inCh| && (Losses(u) > Losses(s) ==> |u.proc.inCh| == c.inCap)
    decreases Sum(s.workers, HandSize)
  {
    if i :| 0 <= i < |s.workers| && s.workers[i].Holding? {
      var a := WorkerStep(i, OnReceive);
      RunOne(c, s, a);
      StagesStep(c, s, a);
      WorkerFills(c, s, i, OnReceive);
      var v := Apply(c, s, a);
      assert ClosedShape(c, v) by { hide StepWorker; }
      hide ClosedShape, NoneHolding, Leads, Enabled, Apply, Load;
      var more;
      more, u := SubmitHands(c, v);
      RunJoin(c, s, [a], v, more, u);
      acts := [a] + more;
      LossesNeverShrink(c, v, more, u);
    } else {
      SumZero(s.workers, HandSize);
      acts, u := [], s;
    }
  }

  /** The worst silent loss, exactly: after close no run loses more events in the drain loops than taskCh
      holds or than do not fit into inCh, whichever is less, and some run loses just that many, every
      one counted as processed. */
  lemma WorstSilentLoss(c: Config, s: State) returns (acts: seq<Action>, t: State)
    requires AtClose(c, s)
    ensures forall more, u :: Run(c, s, more, u) ==> |u.log.lost| <= |s.log.lost| + SilentExcess(c, s)
    ensures Run(c, s, acts, t) && |t.log.lost| == |s.log.lost| + SilentExcess(c, s)
  {
    AtCloseShape(c, s);
    hide AtClose, Load, Stages, Leads, NoneHolding;
    var first, u := SubmitHands(c, s);
    var v := Cancel(c, u);
    assert NoneHolding(v);
    var rest;
    rest, t := WorkersAlone(c, v, OnCancel);
    RunJoin(c, s, first, u, [MainStep(true)], v);
    RunJoin(c, s, first + [MainStep(true)], v, rest, t);
    acts := first + [MainStep(true)] + rest;
    hide Run;
    LossesNeverShrink(c, s, first, u);
    LossesNeverShrink(c, v, rest, t);
    forall more, w | Run(c, s, more, w) ensures |w.log.lost| <= |s.log.lost| + SilentExcess(c, s) {
      SilentBound(c, s, more, w);
    }
  }

}
