/** The `activeWorkers` feedback of the simulated worker pool: the release callback derives the busy
    workers from the queue length, so a long queue declares all workers busy and nobody is left to
    shorten it. */
module EngineStall {
  import opened Numbers
  import opened EngineModel
  import opened EngineRuns

  /** All workers count as busy and no release is coming. */
  predicate Stalled(e: Engine) {
    e.work.activeWorkers >= e.cfg.workerCount && e.work.pendingReleases == 0
  }

  lemma CeilBound(q: nat, w: nat)
    requires w >= 1
    ensures CeilDiv50(q) >= w <==> q > 50 * (w - 1)
  {}

  /** The only ways in, exactly: the last outstanding release sees more than 50 * (workerCount - 1)
      queued events, or a reconfiguration lowers the workers to those already counted as busy. */
  lemma StallOnsetIff(e: Engine, a: Action)
    requires !Stalled(e) && Possible(e, a) && e.cfg.workerCount >= 1
    ensures Stalled(Step(e, a)) <==>
            || (a.Release? && e.work.pendingReleases == 1 && |e.work.queue| > 50 * (e.cfg.workerCount - 1))
            || (a.Configure? && e.work.pendingReleases == 0
                && NewConfig(e.cfg, a.update).workerCount <= e.work.activeWorkers)
  {
    hide TakeTokens, RefillTokens, CeilDiv50, NewConfig, TriggerFlush, FillAll, Room, SingleStatus, BatchCost, Admit;
    AdmitLeavesWorkers(e, a);
    if a.Release? {
      CeilBound(|e.work.queue|, e.cfg.workerCount);
    }
  }

  /** Ingestion and flushing leave the worker fields alone. */
  lemma AdmitLeavesWorkers(e: Engine, a: Action)
    requires Possible(e, a)
    ensures a.Single? || a.Many? || a.FlushTick? || a.Metrics? ==>
              var f := Step(e, a);
              && f.work == e.work.(queue := f.work.queue) && e.work.queue <= f.work.queue
              && f.cfg == e.cfg && f.count.totalProcessed == e.count.totalProcessed
  {
    hide TakeTokens, RefillTokens, TriggerFlush, BatchCost;
  }

  /** Updates that do not raise the workers above `active`. */
  predicate NoRaise(e: Engine, a: Action, active: int) {
    a.Configure? ==> NewConfig(e.cfg, a.update).workerCount <= active
  }

  lemma StalledStep(e: Engine, a: Action)
    requires Stalled(e) && Possible(e, a) && NoRaise(e, a, e.work.activeWorkers)
    ensures var f := Step(e, a);
            && Stalled(f) && f.work.activeWorkers == e.work.activeWorkers
            && f.count.totalProcessed == e.count.totalProcessed
            && (!a.Shutdown? ==> e.work.queue <= f.work.queue)
  {
    hide TakeTokens, RefillTokens, CeilDiv50, NewConfig, TriggerFlush, FillAll, Room, SingleStatus, BatchCost, Admit;
    AdmitLeavesWorkers(e, a);
  }

  ghost predicate NeverRaised(e: Engine, acts: seq<Action>, active: int)
    decreases |acts|
  {
    acts != [] ==>
      && NoRaise(e, acts[0], active)
      && (Possible(e, acts[0]) ==> NeverRaised(Step(e, acts[0]), acts[1..], active))
  }

  /** The stall is absorbing: no ingestion, tick, flush, metrics read, shutdown simulation or other
      reconfiguration ever lets a worker tick move an event again; and without a simulated shutdown
      the queue only grows. */
  lemma {:induction false} StallIsAbsorbing(e: Engine, acts: seq<Action>, f: Engine)
    requires Stalled(e) && Run(e, acts, f) && NeverRaised(e, acts, e.work.activeWorkers)
    ensures Stalled(f) && f.count.totalProcessed == e.count.totalProcessed
    ensures (forall i :: 0 <= i < |acts| ==> !acts[i].Shutdown?) ==> e.work.queue <= f.work.queue
    decreases |acts|
  {
    hide Step, Possible, NoRaise, Stalled;
    if acts != [] {
      StalledStep(e, acts[0]);
      StallIsAbsorbing(Step(e, acts[0]), acts[1..], f);
    }
  }

  /** Raising workerCount above the busy count is what ends it: the next tick moves events. */
  lemma RaiseRevives(e: Engine, u: Update, now: int, fails: bool)
    requires Stalled(e) && NewConfig(e.cfg, u).workerCount > e.work.activeWorkers
    requires e.work.queue != [] && !e.work.isShuttingDown
    ensures Tick(UpdateConfig(e, u), now, fails).count.totalProcessed > e.count.totalProcessed
  {
    hide TriggerFlush;
  }

  /** Every release sees at most 50 * (workerCount - 1) events, and workers are never taken away. */
  ghost predicate Benign(e: Engine, acts: seq<Action>)
    decreases |acts|
  {
    acts != [] ==>
      && (acts[0].Release? ==> |e.work.queue| <= 50 * (e.cfg.workerCount - 1))
      && (acts[0].Configure? ==> NewConfig(e.cfg, acts[0].update).workerCount >= e.cfg.workerCount)
      && (Possible(e, acts[0]) ==> Benign(Step(e, acts[0]), acts[1..]))
  }

  lemma {:induction false} BenignNeverStalls(e: Engine, acts: seq<Action>, f: Engine)
    requires !Stalled(e) && e.cfg.workerCount >= 1 && Run(e, acts, f) && Benign(e, acts)
    ensures !Stalled(f)
    decreases |acts|
  {
    if acts != [] {
      StallOnsetIff(e, acts[0]);
      hide Step, Possible, NewConfig;
      BenignNeverStalls(Step(e, acts[0]), acts[1..], f);
    }
  }

  // ---- the progress boundary ----

  /** Ten milliseconds of an idle engine: a tick, and the release it may have scheduled. */
  function Round(e: Engine, input: (int, bool)): Engine {
    var t := Tick(e, input.0, input.1);
    if t.work.pendingReleases > 0 then t.(work := ReleaseWork(t.cfg, t.work)) else t
  }

  function Rounds(e: Engine, inputs: seq<(int, bool)>): Engine
    decreases |inputs|
  {
    if inputs == [] then e else Rounds(Round(e, inputs[0]), inputs[1..])
  }

  /** Between rounds: nothing pending, at least one worker free. */
  predicate Rested(e: Engine) {
    !e.work.isShuttingDown && e.work.pendingReleases == 0 && 0 <= e.work.activeWorkers < e.cfg.workerCount
  }

  lemma RoundMoves(e: Engine, input: (int, bool))
    requires Rested(e)
    ensures var q, f := |e.work.queue|, Round(e, input);
            && f.cfg == e.cfg && !f.work.isShuttingDown && f.work.pendingReleases == 0
            && |f.work.queue| == q - Min(25 * (e.cfg.workerCount - e.work.activeWorkers), q)
            && (q > 0 ==> f.work.activeWorkers == Min(e.cfg.workerCount, CeilDiv50(|f.work.queue|)))
            && (q == 0 ==> f.work.activeWorkers == e.work.activeWorkers)
  {
    hide TriggerFlush, CeilDiv50;
    assert CeilDiv50(|Round(e, input).work.queue|) >= 0;
  }

  /** What a rested engine can drain. */
  function Capacity(e: Engine): int {
    25 * (e.cfg.workerCount - e.work.activeWorkers) + 50 * (e.cfg.workerCount - 1)
  }

  /** Within capacity every round removes at least min(25, queue) events and leaves the rest within capacity. */
  lemma RoundDescends(e: Engine, input: (int, bool))
    requires Rested(e) && |e.work.queue| <= Capacity(e)
    ensures var f := Round(e, input);
            && Rested(f) && |f.work.queue| <= Capacity(f)
            && |f.work.queue| <= |e.work.queue| - Min(25, |e.work.queue|)
  {
    hide Round, CeilDiv50;
    RoundMoves(e, input);
    CeilBound(|Round(e, input).work.queue|, e.cfg.workerCount);
    assert CeilDiv50(|Round(e, input).work.queue|) >= 0;
  }

  lemma {:induction false} WithinCapacityDrains(e: Engine, inputs: seq<(int, bool)>)
    requires Rested(e) && |e.work.queue| <= Capacity(e) && 25 * |inputs| >= |e.work.queue|
    ensures Rounds(e, inputs).work.queue == []
    decreases |inputs|
  {
    hide Round, Capacity;
    if inputs != [] {
      RoundDescends(e, inputs[0]);
      WithinCapacityDrains(Round(e, inputs[0]), inputs[1..]);
    }
  }

  lemma {:induction false} StalledRounds(e: Engine, inputs: seq<(int, bool)>)
    requires Stalled(e)
    ensures Rounds(e, inputs).work == e.work
    decreases |inputs|
  {
    if inputs != [] {
      assert Round(e, inputs[0]) == e;
      StalledRounds(e, inputs[1..]);
    }
  }

  lemma {:induction false} BeyondCapacitySticks(e: Engine, inputs: seq<(int, bool)>)
    requires Rested(e) && |e.work.queue| > Capacity(e)
    ensures Rounds(e, inputs).work.queue != []
  {
    if inputs != [] {
      var f := Round(e, inputs[0]);
      RoundMoves(e, inputs[0]);
      hide Round, CeilDiv50;
      CeilBound(|f.work.queue|, e.cfg.workerCount);
      StalledRounds(f, inputs[1..]);
    }
  }

  /** These rounds empty the queue. */
  predicate Drains(e: Engine, inputs: seq<(int, bool)>) { Rounds(e, inputs).work.queue == [] }

  /** The boundary, exactly: left alone, a rested engine ever empties its queue if and only if the
      queue is at most 25 * free + 50 * (workerCount - 1) long. */
  lemma DrainsIff(e: Engine)
    requires Rested(e)
    ensures (exists inputs :: Drains(e, inputs)) <==> |e.work.queue| <= Capacity(e)
  {
    if |e.work.queue| <= Capacity(e) {
      var inputs := seq(|e.work.queue|, _ => (0, false));
      WithinCapacityDrains(e, inputs);
      assert Drains(e, inputs);
    } else {
      forall inputs ensures !Drains(e, inputs) {
        BeyondCapacitySticks(e, inputs);
      }
    }
  }

  /** With all workers free: 75 * workerCount - 50. */
  lemma FreshDrainsIff(e: Engine)
    requires Rested(e) && e.work.activeWorkers == 0
    ensures (exists inputs :: Drains(e, inputs)) <==> |e.work.queue| <= 75 * e.cfg.workerCount - 50
  {
    DrainsIff(e);
  }

  // ---- the boundary over runs ----

  /** Everything but shutdowns and reconfigurations. */
  predicate NoOutsideHelp(a: Action) { !a.Shutdown? && !a.Configure? }

  /** All workers count as busy, and no pending release will find fewer events than it takes. */
  predicate Stuck(e: Engine) {
    e.work.activeWorkers >= e.cfg.workerCount >= 1 && |e.work.queue| > 50 * (e.cfg.workerCount - 1)
  }

  lemma StuckStep(e: Engine, a: Action)
    requires Stuck(e) && Possible(e, a) && NoOutsideHelp(a)
    ensures Stuck(Step(e, a)) && e.work.queue <= Step(e, a).work.queue
  {
    hide TakeTokens, RefillTokens, CeilDiv50, TriggerFlush, FillAll, Room, SingleStatus, BatchCost, Admit;
    AdmitLeavesWorkers(e, a);
    CeilBound(|e.work.queue|, e.cfg.workerCount);
  }

  lemma {:induction false} StuckRun(e: Engine, acts: seq<Action>, f: Engine)
    requires Stuck(e) && Run(e, acts, f) && forall i :: 0 <= i < |acts| ==> NoOutsideHelp(acts[i])
    ensures Stuck(f) && e.work.queue <= f.work.queue
    decreases |acts|
  {
    hide Step, Possible, NoOutsideHelp, Stuck;
    if acts != [] {
      StuckStep(e, acts[0]);
      StuckRun(Step(e, acts[0]), acts[1..], f);
    }
  }

  /** Beyond capacity no run whatsoever, with ticks, releases, flushes, metrics reads and ingestion in
      any order, ever empties the queue. */
  lemma {:induction false} BeyondNeverDrains(e: Engine, acts: seq<Action>, f: Engine)
    requires Rested(e) && |e.work.queue| > Capacity(e) && Run(e, acts, f)
    requires forall i :: 0 <= i < |acts| ==> NoOutsideHelp(acts[i])
    ensures f.work.queue != []
    decreases |acts|
  {
    if acts != [] {
      var g := Step(e, acts[0]);
      hide Step, Possible, NoOutsideHelp, CeilDiv50;
      if Stuck(g) { StuckRun(g, acts[1..], f); } else { BeyondNeverDrains(g, acts[1..], f); }
    }
  }

  lemma RoundRuns(e: Engine, input: (int, bool)) returns (acts: seq<Action>)
    requires Rested(e)
    ensures Run(e, acts, Round(e, input)) && forall i :: 0 <= i < |acts| ==> NoOutsideHelp(acts[i])
  {
    hide Leads, TriggerFlush, CeilDiv50;
    var tick := WorkerTick(input.0, input.1);
    var t := Step(e, tick);
    if t.work.pendingReleases > 0 {
      RunNil(Step(t, Release));
      RunCons(t, Release, [], Step(t, Release));
      acts := [tick] + ([Release] + []);
    } else {
      RunNil(t);
      acts := [tick] + [];
    }
    RunCons(e, tick, acts[1..], Round(e, input));
  }

  lemma {:induction false} Join(e: Engine, a: seq<Action>, f: Engine, b: seq<Action>, g: Engine)
    requires Run(e, a, f) && Run(f, b, g)
    ensures Run(e, a + b, g)
    decreases |a|
  {
    hide Step, Possible;
    if a == [] {
      assert a + b == b;
    } else {
      Join(Step(e, a[0]), a[1..], f, b, g);
      assert (a + b)[1..] == a[1..] + b;
    }
  }

  lemma {:induction false} DrainingRun(e: Engine, rounds: nat) returns (acts: seq<Action>, f: Engine)
    requires Rested(e) && |e.work.queue| <= Capacity(e) && 25 * rounds >= |e.work.queue|
    ensures Run(e, acts, f) && f.work.queue == [] && forall i :: 0 <= i < |acts| ==> NoOutsideHelp(acts[i])
    decreases rounds
  {
    if rounds == 0 {
      acts, f := [], e;
    } else {
      hide Round, Capacity, Leads;
      var first := RoundRuns(e, (0, false));
      RoundDescends(e, (0, false));
      var rest;
      rest, f := DrainingRun(Round(e, (0, false)), rounds - 1);
      Join(e, first, Round(e, (0, false)), rest, f);
      acts := first + rest;
    }
  }

  /** `acts` empties the queue without shutdown or reconfiguration. */
  ghost predicate Empties(e: Engine, acts: seq<Action>, f: Engine) {
    Run(e, acts, f) && f.work.queue == [] && forall i :: 0 <= i < |acts| ==> NoOutsideHelp(acts[i])
  }

  /** The boundary over all runs: some run without shutdown and reconfiguration, in whatever order its
      callbacks come, empties the queue if and only if it is within capacity. */
  lemma EmptiesIff(e: Engine)
    requires Rested(e)
    ensures (exists acts, f :: Empties(e, acts, f)) <==> |e.work.queue| <= Capacity(e)
  {
    hide Run, Capacity, NoOutsideHelp;
    if |e.work.queue| <= Capacity(e) {
      var acts, f := DrainingRun(e, |e.work.queue|);
      assert Empties(e, acts, f);
    } else {
      forall acts, f ensures !Empties(e, acts, f) {
        if Empties(e, acts, f) { BeyondNeverDrains(e, acts, f); }
      }
    }
  }

  // ---- it is reached ----

  /** From start-up, one batch, the next worker tick and its release: the pool is stalled, with events
      in the queue, if and only if the batch was longer than 75 * 32 - 50. */
  lemma FirstBatchStallsIff(now: int, evs: seq<Event>, defaults: seq<Fresh>, fails: bool) returns (t: Engine)
    requires 1 <= |evs| == |defaults| <= 50000
    ensures Run(Boot(now), [Many(evs, defaults, now)] + ([WorkerTick(now, fails)] + ([Release] + [])), t)
    ensures Stalled(t) <==> |evs| > 75 * 32 - 50
    ensures Stalled(t) ==> t.work.queue != []
  {
    FirstBatch(now, evs, defaults);
    hide Leads, TriggerFlush, TakeTokens, FillAll, Room, BatchCost;
    var many, tick := Many(evs, defaults, now), WorkerTick(now, fails);
    var e := Step(Boot(now), many);
    var f := Step(e, tick);
    assert f.work == TickWork(e.cfg, e.work) && f.cfg == e.cfg;
    t := Step(f, Release);
    RunNil(t);
    RunCons(f, Release, [], t);
    RunCons(e, tick, [Release] + [], t);
    RunCons(Boot(now), many, [tick] + ([Release] + []), t);
  }
}
