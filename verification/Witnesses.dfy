/** The conditions of the shutdown matter on every configuration: from the initial state there is a run
    that loses an event silently, one that hangs in the final flush, and one that kills a handler. */
module Witnesses {
  import opened Sums
  import opened Pipeline
  import opened PipelineInvariants
  import opened PipelineTheorems
  import opened Shutdown
  import opened ZeroLoss
  import opened FinalFlush

  /** One producer has sent `evs`; nobody else has moved. */
  predicate Filled(c: Config, s: State, evs: seq<Event>) {
    && s.pool.taskCh == evs && s.log.sent == evs
    && !s.pool.closed && !s.pool.shuttingDown && !s.pool.ctxDone && s.accepting
    && s.main.Serving? && s.acc.Select? && s.producers == [Idle]
    && s.proc == Init(c, 1).proc && s.workers == Init(c, 1).workers
    && s.log.lost == [] && s.log.droppedAtSubmit == [] && s.log.attempts == []
  }

  lemma SendOne(c: Config, s: State, evs: seq<Event>, ev: Event) returns (acts: seq<Action>, t: State)
    requires Filled(c, s, evs) && |evs| < c.queueCap
    ensures Run(c, s, acts, t) && Filled(c, t, evs + [ev])
  {
    hide Init, Leads;
    var a, p := StartCall(0, [ev]), ProducerStep(0);
    var s1 := Apply(c, s, a);
    RunOne(c, s, a);
    var s2 := Apply(c, s1, p);
    Extend(c, s, [a], s1, p);
    var s3 := Apply(c, s2, p);
    Extend(c, s, [a] + [p], s2, p);
    var s4 := Apply(c, s3, p);
    Extend(c, s, [a] + [p] + [p], s3, p);
    t := Apply(c, s4, p);
    Extend(c, s, [a] + [p] + [p] + [p], s4, p);
    acts := [a] + [p] + [p] + [p] + [p];
  }

  lemma {:induction false} Fill(c: Config, evs: seq<Event>) returns (acts: seq<Action>, s: State)
    requires |evs| <= c.queueCap
    ensures Run(c, Init(c, 1), acts, s) && Filled(c, s, evs)
    decreases |evs|
  {
    if evs == [] {
      acts, s := [], Init(c, 1);
      assert s.producers == [Idle];
    } else {
      var k := |evs| - 1;
      hide Leads, Init;
      var first, mid := Fill(c, evs[..k]);
      var next, last := SendOne(c, mid, evs[..k], evs[k]);
      assert evs[..k] + [evs[k]] == evs;
      RunJoin(c, Init(c, 1), first, mid, next, last);
      acts, s := first + next, last;
    }
  }

  lemma {:induction false} NoHands(ws: seq<Worker>)
    requires forall i :: 0 <= i < |ws| ==> ws[i].Selecting?
    ensures Sum(ws, HandSize) == 0
  {
    SumZero(ws, HandSize);
  }

  /** A clean stop with exactly `evs` queued: the load at close is their number. */
  lemma FillAndClose(c: Config, evs: seq<Event>) returns (acts: seq<Action>, s: State)
    requires |evs| <= c.queueCap && c.numWorkers >= 1
    ensures Run(c, Init(c, 1), acts, s) && AtClose(c, s)
    ensures s.pool.taskCh == evs && Load(s) == |evs| && !s.accepting
    ensures s.log.lost == [] && s.log.droppedAtSubmit == [] && s.acc.Select? && s.proc.mu == Free && s.log.sent == evs
    ensures s.log.attempts == []
  {
    var first, f := Fill(c, evs);
    NoHands(f.workers);
    hide Leads, Init, Sum;
    var m := MainStep(true);
    var s1 := Apply(c, f, m);
    Extend(c, Init(c, 1), first, f, m);
    var s2 := Apply(c, s1, m);
    Extend(c, Init(c, 1), first + [m], s1, m);
    s := Apply(c, s2, m);
    Extend(c, Init(c, 1), first + [m] + [m], s2, m);
    acts := first + [m] + [m] + [m];
    assert f.proc.inCh == [];
    assert Reachable(c, s);
  }

  /** With main's sizing, whatever the queue capacity from 2 on, some run from start-up with a clean
      stop loses an accepted event in the drain loop. */
  lemma ZeroDropFailsAsConfigured(c: Config, ev: Event) returns (acts: seq<Action>, t: State)
    requires c.inCap == c.queueCap / 2 && c.queueCap >= 2 && c.numWorkers >= 1
    ensures Run(c, Init(c, 1), acts, t) && t.log.lost != []
  {
    var evs := seq(c.queueCap / 2 + 1, _ => ev);
    var first, s := FillAndClose(c, evs);
    hide Leads, Init, AtClose, Load;
    var more;
    more, t := HalfFullQueueCanLose(c, s);
    RunJoin(c, Init(c, 1), first, s, more, t);
    acts := first + more;
  }

  // ---- and the hang ----

  /** After close the workers can always be run to their end. */
  lemma {:induction false} FinishWorkers(c: Config, s: State) returns (acts: seq<Action>, t: State)
    requires Stages(c, s) && s.main.Waiting?
    ensures Run(c, s, acts, t) && Stages(c, t) && t.main.Waiting?
    ensures t.acc == s.acc && t.proc.mu == s.proc.mu && t.log.attempts == s.log.attempts
    ensures t.producers == s.producers
    ensures forall i :: 0 <= i < |t.workers| ==> t.workers[i].Gone?
    decreases DrainWork(s)
  {
    if i :| 0 <= i < |s.workers| && !s.workers[i].Gone? {
      var a := WorkerStep(i, OnReceive);
      assert Enabled(c, s, a);
      RunOne(c, s, a);
      StagesStep(c, s, a);
      WorkerDescends(c, s, i, OnReceive);
      ClosedStep(c, s, a);
      WorkerFrame(c, s.pool, s.proc, s.workers[i], OnReceive);
      var u := Apply(c, s, a);
      hide Stages, DrainWork, Leads, Enabled, WorkerNext, WorkerLog;
      var more;
      more, t := FinishWorkers(c, u);
      RunJoin(c, s, [a], u, more, t);
      acts := [a] + more;
    } else {
      acts, t := [], s;
    }
  }

  /** In its final drain, with nobody else moving and FlushBatch succeeding, the accumulator settles. */
  lemma {:induction false} FinishDrain(c: Config, s: State) returns (acts: seq<Action>, t: State)
    requires !c.repaired && Inv(c, s) && InFinalDrain(s.acc) && s.proc.mu != ByReader
    requires AllOk(s)
    ensures Run(c, s, acts, t) && Settled(c, t) && AllOk(t) && t.main == s.main && t.producers == s.producers
    decreases FinalRank(s)
  {
    hide Inv, InFinalDrain, FinalRank, Leads, AccumulatorNext, Settled, AllOk, AccumulatorEnabled;
    var a := AccumulatorStep(OnCancel, true);
    if Enabled(c, s, a) {
      RunOne(c, s, a);
      InvStep(c, s, a);
      FinalStepDescends(c, s, OnCancel, true);
      NoReaderAfter(c, s.proc, s.acc);
      StaysOk(c, s);
      var u := Apply(c, s, a);
      hide Enabled;
      var more;
      more, t := FinishDrain(c, u);
      RunJoin(c, s, [a], u, more, t);
      acts := [a] + more;
    } else {
      RestIsSettled(c, s);
      acts, t := [], s;
      assert Leads(c, s, [], s) by { EmptyRun(c, s); }
    }
  }

  lemma EmptyRun(c: Config, s: State)
    ensures Leads(c, s, [], s)
  {}

  lemma StaysOk(c: Config, s: State)
    requires AllOk(s) && AccumulatorEnabled(s.proc, s.acc, OnCancel)
    ensures AllOk(StepAccumulator(c, s, OnCancel, true))
  {
    hide AccumulatorNext;
  }

  /** In the final drain there is only one way to go on. */
  lemma RestIsSettled(c: Config, s: State)
    requires InFinalDrain(s.acc) && !AccumulatorEnabled(s.proc, s.acc, OnCancel) && s.proc.mu != ByReader
    ensures Settled(c, s)
  {}

  ghost predicate AllOk(s: State) {
    forall k :: 0 <= k < |s.log.attempts| ==> s.log.attempts[k].ok
  }

  lemma NoReaderAfter(c: Config, p: ProcVars, a: Accumulator)
    requires AccumulatorEnabled(p, a, OnCancel) && p.mu != ByReader
    ensures AccumulatorNext(c, p, a, OnCancel, true).0.mu != ByReader
  {}

  lemma DrainAndHang(c: Config, s: State, joined: seq<Action>, d: State) returns (last: seq<Action>, t: State)
    requires !c.repaired && AtClose(c, s) && Load(s) <= c.inCap && Run(c, s, joined, d)
    requires s.log.sent != [] && s.log.lost == [] && s.log.droppedAtSubmit == []
    requires d.acc.DrainLock? && d.proc.mu == Free && d.log.attempts == []
    ensures Run(c, d, last, t) && SelfDeadlocked(t) && AllOk(t) && Stages(c, t)
  {
    hide Inv, Stages, AtClose, Load, Leads, Reachable, Settled;
    AtCloseIsReachable(c, s);
    ReachableRun(c, s, joined, d);
    ReachableInv(c, d);
    last, t := FinishDrain(c, d);
    ReachableRun(c, d, last, t);
    ReachableInv(c, t);
    InvStages(c, t);
    RunJoin(c, s, joined, d, last, t);
    FinalFlushReturnsIff(c, d, last, t);
    if t.acc.Ended? {
      ZeroDrop(c, s, joined + last, t);
      assert false;
    }
  }

  lemma InvStages(c: Config, s: State)
    requires Inv(c, s)
    ensures Stages(c, s)
  {}

  /** As written, with a storage that never fails, one accepted event is enough: some run from start-up
      with a clean stop commits it in the final flush, and main hangs from then on. */
  lemma ShutdownCanHang(c: Config, ev: Event) returns (acts: seq<Action>, t: State)
    requires !c.repaired && c.queueCap >= 1 && c.inCap >= 1 && c.numWorkers >= 1
    ensures Run(c, Init(c, 1), acts, t) && SelfDeadlocked(t) && AllOk(t)
    ensures forall more, u :: Run(c, t, more, u) ==> !u.main.Finished?
  {
    var first, s := FillAndClose(c, [ev]);
    var joined, d := ReachFinalDrain(c, s);
    var last;
    last, t := DrainAndHang(c, s, joined, d);
    hide Leads, Init, Stages, AtClose, Load, Settled, SelfDeadlocked, Reachable, AllOk;
    RunJoin(c, Init(c, 1), first, s, joined, d);
    RunJoin(c, Init(c, 1), first + joined, d, last, t);
    acts := first + joined + last;
    forall more, u | Run(c, t, more, u) ensures !u.main.Finished? {
      DeadlockRun(c, t, more, u);
    }
  }

  lemma ReachFinalDrain(c: Config, s: State) returns (acts: seq<Action>, d: State)
    requires AtClose(c, s) && s.acc.Select? && s.proc.mu == Free
    ensures Run(c, s, acts, d) && d.acc.DrainLock? && d.proc.mu == Free
    ensures d.log.attempts == s.log.attempts && d.main.Joining? && d.producers == s.producers
  {
    AtCloseShape(c, s);
    hide Reachable, Load, Leads, ProducerNext, WorkerNext;
    var m := MainStep(true);
    var s1 := Apply(c, s, m);
    RunOne(c, s, m);
    StagesStep(c, s, m);
    var work, s2 := FinishWorkers(c, s1);
    RunJoin(c, s, [m], s1, work, s2);
    var s3 := Apply(c, s2, m);
    Extend(c, s, [m] + work, s2, m);
    var s4 := Apply(c, s3, m);
    Extend(c, s, [m] + work + [m], s3, m);
    var a := AccumulatorStep(OnCancel, true);
    d := Apply(c, s4, a);
    Extend(c, s, [m] + work + [m] + [m], s4, a);
    acts := [m] + work + [m] + [m] + [a];
  }

  // ---- a late send ----

  /** The producer checks the flag, an HTTP stop misses its deadline, main sets the flag and closes
      taskCh, the producer sends. */
  lemma LateSend(c: Config, ev: Event) returns (acts: seq<Action>, s: State)
    ensures Run(c, Init(c, 1), acts, s) && s.main.Closed? && s.acc.Select? && s.proc.mu == Free
    ensures s.producers == [Dead(Call(1, [], 0, 0))] && s.log.sent == [] && s.log.attempts == []
  {
    hide Leads;
    var z := Init(c, 1);
    assert z.producers == [Idle] && [ev][1..] == [];
    var a, p, m := StartCall(0, [ev]), ProducerStep(0), MainStep(false);
    var s1 := Apply(c, z, a);
    RunOne(c, z, a);
    var s2 := Apply(c, s1, p);
    Extend(c, z, [a], s1, p);
    var s3 := Apply(c, s2, m);
    Extend(c, z, [a] + [p], s2, m);
    var s4 := Apply(c, s3, m);
    Extend(c, z, [a] + [p] + [m], s3, m);
    var s5 := Apply(c, s4, m);
    Extend(c, z, [a] + [p] + [m] + [m], s4, m);
    s := Apply(c, s5, p);
    Extend(c, z, [a] + [p] + [m] + [m] + [m], s5, p);
    acts := [a] + [p] + [m] + [m] + [m] + [p];
  }

  lemma NothingRemains(c: Config, s: State, joined: seq<Action>, d: State)
    requires Reachable(c, s) && s.pool.closed && s.log.sent == [] && Run(c, s, joined, d) && d.acc.DrainLock?
    ensures Remaining(d) == []
  {
    hide Run;
    ClosedRun(c, s, joined, d);
    ReachableRun(c, s, joined, d);
    hide Reachable;
    ExactlyOnce(c, d);
    hide Bag, Outcome;
  }

  /** On every configuration with a worker, a handler can die of a late send while the rest of the
      program shuts down to its end: its event is not sent and its call never answered. */
  lemma HandlerCanDie(c: Config, ev: Event) returns (acts: seq<Action>, t: State)
    requires !c.repaired && c.numWorkers >= 1
    ensures Run(c, Init(c, 1), acts, t) && t.main.Finished?
    ensures t.producers == [Dead(Call(1, [], 0, 0))] && t.log.sent == []
  {
    var first, s := LateSend(c, ev);
    assert Reachable(c, s);
    ReachableStages(c, s);
    hide Leads, Init, Reachable, Stages;
    var joined, d := ReachFinalDrain(c, s);
    NothingRemains(c, s, joined, d);
    ReachableRun(c, s, joined, d);
    ReachableInv(c, d);
    var last, e := FinishDrain(c, d);
    FinalFlushReturnsIff(c, d, last, e);
    t := Apply(c, e, MainStep(true));
    RunJoin(c, Init(c, 1), first, s, joined, d);
    RunJoin(c, Init(c, 1), first + joined, d, last, e);
    Extend(c, Init(c, 1), first + joined + last, e, MainStep(true));
    acts := first + joined + last + [MainStep(true)];
    RunJoin(c, s, joined, d, last, e);
    ClosedRun(c, s, joined + last, e);
  }
}
