/** What the step invariants mean for every reachable state of every interleaving. */
module PipelineTheorems {
  import opened Sums
  import opened Pipeline
  import opened PipelineInvariants

  ghost predicate Reachable(c: Config, s: State) {
    exists n, acts :: Run(c, Init(c, n), acts, s)
  }

  lemma ReachableInv(c: Config, s: State)
    requires Reachable(c, s)
    ensures Inv(c, s)
  {
    hide Inv, Run, Init;
    var n, acts :| Run(c, Init(c, n), acts, s);
    InvInit(c, n);
    InvRun(c, Init(c, n), acts, s);
  }

  lemma ReachableStages(c: Config, s: State)
    requires Reachable(c, s)
    ensures Stages(c, s)
  {
    ReachableInv(c, s);
    hide Reachable;
  }

  lemma ReachableRun(c: Config, s: State, acts: seq<Action>, t: State)
    requires Reachable(c, s) && Run(c, s, acts, t)
    ensures Reachable(c, t)
  {
    hide Run, Init;
    var n, before :| Run(c, Init(c, n), before, s);
    RunJoin(c, Init(c, n), before, s, acts, t);
  }

  // ---- exactly-once placement ----

  /** The events of all attempts with the given outcome. */
  function Outcome(attempts: seq<Attempt>, ok: bool): multiset<Event> {
    if attempts == [] then multiset{}
    else
      var last := attempts[|attempts| - 1];
      Outcome(attempts[..|attempts| - 1], ok) + (if last.ok == ok then multiset(last.batch) else multiset{})
  }

  lemma {:induction false} OutcomesPartition(attempts: seq<Attempt>)
    ensures multiset(Flat(attempts)) == Outcome(attempts, true) + Outcome(attempts, false)
    decreases |attempts|
  {
    if attempts != [] {
      var before, last := attempts[..|attempts| - 1], attempts[|attempts| - 1];
      OutcomesPartition(before);
    }
  }

  /** Events between the pool and the storage: queued, being gathered, or handed to FlushBatch. */
  ghost function InProcessor(s: State): multiset<Event> {
    multiset(s.proc.inCh) + multiset(Gathered(s.proc, s.acc))
  }

  /** Each event ever sent on taskCh is in exactly one place: taskCh, a worker's hand, the processor,
      a committed batch, a failed batch, dropped at Submit, or lost in the drain loop. */
  lemma ExactlyOnce(c: Config, s: State)
    requires Reachable(c, s)
    ensures multiset(s.log.sent)
         == multiset(s.pool.taskCh) + Bag(s.workers, Hand) + InProcessor(s)
          + Outcome(s.log.attempts, true) + Outcome(s.log.attempts, false)
          + multiset(s.log.droppedAtSubmit) + multiset(s.log.lost)
  {
    ReachableInv(c, s);
    OutcomesPartition(s.log.attempts);
    var g, flat := Gathered(s.proc, s.acc), Flat(s.log.attempts);
    assert Placed(s) && s.log.submitted == flat + (g + s.proc.inCh);
    hide Inv, Bag, Flat, Outcome, Gathered;
  }

  // ---- counters ----

  /** A worker between its receive and its counter update. */
  function InWork(w: Worker): nat {
    HandSize(w) + CountsProcessed(w) + CountsDropped(w)
  }

  lemma {:induction false} InWorkSum(ws: seq<Worker>)
    ensures Sum(ws, InWork) == |Bag(ws, Hand)| + Sum(ws, CountsProcessed) + Sum(ws, CountsDropped)
  {
    if ws != [] { InWorkSum(ws[1..]); }
  }

  /** `accepted` trails the sends only by producers between send and increment; and with no producer
      there, `accepted` is what was processed, queued, in work, or dropped by a worker.  Events that
      the drain loop lost are counted in `processed`. */
  lemma CounterAccounting(c: Config, s: State)
    requires Reachable(c, s)
    ensures s.pool.accepted + Sum(s.producers, IsSent) == |s.log.sent|
    ensures s.pool.accepted + Sum(s.producers, IsSent)
         == s.pool.processed + |s.pool.taskCh| + Sum(s.workers, InWork) + (s.pool.dropped - s.log.rejections)
    ensures s.pool.processed + Sum(s.workers, CountsProcessed) == |s.log.submitted| + |s.log.lost|
  {
    ReachableInv(c, s);
    InWorkSum(s.workers);
    assert Counted(s) && Placed(s);
    hide Inv, Bag, Sum;
    assert |multiset(s.log.sent)| == |s.log.sent|;
  }

  function LiveAccepted(p: Producer): nat { if p.Dead? then 0 else CallAccepted(p) }

  function DeadAccepted(p: Producer): nat { if p.Dead? then CallAccepted(p) else 0 }

  lemma {:induction false} LiveOrDead(ps: seq<Producer>)
    ensures Sum(ps, CallAccepted) == Sum(ps, LiveAccepted) + Sum(ps, DeadAccepted)
  {
    if ps != [] { LiveOrDead(ps[1..]); }
  }

  /** Whatever shutdown does in the middle, EnqueueBatch answers for each of its events; and the
      accepted counter is what its callers were told, what those still waiting are so far to be told,
      and what calls that died on a late send had put into the queue: those answer to nobody.  A dead
      call had dealt with a prefix, died on one event, and never tried the rest. */
  lemma AnswersAddUp(c: Config, s: State)
    requires Reachable(c, s)
    ensures forall k :: 0 <= k < |s.log.answers| ==>
              s.log.answers[k].acc + s.log.answers[k].rej == s.log.answers[k].total
    ensures Sum(s.log.answers, AnswerAccepted) + Sum(s.producers, LiveAccepted) + Sum(s.producers, DeadAccepted)
         == s.pool.accepted
    ensures forall i :: 0 <= i < |s.producers| && s.producers[i].Dead? ==>
              var call := s.producers[i].call;
              s.pool.closed && s.accepting && call.acc + call.rej + 1 + |call.rest| == call.total
  {
    hide Reachable, Sum;
    ReachableInv(c, s);
    LiveOrDead(s.producers);
    assert CallsOk(s) && Stages(c, s);
    hide Inv;
    assert forall i :: 0 <= i < |s.producers| ==> CallOk(s.producers[i]);
  }

  // ---- batching ----

  /** The accumulator partitions the submit stream, in order, and cuts it by its triggers. */
  lemma BatchesPartitionTheStream(c: Config, s: State)
    requires Reachable(c, s)
    ensures s.log.submitted == Flat(s.log.attempts) + (Gathered(s.proc, s.acc) + s.proc.inCh)
    ensures forall k :: 0 <= k < |s.log.attempts| ==> ShapeOk(c, s.log.attempts[k].batch, s.log.attempts[k].reason)
    ensures forall k :: 0 <= k < |s.log.attempts| && s.log.attempts[k].reason == GracefulShutdown ==>
              k == |s.log.attempts| - 1
  {
    ReachableInv(c, s);
  }

  /** Outside doFlush the processor's metrics are the sums over the outcomes. */
  lemma MetricsMatchOutcomes(c: Config, s: State)
    requires Reachable(c, s)
    requires !s.acc.AddFlushed? && !s.acc.AddBatches? && !s.acc.AddError?
    ensures s.proc.totalFlushed == |Outcome(s.log.attempts, true)|
    ensures s.proc.totalBatches == Sum(s.log.attempts, Committed) && s.proc.flushErrors == Sum(s.log.attempts, Failed)
    ensures s.proc.totalBatches + s.proc.flushErrors == |s.log.attempts|
  {
    ReachableInv(c, s);
    assert Totalled(s);
    hide Inv;
    CommittedIsOutcome(s.log.attempts);
  }

  lemma {:induction false} SumSnocs(attempts: seq<Attempt>, last: Attempt)
    ensures Sum(attempts + [last], CommittedSize) == Sum(attempts, CommittedSize) + CommittedSize(last)
    ensures Sum(attempts + [last], Committed) == Sum(attempts, Committed) + Committed(last)
    ensures Sum(attempts + [last], Failed) == Sum(attempts, Failed) + Failed(last)
  {
    SumSnoc(attempts, CommittedSize, last);
    SumSnoc(attempts, Committed, last);
    SumSnoc(attempts, Failed, last);
  }

  lemma {:induction false} CommittedIsOutcome(attempts: seq<Attempt>)
    ensures Sum(attempts, CommittedSize) == |Outcome(attempts, true)|
    ensures Sum(attempts, Committed) + Sum(attempts, Failed) == |attempts|
    decreases |attempts|
  {
    if attempts != [] {
      var before, last := attempts[..|attempts| - 1], attempts[|attempts| - 1];
      CommittedIsOutcome(before);
      SumSnocs(before, last);
      assert before + [last] == attempts;
    }
  }

  // ---- memory ----

  /** Events held anywhere and not yet committed, failed, dropped or lost. */
  ghost function Held(s: State): nat {
    |s.pool.taskCh| + |Bag(s.workers, Hand)| + |s.proc.inCh| + |Gathered(s.proc, s.acc)|
  }

  /** Also while buffers are swapped and during the final drain. */
  lemma MemoryBound(c: Config, s: State)
    requires Reachable(c, s)
    ensures Held(s) <= c.queueCap + c.numWorkers + c.inCap + BatchLimit(c)
  {
    ReachableInv(c, s);
    assert |s.workers| == c.numWorkers && |s.pool.taskCh| <= c.queueCap && |s.proc.inCh| <= c.inCap;
    assert Batched(c, s);
    GatheredBound(c, s);
    hide Inv, Bag, Sum, Gathered, Batched, Reachable;
    BagSize(s.workers, Hand, HandSize);
    SumAtMost(s.workers, HandSize);
  }

  lemma GatheredBound(c: Config, s: State)
    requires Batched(c, s) && |s.proc.inCh| <= c.inCap
    ensures |Gathered(s.proc, s.acc)| + |s.proc.inCh| <= BatchLimit(c) + c.inCap
  {}
}
