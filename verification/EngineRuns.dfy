/** What every run of the event loop keeps: order, totals and bounds, also across reconfiguration and
    simulated shutdowns. */
module EngineRuns {
  import opened Numbers
  import opened RateLimit
  import opened EngineModel

  // ---- first in, first out ----

  function Flushed(fs: seq<Flush>): seq<Event> {
    if fs == [] then [] else Flushed(fs[..|fs| - 1]) + fs[|fs| - 1].batch
  }

  function Failures(fs: seq<Flush>): nat {
    if fs == [] then 0 else Failures(fs[..|fs| - 1]) + (if fs[|fs| - 1].ok then 0 else 1)
  }

  /** Flushed batches, then the buffer, then the queue: the accepted events in acceptance order. */
  ghost predicate Fifo(e: Engine) {
    Flushed(e.hist.flushes) + (e.batch.batchBuffer + e.work.queue) == e.hist.accepted
  }

  /** What the flush log says about a batch record. */
  ghost predicate BatchOk(b: Batch, h: Hist) {
    && b.totalEventsFlushed == |Flushed(h.flushes)|
    && b.totalBatchesFlushed == |h.flushes|
    && b.totalBatchErrors == Failures(h.flushes)
    && |h.entered| == |b.batchBuffer|
    && Logged(h.flushes)
  }

  /** No flush is empty, and each event of a flush has its entry time. */
  ghost predicate Logged(fs: seq<Flush>) {
    forall k :: 0 <= k < |fs| ==> fs[k].batch != [] && |fs[k].entered| == |fs[k].batch|
  }

  ghost predicate Totals(e: Engine) {
    && BatchOk(e.batch, e.hist)
    && e.count.totalAccepted == |e.hist.accepted|
    && e.count.totalProcessed + e.hist.drained == |e.batch.batchBuffer| + e.batch.totalEventsFlushed
  }

  ghost predicate Inv(e: Engine) { Fifo(e) && Totals(e) }

  /** A flush moves the buffer to the end of the flushed stream. */
  lemma FlushKeeps(b: Batch, h: Hist, reason: Reason, now: int, fails: bool)
    requires BatchOk(b, h)
    ensures var (b', h') := TriggerFlush(b, h, reason, now, fails);
            && BatchOk(b', h') && b'.batchBuffer == []
            && Flushed(h'.flushes) == Flushed(h.flushes) + b.batchBuffer
            && b'.totalEventsFlushed == b.totalEventsFlushed + |b.batchBuffer|
            && h' == h.(entered := [], flushes := h'.flushes)
  {
    var (b', h') := TriggerFlush(b, h, reason, now, fails);
    if b.batchBuffer != [] {
      assert h'.flushes[..|h.flushes|] == h.flushes;
    }
  }

  lemma MoveChunk(b: seq<Event>, queue: seq<Event>, k: nat)
    requires k <= |queue|
    ensures (b + queue[..k]) + queue[k..] == b + queue
  {}

  lemma TickKeeps(e: Engine, now: int, fails: bool)
    requires Inv(e)
    ensures Inv(Tick(e, now, fails))
  {
    if TickMoves(e.cfg, e.work) {
      var k := ChunkSize(e.cfg, e.work);
      var items := e.work.queue[..k];
      var b := e.batch.(batchBuffer := e.batch.batchBuffer + items);
      var h := e.hist.(entered := e.hist.entered + Times(|items|, now));
      FlushKeeps(b, h, CountThreshold, now, fails);
      MoveChunk(e.batch.batchBuffer, e.work.queue, k);
      var f := Tick(e, now, fails);
      hide Flushed, Failures, Logged, TriggerFlush;
      assert Flushed(f.hist.flushes) + (f.batch.batchBuffer + f.work.queue)
          == Flushed(h.flushes) + (b.batchBuffer + e.work.queue[k..]) by {
        if f.batch.batchBuffer == [] {
          assert Flushed(h.flushes) + b.batchBuffer + ([] + e.work.queue[k..])
              == Flushed(h.flushes) + (b.batchBuffer + e.work.queue[k..]);
        }
      }
    }
  }

  lemma BatchTickKeeps(e: Engine, now: int, fails: bool)
    requires Inv(e)
    ensures Inv(BatchTick(e, now, fails))
  {
    var h := e.hist.(lastBatchTick := now);
    FlushKeeps(e.batch, h, WindowTimeout, now, fails);
    hide Flushed, Failures, Logged, TriggerFlush;
    assert Flushed(h.flushes) + e.batch.batchBuffer + ([] + e.work.queue)
        == Flushed(h.flushes) + (e.batch.batchBuffer + e.work.queue);
  }

  lemma AdmitKeeps(e: Engine, cost: nat, evs: seq<Event>, lost: nat, now: int)
    requires Inv(e)
    ensures Inv(Admit(e, cost, evs, lost, now))
  {
    hide Flushed, Failures, Logged, TakeTokens;
    var past, b, q := Flushed(e.hist.flushes), e.batch.batchBuffer, e.work.queue;
    assert past + (b + (q + evs)) == (past + (b + q)) + evs;
  }

  lemma ShutdownKeeps(e: Engine, now: int, fails: bool)
    requires Inv(e)
    ensures Inv(SimulateShutdown(e, now, fails))
  {
    var b := e.batch.(batchBuffer := e.batch.batchBuffer + e.work.queue);
    var n := |e.work.queue|;
    var h := e.hist.(entered := e.hist.entered + Times(n, now), drained := e.hist.drained + n);
    FlushKeeps(b, h, GracefulShutdown, now, fails);
    hide Flushed, Failures, Logged, TriggerFlush;
    assert Flushed(h.flushes) + b.batchBuffer + ([] + []) == Flushed(h.flushes) + (e.batch.batchBuffer + e.work.queue);
  }

  lemma InvStep(e: Engine, a: Action)
    requires Inv(e) && Possible(e, a)
    ensures Inv(Step(e, a))
  {
    hide Flushed, Failures, Logged, TakeTokens, Tick, BatchTick, SimulateShutdown, Admit, FillAll,
         Room, BatchCost, SingleStatus, NewConfig;
    match a
    case WorkerTick(now, fails) => TickKeeps(e, now, fails);
    case FlushTick(now, fails) => BatchTickKeeps(e, now, fails);
    case Single(ev, f, now) =>
      AdmitKeeps(e, 1, [Fill(ev, f)], 0, now);
      AdmitKeeps(e, 1, [], 1, now);
      AdmitKeeps(e, 1, [], 0, now);
    case Many(evs, fs, now) =>
      var k := Room(e.cfg, e.work, |evs|);
      RoomFits(e.cfg, e.work, |evs|);
      AdmitKeeps(e, BatchCost(|evs|), FillAll(evs, fs)[..k], |evs| - k, now);
      AdmitKeeps(e, BatchCost(|evs|), [], 0, now);
    case Shutdown(now, fails) => ShutdownKeeps(e, now, fails);
    case _ =>
  }

  lemma RoomFits(c: Config, w: Work, n: nat)
    ensures Room(c, w, n) <= n
  {}

  lemma {:induction false} InvRun(e: Engine, acts: seq<Action>, f: Engine)
    requires Inv(e) && Run(e, acts, f)
    ensures Inv(f)
    decreases |acts|
  {
    hide Inv, Possible, Step;
    if acts != [] {
      InvStep(e, acts[0]);
      InvRun(Step(e, acts[0]), acts[1..], f);
    }
  }

  /** Order and totals in every run from start-up, whatever is reconfigured, flushed or shut down on
      the way.  Events of a failed write are among the flushed ones: `totalEventsFlushed` counts them. */
  lemma FifoAlways(now: int, acts: seq<Action>, e: Engine)
    requires Run(Boot(now), acts, e)
    ensures Flushed(e.hist.flushes) + (e.batch.batchBuffer + e.work.queue) == e.hist.accepted
    ensures e.count.totalAccepted == |e.work.queue| + |e.batch.batchBuffer| + e.batch.totalEventsFlushed
    ensures e.count.totalProcessed + e.hist.drained == |e.batch.batchBuffer| + e.batch.totalEventsFlushed
    ensures e.batch.totalEventsFlushed == |Flushed(e.hist.flushes)| && e.batch.totalBatchesFlushed == |e.hist.flushes|
    ensures e.batch.totalBatchErrors == Failures(e.hist.flushes)
  {
    assert Inv(Boot(now));
    InvRun(Boot(now), acts, e);
  }

  /** Events of flushes whose write succeeded. */
  function Written(fs: seq<Flush>): nat {
    if fs == [] then 0
    else Written(fs[..|fs| - 1]) + (if fs[|fs| - 1].ok then |fs[|fs| - 1].batch| else 0)
  }

  lemma {:induction false} WrittenOrFailed(fs: seq<Flush>)
    requires forall k :: 0 <= k < |fs| ==> fs[k].batch != []
    ensures Written(fs) + Failures(fs) <= |Flushed(fs)|
    ensures Failures(fs) == 0 ==> Written(fs) == |Flushed(fs)|
    decreases |fs|
  {
    if fs != [] { WrittenOrFailed(fs[..|fs| - 1]); }
  }

  /** The reported total of flushed events is what was written if and only if no write ever failed;
      each failed write overstates it by at least one event. */
  lemma FlushedIsWrittenIff(now: int, acts: seq<Action>, e: Engine)
    requires Run(Boot(now), acts, e)
    ensures e.batch.totalEventsFlushed == Written(e.hist.flushes) <==> e.batch.totalBatchErrors == 0
    ensures Written(e.hist.flushes) + e.batch.totalBatchErrors <= e.batch.totalEventsFlushed
  {
    assert Inv(Boot(now));
    InvRun(Boot(now), acts, e);
    WrittenOrFailed(e.hist.flushes);
  }

  /** A batch within the queue and the burst, as the first call to a started engine. */
  lemma FirstBatch(now: int, evs: seq<Event>, defaults: seq<Fresh>)
    requires |evs| == |defaults| <= 50000
    ensures var e := Step(Boot(now), Many(evs, defaults, now));
            && |e.work.queue| == |evs| && e.work.(queue := []) == Boot(now).work && e.cfg == Boot(now).cfg
            && e.batch == Boot(now).batch && e.hist.flushes == []
  {
    assert Seconds(now) - Seconds(now) == 0.0;
    hide FillAll, Seconds;
  }

  /** And writes can fail: from start-up, any first batch, a worker tick and a failing timed flush lead to
      a total of flushed events of which none was written. */
  lemma FlushedCanOverstate(now: int, evs: seq<Event>, defaults: seq<Fresh>) returns (t: Engine)
    requires 1 <= |evs| == |defaults| <= 50000
    ensures Run(Boot(now),
                [Many(evs, defaults, now)] + ([WorkerTick(now, false)] + ([FlushTick(now + 500, true)] + [])), t)
    ensures Written(t.hist.flushes) == 0 && t.batch.totalEventsFlushed == Min(|evs|, 800)
  {
    FirstBatch(now, evs, defaults);
    hide Leads, TriggerFlush, TakeTokens, FillAll, Room, BatchCost, BatchTick, Written;
    var many, tick, flush := Many(evs, defaults, now), WorkerTick(now, false), FlushTick(now + 500, true);
    var e := Step(Boot(now), many);
    var f := Step(e, tick);
    assert |f.batch.batchBuffer| == Min(|evs|, 800) && f.hist.flushes == [];
    t := Step(f, flush);
    RunNil(t);
    RunCons(f, flush, [], t);
    RunCons(e, tick, [flush] + [], t);
    RunCons(Boot(now), many, [tick] + ([flush] + []), t);
  }

  // ---- queue bounds ----

  ghost predicate QueueBounded(e: Engine) {
    |e.work.queue| <= Max(e.cfg.channelCapacity, e.hist.shrinkLength)
  }

  /** No ingest grows a queue that is at or over capacity, and none takes it beyond. */
  lemma IngestRespectsCapacity(e: Engine, a: Action)
    requires (a.Single? || a.Many?) && Possible(e, a)
    ensures var f := Step(e, a);
            && e.work.queue <= f.work.queue
            && (|e.work.queue| >= e.cfg.channelCapacity ==> f.work.queue == e.work.queue)
            && |f.work.queue| <= Max(e.cfg.channelCapacity, |e.work.queue|)
            && f.cfg == e.cfg && f.hist.shrinkLength == e.hist.shrinkLength
  {
    hide TakeTokens, BatchCost;
  }

  lemma QueueBoundedStep(e: Engine, a: Action)
    requires QueueBounded(e) && Possible(e, a)
    ensures QueueBounded(Step(e, a))
  {
    if a.Single? || a.Many? {
      IngestRespectsCapacity(e, a);
      hide Step;
    } else {
      hide Flushed, RefillTokens;
    }
  }

  lemma {:induction false} QueueBoundedRun(e: Engine, acts: seq<Action>, f: Engine)
    requires QueueBounded(e) && Run(e, acts, f)
    ensures QueueBounded(f)
    decreases |acts|
  {
    hide QueueBounded, Possible, Step;
    if acts != [] {
      QueueBoundedStep(e, acts[0]);
      QueueBoundedRun(Step(e, acts[0]), acts[1..], f);
    }
  }

  /** In every run from start-up the queue never exceeds the larger of the current capacity and its
      length when the capacity was last lowered. */
  lemma QueueAlwaysBounded(now: int, acts: seq<Action>, e: Engine)
    requires Run(Boot(now), acts, e)
    ensures |e.work.queue| <= Max(e.cfg.channelCapacity, e.hist.shrinkLength)
  {
    hide Run;
    QueueBoundedRun(Boot(now), acts, e);
  }

  predicate KeepsCapacity(a: Action) { a.Configure? ==> a.update.channelCapacity == 0 }

  lemma {:induction false} CapacityRun(e: Engine, acts: seq<Action>, f: Engine)
    requires Run(e, acts, f) && forall i :: 0 <= i < |acts| ==> KeepsCapacity(acts[i])
    ensures f.cfg.channelCapacity == e.cfg.channelCapacity && f.hist.shrinkLength == e.hist.shrinkLength
    decreases |acts|
  {
    if acts != [] {
      hide TakeTokens, RefillTokens, TriggerFlush, BatchCost, Clamp;
      CapacityRun(Step(e, acts[0]), acts[1..], f);
    }
  }

  /** As started, and while the capacity is left alone: never more than 50000 events. */
  lemma DefaultQueue(now: int, acts: seq<Action>, e: Engine)
    requires Run(Boot(now), acts, e) && forall i :: 0 <= i < |acts| ==> KeepsCapacity(acts[i])
    ensures |e.work.queue| <= 50000
  {
    hide Run, KeepsCapacity;
    CapacityRun(Boot(now), acts, e);
    QueueAlwaysBounded(now, acts, e);
  }

  /** A batch that the limiter lets through is accepted as exactly the prefix that fits, filled in. */
  lemma BatchTakesPrefix(e: Engine, evs: seq<Event>, fs: seq<Fresh>, now: int)
    requires |evs| == |fs| && TakeTokens(e.cfg, e.lim, BatchCost(|evs|), now).1
    ensures var f := IngestBatch(e, evs, fs, now); var k := Min(|evs|, Max(0, e.cfg.channelCapacity - |e.work.queue|));
            && |f.work.queue| == |e.work.queue| + k && e.work.queue <= f.work.queue
            && (forall i :: 0 <= i < k ==> f.work.queue[|e.work.queue| + i] == Fill(evs[i], fs[i]))
            && f.count.totalAccepted == e.count.totalAccepted + k
            && f.count.totalDropped == e.count.totalDropped + (|evs| - k)
  {
    hide TakeTokens, BatchCost;
  }

  // ---- sizes ----

  /** The ranges that start-up and reconfiguration keep, no negative number of busy workers, and a
      timer that ends every simulated shutdown. */
  predicate SizesOk(e: Engine) {
    && 2 <= e.cfg.workerCount <= 256 && 500 <= e.cfg.channelCapacity <= 500000
    && 100 <= e.cfg.batchThreshold <= 50000 && 20 <= e.cfg.batchFlushWindowMs <= 5000
    && 0 <= e.work.activeWorkers && (e.work.isShuttingDown ==> e.work.pendingResumes > 0)
  }

  lemma SizesStep(e: Engine, a: Action)
    requires SizesOk(e) && Possible(e, a)
    ensures SizesOk(Step(e, a))
  {
    hide TakeTokens, RefillTokens, SingleStatus, Room, FillAll, BatchCost, TriggerFlush;
  }

  lemma {:induction false} SizesRun(e: Engine, acts: seq<Action>, f: Engine)
    requires SizesOk(e) && Run(e, acts, f)
    ensures SizesOk(f)
    decreases |acts|
  {
    if acts != [] {
      SizesStep(e, acts[0]);
      hide Step, Possible, SizesOk;
      SizesRun(Step(e, acts[0]), acts[1..], f);
    }
  }

  /** In every run from start-up a simulated shutdown is temporary: its timer is pending, and when it
      fires, also the timer of an earlier shutdown, worker ticks move events again. */
  lemma ShutdownIsTemporary(now: int, acts: seq<Action>, e: Engine)
    requires Run(Boot(now), acts, e) && e.work.isShuttingDown
    ensures !TickMoves(e.cfg, e.work) && Possible(e, ResumeTimer)
    ensures var f := Step(e, ResumeTimer);
            TickMoves(f.cfg, f.work) <==> e.work.activeWorkers < e.cfg.workerCount && e.work.queue != []
  {
    SizesRun(Boot(now), acts, e);
    hide Run;
  }

  // ---- count batches while workers and threshold are left alone ----

  predicate KeepsBatching(a: Action) {
    a.Configure? ==> a.update.batchThreshold == 0 && a.update.workerCount == 0
  }

  /** What the buffer can hold before flush `k`: less than the threshold, except that the events already
      `held` when the threshold was last set may be more, up to the first flush from there. */
  function HeldBefore(c: Config, k: nat, first: nat, held: nat): int {
    if k == first then Max(c.batchThreshold - 1, held) else c.batchThreshold - 1
  }

  ghost predicate CountBatchesBounded(c: Config, b: Batch, h: Hist, first: nat, held: nat) {
    && first <= |h.flushes| && |b.batchBuffer| <= HeldBefore(c, |h.flushes|, first, held)
    && forall k :: first <= k < |h.flushes| && h.flushes[k].reason == CountThreshold ==>
         c.batchThreshold <= |h.flushes[k].batch| <= HeldBefore(c, k, first, held) + 25 * c.workerCount
  }

  lemma CountTick(e: Engine, now: int, fails: bool, first: nat, held: nat)
    requires SizesOk(e) && CountBatchesBounded(e.cfg, e.batch, e.hist, first, held)
    ensures CountBatchesBounded(e.cfg, Tick(e, now, fails).batch, Tick(e, now, fails).hist, first, held)
  {
    assert TickMoves(e.cfg, e.work) ==> ChunkSize(e.cfg, e.work) <= 25 * e.cfg.workerCount;
  }

  lemma CountBatchesStep(e: Engine, a: Action, first: nat, held: nat)
    requires SizesOk(e) && CountBatchesBounded(e.cfg, e.batch, e.hist, first, held)
    requires Possible(e, a) && KeepsBatching(a)
    ensures var f := Step(e, a);
            && CountBatchesBounded(f.cfg, f.batch, f.hist, first, held)
            && f.cfg.workerCount == e.cfg.workerCount && f.cfg.batchThreshold == e.cfg.batchThreshold
  {
    hide TakeTokens, RefillTokens, SingleStatus, Room, FillAll, BatchCost, TickMoves;
    if a.WorkerTick? {
      CountTick(e, a.now, a.fails, first, held);
    }
  }

  lemma {:induction false} CountBatchesInduct(e: Engine, acts: seq<Action>, f: Engine, first: nat, held: nat)
    requires SizesOk(e) && CountBatchesBounded(e.cfg, e.batch, e.hist, first, held) && Run(e, acts, f)
    requires forall i :: 0 <= i < |acts| ==> KeepsBatching(acts[i])
    ensures CountBatchesBounded(f.cfg, f.batch, f.hist, first, held)
    ensures f.cfg.workerCount == e.cfg.workerCount && f.cfg.batchThreshold == e.cfg.batchThreshold
    decreases |acts|
  {
    hide CountBatchesBounded, Possible, Step, KeepsBatching, SizesOk;
    if acts != [] {
      CountBatchesStep(e, acts[0], first, held);
      SizesStep(e, acts[0]);
      CountBatchesInduct(Step(e, acts[0]), acts[1..], f, first, held);
    }
  }

  /** From any state that any run, with any reconfigurations, has led to: while threshold and workers
      are left alone, every further count batch has between the threshold and threshold - 1 +
      25 * workerCount events.  Only the first flush can be larger, by what the buffer already held. */
  lemma CountBatchesRun(start: int, before: seq<Action>, e: Engine, acts: seq<Action>, f: Engine)
    requires Run(Boot(start), before, e) && Run(e, acts, f)
    requires forall i :: 0 <= i < |acts| ==> KeepsBatching(acts[i])
    ensures var first := |e.hist.flushes|;
            forall k :: first <= k < |f.hist.flushes| && f.hist.flushes[k].reason == CountThreshold ==>
              var most := HeldBefore(e.cfg, k, first, |e.batch.batchBuffer|);
              e.cfg.batchThreshold <= |f.hist.flushes[k].batch| <= most + 25 * e.cfg.workerCount
  {
    SizesRun(Boot(start), before, e);
    hide Run, SizesOk;
    CountBatchesInduct(e, acts, f, |e.hist.flushes|, |e.batch.batchBuffer|);
  }

  /** As started: every count batch has 5000 to 5799 events. */
  lemma DefaultCountBatches(start: int, acts: seq<Action>, f: Engine)
    requires Run(Boot(start), acts, f) && forall i :: 0 <= i < |acts| ==> KeepsBatching(acts[i])
    ensures forall k :: 0 <= k < |f.hist.flushes| && f.hist.flushes[k].reason == CountThreshold ==>
              5000 <= |f.hist.flushes[k].batch| <= 5799
  {
    RunNil(Boot(start));
    hide Run;
    CountBatchesRun(start, [], Boot(start), acts, f);
  }

  // ---- every offered event is answered for ----

  function Size(a: Action): nat {
    if a.Single? then 1 else if a.Many? then |a.evs| else 0
  }

  /** The bucket of the limiter refuses the call. */
  predicate Limits(e: Engine, a: Action) {
    && (a.Single? || a.Many?)
    && var cost := if a.Single? then 1 else BatchCost(|a.evs|);
       !Allows(BucketOf(e.cfg, e.lim), cost as real, Seconds(a.now))
  }

  /** Only single events are validated, and only after the limiter. */
  predicate FailsValidation(e: Engine, a: Action) {
    a.Single? && !Limits(e, a) && IsInvalid(a.ev)
  }

  datatype Tally = Tally(offered: nat, limitedEvents: nat, invalid: nat, limitedRequests: nat)

  /** What a run offers and what its limiter and validation refuse.  A limited batch counts as one
      limited request and once more for each of its events. */
  ghost function Refusals(e: Engine, acts: seq<Action>): Tally
    decreases |acts|
  {
    if acts == [] || !Possible(e, acts[0]) then Tally(0, 0, 0, 0)
    else
      var a := acts[0];
      var rest := Refusals(Step(e, a), acts[1..]);
      var n := Size(a);
      Tally(rest.offered + n,
            rest.limitedEvents + (if Limits(e, a) then n else 0),
            rest.invalid + (if FailsValidation(e, a) then 1 else 0),
            rest.limitedRequests + (if !Limits(e, a) then 0 else if a.Single? then 1 else n + 1))
  }

  lemma AnswersStep(e: Engine, a: Action)
    requires Possible(e, a)
    ensures var f := Step(e, a);
            && f.count.totalAccepted + f.count.totalDropped
               + (if Limits(e, a) then Size(a) else 0) + (if FailsValidation(e, a) then 1 else 0)
            == e.count.totalAccepted + e.count.totalDropped + Size(a)
            && f.lim.rateLimitedRequests
            == e.lim.rateLimitedRequests + (if !Limits(e, a) then 0 else if a.Single? then 1 else Size(a) + 1)
  {
    hide Refill, TriggerFlush, BatchCost, NewConfig, Fill;
  }

  /** Conservation: over any run, each event offered to an ingest call is accepted, dropped at the full
      queue, refused by the limiter or refused by validation, and exactly one of them. */
  lemma {:induction false} EveryEventIsAnswered(e: Engine, acts: seq<Action>, f: Engine)
    requires Run(e, acts, f)
    ensures var t := Refusals(e, acts);
            && f.count.totalAccepted + f.count.totalDropped + t.limitedEvents + t.invalid
            == e.count.totalAccepted + e.count.totalDropped + t.offered
            && f.lim.rateLimitedRequests == e.lim.rateLimitedRequests + t.limitedRequests
    decreases |acts|
  {
    hide Step, Possible, Limits, FailsValidation, Size;
    if acts != [] {
      AnswersStep(e, acts[0]);
      EveryEventIsAnswered(Step(e, acts[0]), acts[1..], f);
    }
  }
}
