/** The class of server.ts.  Its fields are grouped by component (configuration, rate limiter, queue
    and workers, batch processor, counters); each method is one callback of the event loop, and its
    contract says which action of the model it performs on all of them. */
module IngestionEngine {
  import opened Numbers
  import opened RateLimit
  import opened EngineModel
  import opened EngineRuns
  import opened EngineTiming
  import opened EngineMetrics
  import opened EngineEffects

  // ---- what holds between callbacks ----

  /** Order, totals, the queue bound, the configured ranges, and no more tokens than the burst. */
  ghost predicate Good(e: Engine) {
    Inv(e) && QueueBounded(e) && SizesOk(e) && e.lim.availableTokens <= e.cfg.rateLimitBurst
  }

  lemma GoodStep(e: Engine, a: Action)
    requires Good(e) && Possible(e, a)
    ensures Good(Step(e, a))
  {
    hide Inv, QueueBounded, SizesOk, Step, Possible;
    InvStep(e, a);
    QueueBoundedStep(e, a);
    SizesStep(e, a);
    TokensStep(e, a);
  }

  lemma BatchTickFacts(e: Engine, now: int, fails: bool)
    requires Good(e)
    ensures var f := BatchTick(e, now, fails);
            && Good(f) && BatchOk(e.batch, e.hist.(lastBatchTick := now))
            && (f.batch.batchBuffer != [] ==>
                  f.batch == e.batch && now - e.batch.lastFlushTime < e.cfg.batchFlushWindowMs)
            && Flushed(f.hist.flushes) + f.batch.batchBuffer == Flushed(e.hist.flushes) + e.batch.batchBuffer
  {
    GoodStep(e, FlushTick(now, fails));
    hide QueueBounded, SizesOk, Flushed, Failures, Logged, TriggerFlush;
    FlushKeeps(e.batch, e.hist.(lastBatchTick := now), WindowTimeout, now, fails);
  }

  /** A flush appends the whole buffer to the flushed stream and leaves it empty. */
  ghost predicate Flushes(b: Batch, h: Hist, b': Batch, h': Hist) {
    BatchOk(b', h') && b'.batchBuffer == [] && Flushed(h'.flushes) == Flushed(h.flushes) + b.batchBuffer
  }

  /** Inside a callback the batch record and the flush log still agree. */
  lemma GoodBatch(e: Engine)
    requires Good(e)
    ensures BatchOk(e.batch, e.hist)
  {}

  lemma BatchGrows(b: Batch, h: Hist, items: seq<Event>, now: int)
    requires BatchOk(b, h)
    ensures BatchOk(b.(batchBuffer := b.batchBuffer + items), h.(entered := h.entered + Times(|items|, now)))
  {
    hide Flushed, Failures;
  }

  lemma RefillFacts(c: Config, l: Limiter, now: int)
    ensures var l' := EngineModel.RefillTokens(c, l, now);
            && l'.availableTokens <= c.rateLimitBurst
            && SameFrom(BucketOf(c, l), BucketOf(c, l'), Seconds(now))
  {
    RefillOnce(BucketOf(c, l), Seconds(now));
    hide Earned;
  }

  lemma ReleaseFacts(e: Engine)
    requires Good(e) && e.work.pendingReleases > 0
    ensures var w := ReleaseWork(e.cfg, e.work);
            && Good(e.(work := w)) && ReleaseEffect(e, w)
            && (w.activeWorkers >= e.cfg.workerCount <==> |e.work.queue| > 50 * (e.cfg.workerCount - 1))
  {
    GoodStep(e, Release);
    ReleaseDoes(e);
    hide Inv, QueueBounded, ReleaseEffect;
  }

  lemma TickFacts(e: Engine, now: int, fails: bool)
    requires Good(e)
    ensures Good(Tick(e, now, fails)) && TickEffect(e, Tick(e, now, fails), now, fails)
  {
    GoodTick(e, now, fails);
    assert SizesOk(e);
    hide Good, Tick, TickEffect;
    TickDoes(e, now, fails);
  }

  lemma GoodTick(e: Engine, now: int, fails: bool)
    requires Good(e)
    ensures Good(Tick(e, now, fails))
  {
    GoodStep(e, WorkerTick(now, fails));
    hide Good, Tick;
  }

  /** A shutdown leaves nothing behind: all events are at the end of the flushed stream, in order. */
  ghost predicate FlushesAll(e: Engine, f: Engine) {
    && f.work.queue == [] && f.batch.batchBuffer == []
    && Flushed(f.hist.flushes) == Flushed(e.hist.flushes) + (e.batch.batchBuffer + e.work.queue)
  }

  lemma MetricsFacts(e: Engine, now: int)
    requires Good(e)
    ensures Good(EngineModel.GetMetrics(e, now))
    ensures e.lim.lastRefillTime <= now ==> Alike(e, EngineModel.GetMetrics(e, now), now)
  {
    GoodStep(e, Metrics(now));
    hide Good;
    RefillOnce(BucketOf(e.cfg, e.lim), Seconds(now));
    hide Earned;
  }

  lemma SingleFacts(e: Engine, ev: Event, d: Fresh, now: int)
    requires Good(e)
    ensures Good(EngineModel.IngestSingle(e, ev, d, now))
    ensures SingleEffect(e, EngineModel.IngestSingle(e, ev, d, now), ev, d, now, SingleStatus(e, ev, now))
  {
    SingleDoes(e, ev, d, now);
    GoodStep(e, Single(ev, d, now));
    hide Good, SingleStatus, Admit, SingleEffect;
  }

  lemma ManyFacts(e: Engine, evs: seq<Event>, fs: seq<Fresh>, now: int)
    requires Good(e) && |evs| == |fs|
    ensures var f := EngineModel.IngestBatch(e, evs, fs, now);
            && Good(f) && |f.work.queue| <= Max(e.cfg.channelCapacity, |e.work.queue|)
            && BatchEffect(e, f, evs, fs, now, BatchCost(|evs|))
  {
    GoodStep(e, Many(evs, fs, now));
    IngestRespectsCapacity(e, Many(evs, fs, now));
    BatchDoes(e, evs, fs, now);
    hide Good, Admit, TakeTokens, Room, FillAll, BatchCost, BatchEffect;
  }

  lemma ResumeFacts(e: Engine)
    requires Good(e) && e.work.pendingResumes > 0
    ensures Good(Resume(e))
  {
    GoodStep(e, ResumeTimer);
    hide Good;
  }

  lemma UpdateInRange(e: Engine, u: Update)
    requires Good(e)
    ensures Good(EngineModel.UpdateConfig(e, u))
    ensures SizesOk(EngineModel.UpdateConfig(e, u))
    ensures EngineModel.UpdateConfig(e, u).lim.availableTokens <= NewConfig(e.cfg, u).rateLimitBurst
  {
    GoodStep(e, Configure(u));
    hide NewConfig, Inv, QueueBounded, SizesOk;
  }

  // ---- the class ----

  /** Callbacks of the event loop keep Valid.  The methods that run only inside a callback
      (RefillTokens, AllowRateLimit, PushItems, EnqueueAll, SetSizes) say what they change. */
  class IngestionEngine {
    var cfg: Config
    var lim: Limiter
    var work: Work
    var batch: Batch
    var count: Counters
    ghost var hist: Hist

    ghost function State(): Engine reads this {
      Engine(cfg, lim, work, batch, count, hist)
    }

    ghost predicate Valid() reads this {
      Good(State())
    }

    constructor (now: int)
      ensures Valid() && State() == Boot(now)
    {
      cfg := Config(32, 50000, 5000, 500, 10000.0, 20000.0);
      lim := Limiter(20000.0, now, 0);
      work := Work([], 0, 0, false, 0);
      batch := Batch([], now, 0, 0, 0);
      count := Counters(0, 0, 0);
      hist := Hist([], [], [], 0, [], [], 0, now);
      new;
    }

    // ---- rate limiter ----

    /** Never more tokens than the burst; and no later request can tell that the refill took place. */
    method RefillTokens(now: int)
      modifies this`lim
      ensures lim == EngineModel.RefillTokens(cfg, old(lim), now)
      ensures lim.availableTokens <= cfg.rateLimitBurst
      ensures SameFrom(BucketOf(cfg, old(lim)), BucketOf(cfg, lim), Seconds(now))
    {
      hide Earned;
      RefillFacts(cfg, lim, now);
      var elapsedSec := Seconds(now) - Seconds(lim.lastRefillTime);
      var raised := lim.availableTokens + Earned(cfg.rateLimitRps, elapsedSec);
      lim := lim.(lastRefillTime := now,
                  availableTokens := if raised > cfg.rateLimitBurst then cfg.rateLimitBurst else raised);
    }

    /** The token bucket's decision.  A granted request never overdraws, a refused one takes nothing and
        is counted, and tokens taken and kept together stay within the burst. */
    method AllowRateLimit(n: nat, now: int) returns (ok: bool)
      modifies this`lim
      ensures (lim, ok) == TakeTokens(cfg, old(lim), n, now)
      ensures ok <==> Allows(BucketOf(cfg, old(lim)), n as real, Seconds(now))
      ensures lim.availableTokens + (if ok then n as real else 0.0) <= cfg.rateLimitBurst
      ensures if ok then lim.availableTokens >= 0.0 else lim.availableTokens < n as real
      ensures lim.rateLimitedRequests == old(lim).rateLimitedRequests + (if ok then 0 else 1)
    {
      hide Refill, SameFrom;
      TakeIsApply(cfg, lim, n, now);
      hide Allows;
      RefillTokens(now);
      if lim.availableTokens >= n as real {
        lim := lim.(availableTokens := lim.availableTokens - n as real);
        return true;
      }
      lim := lim.(rateLimitedRequests := lim.rateLimitedRequests + 1);
      ok := false;
    }

    // ---- batch processor ----

    method DoFlush(reason: Reason, now: int, fails: bool)
      requires BatchOk(batch, hist)
      modifies this`batch, this`hist
      ensures (batch, hist) == TriggerFlush(old(batch), old(hist), reason, now, fails)
      ensures Flushes(old(batch), old(hist), batch, hist)
    {
      FlushKeeps(batch, hist, reason, now, fails);
      hide BatchOk, Flushed;
      if |batch.batchBuffer| == 0 {
        return;
      }
      var toFlush := batch.batchBuffer;
      batch := batch.(batchBuffer := [], lastFlushTime := now, totalBatchesFlushed := batch.totalBatchesFlushed + 1,
                      totalEventsFlushed := batch.totalEventsFlushed + |toFlush|);
      if fails {
        batch := batch.(totalBatchErrors := batch.totalBatchErrors + 1);
      }
      hist := hist.(entered := [], flushes := hist.flushes + [Flush(toFlush, hist.entered, reason, now, !fails)]);
    }

    /** Afterwards what is still buffered is younger than one window since the last flush. */
    method OnBatchTick(now: int, fails: bool)
      requires Valid()
      modifies this`batch, this`hist
      ensures Valid() && State() == BatchTick(old(State()), now, fails)
      ensures batch.batchBuffer != [] ==> batch == old(batch) && now - batch.lastFlushTime < cfg.batchFlushWindowMs
      ensures Flushed(hist.flushes) + batch.batchBuffer == Flushed(old(hist).flushes) + old(batch).batchBuffer
      ensures FlushTickEffect(old(State()), State(), now, fails)
    {
      BatchTickFacts(State(), now, fails);
      FlushTickDoes(State(), now, fails);
      hide Good, Flushed, Flushes, BatchOk, TriggerFlush, FlushTickEffect;
      hist := hist.(lastBatchTick := now);
      if |batch.batchBuffer| > 0 && now - batch.lastFlushTime >= cfg.batchFlushWindowMs {
        DoFlush(WindowTimeout, now, fails);
      }
    }

    // ---- worker pool ----

    /** The loop over the spliced items. */
    method PushItems(items: seq<Event>, now: int)
      requires BatchOk(batch, hist)
      modifies this`batch, this`count, this`hist
      ensures batch == old(batch).(batchBuffer := old(batch).batchBuffer + items)
      ensures count == old(count).(totalProcessed := old(count).totalProcessed + |items|)
      ensures hist == old(hist).(entered := old(hist).entered + Times(|items|, now)) && BatchOk(batch, hist)
    {
      BatchGrows(batch, hist, items, now);
      hide BatchOk;
      for i := 0 to |items|
        invariant batch == old(batch).(batchBuffer := old(batch).batchBuffer + items[..i])
        invariant count == old(count).(totalProcessed := old(count).totalProcessed + i)
        invariant hist == old(hist)
      {
        batch := batch.(batchBuffer := batch.batchBuffer + [items[i]]);
        count := count.(totalProcessed := count.totalProcessed + 1);
      }
      hist := hist.(entered := hist.entered + Times(|items|, now));
      assert items[..|items|] == items;
    }

    /** The interval callback of startWorkers. */
    method OnWorkerTick(now: int, fails: bool)
      requires Valid()
      modifies this`work, this`batch, this`count, this`hist
      ensures Valid() && State() == Tick(old(State()), now, fails)
      ensures TickEffect(old(State()), State(), now, fails)
    {
      GoodBatch(State());
      hide Good, TriggerFlush, CeilDiv50, BatchOk, TickEffect, Flushes;
      var availableWorkers := cfg.workerCount - work.activeWorkers;
      if work.isShuttingDown || availableWorkers <= 0 || |work.queue| == 0 {
        TickFacts(State(), now, fails);
        return;
      }
      var chunkSize := Min(availableWorkers * 25, |work.queue|);
      var items := work.queue[..chunkSize];
      work := work.(activeWorkers := Min(cfg.workerCount, CeilDiv50(|work.queue|) + 1),
                    queue := work.queue[chunkSize..]);
      PushItems(items, now);
      if |batch.batchBuffer| >= cfg.batchThreshold {
        DoFlush(CountThreshold, now, fails);
      }
      work := work.(pendingReleases := work.pendingReleases + 1);
      assert State() == Tick(old(State()), now, fails);
      TickFacts(old(State()), now, fails);
    }

    /** The timeout callback that a worker tick schedules: all workers count as busy afterwards if and
        only if more than 50 * (workerCount - 1) events are queued. */
    method OnRelease()
      requires Valid() && work.pendingReleases > 0
      modifies this`work
      ensures Valid() && work == ReleaseWork(cfg, old(work))
      ensures work.activeWorkers >= cfg.workerCount <==> |work.queue| > 50 * (cfg.workerCount - 1)
      ensures ReleaseEffect(old(State()), work)
    {
      ReleaseFacts(State());
      hide Good, CeilDiv50, ReleaseEffect;
      work := work.(activeWorkers := Max(0, Min(cfg.workerCount, CeilDiv50(|work.queue|))),
                    pendingReleases := work.pendingReleases - 1);
    }

    // ---- ingestion ----

    /** The limiter is asked first, then the event is validated, then the queue is looked at. */
    method IngestSingle(ev: Event, defaults: Fresh, now: int) returns (status: Status)
      requires Valid()
      modifies this`lim, this`work, this`count, this`hist
      ensures Valid() && State() == EngineModel.IngestSingle(old(State()), ev, defaults, now)
      ensures status == SingleStatus(old(State()), ev, now)
      ensures SingleEffect(old(State()), State(), ev, defaults, now, status)
    {
      SingleFacts(State(), ev, defaults, now);
      hide Good, TakeTokens, Fill, Seconds, Allows, SingleEffect;
      var ok := AllowRateLimit(1, now);
      hist := hist.(calls := hist.calls + [Call(Seconds(now), 1.0, ok)]);
      if !ok {
        status := RateLimited;
      } else if ev.service == "" || ev.message == "" {
        status := Invalid;
      } else if |work.queue| >= cfg.channelCapacity {
        count := count.(totalDropped := count.totalDropped + 1);
        status := QueueSaturated;
      } else {
        var filled := Fill(ev, defaults);
        work := work.(queue := work.queue + [filled]);
        count := count.(totalAccepted := count.totalAccepted + 1);
        hist := hist.(accepted := hist.accepted + [filled], admissions := hist.admissions + [Admission(now, 1)]);
        return Accepted;
      }
      hist := hist.(admissions := hist.admissions + [Admission(now, 0)]);
      assert work.queue + [] == work.queue && hist.accepted + [] == hist.accepted;
    }

    /** The loop of ingestBatch: the prefix that fits goes to the queue, in order. */
    method EnqueueAll(events: seq<Event>, defaults: seq<Fresh>) returns (accepted: nat, dropped: nat)
      requires |events| == |defaults|
      modifies this`work, this`count
      ensures accepted == Room(cfg, old(work), |events|) && accepted + dropped == |events|
      ensures work == old(work).(queue := old(work).queue + FillAll(events, defaults)[..accepted])
      ensures count == old(count).(totalAccepted := old(count).totalAccepted + accepted,
                                   totalDropped := old(count).totalDropped + dropped)
    {
      hide Fill;
      accepted, dropped := 0, 0;
      ghost var filled := FillAll(events, defaults);
      for i := 0 to |events|
        invariant accepted == Room(cfg, old(work), i) && accepted + dropped == i
        invariant work == old(work).(queue := old(work).queue + filled[..accepted])
        invariant count == old(count).(totalAccepted := old(count).totalAccepted + accepted,
                                       totalDropped := old(count).totalDropped + dropped)
      {
        if |work.queue| < cfg.channelCapacity {
          work := work.(queue := work.queue + [Fill(events[i], defaults[i])]);
          accepted := accepted + 1;
          count := count.(totalAccepted := count.totalAccepted + 1);
        } else {
          dropped := dropped + 1;
          count := count.(totalDropped := count.totalDropped + 1);
        }
      }
    }

    /** Accepts exactly the prefix that fits; a rate-limited batch is dropped whole.  The queue ends up
        within capacity, or as long as it was. */
    method IngestBatch(events: seq<Event>, defaults: seq<Fresh>, now: int)
      returns (total: nat, accepted: nat, dropped: nat, rateLimited: bool)
      requires Valid() && |events| == |defaults|
      modifies this`lim, this`work, this`count, this`hist
      ensures Valid() && State() == EngineModel.IngestBatch(old(State()), events, defaults, now)
      ensures rateLimited <==> !TakeTokens(cfg, old(lim), BatchCost(|events|), now).1
      ensures total == |events| && accepted + dropped == total
      ensures accepted == if rateLimited then 0 else Room(cfg, old(work), |events|)
      ensures BatchEffect(old(State()), State(), events, defaults, now, BatchCost(|events|))
      ensures |work.queue| <= Max(cfg.channelCapacity, |old(work).queue|)
    {
      ManyFacts(State(), events, defaults, now);
      hide Good, TakeTokens, Allows, BatchEffect, Room, FillAll, Seconds, BatchCost;
      total := |events|;
      var cost := BatchCost(|events|);
      var ok := AllowRateLimit(cost, now);
      hist := hist.(calls := hist.calls + [Call(Seconds(now), cost as real, ok)]);
      if !ok {
        lim := lim.(rateLimitedRequests := lim.rateLimitedRequests + |events|);
        hist := hist.(admissions := hist.admissions + [Admission(now, 0)]);
        assert work.queue + [] == work.queue && hist.accepted + [] == hist.accepted;
        return |events|, 0, |events|, true;
      }
      rateLimited := false;
      accepted, dropped := EnqueueAll(events, defaults);
      hist := hist.(accepted := hist.accepted + FillAll(events, defaults)[..accepted],
                    admissions := hist.admissions + [Admission(now, accepted)]);
    }

    /** A read: as long as the limits stay, nothing that follows can tell that it took place. */
    method GetMetrics(now: int) returns (queueLength: nat, bufferLength: nat, tokens: real)
      requires Valid()
      modifies this`lim, this`hist
      ensures Valid() && (old(lim).lastRefillTime <= now ==> Alike(old(State()), State(), now))
      ensures State() == EngineModel.GetMetrics(old(State()), now)
      ensures queueLength == |work.queue| && bufferLength == |batch.batchBuffer| && tokens == lim.availableTokens
    {
      MetricsFacts(State(), now);
      hide Good, Refill, SameFrom, Alike;
      RefillTokens(now);
      hist := hist.(calls := hist.calls + [Call(Seconds(now), 0.0, false)]);
      queueLength, bufferLength, tokens := |work.queue|, |batch.batchBuffer|, lim.availableTokens;
    }

    // ---- shutdown simulation and reconfiguration ----

    /** Step A of the shutdown: the whole queue joins the buffer. */
    method DrainQueue(now: int) returns (queuedItems: nat)
      requires BatchOk(batch, hist)
      modifies this`work, this`batch, this`hist
      ensures work == old(work).(queue := []) && queuedItems == |old(work).queue|
      ensures batch == old(batch).(batchBuffer := old(batch).batchBuffer + old(work).queue)
      ensures hist == old(hist).(entered := old(hist).entered + Times(queuedItems, now),
                                 drained := old(hist).drained + queuedItems)
      ensures BatchOk(batch, hist)
    {
      BatchGrows(batch, hist, work.queue, now);
      queuedItems := |work.queue|;
      batch := batch.(batchBuffer := batch.batchBuffer + work.queue);
      hist := hist.(entered := hist.entered + Times(queuedItems, now), drained := hist.drained + queuedItems);
      work := work.(queue := []);
    }

    method SimulateGracefulShutdown(now: int, fails: bool) returns (drainedQueue: nat, flushedBatch: nat)
      requires Valid()
      modifies this`work, this`batch, this`hist
      ensures Valid() && State() == SimulateShutdown(old(State()), now, fails)
      ensures FlushesAll(old(State()), State()) && ShutdownEffect(old(State()), State(), now, fails)
      ensures drainedQueue == |old(work).queue| && flushedBatch == |old(batch).batchBuffer| + drainedQueue
    {
      GoodBatch(State());
      hide Good, TriggerFlush, BatchOk, Flushes, FlushesAll, ShutdownEffect;
      work := work.(isShuttingDown := true);
      drainedQueue := DrainQueue(now);
      flushedBatch := |batch.batchBuffer|;
      DoFlush(GracefulShutdown, now, fails);
      work := work.(pendingResumes := work.pendingResumes + 1);
      assert State() == SimulateShutdown(old(State()), now, fails);
      ShutdownDoes(old(State()), now, fails);
    }

    /** The timeout callback that ends a simulated shutdown, also one that another shutdown has since
        renewed: ticks move events again whenever a worker is free. */
    method OnResume()
      requires Valid() && work.pendingResumes > 0
      modifies this`work
      ensures Valid() && State() == Resume(old(State()))
      ensures TickMoves(cfg, work) <==> cfg.workerCount > work.activeWorkers && work.queue != []
    {
      ResumeFacts(State());
      hide Good;
      work := work.(isShuttingDown := false, pendingResumes := work.pendingResumes - 1);
    }

    /** The four clamped sizes; a 0 leaves the field alone. */
    method SetSizes(u: Update)
      modifies this`cfg
      ensures cfg == NewConfig(old(cfg), u.(rateLimitRps := 0.0, rateLimitBurst := 0.0))
    {
      hide Clamp;
      if u.workerCount != 0 {
        cfg := cfg.(workerCount := Clamp(2, 256, u.workerCount));
      }
      if u.channelCapacity != 0 {
        cfg := cfg.(channelCapacity := Clamp(500, 500000, u.channelCapacity));
      }
      if u.batchThreshold != 0 {
        cfg := cfg.(batchThreshold := Clamp(100, 50000, u.batchThreshold));
      }
      if u.batchFlushWindowMs != 0 {
        cfg := cfg.(batchFlushWindowMs := Clamp(20, 5000, u.batchFlushWindowMs));
      }
    }

    /** Each size asked for becomes the nearest value of its range, and no more tokens are left than
        the burst; only the limits change, no event moves. */
    method UpdateConfig(u: Update)
      requires Valid()
      modifies this`cfg, this`lim, this`hist
      ensures Valid() && State() == EngineModel.UpdateConfig(old(State()), u)
      ensures UpdateEffect(old(State()), State(), u)
      ensures 2 <= cfg.workerCount <= 256 && 500 <= cfg.channelCapacity <= 500000
      ensures 100 <= cfg.batchThreshold <= 50000 && 20 <= cfg.batchFlushWindowMs <= 5000
      ensures lim.availableTokens <= cfg.rateLimitBurst && lim.availableTokens <= old(lim).availableTokens
    {
      UpdateInRange(State(), u);
      UpdateDoes(State(), u);
      hide Good, NewConfig, UpdateEffect;
      SetSizes(u);
      if u.rateLimitRps != 0.0 {
        cfg := cfg.(rateLimitRps := u.rateLimitRps);
      }
      if u.rateLimitBurst != 0.0 {
        cfg := cfg.(rateLimitBurst := u.rateLimitBurst);
        if lim.availableTokens > cfg.rateLimitBurst {
          lim := lim.(availableTokens := cfg.rateLimitBurst);
        }
      }
      if cfg.channelCapacity < old(cfg).channelCapacity {
        hist := hist.(shrinkLength := |work.queue|);
      }
    }
  }
}
