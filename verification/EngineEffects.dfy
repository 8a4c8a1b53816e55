/** What each callback of the event loop does, in terms of the fields alone and without the helper
    functions of the model: a reading of server.ts to hold the model against. */
module EngineEffects {
  import opened Numbers
  import opened RateLimit
  import opened EngineModel
  import opened EngineRuns

  // ---- worker tick and release ----

  /** More than `k` workers count as busy. */
  predicate MoreBusyThan(w: Work, k: int) { w.activeWorkers > k }

  /** How many events a worker tick takes: 25 for every free worker, none during a shutdown. */
  function Taken(e: Engine): nat {
    var free := if e.work.isShuttingDown then 0 else Max(0, e.cfg.workerCount - e.work.activeWorkers);
    Min(25 * free, |e.work.queue|)
  }

  /** A tick takes that prefix of the queue, if any, in order.  Busy from then on are as many workers as
      the queue before the tick needed at fifty events each, and one more; a release is scheduled; and the
      buffer, once it has reached the threshold, is flushed whole. */
  ghost predicate TickEffect(e: Engine, f: Engine, now: int, fails: bool) {
    var q, n := e.work.queue, Taken(e);
    if n == 0 then f == e
    else
      var b := e.batch.batchBuffer + q[..n];
      && f.cfg == e.cfg && f.lim == e.lim && f.work.queue == q[n..]
      && f.work.activeWorkers <= e.cfg.workerCount
      && (forall k :: 0 <= k < e.cfg.workerCount ==> (MoreBusyThan(f.work, k) <==> |q| > 50 * (k - 1)))
      && f.work.pendingReleases == e.work.pendingReleases + 1
      && !f.work.isShuttingDown && f.work.pendingResumes == e.work.pendingResumes
      && f.count == e.count.(totalProcessed := e.count.totalProcessed + n)
      && if |b| < e.cfg.batchThreshold then f.batch == e.batch.(batchBuffer := b) && f.hist.flushes == e.hist.flushes
         else FlushedAs(e, f, b, CountThreshold, now, fails)
  }

  /** `b` has become one flush, with its reason, time and outcome, and nothing is buffered. */
  ghost predicate FlushedAs(e: Engine, f: Engine, b: seq<Event>, reason: Reason, now: int, fails: bool) {
    && f.batch.batchBuffer == [] && f.batch.lastFlushTime == now
    && f.batch.totalBatchesFlushed == e.batch.totalBatchesFlushed + 1
    && f.batch.totalEventsFlushed == e.batch.totalEventsFlushed + |b|
    && f.batch.totalBatchErrors == e.batch.totalBatchErrors + (if fails then 1 else 0)
    && |f.hist.flushes| == |e.hist.flushes| + 1 && e.hist.flushes <= f.hist.flushes
    && var x := f.hist.flushes[|e.hist.flushes|];
       x.batch == b && x.reason == reason && x.time == now && x.ok == !fails
  }

  lemma CeilExceeds(q: nat, k: int)
    requires k >= -1
    ensures CeilDiv50(q) > k <==> q > 50 * k
  {}

  lemma TickDoes(e: Engine, now: int, fails: bool)
    requires SizesOk(e)
    ensures TickEffect(e, Tick(e, now, fails), now, fails)
  {
    var q, f := |e.work.queue|, Tick(e, now, fails);
    assert TickMoves(e.cfg, e.work) <==> Taken(e) > 0;
    assert TickMoves(e.cfg, e.work) ==> ChunkSize(e.cfg, e.work) == Taken(e);
    hide CeilDiv50;
    forall k | 0 <= k < e.cfg.workerCount && Taken(e) > 0
      ensures MoreBusyThan(f.work, k) <==> q > 50 * (k - 1)
    {
      CeilExceeds(q, k - 1);
    }
  }

  /** A second tick, before the release, takes 25 events for every worker that the first left free. */
  lemma SecondTick(e: Engine, now: int, fails: bool, later: int, fails': bool)
    requires SizesOk(e) && Taken(e) > 0
    ensures var f := Tick(e, now, fails); var g := Tick(f, later, fails');
            |g.work.queue| == |f.work.queue| - Min(25 * (e.cfg.workerCount - f.work.activeWorkers), |f.work.queue|)
  {
    hide CeilDiv50, TriggerFlush;
    assert TickMoves(e.cfg, e.work);
  }

  /** A release counts as busy as many workers as the queue needs at fifty events each. */
  ghost predicate ReleaseEffect(e: Engine, w: Work) {
    && w == e.work.(activeWorkers := w.activeWorkers, pendingReleases := w.pendingReleases)
    && w.pendingReleases + 1 == e.work.pendingReleases
    && 0 <= w.activeWorkers <= e.cfg.workerCount
    && forall k :: 0 <= k < e.cfg.workerCount ==> (MoreBusyThan(w, k) <==> |e.work.queue| > 50 * k)
  }

  lemma ReleaseDoes(e: Engine)
    requires e.cfg.workerCount >= 0 && e.work.pendingReleases > 0
    ensures ReleaseEffect(e, ReleaseWork(e.cfg, e.work))
  {
    var w := ReleaseWork(e.cfg, e.work);
    hide CeilDiv50;
    forall k | 0 <= k < e.cfg.workerCount ensures MoreBusyThan(w, k) <==> |e.work.queue| > 50 * k {
      CeilExceeds(|e.work.queue|, k);
    }
  }

  // ---- batch ticker and shutdown ----

  /** The ticker flushes a non-empty buffer once the window has passed since the last flush, and only then. */
  ghost predicate FlushTickEffect(e: Engine, f: Engine, now: int, fails: bool) {
    && f.cfg == e.cfg && f.lim == e.lim && f.work == e.work && f.count == e.count
    && if e.batch.batchBuffer != [] && now - e.batch.lastFlushTime >= e.cfg.batchFlushWindowMs
       then FlushedAs(e, f, e.batch.batchBuffer, WindowTimeout, now, fails)
       else f.batch == e.batch && f.hist.flushes == e.hist.flushes
  }

  lemma FlushTickDoes(e: Engine, now: int, fails: bool)
    ensures FlushTickEffect(e, BatchTick(e, now, fails), now, fails)
  {}

  /** A simulated shutdown flushes buffer and queue as one batch, if there is anything, counts nothing as
      processed, and stops the workers until its timer, whatever is queued meanwhile. */
  ghost predicate ShutdownEffect(e: Engine, f: Engine, now: int, fails: bool) {
    var b := e.batch.batchBuffer + e.work.queue;
    && f.cfg == e.cfg && f.lim == e.lim && f.count == e.count
    && f.work.queue == [] && f.work.isShuttingDown && f.work.pendingResumes == e.work.pendingResumes + 1
    && f.work.activeWorkers == e.work.activeWorkers && f.work.pendingReleases == e.work.pendingReleases
    && (forall q :: Taken(f.(work := f.work.(queue := q))) == 0)
    && if b == [] then f.batch == e.batch && f.hist.flushes == e.hist.flushes
       else FlushedAs(e, f, b, GracefulShutdown, now, fails)
  }

  lemma ShutdownDoes(e: Engine, now: int, fails: bool)
    ensures ShutdownEffect(e, SimulateShutdown(e, now, fails), now, fails)
  {}

  predicate NoResume(a: Action) { !a.ResumeTimer? }

  /** The workers are stopped: no tick changes anything, and a timer is pending. */
  ghost predicate Stopped(e: Engine) {
    && e.work.isShuttingDown && e.work.pendingResumes > 0
    && forall now, fails :: Tick(e, now, fails) == e
  }

  lemma {:induction false} StaysStopped(e: Engine, acts: seq<Action>, f: Engine)
    requires e.work.isShuttingDown && e.work.pendingResumes > 0 && Run(e, acts, f)
    requires forall i :: 0 <= i < |acts| ==> NoResume(acts[i])
    ensures f.work.isShuttingDown && f.work.pendingResumes > 0 && f.count.totalProcessed == e.count.totalProcessed
    decreases |acts|
  {
    if acts != [] {
      StopStep(e, acts[0]);
      hide Step, Possible, NoResume;
      StaysStopped(Step(e, acts[0]), acts[1..], f);
    }
  }

  lemma StopStep(e: Engine, a: Action)
    requires e.work.isShuttingDown && e.work.pendingResumes > 0 && Possible(e, a) && NoResume(a)
    ensures var f := Step(e, a);
            && f.work.isShuttingDown && f.work.pendingResumes > 0 && f.count.totalProcessed == e.count.totalProcessed
  {
    hide TakeTokens, RefillTokens, TriggerFlush, FillAll, Room, BatchCost, NewConfig;
  }

  /** After a simulated shutdown, along any run in which no such timer fires, worker ticks do nothing at
      all, whatever is ingested or reconfigured, nothing is processed, and a timer is pending. */
  lemma ShutdownStopsWorkers(e: Engine, now: int, fails: bool, acts: seq<Action>, f: Engine)
    requires Run(SimulateShutdown(e, now, fails), acts, f) && forall i :: 0 <= i < |acts| ==> NoResume(acts[i])
    ensures Stopped(f) && Possible(f, ResumeTimer) && f.count.totalProcessed == e.count.totalProcessed
  {
    ShutdownDoes(e, now, fails);
    hide Run;
    StaysStopped(SimulateShutdown(e, now, fails), acts, f);
  }

  // ---- timers ----

  /** Shutdowns, resumes, ticks that take events, and releases of a run. */
  datatype Timers = Timers(shutdowns: nat, resumes: nat, takes: nat, releases: nat)

  ghost function TimersOf(e: Engine, acts: seq<Action>): Timers
    decreases |acts|
  {
    if acts == [] || !Possible(e, acts[0]) then Timers(0, 0, 0, 0)
    else
      var a, t := acts[0], TimersOf(Step(e, acts[0]), acts[1..]);
      Timers(t.shutdowns + (if a.Shutdown? then 1 else 0), t.resumes + (if a.ResumeTimer? then 1 else 0),
             t.takes + (if a.WorkerTick? && Taken(e) > 0 then 1 else 0), t.releases + (if a.Release? then 1 else 0))
  }

  lemma TimersStep(e: Engine, a: Action)
    requires Possible(e, a)
    ensures var f := Step(e, a);
            && f.work.pendingResumes + (if a.ResumeTimer? then 1 else 0)
            == e.work.pendingResumes + (if a.Shutdown? then 1 else 0)
            && f.work.pendingReleases + (if a.Release? then 1 else 0)
            == e.work.pendingReleases + (if a.WorkerTick? && Taken(e) > 0 then 1 else 0)
  {
    hide TakeTokens, RefillTokens, TriggerFlush, FillAll, Room, BatchCost, NewConfig, CeilDiv50;
    assert TickMoves(e.cfg, e.work) <==> Taken(e) > 0;
  }

  /** Over any run every shutdown sets one timer and every tick that takes events schedules one release;
      what has not fired is pending. */
  lemma {:induction false} TimersAccounted(e: Engine, acts: seq<Action>, f: Engine)
    requires Run(e, acts, f)
    ensures var t := TimersOf(e, acts);
            && f.work.pendingResumes + t.resumes == e.work.pendingResumes + t.shutdowns
            && f.work.pendingReleases + t.releases == e.work.pendingReleases + t.takes
    decreases |acts|
  {
    hide Step, Possible, Taken;
    if acts != [] {
      TimersStep(e, acts[0]);
      TimersAccounted(Step(e, acts[0]), acts[1..], f);
    }
  }

  // ---- ingestion ----

  /** A batch costs the least whole number of tokens that covers it at fifty events each, at least one. */
  lemma BatchCostIsLeast(n: nat, tokens: nat)
    ensures tokens >= BatchCost(n) <==> tokens >= 1 && 50 * tokens >= n
  {}

  /** What is queued for `ev`: the event itself, with what was missing filled in. */
  ghost predicate FilledFrom(ev: Event, d: Fresh, x: Event) {
    && x.service == ev.service && x.message == ev.message
    && x.timestamp == (if |ev.timestamp| > 0 then ev.timestamp else d.timestamp)
    && x.traceId == (if |ev.traceId| > 0 then ev.traceId else d.traceId)
    && x.level == (if |ev.level| > 0 then ev.level else "INFO")
  }

  lemma FillDoes(ev: Event, d: Fresh)
    ensures FilledFrom(ev, d, Fill(ev, d))
  {}

  /** A single call asks the limiter, then validates, then looks at the queue; only an accepted event is
      queued, filled in, and each refusal is counted as what it is.  A token is gone after the limiter. */
  ghost predicate SingleEffect(e: Engine, f: Engine, ev: Event, d: Fresh, now: int, status: Status) {
    var granted := Allows(BucketOf(e.cfg, e.lim), 1.0, Seconds(now));
    var missing := |ev.service| == 0 || |ev.message| == 0;
    && (status.RateLimited? <==> !granted)
    && (status.Invalid? <==> granted && missing)
    && (status.QueueSaturated? <==> granted && !missing && |e.work.queue| >= e.cfg.channelCapacity)
    && f.cfg == e.cfg && f.batch == e.batch && f.work == e.work.(queue := f.work.queue)
    && (if status.Accepted?
        then |f.work.queue| == |e.work.queue| + 1 && e.work.queue <= f.work.queue
             && FilledFrom(ev, d, f.work.queue[|e.work.queue|])
        else f.work.queue == e.work.queue)
    && f.count == e.count.(totalAccepted := e.count.totalAccepted + (if status.Accepted? then 1 else 0),
                           totalDropped := e.count.totalDropped + (if status.QueueSaturated? then 1 else 0))
    && f.lim.rateLimitedRequests == e.lim.rateLimitedRequests + (if granted then 0 else 1)
    && f.lim.lastRefillTime == now
    && f.lim.availableTokens == Refill(BucketOf(e.cfg, e.lim), Seconds(now)).tokens - (if granted then 1.0 else 0.0)
  }

  lemma SingleDoes(e: Engine, ev: Event, d: Fresh, now: int)
    ensures SingleEffect(e, IngestSingle(e, ev, d, now), ev, d, now, SingleStatus(e, ev, now))
  {
    FillDoes(ev, d);
    hide Fill, FilledFrom, Refill, Seconds;
  }

  /** A batch is one question to the limiter, and no validation: of a granted batch the prefix that fits is
      queued, filled in, and the rest dropped; of a refused one nothing is queued, dropped or accepted. */
  ghost predicate BatchEffect(e: Engine, f: Engine, evs: seq<Event>, ds: seq<Fresh>, now: int, tokens: nat)
    requires |evs| == |ds|
  {
    var granted := Allows(BucketOf(e.cfg, e.lim), tokens as real, Seconds(now));
    var k := if granted then Min(|evs|, Max(0, e.cfg.channelCapacity - |e.work.queue|)) else 0;
    var lost := if granted then |evs| - k else 0;
    && (forall t: nat :: Covers(t, |evs|) <==> t >= tokens)
    && f.cfg == e.cfg && f.batch == e.batch && f.work == e.work.(queue := f.work.queue)
    && |f.work.queue| == |e.work.queue| + k && e.work.queue <= f.work.queue
    && (forall i :: 0 <= i < k ==> FilledFrom(evs[i], ds[i], f.work.queue[|e.work.queue| + i]))
    && f.count == e.count.(totalAccepted := e.count.totalAccepted + k, totalDropped := e.count.totalDropped + lost)
    && f.lim.rateLimitedRequests == e.lim.rateLimitedRequests + (if granted then 0 else 1 + |evs|)
    && f.lim.lastRefillTime == now
    && f.lim.availableTokens
    == Refill(BucketOf(e.cfg, e.lim), Seconds(now)).tokens - (if granted then tokens as real else 0.0)
  }

  /** `tokens` pay for `n` events. */
  predicate Covers(tokens: nat, n: nat) { tokens >= 1 && 50 * tokens >= n }

  lemma BatchDoes(e: Engine, evs: seq<Event>, ds: seq<Fresh>, now: int)
    requires |evs| == |ds|
    ensures BatchEffect(e, IngestBatch(e, evs, ds, now), evs, ds, now, BatchCost(|evs|))
  {
    forall t: nat ensures Covers(t, |evs|) <==> t >= BatchCost(|evs|) {
      BatchCostIsLeast(|evs|, t);
    }
    forall i | 0 <= i < |evs| ensures FilledFrom(evs[i], ds[i], FillAll(evs, ds)[i]) {
      FillDoes(evs[i], ds[i]);
    }
    hide Fill, FilledFrom, Refill, Seconds, BatchCost, Covers;
  }

  // ---- reconfiguration ----

  /** A size that was asked for becomes the nearest value of its range; 0 leaves it alone. */
  predicate Sized(asked: int, lo: int, hi: int, before: int, after: int) {
    && (asked == 0 ==> after == before)
    && (asked != 0 && lo <= asked <= hi ==> after == asked)
    && (asked != 0 && asked < lo ==> after == lo)
    && (asked > hi ==> after == hi)
  }

  /** The four sizes and the two limits; the tokens are cut to a new burst, and nothing else changes. */
  ghost predicate UpdateEffect(e: Engine, f: Engine, u: Update) {
    && Sized(u.workerCount, 2, 256, e.cfg.workerCount, f.cfg.workerCount)
    && Sized(u.channelCapacity, 500, 500000, e.cfg.channelCapacity, f.cfg.channelCapacity)
    && Sized(u.batchThreshold, 100, 50000, e.cfg.batchThreshold, f.cfg.batchThreshold)
    && Sized(u.batchFlushWindowMs, 20, 5000, e.cfg.batchFlushWindowMs, f.cfg.batchFlushWindowMs)
    && f.cfg.rateLimitRps == (if u.rateLimitRps == 0.0 then e.cfg.rateLimitRps else u.rateLimitRps)
    && f.cfg.rateLimitBurst == (if u.rateLimitBurst == 0.0 then e.cfg.rateLimitBurst else u.rateLimitBurst)
    && f.lim.availableTokens == (if u.rateLimitBurst != 0.0 && e.lim.availableTokens > u.rateLimitBurst
                                 then u.rateLimitBurst else e.lim.availableTokens)
    && f.lim == e.lim.(availableTokens := f.lim.availableTokens)
    && f.work == e.work && f.batch == e.batch && f.count == e.count
  }

  lemma UpdateDoes(e: Engine, u: Update)
    ensures UpdateEffect(e, UpdateConfig(e, u), u)
  {}
}
