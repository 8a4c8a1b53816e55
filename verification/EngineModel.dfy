/** The IngestionEngine of server.ts as an event loop: every timer callback and every public method is
    one atomic action.  Inputs stand for what the code reads from outside: `now` for Date.now() in
    milliseconds, `fails` for the random write error, `Fresh` for generated timestamps and trace ids. */
module EngineModel {
  import opened Numbers
  import opened Events
  import opened RateLimit

  type Event = TelemetryEvent

  datatype Config = Config(
    workerCount: int, channelCapacity: int, batchThreshold: int, batchFlushWindowMs: int,
    rateLimitRps: real, rateLimitBurst: real)

  /** Token bucket fields. */
  datatype Limiter = Limiter(availableTokens: real, lastRefillTime: int, rateLimitedRequests: nat)

  /** Queue and workers; `pendingReleases` and `pendingResumes` count the setTimeout callbacks in flight. */
  datatype Work = Work(
    queue: seq<Event>, activeWorkers: int, pendingReleases: nat, isShuttingDown: bool, pendingResumes: nat)

  datatype Batch = Batch(
    batchBuffer: seq<Event>, lastFlushTime: int,
    totalBatchesFlushed: nat, totalEventsFlushed: nat, totalBatchErrors: nat)

  datatype Counters = Counters(totalAccepted: nat, totalDropped: nat, totalProcessed: nat)

  datatype Reason = CountThreshold | WindowTimeout | GracefulShutdown

  /** A flush with its time and, for each event, the time it had entered the buffer. */
  datatype Flush = Flush(batch: seq<Event>, entered: seq<int>, reason: Reason, time: int, ok: bool)

  /** An ingest call and how many events it put into the queue. */
  datatype Admission = Admission(time: int, events: nat)

  /** History, which the code does not read. */
  datatype Hist = Hist(
    accepted: seq<Event>,          // every accepted event, in order
    entered: seq<int>,             // entry times of batchBuffer
    flushes: seq<Flush>,
    drained: nat,                  // events that simulated shutdowns moved past the workers
    calls: seq<Call>,              // the token bucket's requests; a bare refill is a request for nothing
    admissions: seq<Admission>,
    shrinkLength: nat,             // queue length when the capacity was last lowered
    lastBatchTick: int)

  datatype Engine = Engine(cfg: Config, lim: Limiter, work: Work, batch: Batch, count: Counters, hist: Hist)

  function Boot(now: int): Engine {
    Engine(Config(32, 50000, 5000, 500, 10000.0, 20000.0),
           Limiter(20000.0, now, 0), Work([], 0, 0, false, 0), Batch([], now, 0, 0, 0), Counters(0, 0, 0),
           Hist([], [], [], 0, [], [], 0, now))
  }

  /** Math.ceil(n / 50) for a length. */
  function CeilDiv50(n: nat): nat { (n + 49) / 50 }

  function Seconds(ms: int): real { ms as real / 1000.0 }

  // ---- token bucket ----

  function BucketOf(c: Config, l: Limiter): Bucket {
    Bucket(c.rateLimitBurst, c.rateLimitRps, l.availableTokens, Seconds(l.lastRefillTime))
  }

  function RefillTokens(c: Config, l: Limiter, now: int): Limiter {
    l.(availableTokens := Refill(BucketOf(c, l), Seconds(now)).tokens, lastRefillTime := now)
  }

  function TakeTokens(c: Config, l: Limiter, n: nat, now: int): (Limiter, bool) {
    var r := RefillTokens(c, l, now);
    if r.availableTokens >= n as real then (r.(availableTokens := r.availableTokens - n as real), true)
    else (r.(rateLimitedRequests := r.rateLimitedRequests + 1), false)
  }

  // ---- flushing ----

  /** triggerFlush: a failed write is logged and counted, and its events still count as flushed. */
  function TriggerFlush(b: Batch, h: Hist, reason: Reason, now: int, fails: bool): (Batch, Hist) {
    if b.batchBuffer == [] then (b, h)
    else
      (Batch([], now, b.totalBatchesFlushed + 1, b.totalEventsFlushed + |b.batchBuffer|,
             b.totalBatchErrors + (if fails then 1 else 0)),
       h.(entered := [], flushes := h.flushes + [Flush(b.batchBuffer, h.entered, reason, now, !fails)]))
  }

  function Times(n: nat, now: int): seq<int> { seq(n, _ => now) }

  // ---- worker tick and release ----

  function ChunkSize(c: Config, w: Work): int {
    Min((c.workerCount - w.activeWorkers) * 25, |w.queue|)
  }

  predicate TickMoves(c: Config, w: Work) {
    !w.isShuttingDown && c.workerCount - w.activeWorkers > 0 && w.queue != []
  }

  function TickWork(c: Config, w: Work): Work
    requires TickMoves(c, w)
  {
    w.(queue := w.queue[ChunkSize(c, w)..],
       activeWorkers := Min(c.workerCount, CeilDiv50(|w.queue|) + 1),
       pendingReleases := w.pendingReleases + 1)
  }

  function ReleaseWork(c: Config, w: Work): Work
    requires w.pendingReleases > 0
  {
    w.(activeWorkers := Max(0, Min(c.workerCount, CeilDiv50(|w.queue|))), pendingReleases := w.pendingReleases - 1)
  }

  function Tick(e: Engine, now: int, fails: bool): Engine {
    if !TickMoves(e.cfg, e.work) then e
    else
      var items := e.work.queue[..ChunkSize(e.cfg, e.work)];
      var b := e.batch.(batchBuffer := e.batch.batchBuffer + items);
      var h := e.hist.(entered := e.hist.entered + Times(|items|, now));
      var (b', h') := if |b.batchBuffer| < e.cfg.batchThreshold then (b, h)
                      else TriggerFlush(b, h, CountThreshold, now, fails);
      e.(work := TickWork(e.cfg, e.work), batch := b', hist := h',
         count := e.count.(totalProcessed := e.count.totalProcessed + |items|))
  }

  function BatchTick(e: Engine, now: int, fails: bool): Engine {
    var h := e.hist.(lastBatchTick := now);
    if e.batch.batchBuffer != [] && now - e.batch.lastFlushTime >= e.cfg.batchFlushWindowMs then
      var (b', h') := TriggerFlush(e.batch, h, WindowTimeout, now, fails);
      e.(batch := b', hist := h')
    else e.(hist := h)
  }

  // ---- ingestion ----

  datatype Fresh = Fresh(timestamp: string, traceId: string)

  function Fill(ev: Event, f: Fresh): Event {
    ev.(timestamp := if ev.timestamp == "" then f.timestamp else ev.timestamp,
        level := if ev.level == "" then "INFO" else ev.level,
        traceId := if ev.traceId == "" then f.traceId else ev.traceId)
  }

  function FillAll(evs: seq<Event>, fs: seq<Fresh>): (r: seq<Event>)
    requires |evs| == |fs|
    ensures |r| == |evs|
  {
    seq(|evs|, i requires 0 <= i < |evs| => Fill(evs[i], fs[i]))
  }

  function BatchCost(n: nat): nat { if n == 0 then 1 else CeilDiv50(n) }

  /** How many of `n` events fit into the queue. */
  function Room(c: Config, w: Work, n: nat): nat {
    if |w.queue| >= c.channelCapacity then 0 else Min(n, c.channelCapacity - |w.queue|)
  }

  datatype Status = Accepted | RateLimited | QueueSaturated | Invalid

  predicate IsInvalid(ev: Event) { ev.service == "" || ev.message == "" }

  function SingleStatus(e: Engine, ev: Event, now: int): Status {
    if !TakeTokens(e.cfg, e.lim, 1, now).1 then RateLimited
    else if IsInvalid(ev) then Invalid
    else if |e.work.queue| >= e.cfg.channelCapacity then QueueSaturated
    else Accepted
  }

  /** An ingest call that has been through the limiter: `evs` go to the queue, `lost` do not. */
  function Admit(e: Engine, cost: nat, evs: seq<Event>, lost: nat, now: int): Engine {
    var (l, ok) := TakeTokens(e.cfg, e.lim, cost, now);
    e.(lim := l, work := e.work.(queue := e.work.queue + evs),
       count := e.count.(totalAccepted := e.count.totalAccepted + |evs|, totalDropped := e.count.totalDropped + lost),
       hist := e.hist.(accepted := e.hist.accepted + evs,
                       calls := e.hist.calls + [Call(Seconds(now), cost as real, ok)],
                       admissions := e.hist.admissions + [Admission(now, |evs|)]))
  }

  function IngestSingle(e: Engine, ev: Event, f: Fresh, now: int): Engine {
    match SingleStatus(e, ev, now)
    case Accepted => Admit(e, 1, [Fill(ev, f)], 0, now)
    case QueueSaturated => Admit(e, 1, [], 1, now)
    case _ => Admit(e, 1, [], 0, now)
  }

  /** A rate-limited batch counts each of its events as a limited request, on top of the call itself. */
  function IngestBatch(e: Engine, evs: seq<Event>, fs: seq<Fresh>, now: int): Engine
    requires |evs| == |fs|
  {
    if TakeTokens(e.cfg, e.lim, BatchCost(|evs|), now).1 then
      var k := Room(e.cfg, e.work, |evs|);
      Admit(e, BatchCost(|evs|), FillAll(evs, fs)[..k], |evs| - k, now)
    else
      var r := Admit(e, BatchCost(|evs|), [], 0, now);
      r.(lim := r.lim.(rateLimitedRequests := r.lim.rateLimitedRequests + |evs|))
  }

  function GetMetrics(e: Engine, now: int): Engine {
    e.(lim := RefillTokens(e.cfg, e.lim, now),
       hist := e.hist.(calls := e.hist.calls + [Call(Seconds(now), 0.0, false)]))
  }

  // ---- shutdown simulation and reconfiguration ----

  function SimulateShutdown(e: Engine, now: int, fails: bool): Engine {
    var n := |e.work.queue|;
    var b := e.batch.(batchBuffer := e.batch.batchBuffer + e.work.queue);
    var h := e.hist.(entered := e.hist.entered + Times(n, now), drained := e.hist.drained + n);
    var (b', h') := TriggerFlush(b, h, GracefulShutdown, now, fails);
    e.(work := e.work.(queue := [], isShuttingDown := true, pendingResumes := e.work.pendingResumes + 1),
       batch := b', hist := h')
  }

  function Resume(e: Engine): Engine
    requires e.work.pendingResumes > 0
  {
    e.(work := e.work.(isShuttingDown := false, pendingResumes := e.work.pendingResumes - 1))
  }

  /** A missing field and a field that is 0 are the same to the code, so 0 stands for both. */
  datatype Update = Update(
    workerCount: int, channelCapacity: int, batchThreshold: int, batchFlushWindowMs: int,
    rateLimitRps: real, rateLimitBurst: real)

  function Clamp(lo: int, hi: int, x: int): int { Max(lo, Min(hi, x)) }

  function NewConfig(c: Config, u: Update): Config {
    Config(
      if u.workerCount == 0 then c.workerCount else Clamp(2, 256, u.workerCount),
      if u.channelCapacity == 0 then c.channelCapacity else Clamp(500, 500000, u.channelCapacity),
      if u.batchThreshold == 0 then c.batchThreshold else Clamp(100, 50000, u.batchThreshold),
      if u.batchFlushWindowMs == 0 then c.batchFlushWindowMs else Clamp(20, 5000, u.batchFlushWindowMs),
      if u.rateLimitRps == 0.0 then c.rateLimitRps else u.rateLimitRps,
      if u.rateLimitBurst == 0.0 then c.rateLimitBurst else u.rateLimitBurst)
  }

  function UpdateConfig(e: Engine, u: Update): Engine {
    var c := NewConfig(e.cfg, u);
    e.(cfg := c,
       lim := if u.rateLimitBurst != 0.0 && e.lim.availableTokens > u.rateLimitBurst
              then e.lim.(availableTokens := u.rateLimitBurst) else e.lim,
       hist := if c.channelCapacity < e.cfg.channelCapacity then e.hist.(shrinkLength := |e.work.queue|) else e.hist)
  }

  // ---- the event loop ----

  datatype Action =
    | WorkerTick(now: int, fails: bool)
    | Release
    | FlushTick(now: int, fails: bool)
    | Single(ev: Event, defaults: Fresh, now: int)
    | Many(evs: seq<Event>, defaultsOf: seq<Fresh>, now: int)
    | Metrics(now: int)
    | Shutdown(now: int, fails: bool)
    | ResumeTimer
    | Configure(update: Update)

  predicate Possible(e: Engine, a: Action) {
    match a
    case Release => e.work.pendingReleases > 0
    case ResumeTimer => e.work.pendingResumes > 0
    case Many(evs, fs, _) => |evs| == |fs|
    case _ => true
  }

  function Step(e: Engine, a: Action): Engine
    requires Possible(e, a)
  {
    match a
    case WorkerTick(now, fails) => Tick(e, now, fails)
    case Release => e.(work := ReleaseWork(e.cfg, e.work))
    case FlushTick(now, fails) => BatchTick(e, now, fails)
    case Single(ev, f, now) => IngestSingle(e, ev, f, now)
    case Many(evs, fs, now) => IngestBatch(e, evs, fs, now)
    case Metrics(now) => GetMetrics(e, now)
    case Shutdown(now, fails) => SimulateShutdown(e, now, fails)
    case ResumeTimer => Resume(e)
    case Configure(u) => UpdateConfig(e, u)
  }

  /** `acts` leads from `e` to `f`.  Not recursive itself, so that statements can quantify over runs. */
  ghost predicate Run(e: Engine, acts: seq<Action>, f: Engine) {
    Leads(e, acts, f)
  }

  ghost predicate Leads(e: Engine, acts: seq<Action>, f: Engine)
    decreases |acts|
  {
    if acts == [] then e == f
    else Possible(e, acts[0]) && Leads(Step(e, acts[0]), acts[1..], f)
  }

  lemma RunNil(e: Engine)
    ensures Run(e, [], e)
  {}

  lemma RunCons(e: Engine, a: Action, acts: seq<Action>, f: Engine)
    requires Possible(e, a) && Run(Step(e, a), acts, f)
    ensures Run(e, [a] + acts, f)
  {
    hide Step, Possible;
    assert ([a] + acts)[1..] == acts;
  }
}
