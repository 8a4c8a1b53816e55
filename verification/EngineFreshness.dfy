/** How long an event may wait in the batch buffer.  Every flush resets `lastFlushTime`, whichever
    trigger fired, and the ticker only compares against it. */
module EngineFreshness {
  import opened Numbers
  import opened EngineModel
  import opened EngineRuns
  import opened EngineTiming

  /** The clock never runs backwards, the flush window is not changed, and no more than `gap`
      milliseconds pass without a call of the batch ticker. */
  ghost predicate Punctual(e: Engine, clock: int, acts: seq<Action>, gap: int)
    decreases |acts|
  {
    acts != [] ==>
      var now := TimeOf(acts[0], clock);
      && OnTime(e, clock, acts[0], gap)
      && (Possible(e, acts[0]) ==> Punctual(Step(e, acts[0]), now, acts[1..], gap))
  }

  ghost predicate OnTime(e: Engine, clock: int, a: Action, gap: int) {
    && clock <= TimeOf(a, clock) <= e.hist.lastBatchTick + gap
    && (a.Configure? ==> a.update.batchFlushWindowMs == 0)
  }

  /** Each entry, or the moment `since` if that is later, is at most `limit` ms ago. */
  ghost predicate AllWithin(entered: seq<int>, since: int, now: int, limit: int) {
    forall i :: 0 <= i < |entered| ==> now - Max(entered[i], since) <= limit
  }

  /** An event that the last batch tick already saw was then less than a window older than the last flush. */
  ghost predicate Waiting(e: Engine, clock: int, since: int, gap: int) {
    var b, h, w := e.batch, e.hist, e.cfg.batchFlushWindowMs;
    && |h.entered| == |b.batchBuffer|
    && w >= 0 && gap >= 0 && since <= clock
    && h.lastBatchTick <= clock <= h.lastBatchTick + gap && b.lastFlushTime <= clock
    && forall i :: 0 <= i < |h.entered| ==>
         var x := Max(h.entered[i], since);
         b.lastFlushTime <= x && (h.lastBatchTick <= x || h.lastBatchTick - b.lastFlushTime < w)
  }

  ghost predicate Prompt(fs: seq<Flush>, first: nat, since: int, limit: int) {
    first <= |fs| && forall k :: first <= k < |fs| ==> AllWithin(fs[k].entered, since, fs[k].time, limit)
  }

  ghost predicate OnSchedule(e: Engine, clock: int, first: nat, since: int, gap: int) {
    Waiting(e, clock, since, gap) && Prompt(e.hist.flushes, first, since, e.cfg.batchFlushWindowMs + gap)
  }

  lemma WaitingIsWithin(e: Engine, clock: int, since: int, gap: int, now: int)
    requires Waiting(e, clock, since, gap) && clock <= now <= e.hist.lastBatchTick + gap
    ensures AllWithin(e.hist.entered, since, now, e.cfg.batchFlushWindowMs + gap)
  {}

  /** Events appended at `now`, then possibly everything flushed at `now`. */
  lemma FlushIsPrompt(b: Batch, h: Hist, reason: Reason, now: int, fails: bool, first: nat, since: int, limit: int)
    requires Prompt(h.flushes, first, since, limit) && AllWithin(h.entered, since, now, limit)
    ensures Prompt(TriggerFlush(b, h, reason, now, fails).1.flushes, first, since, limit)
  {
    var h' := TriggerFlush(b, h, reason, now, fails).1;
    forall k | first <= k < |h'.flushes| ensures AllWithin(h'.flushes[k].entered, since, h'.flushes[k].time, limit) {
      if k < |h.flushes| { assert h'.flushes[k] == h.flushes[k]; }
    }
  }

  lemma AppendWithin(entered: seq<int>, n: nat, since: int, now: int, limit: int)
    requires AllWithin(entered, since, now, limit) && limit >= 0
    ensures AllWithin(entered + Times(n, now), since, now, limit)
  {}

  lemma TickFresh(e: Engine, clock: int, now: int, fails: bool, first: nat, since: int, gap: int)
    requires OnSchedule(e, clock, first, since, gap) && clock <= now <= e.hist.lastBatchTick + gap
    ensures OnSchedule(Tick(e, now, fails), now, first, since, gap)
  {
    if TickMoves(e.cfg, e.work) {
      var items := e.work.queue[..ChunkSize(e.cfg, e.work)];
      var b := e.batch.(batchBuffer := e.batch.batchBuffer + items);
      var h := e.hist.(entered := e.hist.entered + Times(|items|, now));
      var limit := e.cfg.batchFlushWindowMs + gap;
      WaitingIsWithin(e, clock, since, gap, now);
      AppendWithin(e.hist.entered, |items|, since, now, limit);
      FlushIsPrompt(b, h, CountThreshold, now, fails, first, since, limit);
      hide Prompt, AllWithin;
    }
  }

  lemma BatchTickFresh(e: Engine, clock: int, now: int, fails: bool, first: nat, since: int, gap: int)
    requires OnSchedule(e, clock, first, since, gap) && clock <= now <= e.hist.lastBatchTick + gap
    ensures OnSchedule(BatchTick(e, now, fails), now, first, since, gap)
  {
    var h := e.hist.(lastBatchTick := now);
    WaitingIsWithin(e, clock, since, gap, now);
    FlushIsPrompt(e.batch, h, WindowTimeout, now, fails, first, since, e.cfg.batchFlushWindowMs + gap);
    hide Prompt, AllWithin;
  }

  lemma ShutdownFresh(e: Engine, clock: int, now: int, fails: bool, first: nat, since: int, gap: int)
    requires OnSchedule(e, clock, first, since, gap) && clock <= now <= e.hist.lastBatchTick + gap
    ensures OnSchedule(SimulateShutdown(e, now, fails), now, first, since, gap)
  {
    var n, limit := |e.work.queue|, e.cfg.batchFlushWindowMs + gap;
    var b := e.batch.(batchBuffer := e.batch.batchBuffer + e.work.queue);
    var h := e.hist.(entered := e.hist.entered + Times(n, now), drained := e.hist.drained + n);
    WaitingIsWithin(e, clock, since, gap, now);
    AppendWithin(e.hist.entered, n, since, now, limit);
    FlushIsPrompt(b, h, GracefulShutdown, now, fails, first, since, limit);
    hide Prompt, AllWithin;
  }

  /** The other actions leave the buffer and its times alone. */
  lemma OthersLeaveBuffer(e: Engine, a: Action)
    requires Possible(e, a) && !a.WorkerTick? && !a.FlushTick? && !a.Shutdown?
    requires a.Configure? ==> a.update.batchFlushWindowMs == 0
    ensures var f := Step(e, a);
            && f.batch == e.batch && f.cfg.batchFlushWindowMs == e.cfg.batchFlushWindowMs
            && f.hist.entered == e.hist.entered
            && f.hist.flushes == e.hist.flushes && f.hist.lastBatchTick == e.hist.lastBatchTick
  {
    hide TakeTokens, RefillTokens, FillAll, Room, BatchCost, Clamp;
  }

  lemma FreshStep(e: Engine, clock: int, a: Action, first: nat, since: int, gap: int)
    requires OnSchedule(e, clock, first, since, gap) && Possible(e, a) && OnTime(e, clock, a, gap)
    ensures var f := Step(e, a);
            OnSchedule(f, TimeOf(a, clock), first, since, gap) && f.cfg.batchFlushWindowMs == e.cfg.batchFlushWindowMs
  {
    match a
    case WorkerTick(now, fails) =>
      TickFresh(e, clock, now, fails, first, since, gap);
      hide OnSchedule, TriggerFlush;
    case FlushTick(now, fails) =>
      BatchTickFresh(e, clock, now, fails, first, since, gap);
      hide OnSchedule, TriggerFlush;
    case Shutdown(now, fails) =>
      ShutdownFresh(e, clock, now, fails, first, since, gap);
      hide OnSchedule, TriggerFlush;
    case _ =>
      hide Prompt, Step;
      OthersLeaveBuffer(e, a);
  }

  lemma {:induction false} FreshRun(
      e: Engine, clock: int, acts: seq<Action>, f: Engine, first: nat, since: int, gap: int)
    requires OnSchedule(e, clock, first, since, gap) && Run(e, acts, f) && Punctual(e, clock, acts, gap)
    ensures OnSchedule(f, LastTime(clock, acts), first, since, gap)
    ensures f.cfg.batchFlushWindowMs == e.cfg.batchFlushWindowMs
    decreases |acts|
  {
    if acts != [] {
      FreshStep(e, clock, acts[0], first, since, gap);
      hide OnSchedule, OnTime, Step, Possible;
      FreshRun(Step(e, acts[0]), TimeOf(acts[0], clock), acts[1..], f, first, since, gap);
    }
  }

  /** The recorded times of the last flush and the last ticker call are past. */
  predicate TimesPast(e: Engine, clock: int) {
    e.batch.lastFlushTime <= clock && e.hist.lastBatchTick <= clock
  }

  lemma {:induction false} TimesPastRun(e: Engine, clock: int, acts: seq<Action>, f: Engine)
    requires TimesPast(e, clock) && Run(e, acts, f) && ClockRuns(clock, acts)
    ensures TimesPast(f, LastTime(clock, acts))
    decreases |acts|
  {
    if acts != [] {
      hide Step, Possible, TimesPast;
      TimesPastRun(Step(e, acts[0]), TimeOf(acts[0], clock), acts[1..], f);
    }
  }

  lemma OnScheduleFrom(start: int, before: seq<Action>, e: Engine, clock: int, gap: int)
    requires Run(Boot(start), before, e) && ClockRuns(start, before)
    requires LastTime(start, before) <= clock <= e.hist.lastBatchTick + gap
    ensures OnSchedule(e, clock, |e.hist.flushes|, clock, gap)
  {
    assert Inv(Boot(start)) && SizesOk(Boot(start)) && TimesPast(Boot(start), start);
    hide Run, Flushed, Failures, Logged, ClockRuns, Fifo;
    InvRun(Boot(start), before, e);
    SizesRun(Boot(start), before, e);
    TimesPastRun(Boot(start), start, before, e);
  }

  lemma EntriesLogged(start: int, before: seq<Action>, e: Engine, acts: seq<Action>, f: Engine)
    requires Run(Boot(start), before, e) && Run(e, acts, f)
    ensures Logged(f.hist.flushes)
  {
    assert Inv(Boot(start));
    InvRun(Boot(start), before, e);
    InvRun(e, acts, f);
  }

  /** Freshness, from any state that any run, with any reconfigurations, has led to, at any later
      time `clock`: if from there on the window is left alone and the batch ticker is never more than
      `gap` ms late, each event leaves the buffer at most batchFlushWindowMs + gap ms after it entered,
      or after `clock` if it was already there, whichever trigger flushes it; and no event still in the
      buffer is older than that. */
  lemma FreshnessBound(
      start: int, before: seq<Action>, e: Engine, clock: int, acts: seq<Action>, f: Engine, gap: int)
    requires Run(Boot(start), before, e) && ClockRuns(start, before)
    requires LastTime(start, before) <= clock <= e.hist.lastBatchTick + gap
    requires Run(e, acts, f) && Punctual(e, clock, acts, gap)
    ensures forall k :: |e.hist.flushes| <= k < |f.hist.flushes| ==>
              var x := f.hist.flushes[k];
              |x.entered| == |x.batch| && AllWithin(x.entered, clock, x.time, e.cfg.batchFlushWindowMs + gap)
    ensures |f.hist.entered| == |f.batch.batchBuffer|
    ensures AllWithin(f.hist.entered, clock, LastTime(clock, acts), e.cfg.batchFlushWindowMs + gap)
  {
    hide Run, Punctual, ClockRuns;
    OnScheduleFrom(start, before, e, clock, gap);
    EntriesLogged(start, before, e, acts, f);
    FreshRun(e, clock, acts, f, |e.hist.flushes|, clock, gap);
    WaitingIsWithin(f, LastTime(clock, acts), clock, gap, LastTime(clock, acts));
  }

  // ---- and not too often ----

  /** `lastFlushTime` is the time of the last flush, and each timed flush came at least `window` ms
      after the flush before it, whatever triggered that one. */
  ghost predicate Paced(e: Engine, start: int, window: int) {
    PacedLog(e.batch, e.hist, start, window) && window <= e.cfg.batchFlushWindowMs
  }

  ghost predicate PacedLog(b: Batch, h: Hist, start: int, window: int) {
    var fs := h.flushes;
    && b.lastFlushTime == TimeBefore(fs, |fs|, start)
    && forall k :: 0 <= k < |fs| ==>
         fs[k].batch != [] && (fs[k].reason == WindowTimeout ==> fs[k].time - TimeBefore(fs, k, start) >= window)
  }

  function TimeBefore(fs: seq<Flush>, k: nat, start: int): int
    requires k <= |fs|
  {
    if k == 0 then start else fs[k - 1].time
  }

  predicate KeepsWindow(e: Engine, a: Action, window: int) {
    a.Configure? ==> window <= NewConfig(e.cfg, a.update).batchFlushWindowMs
  }

  lemma FlushIsPaced(b: Batch, h: Hist, reason: Reason, now: int, fails: bool, start: int, window: int)
    requires PacedLog(b, h, start, window)
    requires reason == WindowTimeout ==> now - b.lastFlushTime >= window
    ensures var (b', h') := TriggerFlush(b, h, reason, now, fails); PacedLog(b', h', start, window)
  {
    var (b', h') := TriggerFlush(b, h, reason, now, fails);
    forall k | 0 <= k < |h'.flushes|
      ensures var x := h'.flushes[k];
              x.batch != [] && (x.reason == WindowTimeout ==> x.time - TimeBefore(h'.flushes, k, start) >= window)
    {
      if k < |h.flushes| {
        assert h'.flushes[k] == h.flushes[k] && TimeBefore(h'.flushes, k, start) == TimeBefore(h.flushes, k, start);
      }
    }
  }

  lemma SameLog(b: Batch, h: Hist, b': Batch, h': Hist, start: int, window: int)
    requires PacedLog(b, h, start, window) && b'.lastFlushTime == b.lastFlushTime && h'.flushes == h.flushes
    ensures PacedLog(b', h', start, window)
  {}

  lemma PacedStep(e: Engine, a: Action, start: int, window: int)
    requires Paced(e, start, window) && Possible(e, a) && KeepsWindow(e, a, window)
    ensures Paced(Step(e, a), start, window)
  {
    hide PacedLog, TakeTokens, RefillTokens, FillAll, Room, BatchCost, Clamp, TriggerFlush, SingleStatus, CeilDiv50;
    match a
    case WorkerTick(now, fails) =>
      if TickMoves(e.cfg, e.work) {
        var items := e.work.queue[..ChunkSize(e.cfg, e.work)];
        var b := e.batch.(batchBuffer := e.batch.batchBuffer + items);
        var h := e.hist.(entered := e.hist.entered + Times(|items|, now));
        SameLog(e.batch, e.hist, b, h, start, window);
        FlushIsPaced(b, h, CountThreshold, now, fails, start, window);
      }
    case FlushTick(now, fails) =>
      var h := e.hist.(lastBatchTick := now);
      SameLog(e.batch, e.hist, e.batch, h, start, window);
      if now - e.batch.lastFlushTime >= e.cfg.batchFlushWindowMs {
        FlushIsPaced(e.batch, h, WindowTimeout, now, fails, start, window);
      }
    case Shutdown(now, fails) =>
      var n := |e.work.queue|;
      var b := e.batch.(batchBuffer := e.batch.batchBuffer + e.work.queue);
      var h := e.hist.(entered := e.hist.entered + Times(n, now), drained := e.hist.drained + n);
      SameLog(e.batch, e.hist, b, h, start, window);
      FlushIsPaced(b, h, GracefulShutdown, now, fails, start, window);
    case _ =>
      SameLog(e.batch, e.hist, Step(e, a).batch, Step(e, a).hist, start, window);
  }

  lemma {:induction false} PacedRun(e: Engine, acts: seq<Action>, f: Engine, start: int, window: int)
    requires Paced(e, start, window) && Run(e, acts, f) && WindowKept(e, acts, window)
    ensures Paced(f, start, window)
    decreases |acts|
  {
    if acts != [] {
      PacedStep(e, acts[0], start, window);
      hide Step, Possible, Paced, KeepsWindow;
      PacedRun(Step(e, acts[0]), acts[1..], f, start, window);
    }
  }

  /** No reconfiguration takes the flush window below `window`. */
  ghost predicate WindowKept(e: Engine, acts: seq<Action>, window: int)
    decreases |acts|
  {
    acts != [] ==>
      && KeepsWindow(e, acts[0], window)
      && (Possible(e, acts[0]) ==> WindowKept(Step(e, acts[0]), acts[1..], window))
  }

  /** Whatever is reconfigured, the window never falls below 20 ms. */
  lemma {:induction false} TwentyIsKept(e: Engine, acts: seq<Action>)
    requires e.cfg.batchFlushWindowMs >= 20
    ensures WindowKept(e, acts, 20)
    decreases |acts|
  {
    if acts != [] && Possible(e, acts[0]) {
      hide Step, Possible, KeepsWindow;
      TwentyIsKept(Step(e, acts[0]), acts[1..]);
    }
  }

  /** Pacing, from start-up: under a window of at least `window` ms, each timed flush comes at least
      `window` ms after the flush before it; with any reconfiguration, at least 20 ms after it.  No
      clock hypothesis is needed, and no flush is ever empty. */
  lemma FlushesArePaced(start: int, acts: seq<Action>, e: Engine, window: int)
    requires Run(Boot(start), acts, e)
    requires window == 20 || (window <= 500 && WindowKept(Boot(start), acts, window))
    ensures forall k :: 0 <= k < |e.hist.flushes| ==>
              var x := e.hist.flushes[k];
              x.batch != [] && (x.reason == WindowTimeout ==> x.time - TimeBefore(e.hist.flushes, k, start) >= window)
  {
    if window == 20 { TwentyIsKept(Boot(start), acts); }
    assert Paced(Boot(start), start, window);
    hide Run, WindowKept;
    PacedRun(Boot(start), acts, e, start, window);
  }
}
