/** The objects of the Go engine as objects: `Processor` (internal/batch/processor.go) and `Pool`
    (internal/worker/pool.go), with the loops of their methods.

    A method here runs without interference.  Its contract is a function on the fields (`DrainResult`,
    `BatchResult`, `ForwardResult`), and the lemmas named ...Alone show that the interleaving machine,
    when only that thread moves, comes to the same fields: the objects and the machine are one model. */
module GoObjects {
  import opened Numbers
  import opened Sums
  import opened Pipeline
  import opened PipelineInvariants
  import opened PipelineTheorems

  // ---- what the loops compute ----

  /** drainAndFlush as written: everything left becomes one batch, and the lock is kept if that batch commits. */
  function DrainResult(p: ProcVars, flushOk: bool): ProcVars {
    var rest := p.buffer + p.inCh;
    if rest == [] then p.(mu := Free)
    else if flushOk then p.(inCh := [], buffer := [], mu := ByProcessor,
                            totalFlushed := p.totalFlushed + |rest|, totalBatches := p.totalBatches + 1)
    else p.(inCh := [], buffer := [], mu := Free, flushErrors := p.flushErrors + 1)
  }

  /** One event received in the main loop: it completes a batch or joins the buffer. */
  function AccumulateResult(c: Config, p: ProcVars, flushOk: bool): ProcVars
    requires p.inCh != []
  {
    var grown, rest := p.buffer + [p.inCh[0]], p.inCh[1..];
    if |grown| < c.threshold then p.(inCh := rest, buffer := grown)
    else FlushedResult(p.(inCh := rest, buffer := []), |grown|, flushOk)
  }

  function TickResult(p: ProcVars, flushOk: bool): ProcVars {
    if p.buffer == [] then p else FlushedResult(p.(buffer := []), |p.buffer|, flushOk)
  }

  function FlushedResult(p: ProcVars, size: nat, flushOk: bool): ProcVars {
    if flushOk then p.(totalFlushed := p.totalFlushed + size, totalBatches := p.totalBatches + 1)
    else p.(flushErrors := p.flushErrors + 1)
  }

  /** How many of `n` events EnqueueBatch accepts. */
  function AcceptCount(c: Config, p: PoolVars, n: nat): nat {
    if p.shuttingDown || |p.taskCh| >= c.queueCap then 0 else Min(n, c.queueCap - |p.taskCh|)
  }

  /** EnqueueBatch takes a prefix; the rest is rejected, and counted as dropped only if the pool is open. */
  function BatchResult(c: Config, p: PoolVars, events: seq<Event>): PoolVars {
    var a := AcceptCount(c, p, |events|);
    p.(taskCh := p.taskCh + events[..a], accepted := p.accepted + a,
       dropped := p.dropped + (if p.shuttingDown then 0 else |events| - a))
  }

  /** One turn of a worker's select loop: the head of taskCh goes to inCh, or is dropped and counted so. */
  function TurnResult(c: Config, p: PoolVars, q: ProcVars): (PoolVars, ProcVars)
    requires p.taskCh != []
  {
    var rest := p.(taskCh := p.taskCh[1..]);
    if |q.inCh| < c.inCap then (rest.(processed := p.processed + 1), q.(inCh := q.inCh + [p.taskCh[0]]))
    else (rest.(dropped := p.dropped + 1), q)
  }

  /** The range loop of a worker after cancel: inCh gets what fits, all events count as processed. */
  function ForwardCount(c: Config, p: PoolVars, q: ProcVars): nat {
    if |q.inCh| >= c.inCap then 0 else Min(|p.taskCh|, c.inCap - |q.inCh|)
  }

  function ForwardResult(c: Config, p: PoolVars, q: ProcVars): (PoolVars, ProcVars) {
    (p.(taskCh := [], processed := p.processed + |p.taskCh|),
     q.(inCh := q.inCh + p.taskCh[..ForwardCount(c, p, q)]))
  }

  // ---- Processor ----

  class Processor {
    const cfg: Config
    var inCh: seq<Event>
    var buffer: seq<Event>
    var mu: Mutex
    var ctxDone: bool
    var totalFlushed: nat
    var totalBatches: nat
    var flushErrors: nat
    ghost var attempts: seq<Attempt>

    ghost function Fields(): ProcVars reads this {
      ProcVars(inCh, buffer, mu, ctxDone, totalFlushed, totalBatches, flushErrors)
    }

    /** The metrics are the sums over the outcomes so far, and no batch was empty. */
    ghost predicate Valid() reads this {
      && |inCh| <= cfg.inCap
      && totalFlushed == Sum(attempts, CommittedSize)
      && totalBatches == Sum(attempts, Committed) && flushErrors == Sum(attempts, Failed)
      && forall k :: 0 <= k < |attempts| ==> attempts[k].batch != []
    }

    constructor (cfg: Config)
      ensures Valid() && this.cfg == cfg && attempts == [] && Fields() == ProcVars([], [], Free, false, 0, 0, 0)
    {
      this.cfg := cfg;
      inCh, buffer, mu, ctxDone := [], [], Free, false;
      totalFlushed, totalBatches, flushErrors := 0, 0, 0;
      attempts := [];
    }

    /** Takes the event if and only if inCh is not full, and never overfills it. */
    method Submit(ev: Event) returns (ok: bool)
      requires Valid()
      modifies this`inCh
      ensures Valid() && (ok <==> old(|inCh|) < cfg.inCap) && inCh == old(inCh) + (if ok then [ev] else [])
      ensures (Fields(), ok) == Pipeline.Submit(cfg, old(Fields()), ev)
    {
      if |inCh| < cfg.inCap {
        inCh := inCh + [ev];
        ok := true;
      } else {
        ok := false;
      }
    }

    /** `blocked` reports that the call would never return: it needs `mu`, which is taken.
        The caller has already stored away the events, so only the counters change. */
    method DoFlush(events: seq<Event>, reason: Reason, flushOk: bool) returns (blocked: bool)
      requires Valid()
      modifies this`totalFlushed, this`totalBatches, this`flushErrors, this`attempts
      ensures Valid()
      ensures attempts == if events == [] then old(attempts) else old(attempts) + [Attempt(events, reason, flushOk)]
      ensures totalFlushed == old(totalFlushed) + (if flushOk then |events| else 0)
      ensures totalBatches == old(totalBatches) + (if flushOk && events != [] then 1 else 0)
      ensures flushErrors == old(flushErrors) + (if flushOk || events == [] then 0 else 1)
      ensures blocked <==> events != [] && flushOk && mu != Free
    {
      SumSnocs(attempts, Attempt(events, reason, flushOk));
      hide Sum;
      blocked := false;
      if |events| == 0 {
        return;
      }
      attempts := attempts + [Attempt(events, reason, flushOk)];
      if !flushOk {
        flushErrors := flushErrors + 1;
        return;
      }
      totalFlushed := totalFlushed + |events|;
      totalBatches := totalBatches + 1;
      blocked := mu != Free;   // else mu is locked, lastFlushTime written, mu unlocked
    }

    /** The receive case of run. */
    method Accumulate(flushOk: bool) returns (blocked: bool)
      requires Valid() && mu == Free && inCh != []
      modifies this
      ensures Valid() && !blocked && Fields() == AccumulateResult(cfg, old(Fields()), flushOk)
      ensures attempts == if |old(buffer)| + 1 < cfg.threshold then old(attempts)
                          else old(attempts) + [Attempt(old(buffer) + [old(inCh)[0]], CountThreshold, flushOk)]
    {
      var ev := inCh[0];
      inCh := inCh[1..];
      mu := ByProcessor;
      buffer := buffer + [ev];
      blocked := false;
      if |buffer| >= cfg.threshold {
        var toFlush := buffer;
        buffer := [];
        mu := Free;
        blocked := DoFlush(toFlush, CountThreshold, flushOk);
      } else {
        mu := Free;
      }
    }

    /** The ticker case of run. */
    method Tick(flushOk: bool) returns (blocked: bool)
      requires Valid() && mu == Free
      modifies this
      ensures Valid() && !blocked && Fields() == TickResult(old(Fields()), flushOk)
      ensures attempts == if old(buffer) == [] then old(attempts)
                          else old(attempts) + [Attempt(old(buffer), WindowTimeout, flushOk)]
    {
      mu := ByProcessor;
      blocked := false;
      if |buffer| > 0 {
        var toFlush := buffer;
        buffer := [];
        mu := Free;
        blocked := DoFlush(toFlush, WindowTimeout, flushOk);
      } else {
        mu := Free;
      }
    }

    /** Blocks exactly when there was something to flush and the flush succeeded. */
    method DrainAndFlush(flushOk: bool) returns (blocked: bool)
      requires Valid() && mu == Free
      modifies this
      ensures Valid() && Fields() == DrainResult(old(Fields()), flushOk)
      ensures blocked <==> old(buffer + inCh) != [] && flushOk
      ensures attempts == if old(buffer + inCh) == [] then old(attempts)
                          else old(attempts) + [Attempt(old(buffer + inCh), GracefulShutdown, flushOk)]
    {
      mu := ByProcessor;
      while |inCh| > 0
        invariant Valid() && buffer + inCh == old(buffer + inCh)
        invariant mu == ByProcessor && ctxDone == old(ctxDone) && attempts == old(attempts)
        invariant totalFlushed == old(totalFlushed) && totalBatches == old(totalBatches)
        invariant flushErrors == old(flushErrors)
        decreases |inCh|
      {
        Shift(buffer, inCh);
        buffer := buffer + [inCh[0]];
        inCh := inCh[1..];
      }
      assert buffer == old(buffer + inCh);
      blocked := false;
      if |buffer| > 0 {
        var toFlush := buffer;
        buffer := [];
        blocked := DoFlush(toFlush, GracefulShutdown, flushOk);
      }
      if !blocked {
        mu := Free;
      }
    }

    /** The snapshot agrees with what FlushBatch has answered so far: events committed, batches committed
        and batches failed, which together are all the attempts. */
    method Metrics() returns (flushed: nat, batches: nat, errors: nat, pending: nat)
      requires Valid() && mu == Free
      ensures flushed == |Outcome(attempts, true)| && batches + errors == |attempts|
      ensures errors == 0 <==> forall k :: 0 <= k < |attempts| ==> attempts[k].ok
      ensures flushed == totalFlushed && batches == totalBatches && errors == flushErrors && pending == |buffer|
    {
      CommittedIsOutcome(attempts);
      FailedIffSome(attempts);
      pending := |buffer|;
      flushed, batches, errors := totalFlushed, totalBatches, flushErrors;
    }
  }

  // ---- Pool ----

  datatype EnqueueResult = Accepted | QueueFull | PoolShut

  class Pool {
    const cfg: Config
    const batchProc: Processor
    var taskCh: seq<Event>
    var closed: bool
    var ctxDone: bool
    var shuttingDown: bool
    var accepted: nat
    var dropped: nat
    var processed: nat

    ghost function Fields(): PoolVars reads this {
      PoolVars(taskCh, closed, ctxDone, shuttingDown, accepted, dropped, processed)
    }

    ghost predicate Valid() reads this, batchProc {
      && batchProc.Valid() && batchProc.cfg == cfg && |taskCh| <= cfg.queueCap
      && (closed ==> shuttingDown)
    }

    constructor (cfg: Config, batchProc: Processor)
      requires batchProc.Valid() && batchProc.cfg == cfg
      ensures Valid() && this.batchProc == batchProc && this.cfg == cfg
      ensures Fields() == PoolVars([], false, false, false, 0, 0, 0)
    {
      this.cfg, this.batchProc := cfg, batchProc;
      taskCh, closed, ctxDone, shuttingDown := [], false, false, false;
      accepted, dropped, processed := 0, 0, 0;
    }

    method Enqueue(ev: Event) returns (err: EnqueueResult)
      requires Valid()
      modifies this
      ensures Valid()
      ensures err == if old(shuttingDown) then PoolShut
                     else if |old(taskCh)| < cfg.queueCap then Accepted else QueueFull
      ensures Fields() == BatchResult(cfg, old(Fields()), [ev])
    {
      if shuttingDown {
        return PoolShut;
      }
      if |taskCh| < cfg.queueCap {
        taskCh := taskCh + [ev];
        accepted := accepted + 1;
        err := Accepted;
      } else {
        dropped := dropped + 1;
        err := QueueFull;
      }
    }

    /** Accepts exactly the prefix that fits. */
    method EnqueueBatch(events: seq<Event>) returns (acceptedCount: nat, droppedCount: nat)
      requires Valid()
      modifies this
      ensures Valid() && Fields() == BatchResult(cfg, old(Fields()), events)
      ensures acceptedCount == AcceptCount(cfg, old(Fields()), |events|) && acceptedCount + droppedCount == |events|
    {
      acceptedCount, droppedCount := 0, 0;
      for i := 0 to |events|
        invariant Valid() && Fields() == BatchResult(cfg, old(Fields()), events[..i])
        invariant acceptedCount == AcceptCount(cfg, old(Fields()), i) && acceptedCount + droppedCount == i
      {
        var err := Enqueue(events[i]);
        if err.Accepted? {
          acceptedCount := acceptedCount + 1;
        } else {
          droppedCount := droppedCount + 1;
        }
      }
      assert events[..|events|] == events;
    }

    /** The receive case of workerRoutine's select. */
    method ForwardOne()
      requires Valid() && taskCh != []
      modifies this, batchProc`inCh
      ensures Valid()
      ensures (Fields(), batchProc.Fields()) == TurnResult(cfg, old(Fields()), old(batchProc.Fields()))
    {
      hide Sum;
      var ev := taskCh[0];
      taskCh := taskCh[1..];
      var ok := batchProc.Submit(ev);
      if ok {
        processed := processed + 1;
      } else {
        dropped := dropped + 1;
      }
    }

    /** The range loop of workerRoutine once its context is done and taskCh is closed. */
    method DrainTasks()
      requires Valid() && closed && ctxDone
      modifies this, batchProc`inCh
      ensures Valid()
      ensures (Fields(), batchProc.Fields()) == ForwardResult(cfg, old(Fields()), old(batchProc.Fields()))
    {
      hide Sum;
      ghost var n := 0;
      ghost var p0, q0, all := Fields(), batchProc.Fields(), taskCh;
      while |taskCh| > 0
        invariant Valid() && n <= |all| && taskCh == all[n..]
        invariant Fields() == p0.(taskCh := all[n..], processed := p0.processed + n)
        invariant batchProc.Fields() == q0.(inCh := q0.inCh + all[..Min(n, ForwardCount(cfg, p0, q0))])
        decreases |taskCh|
      {
        var ev := taskCh[0];
        taskCh := taskCh[1..];
        var _ := batchProc.Submit(ev);
        processed := processed + 1;
        n := n + 1;
      }
    }

    /** The part of Shutdown before wg.Wait; a second call changes nothing. */
    method Shutdown()
      requires Valid()
      modifies this
      ensures Valid() && shuttingDown
      ensures Fields() == if old(shuttingDown) then old(Fields())
                          else old(Fields()).(shuttingDown := true, closed := true, ctxDone := true)
    {
      if shuttingDown {
        return;
      }
      shuttingDown := true;
      closed := true;
      ctxDone := true;
    }
  }

  lemma {:induction false} FailedIffSome(attempts: seq<Attempt>)
    ensures Sum(attempts, Failed) == 0 <==> forall k :: 0 <= k < |attempts| ==> attempts[k].ok
  {
    if attempts != [] {
      FailedIffSome(attempts[1..]);
      assert forall k :: 0 < k < |attempts| ==> attempts[k] == attempts[1..][k - 1];
    }
  }
}
