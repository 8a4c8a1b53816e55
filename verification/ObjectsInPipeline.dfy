/** The objects are the machine: when only one thread moves, the interleaving machine comes to the
    fields that the corresponding method computes. */
module ObjectsInPipeline {
  import opened Pipeline
  import opened PipelineInvariants
  import opened GoObjects

  /** A run in which only one kind of thread moves, built step by step. */
  lemma Cons(c: Config, s: State, a: Action, acts: seq<Action>, t: State)
    requires Enabled(c, s, a) && Run(c, Apply(c, s, a), acts, t)
    ensures Run(c, s, [a] + acts, t)
  {
    RunOne(c, s, a);
    RunJoin(c, s, [a], Apply(c, s, a), acts, t);
  }

  // ---- DrainAndFlush ----

  predicate FlushSucceeds(p: ProcVars, flushOk: bool) {
    p.buffer + p.inCh != [] && flushOk
  }

  /** From its select, taking the cancel, the accumulator alone ends where Processor.DrainAndFlush ends:
      waiting for its own mutex if the flush succeeds, past its unlock otherwise. */
  lemma DrainAlone(c: Config, s: State, flushOk: bool) returns (acts: seq<Action>, t: State)
    requires !c.repaired && s.acc.Select? && s.proc.ctxDone && s.proc.mu == Free
    ensures Run(c, s, acts, t) && t.proc == DrainResult(s.proc, flushOk)
    ensures t.acc == if FlushSucceeds(s.proc, flushOk) then Relock(GracefulShutdown) else Leave
  {
    var a := AccumulatorStep(OnCancel, flushOk);
    hide Leads;
    var s1 := Apply(c, s, a);
    var s2 := Apply(c, s1, a);
    acts, t := DrainLoopAlone(c, s2, flushOk);
    Cons(c, s1, a, acts, t);
    Cons(c, s, a, [a] + acts, t);
    acts := [a] + ([a] + acts);
  }

  lemma {:induction false} DrainLoopAlone(c: Config, s: State, flushOk: bool) returns (acts: seq<Action>, t: State)
    requires !c.repaired && s.acc.Drain? && s.proc.mu == ByProcessor
    ensures Run(c, s, acts, t) && t.proc == DrainResult(s.proc, flushOk)
    ensures t.acc == if FlushSucceeds(s.proc, flushOk) then Relock(GracefulShutdown) else Leave
    decreases |s.proc.inCh|
  {
    hide Leads;
    var a := AccumulatorStep(OnCancel, flushOk);
    var u := Apply(c, s, a);
    if s.proc.inCh != [] {
      Shift(s.proc.buffer, s.proc.inCh);
      acts, t := DrainLoopAlone(c, u, flushOk);
    } else {
      assert s.proc.buffer + [] == s.proc.buffer;
      acts, t := AfterDrainAlone(c, u, flushOk);
    }
    Cons(c, s, a, acts, t);
    acts := [a] + acts;
  }

  /** doFlush and the deferred unlock. */
  lemma AfterDrainAlone(c: Config, s: State, flushOk: bool) returns (acts: seq<Action>, t: State)
    requires !c.repaired
    requires s.acc.Unlock? || (s.acc.Flush? && s.acc.reason == GracefulShutdown)
    ensures Run(c, s, acts, t)
    ensures if s.acc.Unlock? then t.acc.Leave? && t.proc == s.proc.(mu := Free)
            else if flushOk then t.acc == Relock(GracefulShutdown)
              && t.proc == s.proc.(totalFlushed := s.proc.totalFlushed + |s.acc.batch|,
                                   totalBatches := s.proc.totalBatches + 1)
            else t.acc.Leave? && t.proc == s.proc.(flushErrors := s.proc.flushErrors + 1, mu := Free)
  {
    hide Leads;
    var a := AccumulatorStep(OnCancel, flushOk);
    var s1 := Apply(c, s, a);
    RunOne(c, s, a);
    if s.acc.Unlock? {
      acts, t := [a], s1;
    } else {
      var s2 := Apply(c, s1, a);
      Extend(c, s, [a], s1, a);
      t := Apply(c, s2, a);
      Extend(c, s, [a] + [a], s2, a);
      acts := [a] + [a] + [a];
    }
  }

  // ---- Accumulate and Tick ----

  /** doFlush outside the final drain, with `mu` free: it returns to the main loop. */
  lemma FlushAlone(c: Config, s: State, flushOk: bool) returns (acts: seq<Action>, t: State)
    requires s.acc.Flush? && s.acc.reason != GracefulShutdown && s.proc.mu == Free
    ensures Run(c, s, acts, t) && t.acc.Select?
    ensures t.proc == FlushedResult(s.proc, |s.acc.batch|, flushOk)
    ensures t.log == s.log.(attempts := s.log.attempts + [Attempt(s.acc.batch, s.acc.reason, flushOk)])
  {
    hide Leads;
    var a := AccumulatorStep(OnTick, flushOk);
    var s1 := Apply(c, s, a);
    RunOne(c, s, a);
    var s2 := Apply(c, s1, a);
    Extend(c, s, [a], s1, a);
    if !flushOk {
      acts, t := [a] + [a], s2;
    } else {
      var s3 := Apply(c, s2, a);
      Extend(c, s, [a] + [a], s2, a);
      acts, t := RelockAlone(c, s3);
      RunJoin(c, s, [a] + [a] + [a], s3, acts, t);
      acts := [a] + [a] + [a] + acts;
    }
  }

  lemma RelockAlone(c: Config, s: State) returns (acts: seq<Action>, t: State)
    requires s.acc.Relock? && s.acc.reason != GracefulShutdown && s.proc.mu == Free
    ensures Run(c, s, acts, t) && t.acc.Select? && t.proc == s.proc && t.log == s.log
  {
    hide Leads;
    var a := AccumulatorStep(OnTick, true);
    var s1 := Apply(c, s, a);
    RunOne(c, s, a);
    t := Apply(c, s1, a);
    Extend(c, s, [a], s1, a);
    acts := [a] + [a];
  }

  /** What run does once it holds `mu` and its buffer, up to its select again. */
  lemma LockedAlone(c: Config, s: State, flushOk: bool) returns (acts: seq<Action>, t: State)
    requires (s.acc.Got? || s.acc.TickLock?) && s.proc.mu == Free
    ensures Run(c, s, acts, t) && t.acc.Select?
    ensures var b := if s.acc.Got? then s.proc.buffer + [s.acc.ev] else s.proc.buffer;
            var full := if s.acc.Got? then |b| >= c.threshold else b != [];
            && t.proc == (if full then FlushedResult(s.proc.(buffer := []), |b|, flushOk) else s.proc.(buffer := b))
            && t.log == s.log.(attempts := t.log.attempts)
            && t.log.attempts == if !full then s.log.attempts
                 else s.log.attempts + [Attempt(b, if s.acc.Got? then CountThreshold else WindowTimeout, flushOk)]
  {
    hide Leads, FlushedResult;
    var a := AccumulatorStep(OnTick, flushOk);
    var s1 := Apply(c, s, a);
    RunOne(c, s, a);
    var s2 := Apply(c, s1, a);
    Extend(c, s, [a], s1, a);
    if s2.acc.Flush? {
      acts, t := FlushAlone(c, s2, flushOk);
      RunJoin(c, s, [a] + [a], s2, acts, t);
      acts := [a] + [a] + acts;
    } else {
      acts, t := [a] + [a], s2;
    }
  }

  /** From its select, taking the receive, the accumulator alone comes back to its select with what
      Processor.Accumulate computes. */
  lemma AccumulateAlone(c: Config, s: State, flushOk: bool) returns (acts: seq<Action>, t: State)
    requires s.acc.Select? && s.proc.mu == Free && s.proc.inCh != []
    ensures Run(c, s, acts, t) && acts != [] && acts[0] == AccumulatorStep(OnReceive, flushOk)
    ensures t.acc.Select? && t.proc == AccumulateResult(c, s.proc, flushOk)
    ensures t.log.attempts == if |s.proc.buffer| + 1 < c.threshold then s.log.attempts
                              else s.log.attempts + [Attempt(s.proc.buffer + [s.proc.inCh[0]], CountThreshold, flushOk)]
  {
    var a := AccumulatorStep(OnReceive, flushOk);
    hide Leads;
    acts, t := LockedAlone(c, Apply(c, s, a), flushOk);
    Cons(c, s, a, acts, t);
    acts := [a] + acts;
  }

  /** The same when its ticker fires, with Processor.Tick. */
  lemma TickAlone(c: Config, s: State, flushOk: bool) returns (acts: seq<Action>, t: State)
    requires s.acc.Select? && s.proc.mu == Free
    ensures Run(c, s, acts, t) && acts != [] && acts[0] == AccumulatorStep(OnTick, flushOk)
    ensures t.acc.Select? && t.proc == TickResult(s.proc, flushOk)
    ensures t.log.attempts == if s.proc.buffer == [] then s.log.attempts
                              else s.log.attempts + [Attempt(s.proc.buffer, WindowTimeout, flushOk)]
  {
    var a := AccumulatorStep(OnTick, flushOk);
    hide Leads;
    acts, t := LockedAlone(c, Apply(c, s, a), flushOk);
    Cons(c, s, a, acts, t);
    acts := [a] + acts;
  }

  /** A metrics reader takes `mu` whenever it is free, and leaves everything as it was. */
  lemma MetricsAlone(c: Config, s: State)
    requires s.proc.mu == Free
    ensures Run(c, s, [ReaderLock] + [ReaderUnlock], s) && Apply(c, s, ReaderLock).proc.mu == ByReader
  {
    RunOne(c, s, ReaderLock);
    Extend(c, s, [ReaderLock], Apply(c, s, ReaderLock), ReaderUnlock);
  }

  // ---- EnqueueBatch ----

  lemma BatchCons(c: Config, p: PoolVars, events: seq<Event>)
    requires events != [] && |p.taskCh| <= c.queueCap
    ensures BatchResult(c, p, events) == BatchResult(c, BatchResult(c, p, events[..1]), events[1..])
    ensures AcceptCount(c, p, |events|)
         == AcceptCount(c, p, 1) + AcceptCount(c, BatchResult(c, p, events[..1]), |events| - 1)
  {
    var a, one := AcceptCount(c, p, |events|), AcceptCount(c, p, 1);
    if one == 1 {
      assert events[..1][..1] == events[..1];
      assert events[..a] == events[..1] + events[1..][..a - 1];
      assert p.taskCh + events[..a] == p.taskCh + events[..1] + events[1..][..a - 1];
    } else {
      assert a == 0 && events[..0] == [] && events[..1][..0] == [] && events[1..][..0] == [];
      assert p.taskCh + [] == p.taskCh;
    }
  }

  /** One producer alone, from the start of a call: it answers what Pool.EnqueueBatch returns, with the
      same fields, and is idle again. */
  lemma BatchAlone(c: Config, s: State, i: nat, events: seq<Event>) returns (acts: seq<Action>, t: State)
    requires i < |s.producers| && s.producers[i].Idle? && s.accepting
    requires |s.pool.taskCh| <= c.queueCap && (s.pool.closed ==> s.pool.shuttingDown)
    ensures var n, a := |events|, AcceptCount(c, s.pool, |events|);
            && Run(c, s, acts, t) && t.pool == BatchResult(c, s.pool, events)
            && t.log.answers == s.log.answers + [Answer(n, a, n - a)]
            && |t.producers| == |s.producers| && t.producers[i].Idle?
  {
    hide Leads;
    var a := StartCall(i, events);
    acts, t := CallAlone(c, Apply(c, s, a), i);
    Cons(c, s, a, acts, t);
    acts := [a] + acts;
  }

  lemma {:induction false} CallAlone(c: Config, s: State, i: nat) returns (acts: seq<Action>, t: State)
    requires i < |s.producers| && s.producers[i].Enqueue?
    requires |s.pool.taskCh| <= c.queueCap && (s.pool.closed ==> s.pool.shuttingDown)
    ensures var call := s.producers[i].call; var n := |call.rest|; var a := AcceptCount(c, s.pool, n);
            && Run(c, s, acts, t)
            && t.pool == BatchResult(c, s.pool, call.rest)
            && t.log.answers == s.log.answers + [Answer(call.total, call.acc + a, call.rej + (n - a))]
            && |t.producers| == |s.producers| && t.producers[i].Idle?
    decreases |s.producers[i].call.rest|
  {
    hide Leads;
    var p := ProducerStep(i);
    var call := s.producers[i].call;
    if call.rest == [] {
      RunOne(c, s, p);
      acts, t := [p], Apply(c, s, p);
      assert call.rest[..0] == [] && s.pool.taskCh + [] == s.pool.taskCh;
    } else {
      var one, u := OneAlone(c, s, i);
      BatchCons(c, s.pool, call.rest);
      hide BatchResult, AcceptCount, StepProducer, ProducerNext;
      var more;
      more, t := CallAlone(c, u, i);
      RunJoin(c, s, one, u, more, t);
      acts := one + more;
    }
  }

  /** One round of the loop: flag check, send, count. */
  lemma OneAlone(c: Config, s: State, i: nat) returns (acts: seq<Action>, u: State)
    requires i < |s.producers| && s.producers[i].Enqueue? && s.producers[i].call.rest != []
    requires |s.pool.taskCh| <= c.queueCap && (s.pool.closed ==> s.pool.shuttingDown)
    ensures var call := s.producers[i].call; var a := AcceptCount(c, s.pool, 1);
            && Run(c, s, acts, u) && |u.producers| == |s.producers| && u.log.answers == s.log.answers
            && u.pool == BatchResult(c, s.pool, call.rest[..1])
            && u.producers[i] == Enqueue(call.(rest := call.rest[1..], acc := call.acc + a, rej := call.rej + (1 - a)))
            && |u.pool.taskCh| <= c.queueCap && (u.pool.closed ==> u.pool.shuttingDown)
  {
    hide Leads;
    var p := ProducerStep(i);
    var call := s.producers[i].call;
    var one := call.rest[..1];
    assert one == [call.rest[0]] && one[..0] == [] && one[..1] == one && s.pool.taskCh + [] == s.pool.taskCh;
    var s1 := Apply(c, s, p);
    RunOne(c, s, p);
    if s.pool.shuttingDown {
      acts, u := [p], s1;
    } else {
      var s2 := Apply(c, s1, p);
      Extend(c, s, [p], s1, p);
      u := Apply(c, s2, p);
      Extend(c, s, [p] + [p], s2, p);
      acts := [p] + [p] + [p];
    }
  }

  // ---- DrainTasks ----

  lemma ForwardCons(c: Config, p: PoolVars, q: ProcVars)
    requires p.taskCh != []
    ensures var p' := p.(taskCh := p.taskCh[1..], processed := p.processed + 1);
            var q' := Submit(c, q, p.taskCh[0]).0;
            && ForwardResult(c, p, q) == ForwardResult(c, p', q')
            && p.taskCh[ForwardCount(c, p, q)..]
            == (if |q.inCh| < c.inCap then [] else [p.taskCh[0]]) + p.taskCh[1..][ForwardCount(c, p', q')..]
  {
    var k := ForwardCount(c, p, q);
    var p' := p.(taskCh := p.taskCh[1..], processed := p.processed + 1);
    var q' := Submit(c, q, p.taskCh[0]).0;
    var k' := ForwardCount(c, p', q');
    if |q.inCh| < c.inCap {
      assert k == k' + 1;
      assert p.taskCh[..k] == [p.taskCh[0]] + p.taskCh[1..][..k'];
      assert q.inCh + p.taskCh[..k] == q.inCh + [p.taskCh[0]] + p.taskCh[1..][..k'];
    } else {
      assert k == 0 && k' == 0 && p.taskCh[..0] == [] && p.taskCh[1..][..0] == [];
      assert p.taskCh[0..] == [p.taskCh[0]] + p.taskCh[1..];
    }
  }

  /** One turn of the range loop: receive, Submit, count. */
  lemma ForwardOneAlone(c: Config, s: State, i: nat) returns (acts: seq<Action>, u: State)
    requires i < |s.workers| && s.workers[i].Draining? && s.pool.closed && s.pool.taskCh != []
    ensures Run(c, s, acts, u) && |u.workers| == |s.workers| && u.workers[i].Draining?
    ensures u.pool == s.pool.(taskCh := s.pool.taskCh[1..], processed := s.pool.processed + 1)
    ensures u.proc == Submit(c, s.proc, s.pool.taskCh[0]).0
    ensures u.log.lost == s.log.lost + (if |s.proc.inCh| < c.inCap then [] else [s.pool.taskCh[0]])
  {
    hide Leads;
    var a := WorkerStep(i, OnReceive);
    var s1 := Apply(c, s, a);
    RunOne(c, s, a);
    var s2 := Apply(c, s1, a);
    Extend(c, s, [a], s1, a);
    u := Apply(c, s2, a);
    Extend(c, s, [a] + [a], s2, a);
    acts := [a] + [a] + [a];
  }

  /** One worker alone, from its select and taking the receive, whether taskCh is open or closed: back at
      its select it has done what Pool.ForwardOne computes, and the head of taskCh is submitted or dropped. */
  lemma TurnAlone(c: Config, s: State, i: nat) returns (acts: seq<Action>, t: State)
    requires i < |s.workers| && s.workers[i].Selecting? && s.pool.taskCh != []
    ensures Run(c, s, acts, t) && acts != [] && acts[0] == WorkerStep(i, OnReceive)
    ensures t.workers == s.workers && (t.pool, t.proc) == TurnResult(c, s.pool, s.proc)
    ensures t.log == if |s.proc.inCh| < c.inCap then s.log.(submitted := s.log.submitted + [s.pool.taskCh[0]])
                     else s.log.(droppedAtSubmit := s.log.droppedAtSubmit + [s.pool.taskCh[0]])
  {
    hide Leads;
    var a := WorkerStep(i, OnReceive);
    var s1 := Apply(c, s, a);
    RunOne(c, s, a);
    var s2 := Apply(c, s1, a);
    Extend(c, s, [a], s1, a);
    t := Apply(c, s2, a);
    Extend(c, s, [a] + [a], s2, a);
    acts := [a] + [a] + [a];
  }

  /** One worker alone, from its select and taking the cancel: what Pool.DrainTasks computes; the events
      that do not fit are lost, in order, all are counted as processed, and the worker is gone. */
  lemma ForwardAlone(c: Config, s: State, i: nat) returns (acts: seq<Action>, t: State)
    requires i < |s.workers| && s.workers[i].Selecting? && s.pool.closed && s.pool.ctxDone
    ensures Run(c, s, acts, t) && |t.workers| == |s.workers| && t.workers[i].Gone?
    ensures (t.pool, t.proc) == ForwardResult(c, s.pool, s.proc)
    ensures t.log.lost == s.log.lost + s.pool.taskCh[ForwardCount(c, s.pool, s.proc)..]
  {
    hide Leads;
    var a := WorkerStep(i, OnCancel);
    var s1 := Apply(c, s, a);
    RunOne(c, s, a);
    var more, s2 := ForwardLoopAlone(c, s1, i);
    hide ForwardResult, ForwardCount;
    t := Apply(c, s2, a);
    RunJoin(c, s, [a], s1, more, s2);
    Extend(c, s, [a] + more, s2, a);
    acts := [a] + more + [a];
  }

  lemma {:induction false} ForwardLoopAlone(c: Config, s: State, i: nat) returns (acts: seq<Action>, t: State)
    requires i < |s.workers| && s.workers[i].Draining? && s.pool.closed
    ensures Run(c, s, acts, t) && |t.workers| == |s.workers| && t.workers[i].Exiting?
    ensures (t.pool, t.proc) == ForwardResult(c, s.pool, s.proc)
    ensures t.log.lost == s.log.lost + s.pool.taskCh[ForwardCount(c, s.pool, s.proc)..]
    decreases |s.pool.taskCh|
  {
    hide Leads;
    if s.pool.taskCh == [] {
      var a := WorkerStep(i, OnReceive);
      RunOne(c, s, a);
      acts, t := [a], Apply(c, s, a);
      assert s.proc.inCh + s.pool.taskCh[..0] == s.proc.inCh;
    } else {
      var one, u := ForwardOneAlone(c, s, i);
      ForwardCons(c, s.pool, s.proc);
      hide ForwardResult, Submit;
      var more;
      more, t := ForwardLoopAlone(c, u, i);
      RunJoin(c, s, one, u, more, t);
      acts := one + more;
      LostConcat(s.log.lost, if |s.proc.inCh| < c.inCap then [] else [s.pool.taskCh[0]],
                 u.pool.taskCh[ForwardCount(c, u.pool, u.proc)..]);
    }
  }

  lemma LostConcat(a: seq<Event>, b: seq<Event>, d: seq<Event>)
    ensures a + b + d == a + (b + d)
  {}
}
