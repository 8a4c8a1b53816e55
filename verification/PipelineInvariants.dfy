/** What every atomic step of every thread keeps, and so what holds in every reachable state of
    every interleaving. */
module PipelineInvariants {
  import opened Sums
  import opened Pipeline

  // ---- what each thread leaves alone ----

  lemma ProducerFrame(c: Config, p: PoolVars, x: Producer)
    requires Running(x)
    ensures var p' := ProducerNext(c, p, x).0;
            p' == p.(taskCh := p'.taskCh, accepted := p'.accepted, dropped := p'.dropped)
  {}

  lemma WorkerFrame(c: Config, p: PoolVars, q: ProcVars, w: Worker, which: Case)
    requires WorkerEnabled(p, w, which)
    ensures var (p', q', w') := WorkerNext(c, p, q, w, which);
            && p' == p.(taskCh := p'.taskCh, dropped := p'.dropped, processed := p'.processed)
            && q' == q.(inCh := q'.inCh)
  {}

  lemma MainFrame(s: State, clean: bool)
    requires MainEnabled(s, clean)
    ensures var t := StepMain(s, clean);
            && t.producers == s.producers && t.workers == s.workers && t.acc == s.acc && t.log == s.log
            && t.pool == s.pool.(shuttingDown := t.pool.shuttingDown, closed := t.pool.closed,
                                 ctxDone := t.pool.ctxDone)
            && t.proc == s.proc.(ctxDone := t.proc.ctxDone)
  {}

  // ---- shutdown order ----

  function Stage(m: Main): nat {
    match m
    case Serving => 0 case HttpStopped => 1 case FlagSet => 2 case Closed => 3
    case Waiting => 4 case Stopping => 5 case Joining => 6 case Finished => 7
  }

  predicate HasExited(w: Worker) { w.Exiting? || w.Gone? }

  predicate InDrainLoop(w: Worker) { w.Draining? || w.DrainHolding? || w.DrainCounting? }

  /** The accumulator has taken the cancel case. */
  predicate InFinalDrain(a: Accumulator) {
    match a
    case DrainLock => true case Drain => true case Unlock => true case Leave => true case Ended => true
    case Flush(_, r) => r == GracefulShutdown
    case AddFlushed(_, r) => r == GracefulShutdown
    case AddBatches(r) => r == GracefulShutdown
    case Relock(r) => r == GracefulShutdown
    case Relocked(r) => r == GracefulShutdown
    case AddError(r) => r == GracefulShutdown
    case _ => false
  }

  ghost predicate Stages(c: Config, s: State) {
    && |s.workers| == c.numWorkers
    && |s.pool.taskCh| <= c.queueCap && |s.proc.inCh| <= c.inCap
    && (s.pool.shuttingDown <==> Stage(s.main) >= 2)
    && (s.pool.closed <==> Stage(s.main) >= 3)
    && (s.pool.ctxDone <==> Stage(s.main) >= 4)
    && (s.proc.ctxDone <==> Stage(s.main) >= 6)
    && (Stage(s.main) >= 5 ==> forall i :: 0 <= i < |s.workers| ==> s.workers[i].Gone?)
    && (s.main.Finished? ==> s.acc.Ended?)
    && (forall i :: 0 <= i < |s.workers| && HasExited(s.workers[i]) ==> s.pool.closed && s.pool.taskCh == [])
    && (forall i :: 0 <= i < |s.workers| && InDrainLoop(s.workers[i]) ==> s.pool.ctxDone)
    && (s.main.Serving? ==> s.accepting)
    && (!s.accepting ==> forall i :: 0 <= i < |s.producers| ==> s.producers[i].Idle?)
    && (forall i :: 0 <= i < |s.producers| && s.producers[i].Dead? ==> s.accepting && s.pool.closed)
    && (InFinalDrain(s.acc) ==> s.proc.ctxDone)
  }

  lemma StagesStep(c: Config, s: State, a: Action)
    requires Stages(c, s) && Enabled(c, s, a)
    ensures Stages(c, Apply(c, s, a))
  {
    hide ProducerNext, WorkerNext, AccumulatorNext, StepMain;
    match a
    case ProducerStep(i) => StagesProducer(c, s, i);
    case WorkerStep(i, which) => StagesWorker(c, s, i, which);
    case AccumulatorStep(which, ok) => StagesAccumulator(c, s, which, ok);
    case MainStep(clean) => StagesMain(c, s, clean);
    case _ =>
  }

  lemma StagesProducer(c: Config, s: State, i: nat)
    requires Stages(c, s) && i < |s.producers| && Running(s.producers[i])
    ensures Stages(c, StepProducer(c, s, i))
  {
    ProducerFrame(c, s.pool, s.producers[i]);
  }

  lemma StagesWorker(c: Config, s: State, i: nat, which: Case)
    requires Stages(c, s) && i < |s.workers| && WorkerEnabled(s.pool, s.workers[i], which)
    ensures Stages(c, StepWorker(c, s, i, which))
  {
    WorkerFrame(c, s.pool, s.proc, s.workers[i], which);
  }

  lemma StagesAccumulator(c: Config, s: State, which: Case, ok: bool)
    requires Stages(c, s) && AccumulatorEnabled(s.proc, s.acc, which)
    ensures Stages(c, StepAccumulator(c, s, which, ok))
  {
  }

  lemma StagesMain(c: Config, s: State, clean: bool)
    requires Stages(c, s) && MainEnabled(s, clean)
    ensures Stages(c, StepMain(s, clean))
  {
    MainFrame(s, clean);
  }

  // ---- every thread gets on ----

  /** What is left of a producer's call. */
  function CallWork(x: Producer): nat {
    if x.Idle? || x.Dead? then 0
    else 3 * |x.call.rest| + (match x case Enqueue(_) => 1 case Checked(_, _) => 3 case _ => 2)
  }

  /** A call never blocks, and takes at most three steps for each of its events and one to answer. */
  lemma CallDescends(c: Config, p: PoolVars, x: Producer)
    requires Running(x)
    ensures CallWork(ProducerNext(c, p, x).1) < CallWork(x)
  {}

  /** How far the accumulator is from its select, outside the final drain. */
  function CycleWork(a: Accumulator): nat {
    match a
    case Got(_) => 8 case TickLock => 8 case Append(_) => 7 case TickBody => 7
    case Flush(_, _) => 6 case AddFlushed(_, _) => 5 case AddBatches(_) => 4 case Relock(_) => 3
    case Relocked(_) => 2 case AddError(_) => 2 case _ => 0
  }

  /** The select takes the case that was chosen; every other step of the loop brings it nearer to the
      select again, whatever the state of channel, mutex and context. */
  lemma CycleDescends(c: Config, p: ProcVars, a: Accumulator, which: Case, ok: bool)
    requires AccumulatorEnabled(p, a, which) && !InFinalDrain(a)
    ensures var (p', a') := AccumulatorNext(c, p, a, which, ok);
            if a.Select? then
              match which
              case OnCancel => a' == DrainLock && p' == p
              case OnTick => a' == TickLock && p' == p
              case OnReceive => a' == Got(p.inCh[0]) && p' == p.(inCh := p.inCh[1..])
            else CycleWork(a') < CycleWork(a)
  {}

  /** main goes through its stages one by one. */
  lemma MainInOrder(s: State, clean: bool)
    requires MainEnabled(s, clean)
    ensures Stage(StepMain(s, clean).main) == Stage(s.main) + 1
    ensures s.main.Serving? ==> StepMain(s, clean).accepting == !clean
    ensures !s.main.Serving? ==> StepMain(s, clean).accepting == s.accepting
  {}

  // ---- the mutex ----

  /** The program points at which the accumulator owns `mu`: in drainAndFlush, `mu` stays locked
      across the whole call of doFlush. */
  predicate OwnsMu(c: Config, a: Accumulator) {
    match a
    case Append(_) => true case TickBody => true case Relocked(_) => true case Drain => true case Unlock => true
    case Flush(_, r) => r == GracefulShutdown && !c.repaired
    case AddFlushed(_, r) => r == GracefulShutdown && !c.repaired
    case AddBatches(r) => r == GracefulShutdown && !c.repaired
    case Relock(r) => r == GracefulShutdown && !c.repaired
    case AddError(r) => r == GracefulShutdown && !c.repaired
    case _ => false
  }

  ghost predicate MutexOk(c: Config, s: State) {
    OwnerOk(c, s.proc, s.acc)
  }

  ghost predicate OwnerOk(c: Config, p: ProcVars, a: Accumulator) {
    && (p.mu == ByProcessor <==> OwnsMu(c, a))
    && (a.Relocked? && a.reason == GracefulShutdown ==> c.repaired)
  }

  lemma OwnerStep(c: Config, p: ProcVars, a: Accumulator, which: Case, ok: bool)
    requires OwnerOk(c, p, a) && AccumulatorEnabled(p, a, which)
    ensures var (p', a') := AccumulatorNext(c, p, a, which, ok);
            OwnerOk(c, p', a')
  {}

  lemma MutexStep(c: Config, s: State, a: Action)
    requires MutexOk(c, s) && Enabled(c, s, a)
    ensures MutexOk(c, Apply(c, s, a))
  {
    hide ProducerNext, WorkerNext, AccumulatorNext, StepMain;
    match a
    case WorkerStep(i, which) => WorkerFrame(c, s.pool, s.proc, s.workers[i], which);
    case AccumulatorStep(which, ok) =>
      hide OwnerOk;
      OwnerStep(c, s.proc, s.acc, which, ok);
    case MainStep(clean) => MainFrame(s, clean);
    case _ =>
  }

  /** While a metrics reader holds `mu`, no step but its unlock takes it away or touches the buffer. */
  lemma ReaderExcludes(c: Config, s: State, a: Action)
    requires MutexOk(c, s) && s.proc.mu == ByReader && Enabled(c, s, a) && a != ReaderUnlock
    ensures Apply(c, s, a).proc.mu == ByReader && Apply(c, s, a).proc.buffer == s.proc.buffer
  {
    hide ProducerNext, WorkerNext, StepMain;
    match a
    case WorkerStep(i, which) => WorkerFrame(c, s.pool, s.proc, s.workers[i], which);
    case MainStep(clean) => MainFrame(s, clean);
    case _ =>
  }

  // ---- where the events are ----

  function Hand(w: Worker): seq<Event> {
    if w.Holding? || w.DrainHolding? then [w.ev] else []
  }

  function HandSize(w: Worker): (n: nat)
    ensures n == |Hand(w)|
  {
    if w.Holding? || w.DrainHolding? then 1 else 0
  }

  /** What the accumulator has taken out of inCh and not yet passed to FlushBatch, in order. */
  function Gathered(p: ProcVars, a: Accumulator): seq<Event> {
    if a.Flush? then a.batch + p.buffer
    else if a.Got? || a.Append? then p.buffer + [a.ev]
    else p.buffer
  }

  function Flat(attempts: seq<Attempt>): seq<Event> {
    if attempts == [] then [] else Flat(attempts[..|attempts| - 1]) + attempts[|attempts| - 1].batch
  }

  /** Every event ever sent is in exactly one place up to the submit stream. */
  ghost predicate Placed(s: State) {
    multiset(s.log.sent) == (multiset(s.pool.taskCh) + Bag(s.workers, Hand)) + PastSubmit(s.log)
  }

  /** What the workers have handed over, accepted or not. */
  function PastSubmit(log: Log): multiset<Event> {
    multiset(log.submitted) + multiset(log.droppedAtSubmit) + multiset(log.lost)
  }

  /** The flush attempts, what is being flushed, the buffer and inCh partition the submit stream in order. */
  ghost predicate Streamed(s: State) {
    s.log.submitted == Flat(s.log.attempts) + (Gathered(s.proc, s.acc) + s.proc.inCh)
  }

  lemma Snoc<T>(s: seq<T>, x: T)
    ensures multiset(s + [x]) == multiset(s) + multiset{x}
  {}

  lemma Uncons<T>(s: seq<T>)
    requires s != []
    ensures multiset(s) == multiset{s[0]} + multiset(s[1..])
  {
    assert s == [s[0]] + s[1..];
  }

  lemma ProducerMoves(c: Config, s: State, i: nat)
    requires i < |s.producers| && Running(s.producers[i])
    ensures var t, p := StepProducer(c, s, i), s.producers[i];
            || (t.pool.taskCh == s.pool.taskCh && t.log.sent == s.log.sent)
            || (p.Checked? && t.pool.taskCh == s.pool.taskCh + [p.ev] && t.log.sent == s.log.sent + [p.ev])
  {}

  lemma WorkerMoves(c: Config, s: State, i: nat, which: Case)
    requires i < |s.workers| && WorkerEnabled(s.pool, s.workers[i], which)
    ensures var t, w := StepWorker(c, s, i, which), s.workers[i]; var w' := t.workers[i];
            || (t.pool.taskCh == s.pool.taskCh && t.log == s.log && Hand(w) == Hand(w') == [])
            || (s.pool.taskCh != [] && t.pool.taskCh == s.pool.taskCh[1..] && t.log == s.log
                && Hand(w) == [] && Hand(w') == [s.pool.taskCh[0]])
            || (t.pool.taskCh == s.pool.taskCh && |Hand(w)| == 1 && Hand(w') == []
                && t.log.sent == s.log.sent && Submitted(s.log, t.log, Hand(w)))
  {}

  /** One handed-over event is logged exactly once. */
  predicate Submitted(log: Log, log': Log, evs: seq<Event>) {
    || log' == log.(submitted := log.submitted + evs)
    || log' == log.(droppedAtSubmit := log.droppedAtSubmit + evs)
    || log' == log.(lost := log.lost + evs)
  }

  lemma PlacedProducer(c: Config, s: State, i: nat)
    requires Placed(s) && i < |s.producers| && Running(s.producers[i])
    ensures Placed(StepProducer(c, s, i))
  {
    hide Bag, ProducerNext;
    ProducerFrame(c, s.pool, s.producers[i]);
    ProducerMoves(c, s, i);
  }

  lemma ReceiveMoves(taskCh: seq<Event>, hands: multiset<Event>, hands': multiset<Event>)
    requires taskCh != [] && hands' == hands + multiset{taskCh[0]}
    ensures multiset(taskCh[1..]) + hands' == multiset(taskCh) + hands
  {
    Uncons(taskCh);
  }

  lemma SubmitMoves(taskCh: multiset<Event>, hands': multiset<Event>, ev: Event, log: Log, log': Log)
    requires Submitted(log, log', [ev])
    ensures (taskCh + hands') + PastSubmit(log') == (taskCh + (hands' + multiset{ev})) + PastSubmit(log)
  {
    Snoc(log.submitted, ev);
    Snoc(log.droppedAtSubmit, ev);
    Snoc(log.lost, ev);
    assert PastSubmit(log') == PastSubmit(log) + multiset{ev};
    hide PastSubmit;
  }

  lemma PlacedWorker(c: Config, s: State, i: nat, which: Case)
    requires Placed(s) && i < |s.workers| && WorkerEnabled(s.pool, s.workers[i], which)
    ensures Placed(StepWorker(c, s, i, which))
  {
    hide Bag, PastSubmit, WorkerNext, WorkerLog, Submitted, WorkerEnabled;
    var t, w := StepWorker(c, s, i, which), s.workers[i];
    WorkerFrame(c, s.pool, s.proc, s.workers[i], which);
    WorkerMoves(c, s, i, which);
    BagUpdate(s.workers, Hand, i, t.workers[i]);
    hide Hand;
    var hands, hands' := Bag(s.workers, Hand), Bag(t.workers, Hand);
    var before, after := multiset(Hand(w)), multiset(Hand(t.workers[i]));
    assert hands' + before == hands + after;
    if |Hand(w)| == 1 {
      assert Hand(w) == [Hand(w)[0]];
      assert hands == hands' + multiset{Hand(w)[0]};
      SubmitMoves(multiset(s.pool.taskCh), hands', Hand(w)[0], s.log, t.log);
    } else if t.pool.taskCh != s.pool.taskCh {
      ReceiveMoves(s.pool.taskCh, hands, hands');
    } else {
      assert hands' == (hands' + before) - before && hands == (hands + after) - after;
    }
  }

  lemma PlacedStep(c: Config, s: State, a: Action)
    requires Placed(s) && Enabled(c, s, a)
    ensures Placed(Apply(c, s, a))
  {
    hide ProducerNext, WorkerNext, AccumulatorNext, StepMain;
    match a
    case ProducerStep(i) => PlacedProducer(c, s, i);
    case WorkerStep(i, which) => PlacedWorker(c, s, i, which);
    case AccumulatorStep(_, _) =>
    case MainStep(clean) => MainFrame(s, clean);
    case _ =>
  }

  lemma FlatSnoc(attempts: seq<Attempt>, a: Attempt)
    ensures Flat(attempts + [a]) == Flat(attempts) + a.batch
  {
    assert (attempts + [a])[..|attempts|] == attempts;
  }

  lemma Shift(b: seq<Event>, inCh: seq<Event>)
    requires inCh != []
    ensures (b + [inCh[0]]) + inCh[1..] == b + inCh
  {}

  /** No step but the FlushBatch call changes what is gathered and queued, taken together. */
  lemma GatheredStep(c: Config, p: ProcVars, a: Accumulator, which: Case, ok: bool)
    requires AccumulatorEnabled(p, a, which) && !a.Flush?
    ensures var (p', a') := AccumulatorNext(c, p, a, which, ok);
            Gathered(p', a') + p'.inCh == Gathered(p, a) + p.inCh
  {
    var (p', a') := AccumulatorNext(c, p, a, which, ok);
    if p.inCh != [] && (a.Drain? || (a.Select? && which == OnReceive)) {
      Shift(p.buffer, p.inCh);
    } else {
      assert p'.inCh == p.inCh;
      assert Gathered(p', a') == Gathered(p, a);
    }
  }

  lemma StreamedAccumulator(c: Config, s: State, which: Case, ok: bool)
    requires Streamed(s) && Batched(c, s) && AccumulatorEnabled(s.proc, s.acc, which)
    ensures Streamed(StepAccumulator(c, s, which, ok))
  {
    hide Flat;
    if s.acc.Flush? {
      FlatSnoc(s.log.attempts, Attempt(s.acc.batch, s.acc.reason, ok));
      assert Gathered(s.proc, s.acc) == s.acc.batch;
    } else {
      GatheredStep(c, s.proc, s.acc, which, ok);
      hide AccumulatorNext, Gathered, Batched;
    }
  }

  lemma StreamedWorker(c: Config, s: State, i: nat, which: Case)
    requires Streamed(s) && i < |s.workers| && WorkerEnabled(s.pool, s.workers[i], which)
    ensures Streamed(StepWorker(c, s, i, which))
  {
    hide Flat;
    WorkerFrame(c, s.pool, s.proc, s.workers[i], which);
    if s.workers[i].Holding? || s.workers[i].DrainHolding? {
      var before, ev := Flat(s.log.attempts), s.workers[i].ev;
      var g := Gathered(s.proc, s.acc);
      assert before + (g + (s.proc.inCh + [ev])) == (before + (g + s.proc.inCh)) + [ev];
    }
  }

  lemma StreamedStep(c: Config, s: State, a: Action)
    requires Streamed(s) && Batched(c, s) && Enabled(c, s, a)
    ensures Streamed(Apply(c, s, a))
  {
    hide ProducerNext, WorkerNext, AccumulatorNext, StepMain;
    match a
    case ProducerStep(i) => ProducerFrame(c, s.pool, s.producers[i]);
    case WorkerStep(i, which) => StreamedWorker(c, s, i, which);
    case AccumulatorStep(which, ok) => StreamedAccumulator(c, s, which, ok);
    case MainStep(clean) => MainFrame(s, clean);
    case _ =>
  }

  // ---- batch shapes ----

  ghost predicate ShapeOk(c: Config, batch: seq<Event>, reason: Reason) {
    match reason
    case CountThreshold => |batch| == BatchLimit(c)
    case WindowTimeout => 1 <= |batch| < BatchLimit(c)
    case GracefulShutdown => 1 <= |batch| < BatchLimit(c) + c.inCap
  }

  /** Inside doFlush, after the FlushBatch call. */
  predicate Flushed(a: Accumulator) {
    a.AddFlushed? || a.AddBatches? || a.Relock? || a.Relocked?
  }

  ghost predicate Batched(c: Config, s: State) {
    var attempts, a, b := s.log.attempts, s.acc, s.proc.buffer;
    && (forall k :: 0 <= k < |attempts| ==> ShapeOk(c, attempts[k].batch, attempts[k].reason))
    && (a.Flush? ==> ShapeOk(c, a.batch, a.reason))
    && (a.Flush? || a.AddError? || Flushed(a) ==> b == [] && (a.reason == GracefulShutdown ==> s.proc.inCh == []))
    && (a.Unlock? || a.Leave? || a.Ended? ==> b == [] && s.proc.inCh == [])
    && (a.Drain? ==> |b| + |s.proc.inCh| < BatchLimit(c) + c.inCap)
    && (!a.Drain? ==> |b| < BatchLimit(c))
  }

  lemma BatchedStep(c: Config, s: State, a: Action)
    requires Stages(c, s) && Batched(c, s) && Enabled(c, s, a)
    ensures Batched(c, Apply(c, s, a))
  {
    hide ProducerNext, WorkerNext, AccumulatorNext, StepMain;
    match a
    case ProducerStep(i) => ProducerFrame(c, s.pool, s.producers[i]);
    case WorkerStep(i, which) => BatchedWorker(c, s, i, which);
    case AccumulatorStep(which, ok) => BatchedAccumulator(c, s, which, ok);
    case MainStep(clean) => MainFrame(s, clean);
    case _ =>
  }

  /** A worker that can still submit is one that main has not yet waited for. */
  lemma BatchedWorker(c: Config, s: State, i: nat, which: Case)
    requires Stages(c, s) && Batched(c, s) && i < |s.workers| && WorkerEnabled(s.pool, s.workers[i], which)
    ensures Batched(c, StepWorker(c, s, i, which))
  {
    WorkerFrame(c, s.pool, s.proc, s.workers[i], which);
    assert !InFinalDrain(s.acc);
  }

  lemma BatchedAccumulator(c: Config, s: State, which: Case, ok: bool)
    requires Stages(c, s) && Batched(c, s) && AccumulatorEnabled(s.proc, s.acc, which)
    ensures Batched(c, StepAccumulator(c, s, which, ok))
  {
  }

  /** The attempt that doFlush is working on is the last of the log, and a final flush is the last of all. */
  ghost predicate LastAttempt(c: Config, s: State) {
    var attempts, a := s.log.attempts, s.acc;
    && (Flushed(a) || a.AddError? ==>
          attempts != [] && attempts[|attempts| - 1].reason == a.reason && attempts[|attempts| - 1].ok == Flushed(a))
    && (a.AddFlushed? ==> a.size == |attempts[|attempts| - 1].batch|)
    && (forall k :: 0 <= k < |attempts| && attempts[k].reason == GracefulShutdown ==>
          && k == |attempts| - 1
          && (((Flushed(a) || a.AddError?) && a.reason == GracefulShutdown)
              || ((a.Unlock? || a.Leave? || a.Ended?) && (attempts[k].ok ==> c.repaired))))
  }

  lemma LastAttemptStep(c: Config, s: State, a: Action)
    requires MutexOk(c, s) && LastAttempt(c, s) && Enabled(c, s, a)
    ensures LastAttempt(c, Apply(c, s, a))
  {
    hide ProducerNext, WorkerNext, AccumulatorNext, StepMain;
    match a
    case AccumulatorStep(which, ok) => LastAttemptAccumulator(c, s, which, ok);
    case MainStep(clean) => MainFrame(s, clean);
    case _ =>
  }

  lemma LastAttemptAccumulator(c: Config, s: State, which: Case, ok: bool)
    requires MutexOk(c, s) && LastAttempt(c, s) && AccumulatorEnabled(s.proc, s.acc, which)
    ensures LastAttempt(c, StepAccumulator(c, s, which, ok))
  {}

  // ---- counters ----

  function IsSent(p: Producer): nat { if p.Sent? then 1 else 0 }

  function CountsProcessed(w: Worker): nat { if w.DrainCounting? || w == Counting(true) then 1 else 0 }

  function CountsDropped(w: Worker): nat { if w == Counting(false) then 1 else 0 }

  function CallAccepted(p: Producer): nat { if p.Idle? then 0 else p.call.acc }

  function AnswerAccepted(r: Answer): nat { r.acc }

  ghost predicate Counted(s: State) {
    && s.pool.accepted + Sum(s.producers, IsSent) == |s.log.sent|
    && s.pool.processed + Sum(s.workers, CountsProcessed) == |s.log.submitted| + |s.log.lost|
    && s.pool.dropped + Sum(s.workers, CountsDropped) == |s.log.droppedAtSubmit| + s.log.rejections
  }

  lemma CountedProducer(c: Config, s: State, i: nat)
    requires Counted(s) && i < |s.producers| && Running(s.producers[i])
    ensures Counted(StepProducer(c, s, i))
  {
    hide Sum;
    ProducerFrame(c, s.pool, s.producers[i]);
    SumUpdate(s.producers, IsSent, i, StepProducer(c, s, i).producers[i]);
  }

  lemma CountedWorker(c: Config, s: State, i: nat, which: Case)
    requires Counted(s) && i < |s.workers| && WorkerEnabled(s.pool, s.workers[i], which)
    ensures Counted(StepWorker(c, s, i, which))
  {
    hide Sum;
    var t := StepWorker(c, s, i, which);
    WorkerFrame(c, s.pool, s.proc, s.workers[i], which);
    SumUpdate(s.workers, CountsProcessed, i, t.workers[i]);
    SumUpdate(s.workers, CountsDropped, i, t.workers[i]);
  }

  lemma CountedStep(c: Config, s: State, a: Action)
    requires Counted(s) && Enabled(c, s, a)
    ensures Counted(Apply(c, s, a))
  {
    hide ProducerNext, WorkerNext, AccumulatorNext, StepMain;
    match a
    case StartCall(i, _) => SumUpdate(s.producers, IsSent, i, Apply(c, s, a).producers[i]);
    case ProducerStep(i) => CountedProducer(c, s, i);
    case WorkerStep(i, which) => CountedWorker(c, s, i, which);
    case AccumulatorStep(_, _) =>
    case MainStep(clean) => MainFrame(s, clean);
    case _ =>
  }

  /** A call in progress has answered for every event but those still to come and the one in hand. */
  predicate CallOk(p: Producer) {
    !p.Idle? ==> p.call.acc + p.call.rej + |p.call.rest| + (if p.Enqueue? then 0 else 1) == p.call.total
  }

  ghost predicate CallsOk(s: State) {
    && (forall i :: 0 <= i < |s.producers| ==> CallOk(s.producers[i]))
    && (forall k :: 0 <= k < |s.log.answers| ==> s.log.answers[k].acc + s.log.answers[k].rej == s.log.answers[k].total)
    && Sum(s.log.answers, AnswerAccepted) + Sum(s.producers, CallAccepted) == s.pool.accepted
  }

  lemma {:induction false} SumSnoc<T>(xs: seq<T>, f: T -> nat, x: T)
    ensures Sum(xs + [x], f) == Sum(xs, f) + f(x)
  {
    if xs == [] {
      assert [x][1..] == [] && [] + [x] == [x];
    } else {
      assert (xs + [x])[1..] == xs[1..] + [x];
      SumSnoc(xs[1..], f, x);
    }
  }

  lemma CallsProducer(c: Config, s: State, i: nat)
    requires CallsOk(s) && i < |s.producers| && Running(s.producers[i])
    ensures CallsOk(StepProducer(c, s, i))
  {
    hide Sum, ProducerNext, CallOk;
    var t := StepProducer(c, s, i);
    ProducerFrame(c, s.pool, s.producers[i]);
    ProducerAnswers(c, s, i);
    SumUpdate(s.producers, CallAccepted, i, t.producers[i]);
    if t.log.answers != s.log.answers {
      SumSnoc(s.log.answers, AnswerAccepted, t.log.answers[|s.log.answers|]);
    }
  }

  lemma ProducerAnswers(c: Config, s: State, i: nat)
    requires i < |s.producers| && Running(s.producers[i]) && CallOk(s.producers[i])
    ensures var t := StepProducer(c, s, i);
            var before, after := CallAccepted(s.producers[i]), CallAccepted(t.producers[i]);
            && CallOk(t.producers[i])
            && (|| (t.log.answers == s.log.answers && t.pool.accepted + before == s.pool.accepted + after)
                || (&& t.pool.accepted == s.pool.accepted && after == 0 && t.producers[i].Idle?
                    && exists r :: t.log.answers == s.log.answers + [r] && r.acc == before && r.acc + r.rej == r.total))
  {
    var p, t := s.producers[i], StepProducer(c, s, i);
    if p.Enqueue? && p.call.rest == [] {
      assert t.log.answers == s.log.answers + [Answer(p.call.total, p.call.acc, p.call.rej)];
    }
  }

  lemma CallsStep(c: Config, s: State, a: Action)
    requires CallsOk(s) && Enabled(c, s, a)
    ensures CallsOk(Apply(c, s, a))
  {
    hide ProducerNext, WorkerNext, AccumulatorNext, StepMain;
    match a
    case StartCall(i, _) => SumUpdate(s.producers, CallAccepted, i, Apply(c, s, a).producers[i]);
    case ProducerStep(i) => CallsProducer(c, s, i);
    case WorkerStep(i, which) => WorkerFrame(c, s.pool, s.proc, s.workers[i], which);
    case AccumulatorStep(_, _) =>
    case MainStep(clean) => MainFrame(s, clean);
    case _ =>
  }

  function CommittedSize(a: Attempt): nat { if a.ok then |a.batch| else 0 }

  function Committed(a: Attempt): nat { if a.ok then 1 else 0 }

  function Failed(a: Attempt): nat { if a.ok then 0 else 1 }

  /** The metrics of the processor agree with the outcomes once doFlush is past its updates. */
  ghost predicate Totalled(s: State) {
    && s.proc.totalFlushed + (if s.acc.AddFlushed? then s.acc.size else 0) == Sum(s.log.attempts, CommittedSize)
    && s.proc.totalBatches + (if s.acc.AddFlushed? || s.acc.AddBatches? then 1 else 0) == Sum(s.log.attempts, Committed)
    && s.proc.flushErrors + (if s.acc.AddError? then 1 else 0) == Sum(s.log.attempts, Failed)
  }

  lemma TotalledAccumulator(c: Config, s: State, which: Case, ok: bool)
    requires Totalled(s) && AccumulatorEnabled(s.proc, s.acc, which)
    ensures Totalled(StepAccumulator(c, s, which, ok))
  {
    hide Sum;
    if s.acc.Flush? {
      var last := Attempt(s.acc.batch, s.acc.reason, ok);
      SumSnoc(s.log.attempts, CommittedSize, last);
      SumSnoc(s.log.attempts, Committed, last);
      SumSnoc(s.log.attempts, Failed, last);
    }
  }

  lemma TotalledStep(c: Config, s: State, a: Action)
    requires Totalled(s) && Enabled(c, s, a)
    ensures Totalled(Apply(c, s, a))
  {
    hide ProducerNext, WorkerNext, AccumulatorNext, StepMain;
    match a
    case ProducerStep(i) => ProducerFrame(c, s.pool, s.producers[i]);
    case WorkerStep(i, which) => WorkerFrame(c, s.pool, s.proc, s.workers[i], which);
    case AccumulatorStep(which, ok) => TotalledAccumulator(c, s, which, ok);
    case MainStep(clean) => MainFrame(s, clean);
    case _ =>
  }

  // ---- everything together, over whole runs ----

  ghost predicate Inv(c: Config, s: State) {
    && Stages(c, s) && MutexOk(c, s) && Batched(c, s) && LastAttempt(c, s)
    && Placed(s) && Streamed(s) && Counted(s) && CallsOk(s) && Totalled(s)
  }

  lemma {:induction false} EmptyBag(n: nat)
    ensures Bag(seq(n, _ => Selecting), Hand) == multiset{}
  {
    if n > 0 {
      assert seq(n, _ => Selecting)[1..] == seq(n - 1, _ => Selecting);
      EmptyBag(n - 1);
    }
  }

  lemma InvInit(c: Config, n: nat)
    ensures Inv(c, Init(c, n))
  {
    hide Sum, Bag;
    var s := Init(c, n);
    EmptyBag(c.numWorkers);
    SumZero(s.producers, IsSent);
    SumZero(s.producers, CallAccepted);
    SumZero(s.workers, CountsProcessed);
    SumZero(s.workers, CountsDropped);
    NothingLogged();
  }

  lemma NothingLogged()
    ensures Sum([], AnswerAccepted) == Sum([], CommittedSize) == Sum([], Committed) == Sum([], Failed) == 0
  {}

  lemma InvStep(c: Config, s: State, a: Action)
    requires Inv(c, s) && Enabled(c, s, a)
    ensures Inv(c, Apply(c, s, a))
  {
    hide Stages, MutexOk, Batched, LastAttempt, Placed, Streamed, Counted, CallsOk, Totalled, Enabled, Apply;
    StagesStep(c, s, a);
    MutexStep(c, s, a);
    BatchedStep(c, s, a);
    LastAttemptStep(c, s, a);
    PlacedStep(c, s, a);
    StreamedStep(c, s, a);
    CountedStep(c, s, a);
    CallsStep(c, s, a);
    TotalledStep(c, s, a);
  }

  lemma {:induction false} InvRun(c: Config, s: State, acts: seq<Action>, t: State)
    requires Inv(c, s) && Run(c, s, acts, t)
    ensures Inv(c, t)
    decreases |acts|
  {
    hide Inv, Enabled, Apply;
    if acts != [] {
      InvStep(c, s, acts[0]);
      InvRun(c, Apply(c, s, acts[0]), acts[1..], t);
    }
  }
}
