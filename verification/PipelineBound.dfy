/** How long the main queue can get although its depth is checked before, not while, pushing,
    and although retries and recovery push without any check. */
module PipelineBound {
  import opened Collections
  import opened QueueService
  import opened Pipeline
  import opened PipelineAccounting

  /** The worker is on a message it took from the main queue. */
  function Busy(w: Worker): nat {
    if w.Moved? || w.Holding? || w.Retrying? || w.Removed? then 1 else 0
  }

  function SweepPush(w: Worker): nat {
    if w.SweepPassed? then 1 else 0
  }

  /** Entries that are off the main queue but may still come back to it. */
  function Parked(s: State): nat {
    |s.q.processing| + HandCount(s.worker) + Debt(s.worker)
  }

  ghost predicate Bounded(cap: nat, s: State) {
    && |s.req.passed| <= s.hist.peak
    && Parked(s) <= s.hist.errors + Busy(s.worker)
    && |s.q.main| + |s.req.passed| + SweepPush(s.worker) + Parked(s) <= cap + s.hist.peak + s.hist.errors
  }

  lemma BoundedIngest(cap: nat, s: State, i: IngestStep)
    requires IngestEnabled(s, i) && Bounded(cap, s)
    ensures Bounded(cap, NextIngest(cap, s, i))
  {
    match i
    case Push(l, _) => assert s.req.passed == s.req.passed - {l} + {l};
    case _ =>
  }

  lemma BoundedTake(cap: nat, s: State, o: Outcome)
    requires s.worker.Recovering? && s.worker.todo != [] && Placed(s) && Bounded(cap, s)
    ensures Bounded(cap, TakeStale(s, o))
  {
    RemoveFirstCounts(s.q.processing, s.worker.todo[0]);
  }

  lemma BoundedStartup(cap: nat, s: State, u: StartupStep)
    requires StartupEnabled(s, u) && Placed(s) && Bounded(cap, s)
    ensures Bounded(cap, NextStartup(cap, s, u))
  {
    match u
    case RecoverTake(o) => BoundedTake(cap, s, o);
    case _ =>
  }

  lemma BoundedTag(cap: nat, s: State, o: Outcome)
    requires s.worker.Moved? && Placed(s) && Bounded(cap, s)
    ensures Bounded(cap, TagNext(s, o))
  {
    RemoveFirstCounts(s.q.processing, s.worker.raw);
  }

  lemma BoundedSettle(cap: nat, s: State, o: Outcome)
    requires s.worker.Holding? && Placed(s) && Bounded(cap, s)
    ensures Bounded(cap, Settle(s, o))
  {
    RemoveFirstCounts(s.q.processing, s.worker.msg);
  }

  lemma BoundedHandling(cap: nat, s: State, h: HandlingStep)
    requires HandlingEnabled(s, h) && Placed(s) && Bounded(cap, s)
    ensures Bounded(cap, NextHandling(s, h))
  {
    match h
    case TagEntry(o) => BoundedTag(cap, s, o);
    case Ack(o) => BoundedSettle(cap, s, o);
    case _ =>
  }

  lemma DropShrinks(q: Queues, m: Raw)
    ensures Drop(q, m).main == q.main
    ensures |Drop(q, m).processing| == |q.processing| - if m in q.processing then 1 else 0
  {
    RemoveFirstCounts(q.processing, m);
  }

  lemma BoundedTakeBack(cap: nat, s: State, o: Outcome)
    requires s.worker.Retrying? && Placed(s) && Bounded(cap, s)
    ensures Bounded(cap, TakeBack(s, o))
  {
    DropShrinks(s.q, s.worker.msg);
  }

  lemma BoundedPushAgain(cap: nat, s: State, o: Outcome)
    requires s.worker.Removed? && Placed(s) && Bounded(cap, s)
    ensures Bounded(cap, PushAgain(s, o))
  {
  }

  lemma BoundedRetry(cap: nat, s: State, r: RetryStep)
    requires RetryEnabled(s, r) && Placed(s) && Bounded(cap, s)
    ensures Bounded(cap, NextRetry(s, r))
  {
    match r
    case Raise =>
    case RetryRemove(o) => BoundedTakeBack(cap, s, o);
    case RetryPush(o) => BoundedPushAgain(cap, s, o);
  }

  lemma BoundedStep(cap: nat, s: State, step: Step)
    requires Enabled(s, step) && Placed(s) && Bounded(cap, s)
    ensures Bounded(cap, Next(cap, s, step))
  {
    match step
    case Ingest(i) => BoundedIngest(cap, s, i);
    case Startup(u) => BoundedStartup(cap, s, u);
    case Handle(h) => BoundedHandling(cap, s, h);
    case Retry(r) => BoundedRetry(cap, s, r);
    case _ =>
  }

  lemma {:induction false} BoundedRun(cap: nat, s: State, run: seq<Step>)
    requires IsRun(cap, s, run) && Placed(s) && Bounded(cap, s)
    ensures Bounded(cap, Final(cap, s, run))
    decreases |run|
  {
    if run != [] {
      PlacedStep(cap, s, run[0]);
      BoundedStep(cap, s, run[0]);
      BoundedRun(cap, Next(cap, s, run[0]), run[1..]);
    }
  }
}
