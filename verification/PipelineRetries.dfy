/** The retry ladder: retry counts, back-off times and the work left in the queue. */
module PipelineRetries {
  import opened Collections
  import opened QueueService
  import opened Pipeline
  import opened PipelineAccounting
  import opened PipelineAlerts

  /** A message that is not in the DLQ. */
  predicate Live(m: Raw, clock: real) {
    m.Json? && m.retryCount < MAX_RETRIES && m.processAfter.GetOr(clock) <= clock + 4.0
  }

  predicate Dead(m: Raw) {
    m.Json? && m.retryCount == MAX_RETRIES
  }

  ghost predicate AllLive(s: seq<Raw>, clock: real) {
    forall m :: m in s ==> Live(m, clock)
  }

  ghost predicate LiveInHand(w: Worker, clock: real) {
    match w
    case Recovering(todo, _) => AllLive(todo, clock)
    case RecoverHand(m, _, todo, _) => Live(m, clock) && AllLive(todo, clock)
    case Moved(m) => Live(m, clock)
    case Holding(m, _) => Live(m, clock)
    case Retrying(m, _, _, _) => Live(m, clock)
    case Removed(m, _, _, _) => Live(m, clock)
    case _ => true
  }

  /** From the end of the back-off sleep on, the message's process_after has passed. */
  predicate BackedOff(w: Worker, clock: real) {
    w.Holding? && w.msg.Json? ==>
      var after := w.msg.processAfter.GetOr(0.0);
      match w.stage
      case Fresh => true
      case Waiting(until) => until == after
      case _ => after <= clock
  }

  ghost predicate Ladder(s: State) {
    && s.clock >= 0.0
    && AllLive(s.q.main, s.clock)
    && AllLive(s.q.processing, s.clock)
    && (forall m :: m in s.q.dlq ==> Dead(m))
    && LiveInHand(s.worker, s.clock)
    && BackedOff(s.worker, s.clock)
  }

  lemma {:induction false} RemoveFirstWithin<T>(s: seq<T>, x: T)
    ensures forall y :: y in RemoveFirst(s, x) ==> y in s
  {
    if s != [] && s[0] != x {
      RemoveFirstWithin(s[1..], x);
    }
  }

  lemma LaterStillLive(s: seq<Raw>, clock: real, to: real)
    requires AllLive(s, clock) && clock <= to
    ensures AllLive(s, to)
  {
  }

  lemma LadderTick(s: State, to: real)
    requires Ladder(s) && to >= s.clock
    ensures Ladder(s.(clock := to))
  {
    LaterStillLive(s.q.main, s.clock, to);
    LaterStillLive(s.q.processing, s.clock, to);
    match s.worker
    case Recovering(todo, _) => LaterStillLive(todo, s.clock, to);
    case RecoverHand(_, _, todo, _) => LaterStillLive(todo, s.clock, to);
    case _ =>
  }

  lemma LadderStartup(cap: nat, s: State, u: StartupStep)
    requires StartupEnabled(s, u) && Ladder(s)
    ensures Ladder(NextStartup(cap, s, u))
  {
    match u
    case RecoverTake(_) => RemoveFirstWithin(s.q.processing, s.worker.todo[0]);
    case _ =>
  }

  lemma LadderHandling(s: State, h: HandlingStep)
    requires HandlingEnabled(s, h) && Ladder(s)
    ensures Ladder(NextHandling(s, h))
  {
    match h
    case TagEntry(_) => RemoveFirstWithin(s.q.processing, s.worker.raw);
    case Ack(_) => RemoveFirstWithin(s.q.processing, s.worker.msg);
    case _ =>
  }

  lemma BumpedRung(m: Raw, clock: real)
    requires Live(m, clock) && clock >= 0.0
    ensures Bumped(m, clock).retryCount == m.retryCount + 1
    ensures if m.retryCount + 1 == MAX_RETRIES then Dead(Bumped(m, clock)) else Live(Bumped(m, clock), clock)
  {
    assert Pow2(0) == 1 && Pow2(1) == 2 && Pow2(2) == 4;
  }

  lemma LadderRetry(s: State, r: RetryStep)
    requires RetryEnabled(s, r) && Ladder(s)
    ensures Ladder(NextRetry(s, r))
  {
    match r
    case Raise =>
    case RetryRemove(_) => RemoveFirstWithin(s.q.processing, s.worker.msg);
    case RetryPush(_) => BumpedRung(s.worker.msg, s.clock);
  }

  lemma LadderStep(cap: nat, s: State, step: Step)
    requires Enabled(s, step) && Ladder(s)
    ensures Ladder(Next(cap, s, step))
  {
    match step
    case Tick(to) => LadderTick(s, to);
    case Ingest(_) =>
    case Startup(u) => LadderStartup(cap, s, u);
    case Handle(h) => LadderHandling(s, h);
    case Retry(r) => LadderRetry(s, r);
    case _ =>
  }

  lemma {:induction false} LadderRun(cap: nat, s: State, run: seq<Step>)
    requires IsRun(cap, s, run) && Ladder(s)
    ensures Ladder(Final(cap, s, run))
    decreases |run|
  {
    if run != [] {
      LadderStep(cap, s, run[0]);
      LadderRun(cap, Next(cap, s, run[0]), run[1..]);
    }
  }

  // ----- draining -----

  function Rungs(m: Raw): nat {
    if m.Json? && m.retryCount < MAX_RETRIES then MAX_RETRIES - m.retryCount else 0
  }

  function RungsTo(s: seq<Raw>, n: nat): nat
    requires n <= |s|
  {
    if n == 0 then 0 else RungsTo(s, n - 1) + Rungs(s[n - 1])
  }

  function InWork(w: Worker): nat {
    match w
    case Moved(m) => Rungs(m)
    case Holding(m, _) => Rungs(m)
    case Retrying(m, _, _, _) => Rungs(m)
    case Removed(m, _, _, _) => Rungs(m)
    case _ => 0
  }

  /** The attempts left to the messages in the main queue and to the one being handled. */
  function Work(s: State): nat {
    RungsTo(s.q.main, |s.q.main|) + InWork(s.worker)
  }

  lemma {:induction false} RungsPrefix(s: seq<Raw>, t: seq<Raw>, n: nat)
    requires n <= |s| && n <= |t| && forall k :: 0 <= k < n ==> s[k] == t[k]
    ensures RungsTo(s, n) == RungsTo(t, n)
  {
    if n > 0 {
      RungsPrefix(s, t, n - 1);
    }
  }

  lemma {:induction false} RungsCons(m: Raw, s: seq<Raw>)
    ensures RungsTo([m] + s, |s| + 1) == Rungs(m) + RungsTo(s, |s|)
  {
    if s != [] {
      var init := s[..|s| - 1];
      RungsCons(m, init);
      RungsPrefix([m] + s, [m] + init, |s|);
      RungsPrefix(s, init, |s| - 1);
    } else {
      assert RungsTo([m] + s, 0) == 0;
    }
  }

  lemma {:induction false} RungsAtMost(s: seq<Raw>, n: nat)
    requires n <= |s|
    ensures RungsTo(s, n) <= MAX_RETRIES * n
  {
    if n > 0 {
      RungsAtMost(s, n - 1);
    }
  }

  /** The worker at work: no arrival, no failed command, no crash. */
  predicate Steady(step: Step) {
    match step
    case Tick(_) => true
    case Handle(Poll(o)) => o.Replied?
    case Handle(TagEntry(o)) => o.Replied?
    case Handle(Ack(o)) => o.Replied?
    case Handle(_) => true
    case Retry(RetryRemove(o)) => o.Replied?
    case Retry(RetryPush(o)) => o.Replied?
    case Retry(Raise) => true
    case _ => false
  }

  /** The step that ends the handling of one message. */
  predicate Completes(step: Step) {
    step == Handle(Ack(Replied)) || step == Retry(RetryPush(Replied))
  }

  function Completed(run: seq<Step>): nat {
    if run == [] then 0 else Completed(run[1..]) + if Completes(run[0]) then 1 else 0
  }

  lemma WorkPoll(s: State, o: Outcome)
    requires s.worker.Polling? && o.Replied?
    ensures Work(MoveNext(s, o)) == Work(s)
  {
    if s.q.main != [] {
      RungsPrefix(s.q.main, MoveTail(s.q).main, |s.q.main| - 1);
    }
  }

  lemma WorkPushAgain(s: State, o: Outcome)
    requires s.worker.Removed? && Live(s.worker.msg, s.clock) && s.clock >= 0.0 && o.Replied?
    ensures Work(PushAgain(s, o)) + 1 == Work(s)
  {
    var m := Bumped(s.worker.msg, s.clock);
    BumpedRung(s.worker.msg, s.clock);
    RungsCons(m, s.q.main);
  }

  lemma WorkStep(cap: nat, s: State, step: Step)
    requires Enabled(s, step) && Ladder(s) && Steady(step)
    ensures Work(Next(cap, s, step)) + (if Completes(step) then 1 else 0) <= Work(s)
  {
    match step
    case Tick(_) =>
    case Handle(h) =>
      if h.Poll? {
        WorkPoll(s, h.o);
      }
    case Retry(r) =>
      if r.RetryPush? {
        WorkPushAgain(s, r.o);
      }
  }

  /** Every completed iteration uses up at least one attempt, so N live messages are gone
      within 3N iterations. */
  lemma {:induction false} WorkRun(cap: nat, s: State, run: seq<Step>)
    requires IsRun(cap, s, run) && Ladder(s)
    requires forall k :: 0 <= k < |run| ==> Steady(run[k])
    ensures Completed(run) + Work(Final(cap, s, run)) <= Work(s)
    decreases |run|
  {
    if run != [] {
      assert Steady(run[0]);
      assert forall k :: 0 <= k < |run[1..]| ==> run[1..][k] == run[k + 1];
      LadderStep(cap, s, run[0]);
      WorkStep(cap, s, run[0]);
      WorkRun(cap, Next(cap, s, run[0]), run[1..]);
    }
  }

  // ----- and it does get there -----

  predicate AtWork(w: Worker) {
    w.Polling? || w.Moved? || w.Holding? || w.Retrying? || w.Removed?
  }

  /** The steps that may still be spent on the message at hand before its next LPUSH or ack. */
  function StepsLeft(w: Worker): nat {
    match w
    case Moved(_) => 10
    case Holding(_, stage) => (
      match stage
      case Fresh => 9
      case Waiting(_) => 8
      case Ready => 7
      case Loaded => 6
      case Clear => 5
      case Anomalous => 4
      case Settled => 3)
    case Retrying(_, _, _, _) => 2
    case Removed(_, _, _, _) => 1
    case _ => 0
  }

  const PER_ATTEMPT: nat := 11

  function Effort(s: State): int {
    var w := s.worker;
    PER_ATTEMPT * Work(s) + if AtWork(w) && !w.Polling? then StepsLeft(w) - PER_ATTEMPT else 0
  }

  /** The clock moving on, and a poll of the empty queue, change nothing. */
  predicate Idle(s: State, step: Step) {
    step.Tick? || (step.Handle? && step.h.Poll? && s.q.main == [])
  }

  lemma EffortStep(cap: nat, s: State, step: Step)
    requires Enabled(s, step) && Ladder(s) && AtWork(s.worker) && Steady(step)
    ensures AtWork(Next(cap, s, step).worker)
    ensures Effort(Next(cap, s, step)) + (if Idle(s, step) then 0 else 1) <= Effort(s)
  {
    match step
    case Tick(_) =>
    case Handle(h) =>
      if h.Poll? {
        WorkPoll(s, h.o);
      }
    case Retry(r) =>
      if r.RetryPush? {
        WorkPushAgain(s, r.o);
      }
  }

  /** What a worker that meets no error does next. */
  function NextMove(w: Worker, risky: bool): Step
    requires AtWork(w)
  {
    match w
    case Polling => Handle(Poll(Replied))
    case Moved(_) => Handle(TagEntry(Replied))
    case Retrying(_, _, _, _) => Retry(RetryRemove(Replied))
    case Removed(_, _, _, _) => Retry(RetryPush(Replied))
    case Holding(_, stage) => (
      match stage
      case Fresh => Handle(Begin)
      case Waiting(_) => Handle(Wake)
      case Ready => Handle(LoadLog)
      case Loaded => Handle(CheckAlert)
      case Clear => Handle(Evaluate(risky))
      case Anomalous => Handle(InsertAlert)
      case Settled => Handle(Ack(Replied)))
  }

  /** While work is left, the worker is never stuck: its next step is enabled, once the
      back-off sleep it may be in has ended, and it brings the end nearer. */
  lemma NeverStuck(cap: nat, s: State, risky: bool)
    requires Ladder(s) && StageHolds(s) && AtWork(s.worker) && Work(s) > 0
    requires s.worker.Holding? && s.worker.stage.Waiting? ==> s.clock >= s.worker.stage.until
    ensures var step := NextMove(s.worker, risky);
            && Enabled(s, step) && Steady(step)
            && Effort(Next(cap, s, step)) < Effort(s)
  {
    var step := NextMove(s.worker, risky);
    EffortStep(cap, s, step);
  }
}
