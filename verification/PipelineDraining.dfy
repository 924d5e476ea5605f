/** A worker without arrivals and failures empties the queue, whatever it decides and however
    its steps are spread over time. */
module PipelineDraining {
  import opened Collections
  import opened QueueService
  import opened Pipeline
  import opened PipelineBound
  import opened PipelineAlerts
  import opened PipelineRetries

  predicate AllSteady(run: seq<Step>) {
    forall k :: 0 <= k < |run| ==> Steady(run[k])
  }

  /** The steps of a run that are not idle. */
  function Moves(cap: nat, s: State, run: seq<Step>): nat
    requires IsRun(cap, s, run)
    decreases |run|
  {
    if run == [] then 0
    else Moves(cap, Next(cap, s, run[0]), run[1..]) + if Idle(s, run[0]) then 0 else 1
  }

  /** Nothing is waiting and nothing is being handled. */
  predicate Drained(s: State) {
    s.q.main == [] && s.worker.Polling?
  }

  function LiveCount(s: State): nat {
    |s.q.main| + Busy(s.worker)
  }

  lemma {:induction false} RungsAtLeast(s: seq<Raw>, n: nat, clock: real)
    requires n <= |s| && AllLive(s, clock)
    ensures RungsTo(s, n) >= n
  {
    if n > 0 {
      assert s[n - 1] in s;
      RungsAtLeast(s, n - 1, clock);
    }
  }

  /** Each live message has between one and three attempts left. */
  lemma WorkBounds(s: State)
    requires Ladder(s)
    ensures LiveCount(s) <= Work(s) <= MAX_RETRIES * LiveCount(s)
  {
    RungsAtLeast(s.q.main, |s.q.main|, s.clock);
    RungsAtMost(s.q.main, |s.q.main|);
  }

  lemma EffortBounds(s: State)
    requires Ladder(s) && AtWork(s.worker)
    ensures 0 <= Effort(s) <= PER_ATTEMPT * Work(s)
    ensures Work(s) == 0 <==> Drained(s)
  {
    WorkBounds(s);
  }

  /** Every step but waiting uses up effort, so a steady run has only so many of them. */
  lemma {:induction false} EffortRun(cap: nat, s: State, run: seq<Step>)
    requires IsRun(cap, s, run) && AllSteady(run) && Ladder(s) && AtWork(s.worker)
    ensures AtWork(Final(cap, s, run).worker)
    ensures Moves(cap, s, run) + Effort(Final(cap, s, run)) <= Effort(s)
    decreases |run|
  {
    if run != [] {
      assert Steady(run[0]);
      assert forall k :: 0 <= k < |run[1..]| ==> run[1..][k] == run[k + 1];
      LadderStep(cap, s, run[0]);
      EffortStep(cap, s, run[0]);
      EffortRun(cap, Next(cap, s, run[0]), run[1..]);
    }
  }

  /** Only a drained worker has nothing but idle steps left. */
  lemma IdleMeansDrained(s: State)
    requires Ladder(s) && StageHolds(s) && AtWork(s.worker)
    ensures Drained(s) <==> forall step :: Enabled(s, step) && Steady(step) ==> Idle(s, step)
  {
    EffortBounds(s);
    if !Drained(s) {
      if s.worker.Holding? {
        assert Enabled(s, Retry(Raise)) && Steady(Retry(Raise)) && !Idle(s, Retry(Raise));
      } else {
        var step := NextMove(s.worker, false);
        assert Enabled(s, step) && Steady(step) && !Idle(s, step);
      }
    }
  }

  lemma SteadyCons(step: Step, run: seq<Step>)
    requires Steady(step) && AllSteady(run)
    ensures AllSteady([step] + run)
  {
  }

  /** The end of the back-off sleep, if the worker is in one. */
  function Awake(s: State): real {
    if s.worker.Holding? && s.worker.stage.Waiting? then MaxReal(s.clock, s.worker.stage.until) else s.clock
  }

  /** From any such state there is a way to the end: wake up, take the next step, go on. */
  lemma {:induction false} DrainExists(cap: nat, s: State)
    requires Ladder(s) && OneAlert(s) && AtWork(s.worker)
    ensures exists drain :: IsRun(cap, s, drain) && AllSteady(drain) && Drained(Final(cap, s, drain))
    decreases Effort(s)
  {
    EffortBounds(s);
    if Drained(s) {
      assert IsRun(cap, s, []) && AllSteady([]) && Final(cap, s, []) == s;
    } else {
      var tick := Tick(Awake(s));
      var awake := Next(cap, s, tick);
      LadderStep(cap, s, tick);
      OneAlertStep(cap, s, tick);
      var step := NextMove(awake.worker, false);
      NeverStuck(cap, awake, false);
      var next := Next(cap, awake, step);
      LadderStep(cap, awake, step);
      OneAlertStep(cap, awake, step);
      EffortStep(cap, awake, step);
      EffortBounds(next);
      DrainExists(cap, next);
      var rest :| IsRun(cap, next, rest) && AllSteady(rest) && Drained(Final(cap, next, rest));
      OneMore(cap, awake, step, rest);
      OneMore(cap, s, tick, [step] + rest);
      SteadyCons(step, rest);
      SteadyCons(tick, [step] + rest);
    }
  }
}
