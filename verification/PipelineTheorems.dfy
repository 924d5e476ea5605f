/** What holds of the pipeline after every run from an empty start: any number of requests,
    any interleaving, failed commands and crashes at any point. */
module PipelineTheorems {
  import opened Collections
  import opened QueueService
  import opened Pipeline
  import opened PipelineAccounting
  import opened PipelineBound
  import opened PipelineRows
  import opened PipelineAlerts
  import opened PipelineRetries
  import opened PipelineHand
  import opened PipelineDraining
  import opened PipelineWitnesses
  import opened PipelineRecovery
  import opened PipelineSweep

  /** Conservation with the exact price of failures: the equation of BalancedFor for every
      payload, and no more lost or duplicated messages than failed worker commands and crashes.
      See AtMostOneInHand for what the worker can have in hand. */
  lemma EveryMessageIsAccountedFor(cap: nat, clock: real, run: seq<Step>)
    requires IsRun(cap, Init(clock), run)
    ensures
      var s := Final(cap, Init(clock), run);
      && Balanced(s)
      && Total(s.hist.journal, Lost) + Total(s.hist.journal, Extra) <= s.hist.errors
      && HandCount(s.worker) <= if Dirty(s.worker) then 2 else 1
  {
    assert Sound(Init(clock)) by {
      forall x ensures BalancedFor(Init(clock), x) {
      }
    }
    SoundRun(cap, Init(clock), run);
  }

  /** As long as no two taggings read the same time, there is never more than one copy in hand,
      so that a crash or a failed command loses at most one message. `last` is any time before
      the first tagging. */
  lemma AtMostOneInHand(cap: nat, clock: real, run: seq<Step>, last: real)
    requires IsRun(cap, Init(clock), run) && TagsAdvance(cap, Init(clock), run, last)
    ensures
      var s := Final(cap, Init(clock), run);
      && HandCount(s.worker) <= 1
      && forall step :: Enabled(s, step) ==> Losses(Next(cap, s, step)) <= Losses(s) + 1
  {
    var final := OneRun(cap, Init(clock), run, last);
    var s := Final(cap, Init(clock), run);
    LosesAtMostOne(cap, s, Tick(s.clock), final);
    forall step | Enabled(s, step)
      ensures Losses(Next(cap, s, step)) <= Losses(s) + 1
    {
      LosesAtMostOne(cap, s, step, final);
    }
  }

  /** And this is needed: with equal time stamps, here a clock that stands still, two copies can
      get tagged to the same text, and the loop's handler removes the second copy after the reply
      to the removal of the first one was lost. */
  lemma TwoCopiesInHand()
    ensures exists s :: Reachable(2, s) && s.clock == 0.0 && HandCount(s.worker) == 2
  {
    var s := Init(0.0);
    EmptyIsReachable(2);
    Reach(2, s, Ingest(Insert(0)));
    s := Next(2, s, Ingest(Insert(0)));
    s := SweepWithoutFlag(s);
    s := SweepWithoutFlag(s);
    s := RowDeleted(s);
    var m := NewMessage(Some(0), 0.0);
    assert s.q == Queues([m, m], [], []);
    s := BothTagged(s, m);
    s := BothRemoved(s, Tagged(m, 0.0));
  }

  lemma {:induction false} TallyWithinTotal(j: Journal, k: Kind, x: Option<LogId>)
    ensures Tally(j, k, x) <= Total(j, k)
  {
    match j
    case Blank =>
    case Entry(_, _, _, before) => TallyWithinTotal(before, k, x);
  }

  lemma NothingLostWithoutFailure(cap: nat, clock: real, run: seq<Step>, x: Option<LogId>)
    requires IsRun(cap, Init(clock), run)
    requires Final(cap, Init(clock), run).hist.errors == 0
    ensures
      var s := Final(cap, Init(clock), run);
      Tally(s.hist.journal, Pushed, x) == Present(s, x) + Tally(s.hist.journal, Acked, x)
  {
    var s := Final(cap, Init(clock), run);
    EveryMessageIsAccountedFor(cap, clock, run);
    assert BalancedFor(s, x);
    TallyWithinTotal(s.hist.journal, Lost, x);
    TallyWithinTotal(s.hist.journal, Extra, x);
  }

  lemma RecoveryLoss(cap: nat, s: State, u: StartupStep)
    requires StartupEnabled(s, u) && HandCount(s.worker) == 0 && u != RecoverTake(ReplyLost)
    ensures Total(NextStartup(cap, s, u).hist.journal, Lost) == Losses(s)
  {
  }

  lemma TakeBackLoss(s: State, o: Outcome)
    requires s.worker.Retrying? && s.worker.hand == 0 && !o.ReplyLost?
    ensures Losses(TakeBack(s, o)) == Losses(s)
  {
  }

  lemma PushAgainLoss(s: State, o: Outcome)
    requires s.worker.Removed? && s.worker.msg.Json? && s.worker.hand == 0
    ensures Losses(PushAgain(s, o)) == Losses(s)
  {
    var w := s.worker;
    ExtraLosesNothing(s.hist, w.msg, 1);
    FailLoses(s, w.msg, w.inner, 0);
    FailLoses(s.(hist := s.hist.Note(Extra, w.msg, 1)), w.msg, w.inner, 0);
  }

  lemma RetryLoss(s: State, r: RetryStep)
    requires RetryEnabled(s, r) && HandCount(s.worker) == 0 && r != RetryRemove(ReplyLost)
    ensures Losses(NextRetry(s, r)) == Losses(s)
  {
    match r
    case Raise =>
    case RetryRemove(o) => TakeBackLoss(s, o);
    case RetryPush(o) => PushAgainLoss(s, o);
  }

  /** A message can only get lost between the LREM that took it off the processing list and
      the LPUSH that was to put it back: it is in hand, or the LREM's reply has just failed. */
  lemma LossOnlyFromTheHand(cap: nat, s: State, step: Step)
    requires Enabled(s, step) && Losses(Next(cap, s, step)) != Losses(s)
    ensures HandCount(s.worker) > 0 || step == Startup(RecoverTake(ReplyLost)) || step == Retry(RetryRemove(ReplyLost))
  {
    if HandCount(s.worker) == 0 {
      match step
      case Startup(u) =>
        if u != RecoverTake(ReplyLost) {
          RecoveryLoss(cap, s, u);
        }
      case Retry(r) =>
        if r != RetryRemove(ReplyLost) {
          RetryLoss(s, r);
        }
      case _ =>
    }
  }

  /** Such losses do happen: after a run without any failure one crash between the LREM and the
      LPUSH of a retry loses the message, and its log is forgotten, flagged and without verdict. */
  lemma CrashInBetweenLoses(cap: nat)
    requires cap > 0
    ensures exists s ::
      && Reachable(cap, s) && s.hist.errors == 0 && Enabled(s, Crash)
      && var t := Next(cap, s, Crash);
         && Losses(t) == 1 && t.hist.errors == 1
         && 0 in t.rows && t.rows[0] && Present(t, Some(0)) == 0 && !Judged(t, 0)
  {
    WorkerStarts(cap);
    var s := LogArrives(cap, Init(0.0).(worker := Polling));
    s := LogIsInHand(cap, s, NewMessage(Some(0), 0.0));
    assert Reachable(cap, s) && Losses(Next(cap, s, Crash)) == 1;
  }

  /** Every committed log row is accounted for: the next sweep selects it, or its message is in
      a list or in hand, or its verdict is on record, or its message is among the lost, of
      which there are at most as many as failures. */
  lemma NoLogIsForgotten(cap: nat, clock: real, run: seq<Step>, l: LogId)
    requires IsRun(cap, Init(clock), run)
    requires l in Final(cap, Init(clock), run).rows
    ensures
      var s := Final(cap, Init(clock), run);
      || !s.rows[l]
      || Present(s, Some(l)) > 0
      || Judged(s, l)
      || (Tally(s.hist.journal, Lost, Some(l)) > 0 && Total(s.hist.journal, Lost) <= s.hist.errors)
  {
    var s := Final(cap, Init(clock), run);
    EveryMessageIsAccountedFor(cap, clock, run);
    RowsRun(cap, Init(clock), run, l);
    OneAlertRun(cap, Init(clock), run);
    assert BalancedFor(s, Some(l));
    assert FlagHolds(s, l);
  }

  lemma RejectedIngestLeavesNothing(cap: nat, clock: real, run: seq<Step>, l: LogId)
    requires IsRun(cap, Init(clock), run)
    requires l in Final(cap, Init(clock), run).hist.answered429
    ensures
      var s := Final(cap, Init(clock), run);
      s.hist.ownPushes[l] == 0 && l !in s.rows && s.alerts[l] == 0
  {
    RowsRun(cap, Init(clock), run, l);
    OneAlertRun(cap, Init(clock), run);
  }

  lemma {:induction false} OneAlertRun(cap: nat, s: State, run: seq<Step>)
    requires IsRun(cap, s, run) && OneAlert(s)
    ensures OneAlert(Final(cap, s, run))
    decreases |run|
  {
    if run != [] {
      OneAlertStep(cap, s, run[0]);
      OneAlertRun(cap, Next(cap, s, run[0]), run[1..]);
    }
  }

  lemma AtMostOneAlertPerLog(cap: nat, clock: real, run: seq<Step>, l: LogId)
    requires IsRun(cap, Init(clock), run)
    ensures
      var s := Final(cap, Init(clock), run);
      && s.alerts[l] <= 1
      && (Tally(s.hist.journal, Acked, Some(l)) > 0 ==> Judged(s, l))
  {
    OneAlertRun(cap, Init(clock), run);
  }

  /** From the moment a log has its alert, whatever copies of its message duplication, recovery
      and retry produce, the engines never see the log again. */
  lemma {:induction false} CopiesAfterTheAlertAreInert(cap: nat, s: State, run: seq<Step>, l: LogId)
    requires IsRun(cap, s, run) && OneAlert(s) && s.alerts[l] > 0
    ensures
      var end := Final(cap, s, run);
      l in end.hist.deleted || (end.alerts[l] == 1 && end.hist.evaluated[l] == s.hist.evaluated[l])
    decreases |run|
  {
    if run != [] {
      var next := Next(cap, s, run[0]);
      OneAlertStep(cap, s, run[0]);
      AlertedStep(cap, s, run[0], l);
      if l in next.hist.deleted {
        DeletedStays(cap, next, run[1..], l);
      } else {
        CopiesAfterTheAlertAreInert(cap, next, run[1..], l);
      }
    }
  }

  lemma {:induction false} DeletedStays(cap: nat, s: State, run: seq<Step>, l: LogId)
    requires IsRun(cap, s, run) && l in s.hist.deleted
    ensures l in Final(cap, s, run).hist.deleted
    decreases |run|
  {
    if run != [] {
      DeletedStep(cap, s, run[0], l);
      DeletedStays(cap, Next(cap, s, run[0]), run[1..], l);
    }
  }

  lemma DeletedStep(cap: nat, s: State, step: Step, l: LogId)
    requires Enabled(s, step) && l in s.hist.deleted
    ensures l in Next(cap, s, step).hist.deleted
  {
  }

  /** With one worker the unique index never refuses: an IntegrityError at the alert's commit
      means that the log row was deleted meanwhile by a request answered 429. */
  lemma IntegrityErrorMeansRowDeleted(cap: nat, clock: real, run: seq<Step>)
    requires IsRun(cap, Init(clock), run)
    requires HandlingEnabled(Final(cap, Init(clock), run), InsertAlert)
    ensures
      var s := Final(cap, Init(clock), run);
      var l := Id(s.worker.msg).value;
      && s.alerts[l] == 0
      && (l in s.rows <==> NextHandling(s, InsertAlert).alerts[l] == 1)
      && (l !in s.rows ==> l in s.hist.deleted)
  {
    OneAlertRun(cap, Init(clock), run);
  }

  /** The queue outgrows MAX_QUEUE_DEPTH by no more than the requests that were between LLEN
      and LPUSH at one time and the failures so far. */
  lemma MainQueueBound(cap: nat, clock: real, run: seq<Step>)
    requires IsRun(cap, Init(clock), run)
    ensures
      var s := Final(cap, Init(clock), run);
      |s.q.main| + |s.req.passed| + |s.q.processing| + HandCount(s.worker) <= cap + s.hist.peak + s.hist.errors
  {
    BoundedRun(cap, Init(clock), run);
  }

  /** The limit alone does not hold, and requests alone exceed it: `k` that read the depth before
      any of them pushes take the queue to cap + k - 1 entries, with no worker running. */
  lemma LimitCanBeExceeded(cap: nat, k: nat)
    requires cap > 0 && k > 0
    ensures exists s ::
      Reachable(cap, s) && s.worker.Down? && s.hist.errors == 0 && s.hist.peak == k && |s.q.main| == cap + k - 1
  {
    EmptyIsReachable(cap);
    var s, _ := Crowd(cap, Init(0.0), 0, 0, 0, k);
  }

  /** The bound is sharp: together with a retry, which pushes without any check, they attain it
      for every limit and every number of requests, without a failure. With k = 1, where no two
      requests are ever past the check at once, the retry alone does it. */
  lemma BoundIsAttained(cap: nat, k: nat)
    requires cap > 0 && k > 0
    ensures exists s ::
      Reachable(cap, s) && s.hist.errors == 0 && s.hist.peak == k && |s.q.main| == cap + k
  {
    WorkerStarts(cap);
    var s, peak, next := Fill(cap, Init(0.0).(worker := Polling), 0, 0, 0, 1);
    s := WorkerTakes(cap, s, 1, 0, peak, next);
    s, next := Crowd(cap, s, 0, peak, next, k);
    s := WorkerRetries(cap, s, cap - 1 + k, 0, k, next);
  }

  lemma RetryLadder(cap: nat, clock: real, run: seq<Step>)
    requires IsRun(cap, Init(clock), run) && clock >= 0.0
    ensures
      var s := Final(cap, Init(clock), run);
      && (forall m :: m in s.q.main + s.q.processing ==> m.Json? && m.retryCount <= 2)
      && (forall m :: m in s.q.dlq ==> m.Json? && m.retryCount == 3)
  {
    LadderRun(cap, Init(clock), run);
  }

  /** The sleep's 5 second cap never bites: a message that is past its back-off sleep is past
      its process_after time. */
  lemma BackoffIsNeverCutShort(cap: nat, clock: real, run: seq<Step>)
    requires IsRun(cap, Init(clock), run) && clock >= 0.0
    ensures
      var s := Final(cap, Init(clock), run);
      s.worker.Holding? && !s.worker.stage.Fresh? && !s.worker.stage.Waiting? ==>
        s.worker.msg.Json? && s.worker.msg.processAfter.GetOr(0.0) <= s.clock
  {
    LadderRun(cap, Init(clock), run);
  }

  /** The delays are there: a message that was pushed again by its first retry is not loaded, let
      alone evaluated, before 2 seconds have passed, and by its second retry not before 4. What
      identifies it from then on is its text, apart from the time at which it was taken. */
  lemma RetriesAreSpaced(cap: nat, clock: real, run: seq<Step>, o: Outcome, later: seq<Step>)
    requires IsRun(cap, Init(clock), run) && clock >= 0.0 && Executed(o)
    requires Final(cap, Init(clock), run).worker.Removed? && Final(cap, Init(clock), run).worker.msg.Json?
    requires Final(cap, Init(clock), run).worker.msg.retryCount < 2
    requires IsRun(cap, Next(cap, Final(cap, Init(clock), run), Retry(RetryPush(o))), later)
    ensures
      var s := Final(cap, Init(clock), run);
      var pushed := Next(cap, s, Retry(RetryPush(o)));
      var w := Final(cap, pushed, later).worker;
      && pushed.q.main != [] && pushed.q.main[1..] == s.q.main
      && pushed.q.main[0].Json? && pushed.q.main[0].retryCount == s.worker.msg.retryCount + 1
      && (w.Holding? && w.msg.Json? && w.msg.(startedAt := None) == pushed.q.main[0].(startedAt := None)
          && !w.stage.Fresh? && !w.stage.Waiting? ==>
            Final(cap, pushed, later).clock >= s.clock + if s.worker.msg.retryCount == 0 then 2.0 else 4.0)
  {
    var s := Final(cap, Init(clock), run);
    LadderRun(cap, Init(clock), run);
    assert Pow2(1) == 2 && Pow2(2) == 4;
    LadderStep(cap, s, Retry(RetryPush(o)));
    LadderRun(cap, Next(cap, s, Retry(RetryPush(o))), later);
  }

  /** The startup makes good for every row that ingest could not push: from any state without a
      running worker, with room in the queue and without failures, a start flags every row and
      pushes a message for each one that was not flagged. */
  lemma RestartLeavesNoRowBehind(cap: nat, s: State, order: seq<LogId>)
    requires s.worker.Down? && ListsUnenqueued(s.rows, order)
    requires |s.q.main| + |s.q.processing| + |order| <= cap
    ensures exists run ::
      && IsRun(cap, s, run)
      && var end := Final(cap, s, run);
         && end.worker.Polling? && end.rows.Keys == s.rows.Keys
         && (forall l :: l in end.rows ==> end.rows[l])
         && (forall l :: l in s.rows && !s.rows[l] ==> NewMessage(Some(l), s.clock) in end.q.main)
  {
    var recovery := [Startup(Start)] + RecoverySteps(s.q.processing, s.clock);
    StartRecoversExactly(cap, s);
    var recovered := Final(cap, s, recovery);
    StaleAtMost(s.q.processing, s.clock);
    StartupSweep(cap, recovered, order);
    var sweep := StartupSteps(order, Room(cap, recovered.q));
    RunThen(cap, s, recovery, sweep);
    assert order[..|order|] == order;
    var end := Final(cap, recovered, sweep);
    forall l | l in s.rows && !s.rows[l]
      ensures NewMessage(Some(l), s.clock) in end.q.main
    {
      MessageOfEachReversed(order, s.clock, l);
    }
    assert IsRun(cap, s, recovery + sweep) && Final(cap, s, recovery + sweep) == end;
  }

  /** After any run, a worker left to itself without errors completes at most three iterations
      for each live message, takes at most 33 steps for each besides waiting, and has nothing but
      idle steps left exactly when nothing is waiting or being handled any more. */
  lemma DrainsWithinThreeRounds(cap: nat, clock: real, run: seq<Step>, drain: seq<Step>)
    requires IsRun(cap, Init(clock), run) && clock >= 0.0
    requires IsRun(cap, Final(cap, Init(clock), run), drain) && AllSteady(drain)
    ensures
      var s := Final(cap, Init(clock), run);
      var end := Final(cap, s, drain);
      && Completed(drain) + LiveCount(end) <= 3 * LiveCount(s)
      && (AtWork(s.worker) ==>
            && Moves(cap, s, drain) <= 33 * LiveCount(s)
            && (Drained(end) <==> forall step :: Enabled(end, step) && Steady(step) ==> Idle(end, step)))
  {
    var s := Final(cap, Init(clock), run);
    var end := Final(cap, s, drain);
    LadderRun(cap, Init(clock), run);
    LadderRun(cap, s, drain);
    OneAlertRun(cap, Init(clock), run);
    OneAlertRun(cap, s, drain);
    WorkRun(cap, s, drain);
    WorkBounds(s);
    WorkBounds(end);
    if AtWork(s.worker) {
      EffortRun(cap, s, drain);
      EffortBounds(s);
      EffortBounds(end);
      IdleMeansDrained(end);
    }
  }

  /** And the end is always within reach: some steps of the worker alone empty the queue. */
  lemma EverythingDrains(cap: nat, clock: real, run: seq<Step>)
    requires IsRun(cap, Init(clock), run) && clock >= 0.0
    requires AtWork(Final(cap, Init(clock), run).worker)
    ensures
      var s := Final(cap, Init(clock), run);
      exists drain :: IsRun(cap, s, drain) && AllSteady(drain) && Drained(Final(cap, s, drain))
  {
    LadderRun(cap, Init(clock), run);
    OneAlertRun(cap, Init(clock), run);
    DrainExists(cap, Final(cap, Init(clock), run));
  }
}
