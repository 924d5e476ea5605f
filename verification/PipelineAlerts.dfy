/** Exactly-once effect over at-least-once delivery. */
module PipelineAlerts {
  import opened Collections
  import opened QueueService
  import opened Pipeline
  import opened PipelineAccounting

  /** The log's verdict is on record: it has its alert, it was scored NONE, or its row was
      deleted by a request that was answered 429. */
  predicate Judged(s: State, l: LogId) {
    s.alerts[l] > 0 || l in s.hist.safe || l in s.hist.deleted
  }

  ghost predicate StageHolds(s: State) {
    var w := s.worker;
    w.Holding? && !w.stage.Fresh? ==>
      && Id(w.msg).Some?
      && var l := Id(w.msg).value;
      && (w.stage.Loaded? || w.stage.Clear? || w.stage.Anomalous? ==> l in s.rows || l in s.hist.deleted)
      && (w.stage.Clear? || w.stage.Anomalous? ==> s.alerts[l] == 0)
      && (w.stage.Settled? ==> Judged(s, l))
  }

  ghost predicate OneAlert(s: State) {
    && (forall l :: s.alerts[l] <= 1 && (s.alerts[l] > 0 ==> l in s.rows))
    && (forall l :: Tally(s.hist.journal, Acked, Some(l)) > 0 ==> Judged(s, l))
    && StageHolds(s)
  }

  lemma JudgedStays(cap: nat, s: State, step: Step, l: LogId)
    requires Enabled(s, step)
    ensures Judged(s, l) ==> Judged(Next(cap, s, step), l)
  {
  }

  lemma StageIngest(cap: nat, s: State, i: IngestStep)
    requires IngestEnabled(s, i) && StageHolds(s)
    ensures StageHolds(NextIngest(cap, s, i))
  {
  }

  lemma StageHandling(s: State, h: HandlingStep)
    requires HandlingEnabled(s, h) && StageHolds(s)
    ensures StageHolds(NextHandling(s, h))
  {
  }

  lemma StageStep(cap: nat, s: State, step: Step)
    requires Enabled(s, step) && StageHolds(s)
    ensures StageHolds(Next(cap, s, step))
  {
    match step
    case Ingest(i) => StageIngest(cap, s, i);
    case Handle(h) => StageHandling(s, h);
    case _ =>
  }

  lemma OnlyAckAcknowledges(cap: nat, s: State, step: Step, x: Option<LogId>)
    requires Enabled(s, step)
    ensures
      Tally(Next(cap, s, step).hist.journal, Acked, x) == Tally(s.hist.journal, Acked, x)
      || (step.Handle? && step.h.Ack? && Id(s.worker.msg) == x)
  {
    match step
    case Startup(u) => StartupTally(cap, s, u, x);
    case Handle(h) => HandlingTally(s, h, x);
    case Retry(r) => RetryTally(s, r, x);
    case _ =>
  }

  lemma AckedStep(cap: nat, s: State, step: Step, l: LogId)
    requires Enabled(s, step) && OneAlert(s)
    ensures Tally(Next(cap, s, step).hist.journal, Acked, Some(l)) > 0 ==> Judged(Next(cap, s, step), l)
  {
    JudgedStays(cap, s, step, l);
    OnlyAckAcknowledges(cap, s, step, Some(l));
    assert Tally(s.hist.journal, Acked, Some(l)) > 0 ==> Judged(s, l);
  }

  lemma AlertsStep(cap: nat, s: State, step: Step, l: LogId)
    requires Enabled(s, step) && OneAlert(s)
    ensures Next(cap, s, step).alerts[l] <= 1
    ensures Next(cap, s, step).alerts[l] > 0 ==> l in Next(cap, s, step).rows
  {
  }

  lemma OneAlertStep(cap: nat, s: State, step: Step)
    requires Enabled(s, step) && OneAlert(s)
    ensures OneAlert(Next(cap, s, step))
  {
    StageStep(cap, s, step);
    forall l
      ensures Next(cap, s, step).alerts[l] <= 1
      ensures Next(cap, s, step).alerts[l] > 0 ==> l in Next(cap, s, step).rows
      ensures Tally(Next(cap, s, step).hist.journal, Acked, Some(l)) > 0 ==> Judged(Next(cap, s, step), l)
    {
      AlertsStep(cap, s, step, l);
      AckedStep(cap, s, step, l);
    }
  }

  /** Once a log has its alert, no later copy of its message reaches the engines. */
  lemma AlertedStep(cap: nat, s: State, step: Step, l: LogId)
    requires Enabled(s, step) && OneAlert(s) && s.alerts[l] > 0
    ensures Next(cap, s, step).hist.evaluated[l] == s.hist.evaluated[l]
    ensures Next(cap, s, step).alerts[l] == 1 || l in Next(cap, s, step).hist.deleted
  {
  }
}
