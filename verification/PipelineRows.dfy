/** The enqueued flag: a row that carries it had a message pushed, so the startup sweep may
    rely on it; and what a request answered with 429 leaves behind. */
module PipelineRows {
  import opened Collections
  import opened QueueService
  import opened Pipeline
  import opened PipelineAccounting

  function Pushes(s: State, l: LogId): nat {
    Tally(s.hist.journal, Pushed, Some(l))
  }

  function Marked(w: Worker): set<LogId> {
    match w
    case Sweeping(_, marked) => marked
    case SweepPassed(_, _, marked) => marked
    case _ => {}
  }

  /** A flag, set or about to be set, stands for at least one push. */
  predicate FlagHolds(s: State, l: LogId) {
    (l in s.rows && s.rows[l]) || l in s.req.pushed || l in Marked(s.worker) ==> Pushes(s, l) > 0
  }

  /** A log id belongs to one request, which is at one place; a request answered 429 has pushed
      nothing and its row is gone. */
  predicate Owned(s: State, l: LogId) {
    var r, h := s.req, s.hist;
    && (l in r.committed ==> l !in r.passed + r.rejected + r.pushed + h.answered429)
    && (l in r.passed ==> l !in r.rejected + r.pushed + h.answered429)
    && (l in r.rejected ==> l !in r.pushed + h.answered429)
    && (l in r.pushed ==> l !in h.answered429)
    && (l in r.committed + r.passed + r.rejected + r.pushed + h.answered429 ==> l in h.issued)
    && (l in h.answered429 ==> l !in s.rows)
    && (h.ownPushes[l] > 0 ==> l in h.issued && l !in r.committed + r.passed + r.rejected + h.answered429)
  }

  lemma IngestStepHolds(cap: nat, s: State, i: IngestStep, l: LogId)
    requires IngestEnabled(s, i) && Owned(s, l) && FlagHolds(s, l)
    ensures Owned(NextIngest(cap, s, i), l) && FlagHolds(NextIngest(cap, s, i), l)
  {
  }

  lemma StartupStepHolds(cap: nat, s: State, u: StartupStep, l: LogId)
    requires StartupEnabled(s, u) && Owned(s, l) && FlagHolds(s, l)
    ensures Owned(NextStartup(cap, s, u), l) && FlagHolds(NextStartup(cap, s, u), l)
  {
    StartupTally(cap, s, u, Some(l));
  }

  lemma HandlingStepHolds(s: State, h: HandlingStep, l: LogId)
    requires HandlingEnabled(s, h) && Owned(s, l) && FlagHolds(s, l)
    ensures Owned(NextHandling(s, h), l) && FlagHolds(NextHandling(s, h), l)
  {
    HandlingTally(s, h, Some(l));
    assert NextHandling(s, h).rows == s.rows && NextHandling(s, h).req == s.req;
  }

  lemma RetryStepHolds(s: State, r: RetryStep, l: LogId)
    requires RetryEnabled(s, r) && Owned(s, l) && FlagHolds(s, l)
    ensures Owned(NextRetry(s, r), l) && FlagHolds(NextRetry(s, r), l)
  {
    RetryTally(s, r, Some(l));
    assert NextRetry(s, r).rows == s.rows && NextRetry(s, r).req == s.req;
  }

  lemma RowStepHolds(cap: nat, s: State, step: Step, l: LogId)
    requires Enabled(s, step) && Owned(s, l) && FlagHolds(s, l)
    ensures Owned(Next(cap, s, step), l) && FlagHolds(Next(cap, s, step), l)
  {
    match step
    case Ingest(i) => IngestStepHolds(cap, s, i, l);
    case Startup(u) => StartupStepHolds(cap, s, u, l);
    case Handle(h) => HandlingStepHolds(s, h, l);
    case Retry(r) => RetryStepHolds(s, r, l);
    case _ =>
  }

  lemma {:induction false} RowsRun(cap: nat, s: State, run: seq<Step>, l: LogId)
    requires IsRun(cap, s, run) && Owned(s, l) && FlagHolds(s, l)
    ensures Owned(Final(cap, s, run), l) && FlagHolds(Final(cap, s, run), l)
    decreases |run|
  {
    if run != [] {
      RowStepHolds(cap, s, run[0], l);
      RowsRun(cap, Next(cap, s, run[0]), run[1..], l);
    }
  }
}
