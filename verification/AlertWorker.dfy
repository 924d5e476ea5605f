/** The two tables, as the code reads and writes them in one session. */
module Database {
  import opened Collections
  import opened Severities
  import opened Text
  import QueueService

  type LogId = QueueService.LogId

  datatype LogRow = LogRow(line: LogLine, enqueued: bool)

  datatype Alert = Alert(severity: Severity, riskScore: real, anomalyType: string)

  class Database {
    var rows: map<LogId, LogRow>
    var alerts: map<LogId, Alert>

    constructor ()
      ensures rows == map[] && alerts == map[]
    {
      rows, alerts := map[], map[];
    }
  }
}

/** app/services/log_service.py: one call of ingest_log that nothing interleaves with. */
module LogService {
  import opened Collections
  import opened QueueService
  import opened Database
  import opened Text

  datatype Answer = Created | TooManyRequests

  /** What goes wrong besides a full queue: a command of enqueue fails, LPUSH possibly after it
      took effect, or the commit of the flag does. */
  datatype Failure = NoFailure | LlenFails | LpushFails | LpushReplyLost | FlagNotCommitted

  class LogService {
    const db: Database
    const queue: LogQueue

    constructor (db: Database, queue: LogQueue)
      ensures this.db == db && this.queue == queue
    {
      this.db, this.queue := db, queue;
    }

    /** A rejected log leaves no trace; a log that is kept has a message in the queue unless its
        row says that the sweep is to push one. */
    method IngestLog(id: LogId, line: LogLine, now: real, maxDepth: nat, failure: Failure) returns (answer: Answer)
      requires id !in db.rows
      modifies db`rows, queue
      ensures answer.TooManyRequests? <==> !failure.LlenFails? && |old(queue.main)| >= maxDepth
      ensures answer.TooManyRequests? ==> db.rows == old(db.rows) && queue.View() == old(queue.View())
      ensures answer.Created? ==> db.rows == old(db.rows)[id := LogRow(line, failure.NoFailure?)]
      ensures answer.Created? ==>
                queue.View() ==
                if failure.LlenFails? || failure.LpushFails? then old(queue.View())
                else PushMain(old(queue.View()), NewMessage(Some(id), now))
    {
      db.rows := db.rows[id := LogRow(line, false)];
      if failure.LlenFails? || (failure.LpushFails? && |queue.main| < maxDepth) {
        return Created;
      }
      var accepted := queue.Enqueue(Some(id), now, maxDepth);
      if !accepted {
        db.rows := db.rows - {id};
        return TooManyRequests;
      }
      if failure.NoFailure? {
        db.rows := db.rows[id := LogRow(line, true)];
      }
      return Created;
    }
  }
}

/** app/workers/alert_worker.py over the real stores: one run of _process_message and one of
    the startup sweep, with nothing interleaved. */
module AlertWorker {
  import opened Collections
  import opened Severities
  import opened Text
  import opened SlidingWindow
  import opened QueueService
  import opened Database
  import opened ProfileStore
  import opened StatisticalEngine
  import opened RuleEngine
  import opened BaselineStore
  import Scoring = ScoringEngine
  import Isolation = IsolationEngine

  datatype Verdict =
    | NoLogId
    | LogNotFound
    | AlreadyAlerted
    | Evaluated(findings: Scoring.Findings)

  /** The row's insertion is the whole effect of an evaluation on the alerts table. */
  function AlertFor(cfg: Scoring.Settings, f: Scoring.Findings): Alert {
    var r := Scoring.Compute(cfg, f);
    Alert(r.severity, r.riskScore, r.anomalyType)
  }

  /** The baseline's quota has room for another vector from the address. */
  predicate Admits(sources: seq<Option<string>>, maxSize: nat, ip: Option<string>) {
    ip.Some? ==> SlotsOf(sources, ip.value) < Quota(maxSize)
  }

  /** What an evaluation does to the alerts table and to the baseline. */
  function AlertsAfter(cfg: Scoring.Settings, alerts: map<LogId, Alert>, id: LogId, f: Scoring.Findings)
    : map<LogId, Alert>
  {
    if Scoring.CreatesAlert(cfg, f) then alerts[id := AlertFor(cfg, f)] else alerts
  }

  function AcceptedAfter(
    cfg: Scoring.Settings, accepted: seq<Sample>, sources: seq<Option<string>>, maxSize: nat, line: LogLine,
    f: Scoring.Findings): seq<Sample>
  {
    if Scoring.OffersToBaseline(cfg, f) && Admits(sources, maxSize, line.ip)
    then accepted + [Sample(Features(line), line.ip)] else accepted
  }

  function FindingsOf(rule: Option<Severity>, stat: real, iso: real): Scoring.Findings {
    Scoring.Findings(stat, iso, rule.Some?, rule)
  }

  lemma IsolationUnit(model: Option<Isolation.Model>, features: seq<real>)
    ensures 0.0 <= Isolation.ScoreWith(model, features) <= 1.0
  {
    if model.Some? {
      Isolation.ScoreIsUnitAndAntitone(model.value(features), 0.0);
    }
  }

  class AlertWorker {
    const cfg: Scoring.Settings
    const rateThreshold: int
    const db: Database
    const queue: LogQueue
    const tracker: IpTracker
    const profiles: ProfileStore
    const baseline: BaselineStore
    const engine: Isolation.IsolationEngine

    ghost predicate Valid()
      reads tracker, profiles, baseline
    {
      tracker.Valid() && profiles.Valid() && baseline.Valid() && baseline.featureDim == Some(FEATURE_DIM)
    }

    constructor (
      cfg: Scoring.Settings, rateThreshold: int, db: Database, queue: LogQueue, tracker: IpTracker,
      profiles: ProfileStore, baseline: BaselineStore, engine: Isolation.IsolationEngine)
      requires tracker.Valid() && profiles.Valid() && baseline.Valid() && baseline.featureDim == Some(FEATURE_DIM)
      ensures Valid()
    {
      this.cfg, this.rateThreshold, this.db, this.queue := cfg, rateThreshold, db, queue;
      this.tracker, this.profiles, this.baseline, this.engine := tracker, profiles, baseline, engine;
    }

    method RunRules(line: LogLine, now: real) returns (severity: Option<Severity>)
      requires tracker.Valid() && (tracker.log != [] ==> tracker.log[|tracker.log| - 1].at <= now)
      modifies tracker
      ensures tracker.Valid() && tracker.log == old(tracker.log) + [Stamped(now, line)]
      ensures severity == SeverityOf(tracker.log, tracker.window, tracker.threshold)
      ensures severity.Some? ==> Rank(severity.value) > 0
    {
      var rule := tracker.Evaluate(line, now);
      VerdictSeverity(tracker.log, tracker.window, tracker.threshold, rule);
      severity := if rule.Some? then Some(rule.value.severity) else None;
    }

    method RunScores(line: LogLine, now: real) returns (stat: real, iso: real)
      requires profiles.Valid()
      requires profiles.history != [] ==> profiles.history[|profiles.history| - 1].at <= now
      modifies profiles
      ensures profiles.Valid()
      ensures profiles.history == old(profiles.history) + [Stamped(now, Visit(line.ip, IsErrorLevel(line.level)))]
      ensures stat == ScoreOf(StatsOf(profiles.history, profiles.window, line.ip), rateThreshold)
      ensures iso == Isolation.ScoreWith(engine.model, Features(line))
      ensures 0.0 <= stat <= 1.0 && 0.0 <= iso <= 1.0
    {
      stat := Score(profiles, IsErrorLevel(line.level), line.ip, now, rateThreshold);
      iso := Isolation.ScoreWith(engine.model, Features(line));
      IsolationUnit(engine.model, Features(line));
    }

    /** The engines' part of _process_message (steps 1 to 3): the findings as a function of the
        histories that end with this line, and of the model. */
    method RunEngines(line: LogLine, now: real) returns (f: Scoring.Findings)
      requires Valid()
      requires tracker.log != [] ==> tracker.log[|tracker.log| - 1].at <= now
      requires profiles.history != [] ==> profiles.history[|profiles.history| - 1].at <= now
      modifies tracker, profiles
      ensures Valid()
      ensures tracker.log == old(tracker.log) + [Stamped(now, line)]
      ensures profiles.history == old(profiles.history) + [Stamped(now, Visit(line.ip, IsErrorLevel(line.level)))]
      ensures f.ruleSeverity == SeverityOf(tracker.log, tracker.window, tracker.threshold)
      ensures f.stat == ScoreOf(StatsOf(profiles.history, profiles.window, line.ip), rateThreshold)
      ensures f.iso == Isolation.ScoreWith(engine.model, Features(line))
      ensures Scoring.FromWorker(f) && Scoring.UnitScores(f)
    {
      var severity := RunRules(line, now);
      var stat, iso := RunScores(line, now);
      f := FindingsOf(severity, stat, iso);
    }

    /** Steps 7 to 9: alert, baseline, retraining. The spawned task runs up to its first await
        before the worker checks again. */
    method Conclude(id: LogId, line: LogLine, f: Scoring.Findings, now: real) returns (retrain: bool)
      requires Valid()
      modifies db`alerts, baseline, engine`retraining
      ensures Valid()
      ensures db.alerts == AlertsAfter(cfg, old(db.alerts), id, f)
      ensures
        var r := Scoring.Compute(cfg, f);
        db.alerts == if r.severity == NoAlert then old(db.alerts)
                     else old(db.alerts)[id := Alert(r.severity, r.riskScore, r.anomalyType)]
      ensures baseline.accepted ==
              AcceptedAfter(cfg, old(baseline.accepted), old(baseline.ipBuffer), baseline.maxSize, line, f)
      ensures retrain <==> Isolation.MayRetrain(engine.cfg, old(engine.View()), |baseline.buffer|, now)
      ensures engine.View() == Isolation.Triggered(engine.cfg, old(engine.View()), |baseline.buffer|, now)
    {
      var result := Scoring.Compute(cfg, f);
      if result.severity != NoAlert {
        db.alerts := db.alerts[id := Alert(result.severity, result.riskScore, result.anomalyType)];
      }
      if !f.triggered && result.riskScore < cfg.low {
        var _ := baseline.Add(Features(line), line.ip);
      }
      retrain := engine.ShouldRetrain(|baseline.buffer|, now);
      if retrain {
        var _ := engine.BeginRetrain();
      }
    }

    /** The whole evaluation of a log. */
    method EvaluateLog(id: LogId, line: LogLine, now: real) returns (f: Scoring.Findings)
      requires Valid()
      requires tracker.log != [] ==> tracker.log[|tracker.log| - 1].at <= now
      requires profiles.history != [] ==> profiles.history[|profiles.history| - 1].at <= now
      modifies db`alerts, tracker, profiles, baseline, engine`retraining
      ensures Valid() && Scoring.FromWorker(f) && Scoring.UnitScores(f)
      ensures tracker.log != [] && f.ruleSeverity == SeverityOf(tracker.log, tracker.window, tracker.threshold)
      ensures f.stat == ScoreOf(StatsOf(profiles.history, profiles.window, line.ip), rateThreshold)
      ensures f.iso == Isolation.ScoreWith(engine.model, Features(line))
      ensures engine.View() == Isolation.Triggered(engine.cfg, old(engine.View()), |baseline.buffer|, now)
      ensures tracker.log == old(tracker.log) + [Stamped(now, line)]
      ensures profiles.history == old(profiles.history) + [Stamped(now, Visit(line.ip, IsErrorLevel(line.level)))]
      ensures db.alerts == AlertsAfter(cfg, old(db.alerts), id, f)
      ensures baseline.accepted ==
              AcceptedAfter(cfg, old(baseline.accepted), old(baseline.ipBuffer), baseline.maxSize, line, f)
    {
      f := RunEngines(line, now);
      var _ := Conclude(id, line, f, now);
    }

    /** One delivery of a message. Nothing but the queue changes for a message without a log and
        for a log that has its alert; otherwise the log is evaluated, once. */
    method ProcessMessage(m: Raw, wall: real, now: real) returns (v: Verdict)
      requires Valid() && m.Json?
      requires tracker.log != [] ==> tracker.log[|tracker.log| - 1].at <= now
      requires profiles.history != [] ==> profiles.history[|profiles.history| - 1].at <= now
      modifies db`alerts, queue, tracker, profiles, baseline, engine`retraining
      ensures Valid()
      ensures v.NoLogId? <==> m.logId.None?
      ensures v.LogNotFound? <==> m.logId.Some? && m.logId.value !in db.rows
      ensures v.AlreadyAlerted? <==> m.logId.Some? && m.logId.value in db.rows && m.logId.value in old(db.alerts)
      ensures queue.View() ==
              if v.NoLogId? || v.LogNotFound? then Requeue(Drop(old(queue.View()), m), Bumped(m, wall))
              else Drop(old(queue.View()), m)
      ensures !v.Evaluated? ==>
                && db.alerts == old(db.alerts) && tracker.log == old(tracker.log)
                && profiles.history == old(profiles.history) && baseline.accepted == old(baseline.accepted)
                && engine.View() == old(engine.View())
      ensures v.Evaluated? ==> m.logId.Some? && m.logId.value in db.rows
      ensures v.Evaluated? ==>
                var line := db.rows[m.logId.value].line;
                && Scoring.FromWorker(v.findings) && Scoring.UnitScores(v.findings)
                && tracker.log == old(tracker.log) + [Stamped(now, line)]
                && v.findings.ruleSeverity == SeverityOf(tracker.log, tracker.window, tracker.threshold)
                && v.findings.stat == ScoreOf(StatsOf(profiles.history, profiles.window, line.ip), rateThreshold)
                && v.findings.iso == Isolation.ScoreWith(engine.model, Features(line))
                && engine.View() == Isolation.Triggered(engine.cfg, old(engine.View()), |baseline.buffer|, now)
                && profiles.history ==
                   old(profiles.history) + [Stamped(now, Visit(line.ip, IsErrorLevel(line.level)))]
                && db.alerts == AlertsAfter(cfg, old(db.alerts), m.logId.value, v.findings)
                && baseline.accepted == AcceptedAfter(
                     cfg, old(baseline.accepted), old(baseline.ipBuffer), baseline.maxSize, line, v.findings)
    {
      if m.logId.None? {
        var _ := queue.RetryOrDlq(m, wall);
        return NoLogId;
      }
      var id := m.logId.value;
      if id !in db.rows {
        var _ := queue.RetryOrDlq(m, wall);
        return LogNotFound;
      }
      if id in db.alerts {
        queue.Acknowledge(m);
        return AlreadyAlerted;
      }
      var line := db.rows[id].line;
      var f := EvaluateLog(id, line, now);
      queue.Acknowledge(m);
      return Evaluated(f);
    }

    /** _sweep_unenqueued_logs: the rows without the flag, in the order of the SELECT, are pushed
        as far as the queue has room, and exactly those get the flag. */
    method SweepUnenqueuedLogs(order: seq<LogId>, now: real, maxDepth: nat) returns (count: nat)
      requires forall id :: id in order <==> id in db.rows && !db.rows[id].enqueued
      requires forall i, j :: 0 <= i < j < |order| ==> order[i] != order[j]
      modifies db`rows, queue
      ensures count == Min(|order|, Max(maxDepth - |old(queue.main)|, 0))
      ensures queue.View() == PushAll(old(queue.View()), order[..count], now)
      ensures db.rows.Keys == old(db.rows.Keys)
      ensures forall id :: id in db.rows ==>
                db.rows[id] == old(db.rows)[id].(enqueued := old(db.rows)[id].enqueued || id in order[..count])
    {
      var marked: set<LogId> := {};
      count := 0;
      for i := 0 to |order|
        invariant count == Min(i, Max(maxDepth - |old(queue.main)|, 0))
        invariant marked == (set id | id in order[..count])
        invariant queue.View() == PushAll(old(queue.View()), order[..count], now)
        invariant |queue.main| == |old(queue.main)| + count
        invariant db.rows == old(db.rows)
      {
        var accepted := queue.Enqueue(Some(order[i]), now, maxDepth);
        if accepted {
          PushAllNext(old(queue.View()), order, count, now);
          assert order[..count + 1] == order[..count] + [order[count]];
          marked := marked + {order[i]};
          count := count + 1;
        }
      }
      if count > 0 {
        db.rows := map id | id in db.rows :: db.rows[id].(enqueued := db.rows[id].enqueued || id in marked);
      }
    }
  }

  /** The queues after pushing a message for each log in turn. */
  function PushAll(q: Queues, ids: seq<LogId>, now: real): Queues {
    if ids == [] then q
    else PushMain(PushAll(q, ids[..|ids| - 1], now), NewMessage(Some(ids[|ids| - 1]), now))
  }

  lemma PushAllNext(q: Queues, order: seq<LogId>, n: nat, now: real)
    requires n < |order|
    ensures PushAll(q, order[..n + 1], now) == PushMain(PushAll(q, order[..n], now), NewMessage(Some(order[n]), now))
  {
    assert order[..n + 1][..n] == order[..n];
  }

  /** With LOW the lowest threshold an evaluation changes the alerts table or may change the
      baseline, and never both. */
  lemma AlertOrBaseline(
    cfg: Scoring.Settings, alerts: map<LogId, Alert>, id: LogId, accepted: seq<Sample>, sources: seq<Option<string>>,
    maxSize: nat, line: LogLine, f: Scoring.Findings)
    requires Scoring.LowIsLowest(cfg) && Scoring.FromWorker(f) && id !in alerts
    ensures id in AlertsAfter(cfg, alerts, id, f) ==>
              AcceptedAfter(cfg, accepted, sources, maxSize, line, f) == accepted
    ensures id !in AlertsAfter(cfg, alerts, id, f) && Admits(sources, maxSize, line.ip) ==>
              AcceptedAfter(cfg, accepted, sources, maxSize, line, f) == accepted + [Sample(Features(line), line.ip)]
  {
    Scoring.OrderedThresholdsPartition(cfg, f);
  }
}
