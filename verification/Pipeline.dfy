/** The log pipeline as a transition system: concurrent ingest requests, the single alert
    worker, the Redis lists and the two tables. One step is one Redis command, one database
    statement or commit, or one stretch of code between two awaits. Every Redis command may
    fail, before or after it took effect, and either side may stop at any point. */
module Pipeline {
  import opened Collections
  import opened QueueService

  /** Replied: executed and answered. Refused: an error, not executed. ReplyLost: executed,
      but the caller sees an error. */
  datatype Outcome = Replied | Refused | ReplyLost

  predicate Executed(o: Outcome) {
    !o.Refused?
  }

  /** How far _process_message has come with the message it holds. */
  datatype Stage =
    | Fresh                 // dequeue has returned
    | Waiting(until: real)  // in the back-off sleep
    | Ready                 // about to load the log row
    | Loaded                // row found
    | Clear                 // no alert for this log yet
    | Anomalous             // evaluated, severity is not NONE
    | Settled               // about to acknowledge

  /** The worker's position and its local variables. `hand` counts the copies of a message
      that an LREM took off the processing list and no LPUSH has put back; `inner` tells a
      retry_or_dlq called by _process_message from the one in the loop's exception handler;
      `dirty` says that a Redis command on this message has already failed. */
  datatype Worker =
    | Down
    | Recovering(todo: seq<Raw>, since: real)
    | RecoverHand(raw: Raw, hand: nat, todo: seq<Raw>, since: real)
    | Sweeping(rows: seq<LogId>, marked: set<LogId>)
    | SweepPassed(log: LogId, rows: seq<LogId>, marked: set<LogId>)
    | Polling
    | Moved(raw: Raw)
    | Holding(msg: Raw, stage: Stage)
    | Retrying(msg: Raw, inner: bool, hand: nat, dirty: bool)
    | Removed(msg: Raw, inner: bool, hand: nat, dirty: bool)

  /** The requests inside ingest_log, by position; each owns the log id it drew. */
  datatype Requests = Requests(
    committed: set<LogId>,  // row committed, depth not read yet
    passed: set<LogId>,     // depth read below the limit, nothing pushed yet
    rejected: set<LogId>,   // QueueFull raised, row not deleted yet
    pushed: set<LogId>)     // message pushed, flag not committed yet

  function Id(m: Raw): Option<LogId> {
    if m.Json? then m.logId else None
  }

  /** What can happen to a message: enqueue pushes it, acknowledge removes it, a retry whose
      message is no longer on the processing list pushes a second copy, or it is lost. */
  datatype Kind = Pushed | Acked | Extra | Lost

  /** The record of those events, newest first; `n` is the number of copies concerned. */
  datatype Journal = Blank | Entry(kind: Kind, id: Option<LogId>, n: nat, before: Journal)

  function Tally(j: Journal, k: Kind, x: Option<LogId>): nat {
    match j
    case Blank => 0
    case Entry(kind, id, n, before) => Tally(before, k, x) + if kind == k && id == x then n else 0
  }

  function Total(j: Journal, k: Kind): nat {
    match j
    case Blank => 0
    case Entry(kind, _, n, before) => Total(before, k) + if kind == k then n else 0
  }

  /** What has happened so far; no step reads it. */
  datatype History = History(
    journal: Journal,
    errors: nat,                // worker crashes and failed worker commands
    peak: nat,                  // most requests ever between LLEN and LPUSH
    issued: set<LogId>,
    deleted: set<LogId>,
    answered429: set<LogId>,
    safe: set<LogId>,           // evaluated to NONE
    ownPushes: multiset<LogId>, // pushes by the log's own ingest request
    evaluated: multiset<LogId>) // runs of the rule, profile and scoring engines
  {
    function Note(k: Kind, m: Raw, n: nat): History {
      this.(journal := Entry(k, Id(m), n, journal))
    }

    function Fault(): History {
      this.(errors := errors + 1)
    }
  }

  /** `rows` maps each log to its enqueued flag. */
  datatype State = State(
    q: Queues,
    rows: map<LogId, bool>,
    alerts: multiset<LogId>,
    req: Requests,
    worker: Worker,
    clock: real,
    hist: History)

  datatype IngestStep =
    | Insert(log: LogId)
    | ReadDepth(log: LogId)
    | Push(log: LogId, o: Outcome)
    | CommitFlag(log: LogId, ok: bool)
    | DeleteRow(log: LogId, ok: bool)
    | Quit(log: LogId)

  datatype StartupStep =
    | Start
    | RecoverTake(o: Outcome)
    | RecoverPush(o: Outcome)
    | SelectRows(order: seq<LogId>)
    | SweepDepth(o: Outcome)
    | SweepPush(o: Outcome)
    | SweepCommit(ok: bool)

  datatype HandlingStep =
    | Poll(o: Outcome)
    | TagEntry(o: Outcome)
    | Begin
    | Wake
    | LoadLog
    | CheckAlert
    | Evaluate(risky: bool)
    | InsertAlert
    | Ack(o: Outcome)

  datatype RetryStep =
    | Raise
    | RetryRemove(o: Outcome)
    | RetryPush(o: Outcome)

  datatype Step =
    | Tick(to: real)
    | Ingest(i: IngestStep)
    | Startup(u: StartupStep)
    | Handle(h: HandlingStep)
    | Retry(r: RetryStep)
    | Stop
    | Crash

  function HandCount(w: Worker): nat {
    match w
    case RecoverHand(_, hand, _, _) => hand
    case Retrying(_, _, hand, _) => hand
    case Removed(_, _, hand, _) => hand
    case _ => 0
  }

  /** The message the hand count is about; arbitrary when the hand is empty. */
  function HandMessage(w: Worker): Raw {
    match w
    case RecoverHand(m, _, _, _) => m
    case Retrying(m, _, _, _) => m
    case Removed(m, _, _, _) => m
    case _ => Garbage("")
  }

  /** The copies of `x` that are in the worker's hand. */
  function HandOf(w: Worker, x: Option<LogId>): nat {
    if Id(HandMessage(w)) == x then HandCount(w) else 0
  }

  function Init(clock: real): State {
    State(
      Queues([], [], []), map[], multiset{}, Requests({}, {}, {}, {}), Down, clock,
      History(Blank, 0, 0, {}, {}, {}, {}, multiset{}, multiset{}))
  }

  // ----- app/services/log_service.py: ingest_log, and enqueue as it calls it -----

  predicate IngestEnabled(s: State, i: IngestStep) {
    match i
    case Insert(l) => l !in s.hist.issued
    case ReadDepth(l) => l in s.req.committed
    case Push(l, _) => l in s.req.passed
    case CommitFlag(l, _) => l in s.req.pushed
    case DeleteRow(l, _) => l in s.req.rejected
    case Quit(l) => l in s.req.committed + s.req.passed + s.req.rejected + s.req.pushed
  }

  function InsertRow(s: State, l: LogId): State {
    s.(rows := s.rows[l := false],
       req := s.req.(committed := s.req.committed + {l}),
       hist := s.hist.(issued := s.hist.issued + {l}))
  }

  /** The check of enqueue: QueueFull from MAX_QUEUE_DEPTH (`cap`) entries on. */
  function CheckDepth(cap: nat, s: State, l: LogId): State {
    var left := s.req.(committed := s.req.committed - {l});
    if |s.q.main| >= cap then s.(req := left.(rejected := left.rejected + {l}))
    else
      s.(req := left.(passed := left.passed + {l}),
         hist := s.hist.(peak := Max(s.hist.peak, |left.passed + {l}|)))
  }

  function PushLog(s: State, l: LogId, o: Outcome): State {
    var m := NewMessage(Some(l), s.clock);
    var left := s.req.(passed := s.req.passed - {l});
    if Executed(o) then
      s.(q := PushMain(s.q, m),
         req := if o.Replied? then left.(pushed := left.pushed + {l}) else left,
         hist := s.hist.Note(Pushed, m, 1).(ownPushes := s.hist.ownPushes[l := s.hist.ownPushes[l] + 1]))
    else s.(req := left)
  }

  function SetFlag(s: State, l: LogId, ok: bool): State {
    s.(rows := if ok && l in s.rows then s.rows[l := true] else s.rows,
       req := s.req.(pushed := s.req.pushed - {l}))
  }

  /** Deleting a log row deletes its alert (ON DELETE CASCADE). */
  function RejectLog(s: State, l: LogId, ok: bool): State {
    var left := s.req.(rejected := s.req.rejected - {l});
    if ok then
      s.(rows := s.rows - {l}, alerts := s.alerts[l := 0], req := left,
         hist := s.hist.(deleted := s.hist.deleted + {l}, answered429 := s.hist.answered429 + {l}))
    else s.(req := left)
  }

  function Abandon(s: State, l: LogId): State {
    s.(req := Requests(s.req.committed - {l}, s.req.passed - {l}, s.req.rejected - {l}, s.req.pushed - {l}))
  }

  function NextIngest(cap: nat, s: State, i: IngestStep): State
    requires IngestEnabled(s, i)
  {
    match i
    case Insert(l) => InsertRow(s, l)
    case ReadDepth(l) => CheckDepth(cap, s, l)
    case Push(l, o) => PushLog(s, l, o)
    case CommitFlag(l, ok) => SetFlag(s, l, ok)
    case DeleteRow(l, ok) => RejectLog(s, l, ok)
    case Quit(l) => Abandon(s, l)
  }

  // ----- worker startup: recover_processing_queue, _sweep_unenqueued_logs -----

  /** The result of the sweep's SELECT: the rows whose flag is not set, in any order. */
  predicate ListsUnenqueued(rows: map<LogId, bool>, order: seq<LogId>) {
    && (forall l :: l in order ==> l in rows && !rows[l])
    && (forall l :: l in rows && !rows[l] ==> l in order)
    && (forall a, b :: 0 <= a < b < |order| ==> order[a] != order[b])
  }

  function MarkRows(rows: map<LogId, bool>, marked: set<LogId>): map<LogId, bool> {
    map l | l in rows :: rows[l] || l in marked
  }

  predicate StartupEnabled(s: State, u: StartupStep) {
    var w := s.worker;
    match u
    case Start => w.Down?
    case RecoverTake(_) => w.Recovering? && w.todo != []
    case RecoverPush(_) => w.RecoverHand?
    case SelectRows(order) =>
      w.Recovering? && w.todo == [] && ListsUnenqueued(s.rows, order)
    case SweepDepth(_) => w.Sweeping? && w.rows != []
    case SweepPush(_) => w.SweepPassed?
    case SweepCommit(_) => w.Sweeping? && w.rows == []
  }

  /** An exception that ends the worker process with `n` copies of `m` in its hands. */
  function Die(s: State, m: Raw, n: nat): State {
    s.(worker := Down, hist := s.hist.Note(Lost, m, n).Fault())
  }

  function TakeStale(s: State, o: Outcome): State
    requires s.worker.Recovering? && s.worker.todo != []
  {
    var w := s.worker;
    var m, rest := w.todo[0], w.todo[1..];
    if !IsStale(m, w.since) then s.(worker := Recovering(rest, w.since))
    else if o.Refused? then Die(s, m, 0)
    else
      var hand := if m in s.q.processing then 1 else 0;
      var taken := s.(q := Drop(s.q, m));
      if o.Replied? then taken.(worker := RecoverHand(m, hand, rest, w.since)) else Die(taken, m, hand)
  }

  function PutBack(s: State, o: Outcome): State
    requires s.worker.RecoverHand?
  {
    var w := s.worker;
    if o.Refused? then Die(s, w.raw, w.hand)
    else
      var left := if w.hand > 0 then w.hand - 1 else 0;
      var pushed := s.(q := PushMain(s.q, w.raw), hist := s.hist.Note(Extra, w.raw, if w.hand == 0 then 1 else 0));
      if o.Replied? then
        pushed.(worker := Recovering(w.todo, w.since), hist := pushed.hist.Note(Lost, w.raw, left))
      else Die(pushed, w.raw, left)
  }

  function SweepCheck(cap: nat, s: State, o: Outcome): State
    requires s.worker.Sweeping? && s.worker.rows != []
  {
    var w := s.worker;
    if o.Replied? && |s.q.main| < cap then s.(worker := SweepPassed(w.rows[0], w.rows[1..], w.marked))
    else s.(worker := Sweeping(w.rows[1..], w.marked))
  }

  function SweepEnqueue(s: State, o: Outcome): State
    requires s.worker.SweepPassed?
  {
    var w := s.worker;
    var m := NewMessage(Some(w.log), s.clock);
    var next := s.(worker := Sweeping(w.rows, if o.Replied? then w.marked + {w.log} else w.marked));
    if Executed(o) then next.(q := PushMain(s.q, m), hist := s.hist.Note(Pushed, m, 1)) else next
  }

  function SweepEnd(s: State, ok: bool): State
    requires s.worker.Sweeping?
  {
    var marked := s.worker.marked;
    if marked == {} then s.(worker := Polling)
    else if ok then s.(rows := MarkRows(s.rows, marked), worker := Polling)
    else s.(worker := Down, hist := s.hist.Fault())
  }

  function NextStartup(cap: nat, s: State, u: StartupStep): State
    requires StartupEnabled(s, u)
  {
    match u
    case Start => s.(worker := Recovering(s.q.processing, s.clock))
    case RecoverTake(o) => TakeStale(s, o)
    case RecoverPush(o) => PutBack(s, o)
    case SelectRows(order) => s.(worker := Sweeping(order, {}))
    case SweepDepth(o) => SweepCheck(cap, s, o)
    case SweepPush(o) => SweepEnqueue(s, o)
    case SweepCommit(ok) => SweepEnd(s, ok)
  }

  // ----- the worker loop: dequeue, _process_message, acknowledge -----

  predicate HandlingEnabled(s: State, h: HandlingStep) {
    var w := s.worker;
    match h
    case Poll(_) => w.Polling?
    case TagEntry(_) => w.Moved?
    case Begin => w.Holding? && w.stage.Fresh? && w.msg.Json?
    case Wake => w.Holding? && w.stage.Waiting? && s.clock >= w.stage.until
    case LoadLog => w.Holding? && w.stage.Ready? && Id(w.msg).Some?
    case CheckAlert => w.Holding? && w.stage.Loaded? && Id(w.msg).Some?
    case Evaluate(_) => w.Holding? && w.stage.Clear? && Id(w.msg).Some?
    case InsertAlert => w.Holding? && w.stage.Anomalous? && Id(w.msg).Some?
    case Ack(_) => w.Holding? && w.stage.Settled?
  }

  /** A failed command ends the iteration; the entry stays wherever it is by then. */
  function MoveNext(s: State, o: Outcome): State {
    if s.q.main == [] || o.Refused? then
      if o.Replied? then s else s.(hist := s.hist.Fault())
    else if o.Replied? then s.(q := MoveTail(s.q), worker := Moved(s.q.main[|s.q.main| - 1]))
    else s.(q := MoveTail(s.q), hist := s.hist.Fault())
  }

  function TagNext(s: State, o: Outcome): State
    requires s.worker.Moved?
  {
    var raw := s.worker.raw;
    if raw.Garbage? || o.Refused? then s.(worker := Polling, hist := s.hist.Fault())
    else
      var m := Tagged(raw, s.clock);
      var tagged := s.(q := Retag(s.q, raw, m));
      if o.Replied? then tagged.(worker := Holding(m, Fresh))
      else tagged.(worker := Polling, hist := s.hist.Fault())
  }

  function BeginMessage(s: State): State
    requires s.worker.Holding? && s.worker.msg.Json?
  {
    var m := s.worker.msg;
    var after := m.processAfter.GetOr(0.0);
    if m.logId.None? then s.(worker := Retrying(m, true, 0, false))
    else if after > s.clock then s.(worker := Holding(m, Waiting(s.clock + MinReal(after - s.clock, 5.0))))
    else s.(worker := Holding(m, Ready))
  }

  function Load(s: State): State
    requires s.worker.Holding? && Id(s.worker.msg).Some?
  {
    var m := s.worker.msg;
    s.(worker := if Id(m).value in s.rows then Holding(m, Loaded) else Retrying(m, true, 0, false))
  }

  function LookUpAlert(s: State): State
    requires s.worker.Holding? && Id(s.worker.msg).Some?
  {
    var m := s.worker.msg;
    s.(worker := Holding(m, if s.alerts[Id(m).value] > 0 then Settled else Clear))
  }

  function RunEngines(s: State, risky: bool): State
    requires s.worker.Holding? && Id(s.worker.msg).Some?
  {
    var l := Id(s.worker.msg).value;
    s.(worker := Holding(s.worker.msg, if risky then Anomalous else Settled),
       hist := s.hist.(evaluated := s.hist.evaluated[l := s.hist.evaluated[l] + 1],
                       safe := if risky then s.hist.safe else s.hist.safe + {l}))
  }

  /** The unique index and the foreign key both answer with IntegrityError, which the worker
      takes for a duplicate. */
  function CommitAlert(s: State): State
    requires s.worker.Holding? && Id(s.worker.msg).Some?
  {
    var l := Id(s.worker.msg).value;
    s.(alerts := if s.alerts[l] > 0 || l !in s.rows then s.alerts else s.alerts[l := 1],
       worker := Holding(s.worker.msg, Settled))
  }

  function Settle(s: State, o: Outcome): State
    requires s.worker.Holding?
  {
    var m := s.worker.msg;
    if o.Refused? then s.(worker := Retrying(m, false, 0, true), hist := s.hist.Fault())
    else
      var hist := s.hist.Note(Acked, m, if m in s.q.processing then 1 else 0);
      if o.Replied? then s.(q := Drop(s.q, m), worker := Polling, hist := hist)
      else s.(q := Drop(s.q, m), worker := Retrying(m, false, 0, true), hist := hist.Fault())
  }

  function NextHandling(s: State, h: HandlingStep): State
    requires HandlingEnabled(s, h)
  {
    match h
    case Poll(o) => MoveNext(s, o)
    case TagEntry(o) => TagNext(s, o)
    case Begin => BeginMessage(s)
    case Wake => s.(worker := Holding(s.worker.msg, Ready))
    case LoadLog => Load(s)
    case CheckAlert => LookUpAlert(s)
    case Evaluate(risky) => RunEngines(s, risky)
    case InsertAlert => CommitAlert(s)
    case Ack(o) => Settle(s, o)
  }

  // ----- retry_or_dlq, called by _process_message (inner) or by the loop's handler -----

  predicate RetryEnabled(s: State, r: RetryStep) {
    var w := s.worker;
    match r
    case Raise => w.Holding?
    case RetryRemove(_) => w.Retrying?
    case RetryPush(_) => w.Removed? && w.msg.Json?
  }

  /** A failed command in retry_or_dlq: the inner call is retried by the loop's handler, the
      handler's own call is given up. */
  function RetryFails(s: State, msg: Raw, inner: bool, hand: nat): State {
    if inner then s.(worker := Retrying(msg, false, hand, true), hist := s.hist.Fault())
    else s.(worker := Polling, hist := s.hist.Note(Lost, msg, hand).Fault())
  }

  function TakeBack(s: State, o: Outcome): State
    requires s.worker.Retrying?
  {
    var w := s.worker;
    if o.Refused? then RetryFails(s, w.msg, w.inner, w.hand)
    else
      var hand := if w.msg in s.q.processing then w.hand + 1 else w.hand;
      var taken := s.(q := Drop(s.q, w.msg));
      if o.Replied? then taken.(worker := Removed(w.msg, w.inner, hand, w.dirty))
      else RetryFails(taken, w.msg, w.inner, hand)
  }

  function PushAgain(s: State, o: Outcome): State
    requires s.worker.Removed? && s.worker.msg.Json?
  {
    var w := s.worker;
    if o.Refused? then RetryFails(s, w.msg, w.inner, w.hand)
    else
      var left := if w.hand > 0 then w.hand - 1 else 0;
      var pushed := s.(
        q := Requeue(s.q, Bumped(w.msg, s.clock)),
        hist := s.hist.Note(Extra, w.msg, if w.hand == 0 then 1 else 0));
      if o.Replied? then pushed.(worker := Polling, hist := pushed.hist.Note(Lost, w.msg, left))
      else RetryFails(pushed, w.msg, w.inner, left)
  }

  function NextRetry(s: State, r: RetryStep): State
    requires RetryEnabled(s, r)
  {
    match r
    case Raise => s.(worker := Retrying(s.worker.msg, false, 0, false))
    case RetryRemove(o) => TakeBack(s, o)
    case RetryPush(o) => PushAgain(s, o)
  }

  // ----- the whole system -----

  predicate Enabled(s: State, step: Step) {
    match step
    case Tick(to) => to >= s.clock
    case Ingest(i) => IngestEnabled(s, i)
    case Startup(u) => StartupEnabled(s, u)
    case Handle(h) => HandlingEnabled(s, h)
    case Retry(r) => RetryEnabled(s, r)
    case Stop => s.worker.Polling?
    case Crash => !s.worker.Down?
  }

  function Next(cap: nat, s: State, step: Step): State
    requires Enabled(s, step)
  {
    match step
    case Tick(to) => s.(clock := to)
    case Ingest(i) => NextIngest(cap, s, i)
    case Startup(u) => NextStartup(cap, s, u)
    case Handle(h) => NextHandling(s, h)
    case Retry(r) => NextRetry(s, r)
    case Stop => s.(worker := Down)
    case Crash => Die(s, HandMessage(s.worker), HandCount(s.worker))
  }

  predicate IsRun(cap: nat, s: State, run: seq<Step>)
    decreases |run|
  {
    run == [] || (Enabled(s, run[0]) && IsRun(cap, Next(cap, s, run[0]), run[1..]))
  }

  function Final(cap: nat, s: State, run: seq<Step>): State
    requires IsRun(cap, s, run)
    decreases |run|
  {
    if run == [] then s else Final(cap, Next(cap, s, run[0]), run[1..])
  }

  lemma OneMore(cap: nat, s: State, step: Step, run: seq<Step>)
    requires Enabled(s, step) && IsRun(cap, Next(cap, s, step), run)
    ensures IsRun(cap, s, [step] + run)
    ensures Final(cap, s, [step] + run) == Final(cap, Next(cap, s, step), run)
  {
    assert ([step] + run)[1..] == run;
  }

  lemma {:induction false} RunThen(cap: nat, s: State, a: seq<Step>, b: seq<Step>)
    requires IsRun(cap, s, a) && IsRun(cap, Final(cap, s, a), b)
    ensures IsRun(cap, s, a + b) && Final(cap, s, a + b) == Final(cap, Final(cap, s, a), b)
    decreases |a|
  {
    if a == [] {
      assert a + b == b;
    } else {
      RunThen(cap, Next(cap, s, a[0]), a[1..], b);
      OneMore(cap, s, a[0], a[1..] + b);
      assert [a[0]] + (a[1..] + b) == a + b;
    }
  }

  lemma {:induction false} RunSnoc(cap: nat, s: State, run: seq<Step>, step: Step)
    requires IsRun(cap, s, run) && Enabled(Final(cap, s, run), step)
    ensures IsRun(cap, s, run + [step])
    ensures Final(cap, s, run + [step]) == Next(cap, Final(cap, s, run), step)
    decreases |run|
  {
    if run == [] {
      OneMore(cap, s, step, []);
      assert [step] + [] == run + [step];
    } else {
      var next := Next(cap, s, run[0]);
      RunSnoc(cap, next, run[1..], step);
      OneMore(cap, s, run[0], run[1..] + [step]);
      assert [run[0]] + (run[1..] + [step]) == run + [step];
    }
  }
}
