/** Where every message is: conservation of messages, and the price of each failure. */
module PipelineAccounting {
  import opened Collections
  import opened QueueService
  import opened Pipeline

  /** How many of the first `n` entries of a list carry the payload `x`. */
  function CountTo(s: seq<Raw>, n: nat, x: Option<LogId>): nat
    requires n <= |s|
  {
    if n == 0 then 0 else CountTo(s, n - 1, x) + if Id(s[n - 1]) == x then 1 else 0
  }

  function Count(s: seq<Raw>, x: Option<LogId>): nat {
    CountTo(s, |s|, x)
  }

  lemma {:induction false} CountPrefix(s: seq<Raw>, t: seq<Raw>, n: nat, x: Option<LogId>)
    requires n <= |s| && n <= |t| && forall k :: 0 <= k < n ==> s[k] == t[k]
    ensures CountTo(s, n, x) == CountTo(t, n, x)
  {
    if n > 0 {
      CountPrefix(s, t, n - 1, x);
    }
  }

  lemma {:induction false} CountCons(m: Raw, s: seq<Raw>, x: Option<LogId>)
    ensures Count([m] + s, x) == (if Id(m) == x then 1 else 0) + Count(s, x)
  {
    if s != [] {
      var init := s[..|s| - 1];
      CountCons(m, init, x);
      CountPrefix([m] + s, [m] + init, |s|, x);
      CountPrefix(s, init, |s| - 1, x);
    } else {
      assert CountTo([m], 0, x) == 0;
      assert [m] + s == [m];
    }
  }

  lemma CountMoveTail(q: Queues, x: Option<LogId>)
    requires q.main != []
    ensures Count(MoveTail(q).main, x) + Count(MoveTail(q).processing, x) == Count(q.main, x) + Count(q.processing, x)
  {
    var last := |q.main| - 1;
    CountPrefix(q.main, q.main[..last], last, x);
    CountCons(q.main[last], q.processing, x);
  }

  lemma CountRequeue(q: Queues, m: Raw, x: Option<LogId>)
    requires m.Json?
    ensures Requeue(q, m).processing == q.processing
    ensures Count(Requeue(q, m).main, x) + Count(Requeue(q, m).dlq, x)
         == Count(q.main, x) + Count(q.dlq, x) + if Id(m) == x then 1 else 0
  {
    CountCons(m, q.main, x);
    CountCons(m, q.dlq, x);
  }

  lemma {:induction false} CountRemoveFirst(s: seq<Raw>, m: Raw, x: Option<LogId>)
    ensures Count(s, x) == Count(RemoveFirst(s, m), x) + if m in s && Id(m) == x then 1 else 0
  {
    if s != [] {
      assert s == [s[0]] + s[1..];
      CountCons(s[0], s[1..], x);
      if s[0] != m {
        CountRemoveFirst(s[1..], m, x);
        CountCons(s[0], RemoveFirst(s[1..], m), x);
      }
    }
  }

  /** How many copies of the payload `x` are in the three lists and in the worker's hand. */
  function Present(s: State, x: Option<LogId>): nat {
    Count(s.q.main, x) + Count(s.q.processing, x) + Count(s.q.dlq, x) + HandOf(s.worker, x)
  }

  /** Every copy of `x` that was pushed is somewhere: waiting, being processed, dead-lettered,
      in hand, acknowledged or lost. */
  predicate BalancedFor(s: State, x: Option<LogId>) {
    var j := s.hist.journal;
    Tally(j, Pushed, x) + Tally(j, Extra, x) == Present(s, x) + Tally(j, Acked, x) + Tally(j, Lost, x)
  }

  ghost predicate Balanced(s: State) {
    forall x :: BalancedFor(s, x)
  }

  predicate Dirty(w: Worker) {
    (w.Retrying? || w.Removed?) && w.dirty
  }

  function Debt(w: Worker): nat {
    if Dirty(w) then 1 else 0
  }

  /** While no command on the message has failed, the worker's entry is where it was left. */
  ghost predicate Placed(s: State) {
    var w := s.worker;
    match w
    case Recovering(todo, _) => multiset(todo) <= multiset(s.q.processing)
    case RecoverHand(_, hand, todo, _) => hand == 1 && multiset(todo) <= multiset(s.q.processing)
    case Moved(m) => m in s.q.processing
    case Holding(m, _) => m in s.q.processing && m.Json?
    case Retrying(m, inner, hand, dirty) =>
      m.Json? && (if dirty then !inner && hand <= 1 else hand == 0 && m in s.q.processing)
    case Removed(m, inner, hand, dirty) =>
      m.Json? && (if dirty then !inner && hand <= 2 else hand == 1)
    case _ => true
  }

  /** Each lost message and each duplicate is paid for by a failure of its own. */
  ghost predicate Paid(s: State) {
    Total(s.hist.journal, Lost) + Total(s.hist.journal, Extra) + Debt(s.worker) <= s.hist.errors
  }

  ghost predicate Sound(s: State) {
    Balanced(s) && Placed(s) && Paid(s)
  }

  // ----- which steps push and which acknowledge -----

  lemma StartupTally(cap: nat, s: State, u: StartupStep, x: Option<LogId>)
    requires StartupEnabled(s, u)
    ensures Tally(NextStartup(cap, s, u).hist.journal, Acked, x) == Tally(s.hist.journal, Acked, x)
    ensures !u.SweepPush? ==> Tally(NextStartup(cap, s, u).hist.journal, Pushed, x) == Tally(s.hist.journal, Pushed, x)
  {
  }

  lemma HandlingTally(s: State, h: HandlingStep, x: Option<LogId>)
    requires HandlingEnabled(s, h)
    ensures Tally(NextHandling(s, h).hist.journal, Pushed, x) == Tally(s.hist.journal, Pushed, x)
    ensures Tally(NextHandling(s, h).hist.journal, Acked, x) == Tally(s.hist.journal, Acked, x)
            || (h.Ack? && Id(s.worker.msg) == x)
  {
  }

  lemma TakeBackTally(s: State, o: Outcome, x: Option<LogId>)
    requires s.worker.Retrying?
    ensures Tally(TakeBack(s, o).hist.journal, Pushed, x) == Tally(s.hist.journal, Pushed, x)
    ensures Tally(TakeBack(s, o).hist.journal, Acked, x) == Tally(s.hist.journal, Acked, x)
  {
  }

  lemma PushAgainTally(s: State, o: Outcome, x: Option<LogId>)
    requires s.worker.Removed? && s.worker.msg.Json?
    ensures Tally(PushAgain(s, o).hist.journal, Pushed, x) == Tally(s.hist.journal, Pushed, x)
    ensures Tally(PushAgain(s, o).hist.journal, Acked, x) == Tally(s.hist.journal, Acked, x)
  {
  }

  lemma RetryTally(s: State, r: RetryStep, x: Option<LogId>)
    requires RetryEnabled(s, r)
    ensures Tally(NextRetry(s, r).hist.journal, Pushed, x) == Tally(s.hist.journal, Pushed, x)
    ensures Tally(NextRetry(s, r).hist.journal, Acked, x) == Tally(s.hist.journal, Acked, x)
  {
    match r
    case Raise =>
    case RetryRemove(o) => TakeBackTally(s, o, x);
    case RetryPush(o) => PushAgainTally(s, o, x);
  }

  // ----- Placed -----

  lemma PlacedIngest(cap: nat, s: State, i: IngestStep)
    requires IngestEnabled(s, i) && Placed(s)
    ensures Placed(NextIngest(cap, s, i))
  {
    assert NextIngest(cap, s, i).q.processing == s.q.processing;
    assert NextIngest(cap, s, i).worker == s.worker;
  }

  lemma PlacedTake(s: State, o: Outcome)
    requires s.worker.Recovering? && s.worker.todo != [] && Placed(s)
    ensures Placed(TakeStale(s, o))
  {
    var todo := s.worker.todo;
    assert todo == [todo[0]] + todo[1..];
    RemoveFirstCounts(s.q.processing, todo[0]);
    assert todo[0] in multiset(s.q.processing);
  }

  lemma PlacedStartup(cap: nat, s: State, u: StartupStep)
    requires StartupEnabled(s, u) && Placed(s)
    ensures Placed(NextStartup(cap, s, u))
  {
    if u.RecoverTake? {
      PlacedTake(s, u.o);
    }
  }

  lemma PlacedHandling(s: State, h: HandlingStep)
    requires HandlingEnabled(s, h) && Placed(s)
    ensures Placed(NextHandling(s, h))
  {
  }

  lemma PlacedRetry(s: State, r: RetryStep)
    requires RetryEnabled(s, r) && Placed(s)
    ensures Placed(NextRetry(s, r))
  {
  }

  // ----- Paid -----

  lemma PaidTake(s: State, o: Outcome)
    requires s.worker.Recovering? && s.worker.todo != [] && Placed(s) && Paid(s)
    ensures Paid(TakeStale(s, o))
  {
  }

  lemma PaidStartup(cap: nat, s: State, u: StartupStep)
    requires StartupEnabled(s, u) && Placed(s) && Paid(s)
    ensures Paid(NextStartup(cap, s, u))
  {
    if u.RecoverTake? {
      PaidTake(s, u.o);
    }
  }

  lemma PaidHandling(s: State, h: HandlingStep)
    requires HandlingEnabled(s, h) && Placed(s) && Paid(s)
    ensures Paid(NextHandling(s, h))
  {
  }

  lemma PaidTakeBack(s: State, o: Outcome)
    requires s.worker.Retrying? && Placed(s) && Paid(s)
    ensures Paid(TakeBack(s, o))
  {
  }

  lemma PaidPushAgain(s: State, o: Outcome)
    requires s.worker.Removed? && Placed(s) && Paid(s)
    ensures Paid(PushAgain(s, o))
  {
  }

  lemma PaidRetry(s: State, r: RetryStep)
    requires RetryEnabled(s, r) && Placed(s) && Paid(s)
    ensures Paid(NextRetry(s, r))
  {
    match r
    case Raise =>
    case RetryRemove(o) => PaidTakeBack(s, o);
    case RetryPush(o) => PaidPushAgain(s, o);
  }

  // ----- Balanced -----

  /** An LREM of `m` moves the copy it finds from the processing list into the hand. */
  lemma CountDrop(q: Queues, m: Raw, x: Option<LogId>)
    ensures Drop(q, m).main == q.main && Drop(q, m).dlq == q.dlq
    ensures Count(q.processing, x) == Count(Drop(q, m).processing, x) + if m in q.processing && Id(m) == x then 1 else 0
  {
    CountRemoveFirst(q.processing, m, x);
  }

  lemma BalancedDie(s: State, m: Raw, n: nat, x: Option<LogId>)
    requires HandCount(s.worker) == 0
    requires Tally(s.hist.journal, Pushed, x) + Tally(s.hist.journal, Extra, x)
          == Present(s, x) + Tally(s.hist.journal, Acked, x) + Tally(s.hist.journal, Lost, x)
             + if Id(m) == x then n else 0
    ensures BalancedFor(Die(s, m, n), x)
  {
  }

  lemma BalancedTake(s: State, o: Outcome, x: Option<LogId>)
    requires s.worker.Recovering? && s.worker.todo != [] && BalancedFor(s, x)
    ensures BalancedFor(TakeStale(s, o), x)
  {
    var m := s.worker.todo[0];
    if IsStale(m, s.worker.since) {
      if o.Refused? {
        BalancedDie(s, m, 0, x);
      } else {
        CountDrop(s.q, m, x);
        if o.ReplyLost? {
          BalancedDie(s.(q := Drop(s.q, m)), m, if m in s.q.processing then 1 else 0, x);
        }
      }
    }
  }

  lemma BalancedPutBack(s: State, o: Outcome, x: Option<LogId>)
    requires s.worker.RecoverHand? && BalancedFor(s, x)
    ensures BalancedFor(PutBack(s, o), x)
  {
    CountCons(s.worker.raw, s.q.main, x);
  }

  lemma BalancedTag(s: State, o: Outcome, x: Option<LogId>)
    requires s.worker.Moved? && Placed(s) && BalancedFor(s, x)
    ensures BalancedFor(TagNext(s, o), x)
  {
    CountRemoveFirst(s.q.processing, s.worker.raw, x);
    if s.worker.raw.Json? {
      CountCons(Tagged(s.worker.raw, s.clock), RemoveFirst(s.q.processing, s.worker.raw), x);
    }
  }

  lemma BalancedSettle(s: State, o: Outcome, x: Option<LogId>)
    requires s.worker.Holding? && BalancedFor(s, x)
    ensures BalancedFor(Settle(s, o), x)
  {
    CountRemoveFirst(s.q.processing, s.worker.msg, x);
  }

  lemma BalancedRetryFails(s: State, m: Raw, inner: bool, hand: nat, x: Option<LogId>)
    requires s.worker.Removed? && s.worker.hand == hand && s.worker.msg == m && BalancedFor(s, x)
    ensures BalancedFor(RetryFails(s, m, inner, hand), x)
  {
  }

  /** The LREM itself. */
  function Taken(s: State): State
    requires s.worker.Retrying?
  {
    var w := s.worker;
    s.(q := Drop(s.q, w.msg),
       worker := Removed(w.msg, w.inner, if w.msg in s.q.processing then w.hand + 1 else w.hand, w.dirty))
  }

  lemma BalancedTaken(s: State, x: Option<LogId>)
    requires s.worker.Retrying? && BalancedFor(s, x)
    ensures BalancedFor(Taken(s), x)
  {
    CountDrop(s.q, s.worker.msg, x);
  }

  lemma BalancedTakeBack(s: State, o: Outcome, x: Option<LogId>)
    requires s.worker.Retrying? && BalancedFor(s, x)
    ensures BalancedFor(TakeBack(s, o), x)
  {
    var w := s.worker;
    if o.Refused? {
      var removed := s.(worker := Removed(w.msg, w.inner, w.hand, w.dirty));
      assert BalancedFor(removed, x);
      BalancedRetryFails(removed, w.msg, w.inner, w.hand, x);
    } else {
      var taken := Taken(s);
      BalancedTaken(s, x);
      BalancedRetryFails(taken, w.msg, w.inner, taken.worker.hand, x);
    }
  }

  /** The LPUSH itself: out of the hand into a list, or as a duplicate when the hand is empty. */
  function Repushed(s: State): State
    requires s.worker.Removed? && s.worker.msg.Json?
  {
    var w := s.worker;
    s.(q := Requeue(s.q, Bumped(w.msg, s.clock)),
       hist := s.hist.Note(Extra, w.msg, if w.hand == 0 then 1 else 0),
       worker := Removed(w.msg, w.inner, if w.hand > 0 then w.hand - 1 else 0, w.dirty))
  }

  lemma BalancedRepushed(s: State, x: Option<LogId>)
    requires s.worker.Removed? && s.worker.msg.Json? && BalancedFor(s, x)
    ensures BalancedFor(Repushed(s), x)
  {
    CountRequeue(s.q, Bumped(s.worker.msg, s.clock), x);
  }

  lemma BalancedDrop(s: State, x: Option<LogId>)
    requires s.worker.Removed? && BalancedFor(s, x)
    ensures BalancedFor(s.(worker := Polling, hist := s.hist.Note(Lost, s.worker.msg, s.worker.hand)), x)
  {
  }

  lemma BalancedPushAgain(s: State, o: Outcome, x: Option<LogId>)
    requires s.worker.Removed? && s.worker.msg.Json? && BalancedFor(s, x)
    ensures BalancedFor(PushAgain(s, o), x)
  {
    var w := s.worker;
    if o.Refused? {
      BalancedRetryFails(s, w.msg, w.inner, w.hand, x);
    } else {
      var pushed := Repushed(s);
      BalancedRepushed(s, x);
      BalancedDrop(pushed, x);
      BalancedRetryFails(pushed, w.msg, w.inner, pushed.worker.hand, x);
    }
  }

  lemma BalancedPushLog(s: State, l: LogId, o: Outcome, x: Option<LogId>)
    requires BalancedFor(s, x)
    ensures BalancedFor(PushLog(s, l, o), x)
  {
    CountCons(NewMessage(Some(l), s.clock), s.q.main, x);
  }

  lemma BalancedIngest(cap: nat, s: State, i: IngestStep, x: Option<LogId>)
    requires IngestEnabled(s, i) && BalancedFor(s, x)
    ensures BalancedFor(NextIngest(cap, s, i), x)
  {
    if i.Push? {
      BalancedPushLog(s, i.log, i.o, x);
    } else {
      assert NextIngest(cap, s, i).q == s.q;
    }
  }

  lemma BalancedSweepEnqueue(s: State, o: Outcome, x: Option<LogId>)
    requires s.worker.SweepPassed? && BalancedFor(s, x)
    ensures BalancedFor(SweepEnqueue(s, o), x)
  {
    CountCons(NewMessage(Some(s.worker.log), s.clock), s.q.main, x);
  }

  lemma BalancedStartup(cap: nat, s: State, u: StartupStep, x: Option<LogId>)
    requires StartupEnabled(s, u) && BalancedFor(s, x)
    ensures BalancedFor(NextStartup(cap, s, u), x)
  {
    match u
    case RecoverTake(o) => BalancedTake(s, o, x);
    case RecoverPush(o) => BalancedPutBack(s, o, x);
    case SweepPush(o) => BalancedSweepEnqueue(s, o, x);
    case _ => assert NextStartup(cap, s, u).q == s.q;
  }

  lemma BalancedMove(s: State, o: Outcome, x: Option<LogId>)
    requires s.worker.Polling? && BalancedFor(s, x)
    ensures BalancedFor(MoveNext(s, o), x)
  {
    if s.q.main != [] {
      CountMoveTail(s.q, x);
    }
  }

  lemma BalancedHandling(s: State, h: HandlingStep, x: Option<LogId>)
    requires HandlingEnabled(s, h) && Placed(s) && BalancedFor(s, x)
    ensures BalancedFor(NextHandling(s, h), x)
  {
    match h
    case Poll(o) => BalancedMove(s, o, x);
    case TagEntry(o) => BalancedTag(s, o, x);
    case Ack(o) => BalancedSettle(s, o, x);
    case _ =>
  }

  lemma BalancedRetry(s: State, r: RetryStep, x: Option<LogId>)
    requires RetryEnabled(s, r) && BalancedFor(s, x)
    ensures BalancedFor(NextRetry(s, r), x)
  {
    match r
    case Raise =>
    case RetryRemove(o) => BalancedTakeBack(s, o, x);
    case RetryPush(o) => BalancedPushAgain(s, o, x);
  }

  lemma BalancedStep(cap: nat, s: State, step: Step, x: Option<LogId>)
    requires Enabled(s, step) && Placed(s) && BalancedFor(s, x)
    ensures BalancedFor(Next(cap, s, step), x)
  {
    match step
    case Ingest(i) => BalancedIngest(cap, s, i, x);
    case Startup(u) => BalancedStartup(cap, s, u, x);
    case Handle(h) => BalancedHandling(s, h, x);
    case Retry(r) => BalancedRetry(s, r, x);
    case _ =>
  }

  lemma PlacedStep(cap: nat, s: State, step: Step)
    requires Enabled(s, step) && Placed(s)
    ensures Placed(Next(cap, s, step))
  {
    match step
    case Ingest(i) => PlacedIngest(cap, s, i);
    case Startup(u) => PlacedStartup(cap, s, u);
    case Handle(h) => PlacedHandling(s, h);
    case Retry(r) => PlacedRetry(s, r);
    case _ =>
  }

  lemma PaidStep(cap: nat, s: State, step: Step)
    requires Enabled(s, step) && Placed(s) && Paid(s)
    ensures Paid(Next(cap, s, step))
  {
    match step
    case Startup(u) => PaidStartup(cap, s, u);
    case Handle(h) => PaidHandling(s, h);
    case Retry(r) => PaidRetry(s, r);
    case _ =>
  }

  lemma SoundStep(cap: nat, s: State, step: Step)
    requires Enabled(s, step) && Sound(s)
    ensures Sound(Next(cap, s, step))
  {
    PlacedStep(cap, s, step);
    PaidStep(cap, s, step);
    forall x ensures BalancedFor(Next(cap, s, step), x) {
      BalancedStep(cap, s, step, x);
    }
  }

  lemma {:induction false} SoundRun(cap: nat, s: State, run: seq<Step>)
    requires IsRun(cap, s, run) && Sound(s)
    ensures Sound(Final(cap, s, run))
    decreases |run|
  {
    if run != [] {
      SoundStep(cap, s, run[0]);
      SoundRun(cap, Next(cap, s, run[0]), run[1..]);
    }
  }
}
