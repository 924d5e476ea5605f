/** How many copies of a message the worker can have in hand. The bound of one rests on time
    stamps: two entries of the processing list with equal texts were tagged at the same time. */
module PipelineHand {
  import opened Collections
  import opened QueueService
  import opened Pipeline
  import opened PipelineRetries

  /** A dequeue whose tagging took effect. */
  predicate Tags(step: Step) {
    step.Handle? && step.h.TagEntry? && Executed(step.h.o)
  }

  function LastTag(s: State, step: Step, last: real): real {
    if Tags(step) then s.clock else last
  }

  /** Each tagging of the run reads a later time than the ones before it, and than `last`. */
  predicate TagsAdvance(cap: nat, s: State, run: seq<Step>, last: real)
    requires IsRun(cap, s, run)
    decreases |run|
  {
    run == [] || (
      && (Tags(run[0]) ==> s.clock > last)
      && TagsAdvance(cap, Next(cap, s, run[0]), run[1..], LastTag(s, run[0], last)))
  }

  predicate TaggedBy(m: Raw, last: real) {
    m.Json? && m.startedAt.Some? ==> m.startedAt.value <= last
  }

  ghost predicate AllTaggedBy(s: seq<Raw>, last: real) {
    forall m :: m in s ==> TaggedBy(m, last)
  }

  /** The copies of the worker's message, in its hand and on the processing list, are one. */
  ghost predicate Alone(w: Worker, processing: seq<Raw>, last: real) {
    match w
    case Recovering(todo, _) => AllTaggedBy(todo, last)
    case RecoverHand(m, hand, todo, _) => hand <= 1 && TaggedBy(m, last) && AllTaggedBy(todo, last)
    case Moved(m) => TaggedBy(m, last)
    case Holding(m, _) => TaggedBy(m, last) && multiset(processing)[m] <= 1
    case Retrying(m, _, hand, _) => TaggedBy(m, last) && hand + multiset(processing)[m] <= 1
    case Removed(m, _, hand, _) => TaggedBy(m, last) && hand + multiset(processing)[m] <= 1
    case _ => true
  }

  ghost predicate OneInHand(s: State, last: real) {
    && AllTaggedBy(s.q.main, last)
    && AllTaggedBy(s.q.processing, last)
    && Alone(s.worker, s.q.processing, last)
  }

  lemma RemovedOnce(s: seq<Raw>, m: Raw)
    ensures forall y :: y in RemoveFirst(s, m) ==> y in s
    ensures multiset(RemoveFirst(s, m))[m] == if m in s then multiset(s)[m] - 1 else 0
  {
    RemoveFirstWithin(s, m);
    RemoveFirstMultiset(s, m);
    assert m in s <==> m in multiset(s);
  }

  lemma OneIngest(cap: nat, s: State, i: IngestStep, last: real)
    requires IngestEnabled(s, i) && OneInHand(s, last)
    ensures OneInHand(NextIngest(cap, s, i), last)
  {
    assert NextIngest(cap, s, i).q.processing == s.q.processing;
  }

  lemma OneTake(s: State, o: Outcome, last: real)
    requires s.worker.Recovering? && s.worker.todo != [] && OneInHand(s, last)
    ensures OneInHand(TakeStale(s, o), last)
  {
    RemovedOnce(s.q.processing, s.worker.todo[0]);
  }

  lemma OnePutBack(s: State, o: Outcome, last: real)
    requires s.worker.RecoverHand? && OneInHand(s, last)
    ensures OneInHand(PutBack(s, o), last)
  {
  }

  lemma OneStartup(cap: nat, s: State, u: StartupStep, last: real)
    requires StartupEnabled(s, u) && OneInHand(s, last)
    ensures OneInHand(NextStartup(cap, s, u), last)
  {
    match u
    case RecoverTake(o) => OneTake(s, o, last);
    case RecoverPush(o) => OnePutBack(s, o, last);
    case _ =>
  }

  lemma OneTag(s: State, o: Outcome, last: real)
    requires s.worker.Moved? && OneInHand(s, last) && (Executed(o) ==> s.clock > last)
    ensures OneInHand(TagNext(s, o), if Executed(o) then s.clock else last)
  {
    var raw := s.worker.raw;
    RemovedOnce(s.q.processing, raw);
    if raw.Json? && Executed(o) {
      var rest := RemoveFirst(s.q.processing, raw);
      assert Tagged(raw, s.clock) !in rest;
      assert Tagged(raw, s.clock) !in multiset(rest);
    }
  }

  lemma OneHandling(s: State, h: HandlingStep, last: real)
    requires HandlingEnabled(s, h) && OneInHand(s, last)
    requires h.TagEntry? && Executed(h.o) ==> s.clock > last
    ensures OneInHand(NextHandling(s, h), if h.TagEntry? && Executed(h.o) then s.clock else last)
  {
    match h
    case TagEntry(o) => OneTag(s, o, last);
    case Ack(_) => RemovedOnce(s.q.processing, s.worker.msg);
    case _ =>
  }

  lemma OneTakeBack(s: State, o: Outcome, last: real)
    requires s.worker.Retrying? && OneInHand(s, last)
    ensures OneInHand(TakeBack(s, o), last)
  {
    RemovedOnce(s.q.processing, s.worker.msg);
    assert s.worker.msg in s.q.processing <==> s.worker.msg in multiset(s.q.processing);
  }

  lemma OnePushAgain(s: State, o: Outcome, last: real)
    requires s.worker.Removed? && s.worker.msg.Json? && OneInHand(s, last)
    ensures OneInHand(PushAgain(s, o), last)
  {
    assert TaggedBy(Bumped(s.worker.msg, s.clock), last);
    assert Requeue(s.q, Bumped(s.worker.msg, s.clock)).processing == s.q.processing;
  }

  lemma OneRetry(s: State, r: RetryStep, last: real)
    requires RetryEnabled(s, r) && OneInHand(s, last)
    ensures OneInHand(NextRetry(s, r), last)
  {
    match r
    case Raise =>
    case RetryRemove(o) => OneTakeBack(s, o, last);
    case RetryPush(o) => OnePushAgain(s, o, last);
  }

  lemma OneStep(cap: nat, s: State, step: Step, last: real)
    requires Enabled(s, step) && OneInHand(s, last) && (Tags(step) ==> s.clock > last)
    ensures OneInHand(Next(cap, s, step), LastTag(s, step, last))
  {
    match step
    case Ingest(i) => OneIngest(cap, s, i, last);
    case Startup(u) => OneStartup(cap, s, u, last);
    case Handle(h) => OneHandling(s, h, last);
    case Retry(r) => OneRetry(s, r, last);
    case _ =>
  }

  lemma {:induction false} OneRun(cap: nat, s: State, run: seq<Step>, last: real) returns (final: real)
    requires IsRun(cap, s, run) && TagsAdvance(cap, s, run, last) && OneInHand(s, last)
    ensures OneInHand(Final(cap, s, run), final)
    decreases |run|
  {
    if run == [] {
      final := last;
    } else {
      OneStep(cap, s, run[0], last);
      final := OneRun(cap, Next(cap, s, run[0]), run[1..], LastTag(s, run[0], last));
    }
  }

  function Losses(s: State): nat {
    Total(s.hist.journal, Lost)
  }

  lemma DieLoses(s: State, m: Raw, n: nat)
    ensures Losses(Die(s, m, n)) == Losses(s) + n
  {
  }

  lemma FailLoses(s: State, m: Raw, inner: bool, hand: nat)
    ensures Losses(RetryFails(s, m, inner, hand)) <= Losses(s) + hand
  {
  }

  lemma ExtraLosesNothing(h: History, m: Raw, n: nat)
    ensures Total(h.Note(Extra, m, n).journal, Lost) == Total(h.journal, Lost)
  {
  }

  lemma StartupLoses(cap: nat, s: State, u: StartupStep, last: real)
    requires StartupEnabled(s, u) && OneInHand(s, last)
    ensures Losses(NextStartup(cap, s, u)) <= Losses(s) + 1
  {
    if u.RecoverPush? {
      PutBackLoses(s, u.o);
    }
  }

  lemma PutBackLoses(s: State, o: Outcome)
    requires s.worker.RecoverHand? && s.worker.hand <= 1
    ensures Losses(PutBack(s, o)) <= Losses(s) + 1
  {
    ExtraLosesNothing(s.hist, s.worker.raw, if s.worker.hand == 0 then 1 else 0);
  }

  lemma PushAgainLoses(s: State, o: Outcome)
    requires s.worker.Removed? && s.worker.msg.Json? && s.worker.hand <= 1
    ensures Losses(PushAgain(s, o)) <= Losses(s) + 1
  {
    var w := s.worker;
    var n := if w.hand == 0 then 1 else 0;
    ExtraLosesNothing(s.hist, w.msg, n);
    var pushed := s.(q := Requeue(s.q, Bumped(w.msg, s.clock)), hist := s.hist.Note(Extra, w.msg, n));
    FailLoses(s, w.msg, w.inner, w.hand);
    FailLoses(pushed, w.msg, w.inner, 0);
  }

  lemma TakeBackLoses(s: State, o: Outcome)
    requires s.worker.Retrying? && s.worker.hand + (if s.worker.msg in s.q.processing then 1 else 0) <= 1
    ensures Losses(TakeBack(s, o)) <= Losses(s) + 1
  {
    var w := s.worker;
    FailLoses(s, w.msg, w.inner, w.hand);
    FailLoses(s.(q := Drop(s.q, w.msg)), w.msg, w.inner, if w.msg in s.q.processing then w.hand + 1 else w.hand);
  }

  lemma RetryLoses(s: State, r: RetryStep, last: real)
    requires RetryEnabled(s, r) && OneInHand(s, last)
    ensures Losses(NextRetry(s, r)) <= Losses(s) + 1
  {
    match r
    case Raise =>
    case RetryRemove(o) =>
      assert s.worker.msg in s.q.processing <==> s.worker.msg in multiset(s.q.processing);
      TakeBackLoses(s, o);
    case RetryPush(o) => PushAgainLoses(s, o);
  }

  /** With one message in hand, no crash and no failed command loses more than one. */
  lemma LosesAtMostOne(cap: nat, s: State, step: Step, last: real)
    requires Enabled(s, step) && OneInHand(s, last)
    ensures HandCount(s.worker) <= 1
    ensures Losses(Next(cap, s, step)) <= Losses(s) + 1
  {
    match step
    case Startup(u) => StartupLoses(cap, s, u, last);
    case Retry(r) => RetryLoses(s, r, last);
    case Crash => DieLoses(s, HandMessage(s.worker), HandCount(s.worker));
    case _ =>
  }
}
