/** Runs that the theorems' limits are met by: they show that the bounds are sharp and that the
    exceptions occur. */
module PipelineWitnesses {
  import opened Collections
  import opened QueueService
  import opened Pipeline
  import opened PipelineAccounting
  import opened PipelineAlerts

  /** Some run from an empty start at time 0 ends in this state. */
  ghost predicate Reachable(cap: nat, s: State) {
    exists run :: IsRun(cap, Init(0.0), run) && Final(cap, Init(0.0), run) == s
  }

  lemma EmptyIsReachable(cap: nat)
    ensures Reachable(cap, Init(0.0))
  {
    assert IsRun(cap, Init(0.0), []) && Final(cap, Init(0.0), []) == Init(0.0);
  }

  lemma Reach(cap: nat, s: State, step: Step)
    requires Reachable(cap, s) && Enabled(s, step)
    ensures Reachable(cap, Next(cap, s, step))
  {
    var run :| IsRun(cap, Init(0.0), run) && Final(cap, Init(0.0), run) == s;
    RunSnoc(cap, Init(0.0), run, step);
  }

  lemma Reach2(cap: nat, s: State, a: Step, b: Step)
    requires Reachable(cap, s) && Enabled(s, a) && Enabled(Next(cap, s, a), b)
    ensures Reachable(cap, Next(cap, Next(cap, s, a), b))
  {
    Reach(cap, s, a);
    Reach(cap, Next(cap, s, a), b);
  }

  // ----- the bound of the main queue -----

  /** No failure so far; `n` messages wait, none of them retried; `p` requests have read the
      depth and not pushed, at most `peak` at once; ids from `next` on are unused. */
  ghost predicate Stocked(cap: nat, s: State, n: nat, p: nat, peak: nat, next: nat) {
    && Reachable(cap, s) && s.clock == 0.0 && s.hist.errors == 0
    && |s.q.main| == n && (forall m :: m in s.q.main ==> m.Json? && m.retryCount == 0)
    && |s.req.passed| == p && s.hist.peak == peak
    && (forall l :: l in s.hist.issued ==> l < next)
    && (forall l :: l in s.req.passed ==> l < next)
  }

  ghost predicate SameWorker(s: State, t: State) {
    t.worker == s.worker && t.q.processing == s.q.processing
  }

  /** One more request reads a depth below the limit. */
  lemma OneReads(cap: nat, s: State, n: nat, p: nat, peak: nat, next: nat) returns (t: State)
    requires Stocked(cap, s, n, p, peak, next) && n < cap
    ensures Stocked(cap, t, n, p + 1, Max(peak, p + 1), next + 1) && SameWorker(s, t)
  {
    var inserted := Next(cap, s, Ingest(Insert(next)));
    Reach2(cap, s, Ingest(Insert(next)), Ingest(ReadDepth(next)));
    t := Next(cap, inserted, Ingest(ReadDepth(next)));
    assert next !in s.req.passed;
  }

  /** One of those that have read it pushes. */
  lemma OnePushes(cap: nat, s: State, n: nat, p: nat, peak: nat, next: nat) returns (t: State)
    requires Stocked(cap, s, n, p, peak, next) && p > 0
    ensures Stocked(cap, t, n + 1, p - 1, peak, next) && SameWorker(s, t)
  {
    var l :| l in s.req.passed;
    Reach(cap, s, Ingest(Push(l, Replied)));
    t := Next(cap, s, Ingest(Push(l, Replied)));
  }

  lemma {:induction false} ManyRead(cap: nat, s: State, n: nat, p: nat, peak: nat, next: nat, k: nat)
    returns (t: State, next': nat)
    requires Stocked(cap, s, n, p, peak, next) && n < cap && p <= peak
    ensures Stocked(cap, t, n, p + k, Max(peak, p + k), next') && SameWorker(s, t)
    decreases k
  {
    t, next' := s, next;
    if k > 0 {
      t := OneReads(cap, s, n, p, peak, next);
      t, next' := ManyRead(cap, t, n, p + 1, Max(peak, p + 1), next + 1, k - 1);
    }
  }

  lemma {:induction false} AllPush(cap: nat, s: State, n: nat, p: nat, peak: nat, next: nat) returns (t: State)
    requires Stocked(cap, s, n, p, peak, next)
    ensures Stocked(cap, t, n + p, 0, peak, next) && SameWorker(s, t)
    decreases p
  {
    t := s;
    if p > 0 {
      t := OnePushes(cap, s, n, p, peak, next);
      t := AllPush(cap, t, n + 1, p - 1, peak, next);
    }
  }

  /** Requests one after the other fill the queue up to `k` entries below or at the limit. */
  lemma {:induction false} Fill(cap: nat, s: State, n: nat, peak: nat, next: nat, k: nat)
    returns (t: State, peak': nat, next': nat)
    requires Stocked(cap, s, n, 0, peak, next) && n + k <= cap && peak <= 1
    ensures Stocked(cap, t, n + k, 0, peak', next') && SameWorker(s, t) && peak' <= 1
    decreases k
  {
    t, peak', next' := s, peak, next;
    if k > 0 {
      t := OneReads(cap, s, n, 0, peak, next);
      t := OnePushes(cap, t, n, 1, 1, next + 1);
      t, peak', next' := Fill(cap, t, n + 1, 1, next + 1, k - 1);
    }
  }

  /** `k` requests that read the depth one below the limit, and then all push. */
  lemma Crowd(cap: nat, s: State, n: nat, peak: nat, next: nat, k: nat) returns (t: State, next': nat)
    requires Stocked(cap, s, n, 0, peak, next) && n < cap && peak <= 1 && k > 0
    ensures Stocked(cap, t, cap - 1 + k, 0, k, next') && SameWorker(s, t)
  {
    var peak';
    t, peak', next' := Fill(cap, s, n, peak, next, cap - 1 - n);
    t, next' := ManyRead(cap, t, cap - 1, 0, peak', next', k);
    t := AllPush(cap, t, cap - 1, k, k, next');
  }

  /** A worker that starts on empty queues and tables. */
  lemma WorkerStarts(cap: nat)
    ensures Reachable(cap, Init(0.0).(worker := Polling))
  {
    EmptyIsReachable(cap);
    var s := Init(0.0);
    assert Next(cap, s, Startup(Start)) == s.(worker := Recovering([], 0.0));
    Reach2(cap, s, Startup(Start), Startup(SelectRows([])));
    Reach(cap, s.(worker := Sweeping([], {})), Startup(SweepCommit(true)));
  }

  /** The worker takes the oldest message. */
  lemma WorkerTakes(cap: nat, s: State, n: nat, p: nat, peak: nat, next: nat) returns (t: State)
    requires Stocked(cap, s, n, p, peak, next) && n > 0 && s.worker.Polling? && s.q.processing == []
    ensures Stocked(cap, t, n - 1, p, peak, next)
    ensures t.worker.Holding? && t.worker.msg.Json? && t.worker.msg.retryCount == 0
    ensures t.q.processing == [t.worker.msg]
  {
    var moved := Next(cap, s, Handle(Poll(Replied)));
    assert s.q.main[n - 1] in s.q.main;
    assert moved.q.processing == [s.q.main[n - 1]];
    Reach2(cap, s, Handle(Poll(Replied)), Handle(TagEntry(Replied)));
    t := Next(cap, moved, Handle(TagEntry(Replied)));
    assert [s.q.main[n - 1]][1..] == [];
  }

  /** An exception in the evaluation, and the handler's retry_or_dlq: no check of the depth. */
  lemma WorkerRetries(cap: nat, s: State, n: nat, p: nat, peak: nat, next: nat) returns (t: State)
    requires Stocked(cap, s, n, p, peak, next) && s.worker.Holding?
    requires s.worker.msg.Json? && s.worker.msg.retryCount == 0 && s.q.processing == [s.worker.msg]
    ensures Reachable(cap, t) && t.hist.errors == 0 && t.hist.peak == peak && |t.q.main| == n + 1
  {
    var m := s.worker.msg;
    var raised := Next(cap, s, Retry(Raise));
    Reach2(cap, s, Retry(Raise), Retry(RetryRemove(Replied)));
    var removed := Next(cap, raised, Retry(RetryRemove(Replied)));
    assert removed.worker == Removed(m, false, 1, false);
    Reach(cap, removed, Retry(RetryPush(Replied)));
    t := Next(cap, removed, Retry(RetryPush(Replied)));
  }

  // ----- a lost log -----

  /** A request runs to its end. */
  lemma LogArrives(cap: nat, s: State) returns (t: State)
    requires cap > 0 && s == Init(0.0).(worker := Polling) && Reachable(cap, s)
    ensures Reachable(cap, t) && t.rows == map[0 := true] && t.alerts == multiset{} && t.worker.Polling?
    ensures t.q == Queues([NewMessage(Some(0), 0.0)], [], []) && t.clock == 0.0
    ensures t.hist == s.hist.Note(Pushed, NewMessage(Some(0), 0.0), 1)
                            .(issued := {0}, peak := 1, ownPushes := multiset{0})
  {
    var s1 := Next(cap, s, Ingest(Insert(0)));
    Reach2(cap, s, Ingest(Insert(0)), Ingest(ReadDepth(0)));
    var s2 := Next(cap, s1, Ingest(ReadDepth(0)));
    assert s2.req == Requests({}, {0}, {}, {});
    Reach2(cap, s2, Ingest(Push(0, Replied)), Ingest(CommitFlag(0, true)));
    t := Next(cap, Next(cap, s2, Ingest(Push(0, Replied))), Ingest(CommitFlag(0, true)));
  }

  /** The worker takes it, fails to evaluate it and removes it in order to retry it. */
  lemma LogIsInHand(cap: nat, s: State, m: Raw) returns (t: State)
    requires Reachable(cap, s) && s.worker.Polling? && s.clock == 0.0 && m.Json? && s.q == Queues([m], [], [])
    ensures Reachable(cap, t) && t.q == Queues([], [], [])
    ensures t.worker == Removed(Tagged(m, 0.0), false, 1, false)
    ensures t.rows == s.rows && t.alerts == s.alerts && t.hist == s.hist
  {
    var moved := Next(cap, s, Handle(Poll(Replied)));
    assert moved.q == Queues([], [m], []);
    Reach2(cap, s, Handle(Poll(Replied)), Handle(TagEntry(Replied)));
    var held := Next(cap, moved, Handle(TagEntry(Replied)));
    assert [m][1..] == [];
    assert held.q == Queues([], [Tagged(m, 0.0)], []);
    Reach2(cap, held, Retry(Raise), Retry(RetryRemove(Replied)));
    t := Next(cap, Next(cap, held, Retry(Raise)), Retry(RetryRemove(Replied)));
    assert [Tagged(m, 0.0)][1..] == [];
  }

  // ----- two copies in hand -----

  /** A start whose sweep pushes a message for the unflagged log 0 and is cut off before it can
      flag it. */
  lemma SweepWithoutFlag(s: State) returns (t: State)
    requires Reachable(2, s) && s.worker.Down? && s.rows == map[0 := false] && s.clock == 0.0
    requires s.q.processing == [] && |s.q.main| < 2
    ensures Reachable(2, t) && t.worker.Down? && t.rows == s.rows && t.clock == 0.0 && t.req == s.req
    ensures t.q == PushMain(s.q, NewMessage(Some(0), 0.0))
  {
    var s1 := s.(worker := Recovering([], 0.0));
    var s2 := s.(worker := Sweeping([0], {}));
    Reach2(2, s, Startup(Start), Startup(SelectRows([0])));
    assert Next(2, s, Startup(Start)) == s1 && Next(2, s1, Startup(SelectRows([0]))) == s2;
    Reach2(2, s2, Startup(SweepDepth(Replied)), Startup(SweepPush(Replied)));
    var s3 := Next(2, Next(2, s2, Startup(SweepDepth(Replied))), Startup(SweepPush(Replied)));
    Reach(2, s3, Crash);
    t := Next(2, s3, Crash);
  }

  /** The request for log 0 finds the queue full and is answered 429; the worker starts with
      nothing to sweep. */
  lemma RowDeleted(s: State) returns (t: State)
    requires Reachable(2, s) && s.worker.Down? && s.rows == map[0 := false] && s.clock == 0.0
    requires s.q.processing == [] && |s.q.main| == 2 && 0 in s.req.committed
    ensures Reachable(2, t) && t.worker.Polling? && t.rows == map[] && t.clock == 0.0 && t.q == s.q
  {
    Reach2(2, s, Ingest(ReadDepth(0)), Ingest(DeleteRow(0, true)));
    var s1 := Next(2, Next(2, s, Ingest(ReadDepth(0))), Ingest(DeleteRow(0, true)));
    assert s1.rows == map[];
    Reach2(2, s1, Startup(Start), Startup(SelectRows([])));
    var s2 := s1.(worker := Sweeping([], {}));
    assert Next(2, Next(2, s1, Startup(Start)), Startup(SelectRows([]))) == s2;
    Reach(2, s2, Startup(SweepCommit(true)));
    t := Next(2, s2, Startup(SweepCommit(true)));
  }

  /** The worker tags both copies at the same time; only the reply to the first tagging is lost. */
  lemma BothTagged(s: State, m: Raw) returns (t: State)
    requires Reachable(2, s) && s.worker.Polling? && s.clock == 0.0 && m.Json? && m.startedAt.None?
    requires s.q == Queues([m, m], [], [])
    ensures Reachable(2, t) && t.clock == 0.0 && t.rows == s.rows
    ensures t.worker == Holding(Tagged(m, 0.0), Fresh)
    ensures t.q == Queues([], [Tagged(m, 0.0), Tagged(m, 0.0)], [])
  {
    var x := Tagged(m, 0.0);
    var s1 := Next(2, s, Handle(Poll(Replied)));
    assert s1.q == Queues([m], [m], []);
    assert [m][1..] == [];
    Reach2(2, s, Handle(Poll(Replied)), Handle(TagEntry(ReplyLost)));
    var s2 := Next(2, s1, Handle(TagEntry(ReplyLost)));
    assert s2.q == Queues([m], [x], []);
    t := SecondTagged(s2, m);
  }

  lemma SecondTagged(s: State, m: Raw) returns (t: State)
    requires Reachable(2, s) && s.worker.Polling? && s.clock == 0.0 && m.Json? && m.startedAt.None?
    requires s.q == Queues([m], [Tagged(m, 0.0)], [])
    ensures Reachable(2, t) && t.clock == 0.0 && t.rows == s.rows
    ensures t.worker == Holding(Tagged(m, 0.0), Fresh)
    ensures t.q == Queues([], [Tagged(m, 0.0), Tagged(m, 0.0)], [])
  {
    var x := Tagged(m, 0.0);
    Reach2(2, s, Handle(Poll(Replied)), Handle(TagEntry(Replied)));
    var s1 := Next(2, s, Handle(Poll(Replied)));
    assert s1.q == Queues([], [m, x], []);
    assert [m, x][1..] == [x];
    t := Next(2, s1, Handle(TagEntry(Replied)));
  }

  /** Its log is gone, so it goes to retry_or_dlq; the reply to the LREM is lost; the handler's
      LREM takes the other copy. */
  lemma BothRemoved(s: State, x: Raw) returns (t: State)
    requires Reachable(2, s) && s.clock == 0.0 && s.rows == map[]
    requires x.Json? && x.logId == Some(0) && x.processAfter.None?
    requires s.worker == Holding(x, Fresh) && s.q == Queues([], [x, x], [])
    ensures Reachable(2, t) && t.clock == 0.0 && HandCount(t.worker) == 2
  {
    Reach2(2, s, Handle(Begin), Handle(LoadLog));
    var s1 := s.(worker := Retrying(x, true, 0, false));
    assert Next(2, Next(2, s, Handle(Begin)), Handle(LoadLog)) == s1;
    Reach(2, s1, Retry(RetryRemove(ReplyLost)));
    var s2 := Next(2, s1, Retry(RetryRemove(ReplyLost)));
    assert [x, x][1..] == [x];
    assert s2.q.processing == [x] && s2.worker == Retrying(x, false, 1, true);
    Reach(2, s2, Retry(RetryRemove(Replied)));
    t := Next(2, s2, Retry(RetryRemove(Replied)));
  }
}
