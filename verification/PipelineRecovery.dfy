/** The recovery of a worker start as a run of the system, when no command fails. */
module PipelineRecovery {
  import opened Collections
  import opened QueueService
  import opened Pipeline

  /** The steps of the recovery loop over a snapshot. */
  function RecoverySteps(todo: seq<Raw>, since: real): seq<Step> {
    if todo == [] then []
    else if IsStale(todo[0], since) then
      [Startup(RecoverTake(Replied)), Startup(RecoverPush(Replied))] + RecoverySteps(todo[1..], since)
    else [Startup(RecoverTake(Replied))] + RecoverySteps(todo[1..], since)
  }

  lemma TakeOne(s: State, q: Queues, i: nat, since: real)
    requires i < |q.processing|
    requires s.worker == Recovering(q.processing[i..], since) && s.q == PartlyRecovered(q, i, since)
    ensures
      var m := q.processing[i];
      var taken := TakeStale(s, Replied);
      if IsStale(m, since) then
        taken.worker.RecoverHand? && PutBack(taken, Replied).worker == Recovering(q.processing[i + 1..], since)
        && PutBack(taken, Replied).q == PartlyRecovered(q, i + 1, since)
      else taken.worker == Recovering(q.processing[i + 1..], since) && taken.q == PartlyRecovered(q, i + 1, since)
  {
    RecoveryAdvances(q, i, since);
  }

  lemma {:induction false} RecoveryRun(cap: nat, s: State, q: Queues, i: nat, since: real)
    requires i <= |q.processing|
    requires s.worker == Recovering(q.processing[i..], since) && s.q == PartlyRecovered(q, i, since)
    ensures
      var run := RecoverySteps(q.processing[i..], since);
      && IsRun(cap, s, run)
      && Final(cap, s, run).worker == Recovering([], since)
      && Final(cap, s, run).q == PartlyRecovered(q, |q.processing|, since)
      && Final(cap, s, run).rows == s.rows && Final(cap, s, run).clock == s.clock
    decreases |q.processing| - i
  {
    if i < |q.processing| {
      var rest := RecoverySteps(q.processing[i + 1..], since);
      assert q.processing[i..][1..] == q.processing[i + 1..];
      TakeOne(s, q, i, since);
      var taken := TakeStale(s, Replied);
      if IsStale(q.processing[i], since) {
        var back := PutBack(taken, Replied);
        RecoveryRun(cap, back, q, i + 1, since);
        OneMore(cap, taken, Startup(RecoverPush(Replied)), rest);
        OneMore(cap, s, Startup(RecoverTake(Replied)), [Startup(RecoverPush(Replied))] + rest);
        assert RecoverySteps(q.processing[i..], since)
            == [Startup(RecoverTake(Replied))] + ([Startup(RecoverPush(Replied))] + rest);
      } else {
        RecoveryRun(cap, taken, q, i + 1, since);
        OneMore(cap, s, Startup(RecoverTake(Replied)), rest);
      }
    }
  }

  /** A worker that starts on any queues, with orphans and duplicates, and meets no failure,
      puts back exactly the stale entries and leaves exactly the others. */
  lemma StartRecoversExactly(cap: nat, s: State)
    requires s.worker.Down?
    ensures
      var run := [Startup(Start)] + RecoverySteps(s.q.processing, s.clock);
      && IsRun(cap, s, run)
      && var end := Final(cap, s, run);
         && end.q.processing == FreshOnes(s.q.processing, s.clock)
         && end.q.main == Reversed(StaleOnes(s.q.processing, s.clock)) + s.q.main
         && end.q.dlq == s.q.dlq
         && end.worker == Recovering([], s.clock) && end.rows == s.rows && end.clock == s.clock
  {
    var started := Next(cap, s, Startup(Start));
    RecoveryStarts(s.q, s.clock);
    assert s.q.processing[0..] == s.q.processing;
    RecoveryRun(cap, started, s.q, 0, s.clock);
    OneMore(cap, s, Startup(Start), RecoverySteps(s.q.processing, s.clock));
    var n := |s.q.processing|;
    assert s.q.processing[..n] == s.q.processing && s.q.processing[n..] == [];
    assert FreshOnes(s.q.processing, s.clock) + [] == FreshOnes(s.q.processing, s.clock);
  }

  /** By the entries' own fields: the restart moves all copies of an entry back to the main queue
      if it is unreadable or its processing began more than 30 seconds ago, and else none. */
  lemma RestartRecoversByAge(cap: nat, s: State, m: Raw)
    requires s.worker.Down?
    ensures
      var aged := m.Garbage? || s.clock - (if m.startedAt.Some? then m.startedAt.value else 0.0) > 30.0;
      var run := [Startup(Start)] + RecoverySteps(s.q.processing, s.clock);
      && IsRun(cap, s, run)
      && var end := Final(cap, s, run).q;
         var copies := Occurrences(s.q.processing, m);
         && Occurrences(end.processing, m) == (if aged then 0 else copies)
         && Occurrences(end.main, m) == Occurrences(s.q.main, m) + (if aged then copies else 0)
  {
    StartRecoversExactly(cap, s);
    SweepSplitsByAge(s.q.processing, s.clock, m);
    ReversedMultiset(StaleOnes(s.q.processing, s.clock));
  }

  /** From dequeue to recovery: a message dequeued at one time, whatever happened since, goes back
      to the main queue at the next start, if it is still on the processing list then, exactly if
      more than 30 seconds have passed. */
  lemma DequeuedThenRestarted(cap: nat, s: State, o: Outcome, run: seq<Step>)
    requires s.worker.Moved? && s.worker.raw.Json? && Executed(o)
    requires IsRun(cap, Next(cap, s, Handle(TagEntry(o))), run)
    requires Final(cap, Next(cap, s, Handle(TagEntry(o))), run).worker.Down?
    ensures
      var tagged := Next(cap, s, Handle(TagEntry(o)));
      var m := s.worker.raw.(startedAt := Some(s.clock));
      var down := Final(cap, tagged, run);
      var restart := [Startup(Start)] + RecoverySteps(down.q.processing, down.clock);
      && m in tagged.q.processing
      && IsRun(cap, down, restart)
      && (m in down.q.processing ==>
            && (m in Final(cap, down, restart).q.processing <==> down.clock - s.clock <= 30.0)
            && (down.clock - s.clock > 30.0 ==> m in Final(cap, down, restart).q.main))
  {
    var m := s.worker.raw.(startedAt := Some(s.clock));
    var down := Final(cap, Next(cap, s, Handle(TagEntry(o))), run);
    RestartRecoversByAge(cap, down, m);
    var end := Final(cap, down, [Startup(Start)] + RecoverySteps(down.q.processing, down.clock));
    assert m in end.q.processing <==> Occurrences(end.q.processing, m) > 0;
    assert m in end.q.main <==> Occurrences(end.q.main, m) > 0;
    assert m in down.q.processing ==> Occurrences(down.q.processing, m) > 0;
  }
}
