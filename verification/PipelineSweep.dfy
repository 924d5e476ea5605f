/** The startup sweep as a run of the system, when no command fails and nothing interleaves. */
module PipelineSweep {
  import opened Collections
  import opened QueueService
  import opened Pipeline
  import opened PipelineRecovery

  /** The steps for the selected rows, `room` being how many more entries the queue takes. */
  function SweepSteps(order: seq<LogId>, room: nat): seq<Step> {
    if order == [] then []
    else if room == 0 then [Startup(SweepDepth(Replied))] + SweepSteps(order[1..], 0)
    else [Startup(SweepDepth(Replied))] + ([Startup(SweepPush(Replied))] + SweepSteps(order[1..], room - 1))
  }

  function Room(cap: nat, q: Queues): nat {
    Max(cap - |q.main|, 0)
  }

  function Messages(ids: seq<LogId>, now: real): (r: seq<Raw>)
    ensures |r| == |ids|
  {
    if ids == [] then [] else [NewMessage(Some(ids[0]), now)] + Messages(ids[1..], now)
  }

  lemma {:induction false} MessageOfEach(ids: seq<LogId>, now: real, l: LogId)
    ensures l in ids <==> NewMessage(Some(l), now) in Messages(ids, now)
  {
    if ids != [] {
      MessageOfEach(ids[1..], now, l);
      assert l in ids <==> l == ids[0] || l in ids[1..];
    }
  }

  lemma MessageOfEachReversed(ids: seq<LogId>, now: real, l: LogId)
    ensures l in ids <==> NewMessage(Some(l), now) in Reversed(Messages(ids, now))
  {
    var m, s := NewMessage(Some(l), now), Messages(ids, now);
    MessageOfEach(ids, now, l);
    ReversedMultiset(s);
    assert m in s <==> m in multiset(s);
    assert m in Reversed(s) <==> m in multiset(Reversed(s));
  }

  function Elements(ids: seq<LogId>): set<LogId> {
    set l | l in ids
  }

  /** The state once the first `k` of the worker's rows have been pushed and the rest skipped. */
  function SweptState(s: State, k: nat, hist: History): State
    requires s.worker.Sweeping? && k <= |s.worker.rows|
  {
    var w := s.worker;
    s.(q := s.q.(main := Reversed(Messages(w.rows[..k], s.clock)) + s.q.main),
       worker := Sweeping([], w.marked + Elements(w.rows[..k])),
       hist := hist)
  }

  lemma SweepSkips(cap: nat, s: State)
    requires s.worker.Sweeping? && s.worker.rows != [] && Room(cap, s.q) == 0
    ensures SweepCheck(cap, s, Replied) == s.(worker := Sweeping(s.worker.rows[1..], s.worker.marked))
  {
  }

  lemma SweepPushes(cap: nat, s: State)
    requires s.worker.Sweeping? && s.worker.rows != [] && Room(cap, s.q) > 0
    ensures
      var w, m := s.worker, NewMessage(Some(s.worker.rows[0]), s.clock);
      && SweepCheck(cap, s, Replied).worker == SweepPassed(w.rows[0], w.rows[1..], w.marked)
      && SweepEnqueue(SweepCheck(cap, s, Replied), Replied)
         == s.(q := PushMain(s.q, m), worker := Sweeping(w.rows[1..], w.marked + {w.rows[0]}),
               hist := s.hist.Note(Pushed, m, 1))
  {
  }

  lemma SweptSkip(s: State, hist: History)
    requires s.worker.Sweeping? && s.worker.rows != []
    ensures SweptState(s.(worker := Sweeping(s.worker.rows[1..], s.worker.marked)), 0, hist) == SweptState(s, 0, hist)
  {
    assert s.worker.rows[1..][..0] == s.worker.rows[..0];
  }

  lemma MessagesCons(l: LogId, ids: seq<LogId>, now: real)
    ensures Reversed(Messages([l] + ids, now)) == Reversed(Messages(ids, now)) + [NewMessage(Some(l), now)]
  {
    assert ([l] + ids)[1..] == ids;
    ReversedLast(Messages([l] + ids, now));
    assert Messages([l] + ids, now)[1..] == Messages(ids, now);
  }

  lemma SweptPush(s: State, k: nat, hist: History, before: History)
    requires s.worker.Sweeping? && k < |s.worker.rows|
    ensures
      var w, m := s.worker, NewMessage(Some(s.worker.rows[0]), s.clock);
      var next := s.(q := PushMain(s.q, m), worker := Sweeping(w.rows[1..], w.marked + {w.rows[0]}), hist := before);
      SweptState(next, k, hist) == SweptState(s, k + 1, hist)
  {
    var rows, m := s.worker.rows, NewMessage(Some(s.worker.rows[0]), s.clock);
    var rest := rows[1..][..k];
    assert rows[..k + 1] == [rows[0]] + rest;
    MessagesCons(rows[0], rest, s.clock);
    ConcatAssoc(Reversed(Messages(rest, s.clock)), [m], s.q.main);
    assert s.worker.marked + Elements(rows[..k + 1]) == s.worker.marked + {rows[0]} + Elements(rest);
  }

  /** The loop of the sweep pushes the rows in order as long as there is room. */
  lemma {:induction false} SweepRun(cap: nat, s: State)
    requires s.worker.Sweeping?
    ensures
      var room := Room(cap, s.q);
      var run := SweepSteps(s.worker.rows, room);
      && IsRun(cap, s, run)
      && var end := Final(cap, s, run);
         end == SweptState(s, Min(|s.worker.rows|, room), end.hist)
    decreases |s.worker.rows|
  {
    var w, room := s.worker, Room(cap, s.q);
    if w.rows == [] {
      assert w.rows[..0] == [] && [] + s.q.main == s.q.main;
    } else if room == 0 {
      SweepSkips(cap, s);
      var next := SweepCheck(cap, s, Replied);
      SweepRun(cap, next);
      OneMore(cap, s, Startup(SweepDepth(Replied)), SweepSteps(w.rows[1..], 0));
      SweptSkip(s, Final(cap, next, SweepSteps(w.rows[1..], 0)).hist);
    } else {
      SweepPushes(cap, s);
      var passed := SweepCheck(cap, s, Replied);
      var next := SweepEnqueue(passed, Replied);
      var rest := SweepSteps(w.rows[1..], room - 1);
      assert Room(cap, next.q) == room - 1;
      SweepRun(cap, next);
      OneMore(cap, passed, Startup(SweepPush(Replied)), rest);
      OneMore(cap, s, Startup(SweepDepth(Replied)), [Startup(SweepPush(Replied))] + rest);
      SweptPush(s, Min(|w.rows| - 1, room - 1), Final(cap, next, rest).hist, next.hist);
    }
  }

  function StartupSteps(order: seq<LogId>, room: nat): seq<Step> {
    [Startup(SelectRows(order))] + (SweepSteps(order, room) + [Startup(SweepCommit(true))])
  }

  /** From the SELECT to the commit: the selected rows are pushed in order as far as there is
      room, and exactly those are flagged besides the ones that were. */
  lemma StartupSweep(cap: nat, s: State, order: seq<LogId>)
    requires s.worker.Recovering? && s.worker.todo == [] && ListsUnenqueued(s.rows, order)
    ensures
      var run := StartupSteps(order, Room(cap, s.q));
      var k := Min(|order|, Room(cap, s.q));
      && IsRun(cap, s, run)
      && var end := Final(cap, s, run);
         && end.worker.Polling?
         && end.q == s.q.(main := Reversed(Messages(order[..k], s.clock)) + s.q.main)
         && end.rows.Keys == s.rows.Keys
         && forall l :: l in s.rows ==> (end.rows[l] <==> s.rows[l] || l in order[..k])
  {
    var room := Room(cap, s.q);
    var k := Min(|order|, room);
    var sweeping := s.(worker := Sweeping(order, {}));
    SweepRun(cap, sweeping);
    var swept := Final(cap, sweeping, SweepSteps(order, room));
    assert swept == SweptState(sweeping, k, swept.hist);
    assert swept.worker.marked == Elements(order[..k]);
    RunSnoc(cap, sweeping, SweepSteps(order, room), Startup(SweepCommit(true)));
    OneMore(cap, s, Startup(SelectRows(order)), SweepSteps(order, room) + [Startup(SweepCommit(true))]);
    if swept.worker.marked == {} {
      assert forall l :: l in order[..k] ==> l in Elements(order[..k]);
    }
  }

  /** The SELECT always has a result. */
  lemma {:induction false} SomeOrder(rows: map<LogId, bool>) returns (order: seq<LogId>)
    ensures ListsUnenqueued(rows, order)
    decreases |rows|
  {
    if rows == map[] {
      order := [];
    } else {
      var l :| l in rows;
      var rest := rows - {l};
      assert |rest.Keys| < |rows.Keys| by {
        assert rest.Keys < rows.Keys;
        FewerKeys(rest.Keys, rows.Keys);
      }
      order := SomeOrder(rest);
      if !rows[l] {
        order := [l] + order;
      }
    }
  }

  lemma FewerKeys(a: set<LogId>, b: set<LogId>)
    requires a < b
    ensures |a| < |b|
  {
    assert b == a + (b - a);
    assert b - a != {};
  }
}
