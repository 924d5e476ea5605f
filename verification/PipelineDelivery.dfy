/** One delivery of a message by a worker that meets no failure: each of the four exits of
    _process_message, as a run of the system, ends where it should. */
module PipelineDelivery {
  import opened Collections
  import opened QueueService
  import opened Pipeline
  import opened PipelineRetries

  /** No arrival, no failure, no exception, and the engines decide as given. */
  predicate Smooth(step: Step, risky: bool) {
    Steady(step) && step != Retry(Raise) && (step.Handle? && step.h.Evaluate? ==> step.h.risky == risky)
  }

  ghost predicate Leads(cap: nat, s: State, risky: bool, t: State) {
    exists run ::
      IsRun(cap, s, run) && Final(cap, s, run) == t && forall k :: 0 <= k < |run| ==> Smooth(run[k], risky)
  }

  lemma LeadsOn(cap: nat, s: State, risky: bool, t: State, step: Step)
    requires Leads(cap, s, risky, t) && Enabled(t, step) && Smooth(step, risky)
    ensures Leads(cap, s, risky, Next(cap, t, step))
  {
    var run :|
      IsRun(cap, s, run) && Final(cap, s, run) == t && forall k :: 0 <= k < |run| ==> Smooth(run[k], risky);
    RunSnoc(cap, s, run, step);
  }

  lemma LeadsOn2(cap: nat, s: State, risky: bool, t: State, a: Step, b: Step)
    requires Leads(cap, s, risky, t) && Enabled(t, a) && Smooth(a, risky)
    requires Enabled(Next(cap, t, a), b) && Smooth(b, risky)
    ensures Leads(cap, s, risky, Next(cap, Next(cap, t, a), b))
  {
    LeadsOn(cap, s, risky, t, a);
    LeadsOn(cap, s, risky, Next(cap, t, a), b);
  }

  lemma LeadsHere(cap: nat, s: State, risky: bool)
    ensures Leads(cap, s, risky, s)
  {
    assert IsRun(cap, s, []) && Final(cap, s, []) == s;
  }

  /** The oldest message, with the time at which it was taken. */
  function Oldest(s: State): Raw
    requires s.q.main != [] && s.q.main[|s.q.main| - 1].Json?
  {
    s.q.main[|s.q.main| - 1].(startedAt := Some(s.clock))
  }

  /** When its back-off has passed, or five seconds of it. */
  function ReadyAt(s: State, m: Raw): real
    requires m.Json?
  {
    MaxReal(s.clock, MinReal(m.processAfter.GetOr(0.0), s.clock + 5.0))
  }

  function Taken(s: State): Queues
    requires s.q.main != []
  {
    s.q.(main := s.q.main[..|s.q.main| - 1])
  }

  /** poll, tag */
  lemma TakeMessage(cap: nat, s: State, risky: bool) returns (t: State)
    requires s.worker.Polling? && s.q.main != [] && s.q.main[|s.q.main| - 1].Json?
    ensures Leads(cap, s, risky, t)
    ensures t == s.(q := Taken(s).(processing := [Oldest(s)] + s.q.processing), worker := Holding(Oldest(s), Fresh))
  {
    var raw := s.q.main[|s.q.main| - 1];
    LeadsHere(cap, s, risky);
    LeadsOn2(cap, s, risky, s, Handle(Poll(Replied)), Handle(TagEntry(Replied)));
    t := Next(cap, Next(cap, s, Handle(Poll(Replied))), Handle(TagEntry(Replied)));
    assert ([raw] + s.q.processing)[1..] == s.q.processing;
  }

  /** the retry of a message without a log */
  lemma GiveBack(cap: nat, s: State, risky: bool, t: State, rest: seq<Raw>) returns (end: State)
    requires Leads(cap, s, risky, t) && t.worker.Retrying? && t.worker.hand == 0 && t.worker.msg.Json?
    requires t.q.processing == [t.worker.msg] + rest
    ensures Leads(cap, s, risky, end) && end.worker.Polling?
    ensures end.q == Requeue(t.q.(processing := rest), Bumped(t.worker.msg, t.clock))
    ensures end.alerts == t.alerts && end.rows == t.rows && end.hist.evaluated == t.hist.evaluated
  {
    assert ([t.worker.msg] + rest)[1..] == rest;
    LeadsOn2(cap, s, risky, t, Retry(RetryRemove(Replied)), Retry(RetryPush(Replied)));
    end := Next(cap, Next(cap, t, Retry(RetryRemove(Replied))), Retry(RetryPush(Replied)));
  }

  lemma DropIt(cap: nat, s: State, risky: bool, t: State, rest: seq<Raw>) returns (end: State)
    requires Leads(cap, s, risky, t) && t.worker.Holding? && t.worker.stage.Settled?
    requires t.q.processing == [t.worker.msg] + rest
    ensures Leads(cap, s, risky, end) && end.worker.Polling? && end.q == t.q.(processing := rest)
    ensures end.alerts == t.alerts && end.rows == t.rows && end.hist.evaluated == t.hist.evaluated
  {
    assert ([t.worker.msg] + rest)[1..] == rest;
    LeadsOn(cap, s, risky, t, Handle(Ack(Replied)));
    end := Next(cap, t, Handle(Ack(Replied)));
  }

  /** the back-off sleep, if there is one */
  lemma WaitForIt(cap: nat, s: State, risky: bool, t: State) returns (ready: State)
    requires Leads(cap, s, risky, t) && t.worker.Holding? && t.worker.stage.Fresh?
    requires t.worker.msg.Json? && t.worker.msg.logId.Some?
    ensures Leads(cap, s, risky, ready)
    ensures ready == t.(worker := Holding(t.worker.msg, Ready), clock := ReadyAt(t, t.worker.msg))
  {
    var m := t.worker.msg;
    LeadsOn(cap, s, risky, t, Handle(Begin));
    ready := Next(cap, t, Handle(Begin));
    if m.processAfter.GetOr(0.0) > t.clock {
      LeadsOn2(cap, s, risky, ready, Tick(ReadyAt(t, m)), Handle(Wake));
      ready := Next(cap, Next(cap, ready, Tick(ReadyAt(t, m))), Handle(Wake));
    }
  }

  /** Without a log id it is retried at once. */
  lemma WithoutLogId(cap: nat, s: State, risky: bool)
    requires s.worker.Polling? && s.q.main != [] && s.q.main[|s.q.main| - 1].Json? && Oldest(s).logId.None?
    ensures exists end ::
      && Leads(cap, s, risky, end) && end.worker.Polling?
      && end.q == Requeue(Taken(s), Bumped(Oldest(s), s.clock))
      && end.alerts == s.alerts && end.rows == s.rows && end.hist.evaluated == s.hist.evaluated
  {
    var t := TakeMessage(cap, s, risky);
    LeadsOn(cap, s, risky, t, Handle(Begin));
    var end := GiveBack(cap, s, risky, Next(cap, t, Handle(Begin)), s.q.processing);
  }

  predicate HasLogId(s: State) {
    s.worker.Polling? && s.q.main != [] && s.q.main[|s.q.main| - 1].Json? && Oldest(s).logId.Some?
  }

  /** poll, tag, back-off, and the query for the row */
  lemma LookUpRow(cap: nat, s: State, risky: bool) returns (t: State)
    requires HasLogId(s)
    ensures Leads(cap, s, risky, t)
    ensures
      var m := Oldest(s);
      t == s.(
        q := Taken(s).(processing := [m] + s.q.processing),
        worker := if m.logId.value in s.rows then Holding(m, Loaded) else Retrying(m, true, 0, false),
        clock := ReadyAt(s, m))
  {
    t := TakeMessage(cap, s, risky);
    t := WaitForIt(cap, s, risky, t);
    LeadsOn(cap, s, risky, t, Handle(LoadLog));
    t := Next(cap, t, Handle(LoadLog));
  }

  lemma WithoutRow(cap: nat, s: State, risky: bool) returns (end: State)
    requires HasLogId(s) && Oldest(s).logId.value !in s.rows
    ensures Leads(cap, s, risky, end) && end.worker.Polling? && end.rows == s.rows
    ensures end.q == Requeue(Taken(s), Bumped(Oldest(s), ReadyAt(s, Oldest(s))))
    ensures end.alerts == s.alerts && end.hist.evaluated == s.hist.evaluated
  {
    var t := LookUpRow(cap, s, risky);
    end := GiveBack(cap, s, risky, t, s.q.processing);
  }

  lemma WithRow(cap: nat, s: State, risky: bool) returns (end: State)
    requires HasLogId(s) && Oldest(s).logId.value in s.rows
    ensures Leads(cap, s, risky, end) && end.worker.Polling? && end.rows == s.rows && end.q == Taken(s)
    ensures
      var l := Oldest(s).logId.value;
      if s.alerts[l] > 0 then end.alerts == s.alerts && end.hist.evaluated == s.hist.evaluated
      else
        && end.alerts == (if risky then s.alerts[l := 1] else s.alerts)
        && end.hist.evaluated == s.hist.evaluated[l := s.hist.evaluated[l] + 1]
  {
    var t := LookUpRow(cap, s, risky);
    LeadsOn(cap, s, risky, t, Handle(CheckAlert));
    t := Next(cap, t, Handle(CheckAlert));
    if s.alerts[Oldest(s).logId.value] == 0 {
      t := Evaluation(cap, s, risky, t, Oldest(s).logId.value);
    }
    end := DropIt(cap, s, risky, t, s.q.processing);
  }

  /** With one it waits for its back-off, and then: without a row it is retried; with an alert it
      is acknowledged and nothing else happens; otherwise its log is evaluated once and has an
      alert afterwards if and only if it was rated risky. */
  lemma WithLogId(cap: nat, s: State, risky: bool)
    requires HasLogId(s)
    ensures exists end ::
      var l := Oldest(s).logId.value;
      && Leads(cap, s, risky, end) && end.worker.Polling? && end.rows == s.rows
      && end.q == (
        if l in s.rows then Taken(s) else Requeue(Taken(s), Bumped(Oldest(s), ReadyAt(s, Oldest(s)))))
      && if l in s.rows && s.alerts[l] == 0 then
           && end.alerts == (if risky then s.alerts[l := 1] else s.alerts)
           && end.hist.evaluated == s.hist.evaluated[l := s.hist.evaluated[l] + 1]
         else end.alerts == s.alerts && end.hist.evaluated == s.hist.evaluated
  {
    if Oldest(s).logId.value in s.rows {
      var end := WithRow(cap, s, risky);
    } else {
      var end := WithoutRow(cap, s, risky);
    }
  }

  lemma Evaluation(cap: nat, s: State, risky: bool, t: State, l: LogId) returns (end: State)
    requires Leads(cap, s, risky, t) && t.worker.Holding? && t.worker.stage.Clear? && Id(t.worker.msg) == Some(l)
    requires l in t.rows && t.alerts[l] == 0
    ensures Leads(cap, s, risky, end) && end.worker == Holding(t.worker.msg, Settled)
    ensures end.q == t.q && end.rows == t.rows
    ensures end.alerts == if risky then t.alerts[l := 1] else t.alerts
    ensures end.hist.evaluated == t.hist.evaluated[l := t.hist.evaluated[l] + 1]
  {
    LeadsOn(cap, s, risky, t, Handle(Evaluate(risky)));
    end := Next(cap, t, Handle(Evaluate(risky)));
    if risky {
      LeadsOn(cap, s, risky, end, Handle(InsertAlert));
      end := Next(cap, end, Handle(InsertAlert));
    }
  }
}
