/** The three Redis lists of app/services/queue_service.py and the operations on them.
    Index 0 of a list is its head: LPUSH adds there, BLMOVE takes from the other end and
    LREM with count 1 removes the match nearest the head. */
module QueueService {
  import opened Collections

  const MAX_RETRIES: nat := 3
  const VISIBILITY_TIMEOUT: real := 30.0

  type LogId = nat

  /** One list entry. Json is the encoding of a message dictionary; the worker reads
      nothing of the payload but its log_id. Garbage is text that does not parse. */
  datatype Raw =
    | Json(
        logId: Option<LogId>,
        retryCount: nat,
        enqueuedAt: real,
        startedAt: Option<real>,
        processAfter: Option<real>,
        movedToDlqAt: Option<real>)
    | Garbage(text: string)

  datatype Queues = Queues(main: seq<Raw>, processing: seq<Raw>, dlq: seq<Raw>)

  function NewMessage(logId: Option<LogId>, now: real): Raw {
    Json(logId, 0, now, None, None, None)
  }

  function Tagged(m: Raw, now: real): Raw
    requires m.Json?
  {
    m.(startedAt := Some(now))
  }

  /** The message that retry_or_dlq pushes in place of `m`. */
  function Bumped(m: Raw, now: real): Raw
    requires m.Json?
  {
    var n := m.retryCount + 1;
    if n >= MAX_RETRIES then m.(retryCount := n, movedToDlqAt := Some(now))
    else m.(retryCount := n, processAfter := Some(now + Pow2(n) as real))
  }

  function PushMain(q: Queues, m: Raw): Queues {
    q.(main := [m] + q.main)
  }

  /** BLMOVE main processing RIGHT LEFT. */
  function MoveTail(q: Queues): Queues
    requires q.main != []
  {
    var last := |q.main| - 1;
    q.(main := q.main[..last], processing := [q.main[last]] + q.processing)
  }

  /** LREM processing 1 m. */
  function Drop(q: Queues, m: Raw): Queues {
    q.(processing := RemoveFirst(q.processing, m))
  }

  /** The LREM and LPUSH that dequeue sends as one transaction. */
  function Retag(q: Queues, raw: Raw, tagged: Raw): Queues {
    q.(processing := [tagged] + RemoveFirst(q.processing, raw))
  }

  /** The LPUSH that ends retry_or_dlq: onto the DLQ once the retries are used up. */
  function Requeue(q: Queues, m: Raw): Queues
    requires m.Json?
  {
    if m.retryCount >= MAX_RETRIES then q.(dlq := [m] + q.dlq) else PushMain(q, m)
  }

  /** What the recovery sweep moves back: unparseable entries, and those whose processing
      began more than the visibility timeout ago (an untagged entry began at time 0). */
  predicate IsStale(raw: Raw, now: real) {
    raw.Garbage? || now - raw.startedAt.GetOr(0.0) > VISIBILITY_TIMEOUT
  }

  function StaleOnes(s: seq<Raw>, now: real): seq<Raw> {
    if s == [] then []
    else if IsStale(s[0], now) then [s[0]] + StaleOnes(s[1..], now)
    else StaleOnes(s[1..], now)
  }

  function FreshOnes(s: seq<Raw>, now: real): (r: seq<Raw>)
    ensures forall m :: m in r ==> !IsStale(m, now)
  {
    if s == [] then []
    else if IsStale(s[0], now) then FreshOnes(s[1..], now)
    else [s[0]] + FreshOnes(s[1..], now)
  }

  lemma {:induction false} StaleAtMost(s: seq<Raw>, now: real)
    ensures |StaleOnes(s, now)| <= |s|
  {
    if s != [] {
      StaleAtMost(s[1..], now);
    }
  }

  lemma {:induction false} SplitSnoc(s: seq<Raw>, x: Raw, now: real)
    ensures StaleOnes(s + [x], now) == if IsStale(x, now) then StaleOnes(s, now) + [x] else StaleOnes(s, now)
    ensures FreshOnes(s + [x], now) == if IsStale(x, now) then FreshOnes(s, now) else FreshOnes(s, now) + [x]
  {
    if s == [] {
      assert (s + [x])[1..] == [];
    } else {
      assert (s + [x])[1..] == s[1..] + [x];
      SplitSnoc(s[1..], x, now);
    }
  }

  function Occurrences(s: seq<Raw>, m: Raw): nat {
    multiset(s)[m]
  }

  /** The recovery sweep tells the entries apart by their own fields: of each entry it moves all
      copies or none, and it moves those that are unreadable or began more than 30 seconds ago. */
  lemma {:induction false} SweepSplitsByAge(s: seq<Raw>, now: real, m: Raw)
    ensures
      var aged := m.Garbage? || now - (if m.startedAt.Some? then m.startedAt.value else 0.0) > 30.0;
      && Occurrences(StaleOnes(s, now), m) == (if aged then Occurrences(s, m) else 0)
      && Occurrences(FreshOnes(s, now), m) == (if aged then 0 else Occurrences(s, m))
  {
    if s != [] {
      assert s == [s[0]] + s[1..];
      SweepSplitsByAge(s[1..], now, m);
    }
  }

  /** Neither part changes the order of the entries. */
  lemma {:induction false} SweepKeepsOrder(s: seq<Raw>, now: real)
    ensures Subsequence(FreshOnes(s, now), s) && Subsequence(StaleOnes(s, now), s)
  {
    if s != [] {
      SweepKeepsOrder(s[1..], now);
      SkipFirst(FreshOnes(s[1..], now), s[0], s[1..]);
      SkipFirst(StaleOnes(s[1..], now), s[0], s[1..]);
      assert [s[0]] + s[1..] == s;
    }
  }

  lemma {:induction false} SkipFirst<T>(a: seq<T>, x: T, b: seq<T>)
    requires Subsequence(a, b)
    ensures Subsequence(a, [x] + b) && Subsequence([x] + a, [x] + b)
    decreases |b|, 1
  {
    assert ([x] + b)[1..] == b && ([x] + a)[1..] == a;
    if a != [] && a[0] == x {
      DropFirst(a, b);
    }
  }

  lemma {:induction false} DropFirst<T>(a: seq<T>, b: seq<T>)
    requires a != [] && Subsequence(a, b)
    ensures Subsequence(a[1..], b)
    decreases |b|, 0
  {
    if a[0] == b[0] {
      SkipFirst(a[1..], b[0], b[1..]);
      assert [b[0]] + b[1..] == b;
    } else {
      DropFirst(a, b[1..]);
      SkipFirst(a[1..], b[0], b[1..]);
      assert [b[0]] + b[1..] == b;
    }
  }

  datatype Dequeued = Empty | Malformed | Message(m: Raw)

  class LogQueue {
    var main: seq<Raw>
    var processing: seq<Raw>
    var dlq: seq<Raw>

    ghost function View(): Queues
      reads this
    {
      Queues(main, processing, dlq)
    }

    constructor ()
      ensures View() == Queues([], [], [])
    {
      main, processing, dlq := [], [], [];
    }

    /** False stands for the QueueFull exception. */
    method Enqueue(logId: Option<LogId>, now: real, maxDepth: nat) returns (accepted: bool)
      modifies this
      ensures accepted <==> |old(main)| < maxDepth
      ensures View() == if accepted then PushMain(old(View()), NewMessage(logId, now)) else old(View())
      ensures accepted ==> main == [Json(logId, 0, now, None, None, None)] + old(main)
    {
      var depth := |main|;
      if depth >= maxDepth {
        return false;
      }
      main := [NewMessage(logId, now)] + main;
      return true;
    }

    /** Malformed stands for the exception of json.loads, raised after the move. */
    method Dequeue(now: real) returns (d: Dequeued)
      modifies this
      ensures d.Empty? <==> old(main) == []
      ensures d.Empty? ==> View() == old(View())
      ensures !d.Empty? ==> main + [old(main)[|old(main)| - 1]] == old(main) && dlq == old(dlq)
      ensures d.Malformed? ==> old(main)[|old(main)| - 1].Garbage? && View() == MoveTail(old(View()))
      ensures d.Message? ==>
                && old(main)[|old(main)| - 1].Json?
                && d.m == Tagged(old(main)[|old(main)| - 1], now)
                && d.m.startedAt == Some(now)
                && d.m.(startedAt := None) == old(main)[|old(main)| - 1].(startedAt := None)
                && processing == [d.m] + old(processing)
                && View() == Retag(MoveTail(old(View())), old(main)[|old(main)| - 1], d.m)
    {
      if main == [] {
        return Empty;
      }
      var last := |main| - 1;
      var raw := main[last];
      main, processing := main[..last], [raw] + processing;
      if raw.Garbage? {
        return Malformed;
      }
      var updated := Tagged(raw, now);
      assert ([raw] + old(processing))[1..] == old(processing);
      processing := RemoveFirst(processing, raw);
      processing := [updated] + processing;
      return Message(updated);
    }

    method Acknowledge(m: Raw)
      modifies this
      ensures View() == Drop(old(View()), m)
    {
      processing := RemoveFirst(processing, m);
    }

    method RetryOrDlq(m: Raw, now: real) returns (requeued: bool)
      requires m.Json?
      modifies this
      ensures requeued <==> m.retryCount < 2
      ensures requeued ==>
                var again := m.(retryCount := m.retryCount + 1,
                                processAfter := Some(now + if m.retryCount == 0 then 2.0 else 4.0));
                main == [again] + old(main) && dlq == old(dlq)
      ensures !requeued ==>
                dlq == [m.(retryCount := m.retryCount + 1, movedToDlqAt := Some(now))] + old(dlq) && main == old(main)
      ensures View() == Requeue(Drop(old(View()), m), Bumped(m, now))
    {
      assert Pow2(1) == 2 && Pow2(2) == 4;
      processing := RemoveFirst(processing, m);
      var count := m.retryCount + 1;
      if count >= MAX_RETRIES {
        dlq := [m.(retryCount := count, movedToDlqAt := Some(now))] + dlq;
        return false;
      }
      main := [m.(retryCount := count, processAfter := Some(now + Pow2(count) as real))] + main;
      return true;
    }

    /** Recovery is exact for every processing list, duplicates included. */
    method RecoverProcessingQueue(now: real) returns (count: nat)
      modifies this
      ensures processing == FreshOnes(old(processing), now)
      ensures main == Reversed(StaleOnes(old(processing), now)) + old(main)
      ensures dlq == old(dlq)
      ensures count == |StaleOnes(old(processing), now)|
      ensures main[count..] == old(main) && Subsequence(processing, old(processing))
      ensures multiset(main[..count]) + multiset(processing) == multiset(old(processing))
      ensures forall m :: m in processing ==> m.Json? && now - m.startedAt.GetOr(0.0) <= 30.0
      ensures forall m :: m in processing && now > 30.0 ==> m.startedAt.Some?
      ensures forall m :: m in main[..count] ==> m.Garbage? || now - m.startedAt.GetOr(0.0) > 30.0
    {
      var items := processing;
      ghost var start := View();
      count := 0;
      RecoveryStarts(start, now);
      for i := 0 to |items|
        invariant View() == PartlyRecovered(start, i, now)
        invariant count == |StaleOnes(items[..i], now)|
      {
        var raw := items[i];
        RecoveryAdvances(start, i, now);
        if IsStale(raw, now) {
          processing := RemoveFirst(processing, raw);
          main := [raw] + main;
          count := count + 1;
        }
      }
      assert items[..|items|] == items;
      RecoveryByAge(items, now);
      SweepKeepsOrder(items, now);
      assert main[..count] == Reversed(StaleOnes(items, now));
      assert main[count..] == start.main;
    }
  }

  lemma RecoveryByAge(s: seq<Raw>, now: real)
    ensures
      var moved, kept := Reversed(StaleOnes(s, now)), FreshOnes(s, now);
      && multiset(moved) + multiset(kept) == multiset(s)
      && (forall m :: m in kept ==> m.Json? && now - m.startedAt.GetOr(0.0) <= 30.0)
      && (forall m :: m in moved ==> m.Garbage? || now - m.startedAt.GetOr(0.0) > 30.0)
  {
    var moved, kept := Reversed(StaleOnes(s, now)), FreshOnes(s, now);
    ReversedMultiset(StaleOnes(s, now));
    forall m
      ensures multiset(moved)[m] + multiset(kept)[m] == multiset(s)[m]
      ensures m in kept ==> m.Json? && now - m.startedAt.GetOr(0.0) <= 30.0
      ensures m in moved ==> m.Garbage? || now - m.startedAt.GetOr(0.0) > 30.0
    {
      SweepSplitsByAge(s, now, m);
      assert m in kept <==> m in multiset(kept);
      assert m in moved <==> m in multiset(moved);
    }
  }

  /** First in, first out: what waits, oldest first, grows at its end by an enqueue and loses its
      first message by a dequeue. */
  lemma FirstInFirstOut(q: Queues, waiting: seq<Raw>, m: Raw)
    requires q.main == Reversed(waiting)
    ensures PushMain(q, m).main == Reversed(waiting + [m])
    ensures waiting != [] ==>
              && MoveTail(q).main == Reversed(waiting[1..])
              && MoveTail(q).processing == [waiting[0]] + q.processing
  {
    ReversedSnoc(waiting, m);
    if waiting != [] {
      ReversedLast(waiting);
    }
  }

  /** The queues once the recovery loop has handled the first `i` entries of its snapshot. */
  ghost function PartlyRecovered(q: Queues, i: nat, now: real): Queues
    requires i <= |q.processing|
  {
    Queues(
      Reversed(StaleOnes(q.processing[..i], now)) + q.main,
      FreshOnes(q.processing[..i], now) + q.processing[i..],
      q.dlq)
  }

  lemma RecoveryStarts(q: Queues, now: real)
    ensures PartlyRecovered(q, 0, now) == q
  {
    assert q.processing[..0] == [];
    assert [] + q.main == q.main && [] + q.processing == q.processing;
  }

  lemma RecoveryAdvances(q: Queues, i: nat, now: real)
    requires i < |q.processing|
    ensures
      var raw := q.processing[i];
      var next := PartlyRecovered(q, i + 1, now);
      if IsStale(raw, now) then next == PushMain(Drop(PartlyRecovered(q, i, now), raw), raw)
      else next == PartlyRecovered(q, i, now)
    ensures
      var before, after := StaleOnes(q.processing[..i], now), StaleOnes(q.processing[..i + 1], now);
      |after| == |before| + if IsStale(q.processing[i], now) then 1 else 0
  {
    var items := q.processing;
    assert items[..i + 1] == items[..i] + [items[i]];
    SplitSnoc(items[..i], items[i], now);
    ProcessingAdvances(items, i, now);
    if IsStale(items[i], now) {
      ReversedSnoc(StaleOnes(items[..i], now), items[i]);
      ConcatAssoc([items[i]], Reversed(StaleOnes(items[..i], now)), q.main);
    }
  }

  lemma ProcessingAdvances(items: seq<Raw>, i: nat, now: real)
    requires i < |items|
    ensures
      var before := FreshOnes(items[..i], now) + items[i..];
      FreshOnes(items[..i + 1], now) + items[i + 1..]
      == if IsStale(items[i], now) then RemoveFirst(before, items[i]) else before
  {
    assert items[..i + 1] == items[..i] + [items[i]];
    assert items[i..] == [items[i]] + items[i + 1..];
    SplitSnoc(items[..i], items[i], now);
    if IsStale(items[i], now) {
      RemoveFirstAfterPrefix(FreshOnes(items[..i], now), items[i], items[i + 1..]);
    } else {
      ConcatAssoc(FreshOnes(items[..i], now), [items[i]], items[i + 1..]);
    }
  }

  /** An entry orphaned before it was tagged is stale as soon as the clock has passed the timeout. */
  lemma OrphansAreStale(s: seq<Raw>, now: real)
    requires now > VISIBILITY_TIMEOUT
    requires forall m :: m in s ==> m.Garbage? || m.startedAt.None?
    ensures StaleOnes(s, now) == s && FreshOnes(s, now) == []
  {
    if s != [] {
      OrphansAreStale(s[1..], now);
    }
  }
}
