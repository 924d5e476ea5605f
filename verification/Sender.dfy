/** sentinel-agent/sender.py: batching, posting and retrying. The stop event is observed at the
    head of a loop; a schedule of attempts that runs out stands for the event being set. */
module Sender {
  import opened Collections

  datatype Response = Status(code: int) | NetworkError

  /** Answered 2xx, or refused for good. */
  predicate Final(r: Response) {
    r.Status? && (200 <= r.code < 300 || r.code in {400, 401, 403, 404, 422})
  }

  datatype Post = Post(payload: string, response: Response)

  /** What the server answers to the i-th post of one pass over the pending payloads. */
  type Answers = nat -> Response

  /** A pass posts the payloads in order and ends with the first that is not final. */
  ghost predicate IsPass(batch: seq<string>, pass: seq<Post>) {
    && 0 < |pass| <= |batch|
    && (forall i :: 0 <= i < |pass| ==> pass[i].payload == batch[i])
    && (forall i :: 0 <= i < |pass| - 1 ==> Final(pass[i].response))
    && (|pass| < |batch| ==> !Final(pass[|pass| - 1].response))
  }

  ghost predicate Interrupted(pass: seq<Post>) {
    pass != [] && !Final(pass[|pass| - 1].response)
  }

  /** Every payload of the batch was posted in the pass and finally answered. */
  ghost predicate Completes(batch: seq<string>, pass: seq<Post>) {
    IsPass(batch, pass) && !Interrupted(pass)
  }

  lemma CompletePassCoversTheBatch(batch: seq<string>, pass: seq<Post>)
    requires Completes(batch, pass)
    ensures |pass| == |batch|
    ensures forall i :: 0 <= i < |batch| ==> pass[i].payload == batch[i] && Final(pass[i].response)
  {
  }

  /** One flush: its passes, and whether it ended because nothing was left to send. */
  datatype Flush = Flush(batch: seq<string>, passes: seq<seq<Post>>, delays: seq<real>, done: bool)

  function Backoff(attempt: nat, maxBackoff: real): real {
    MinReal(maxBackoff, Pow2(Min(attempt, 5)) as real)
  }

  /** The series of passes over one batch: each but the last is interrupted, the last one too
      unless the flush is done; and the delay after each grows with the failures in a row. */
  ghost predicate Honest(f: Flush, maxBackoff: real) {
    && (forall k :: 0 <= k < |f.passes| ==> IsPass(f.batch, f.passes[k]))
    && (forall k :: 0 <= k < |f.passes| - 1 ==> Interrupted(f.passes[k]))
    && (f.done && f.batch != [] ==> f.passes != [] && Completes(f.batch, f.passes[|f.passes| - 1]))
    && (!f.done && f.passes != [] ==> Interrupted(f.passes[|f.passes| - 1]))
    && (f.batch == [] ==> f.passes == [])
    && |f.delays| == |f.passes| - (if f.done && f.batch != [] then 1 else 0)
    && forall k :: 0 <= k < |f.delays| ==> f.delays[k] == Backoff(k + 1, maxBackoff)
  }

  class LogSender {
    const batchSize: nat
    const maxBackoff: real

    constructor (batchSize: nat, maxBackoff: real)
      requires batchSize > 0
      ensures this.batchSize == batchSize && this.maxBackoff == maxBackoff
    {
      this.batchSize, this.maxBackoff := batchSize, maxBackoff;
    }

    /** False stands for the RequestException. The unsent remainder that the code computes
        before raising it is lost with the exception. */
    method SendPending(pending: seq<string>, answers: Answers) returns (ok: bool, pass: seq<Post>)
      ensures pending == [] ==> ok && pass == []
      ensures pending != [] ==> IsPass(pending, pass)
      ensures ok <==> !Interrupted(pass)
      ensures ok <==> forall i :: 0 <= i < |pending| ==>
                        && answers(i).Status?
                        && (answers(i).code / 100 == 2 || answers(i).code in {400, 401, 403, 404, 422})
      ensures forall i :: 0 <= i < |pass| ==> pass[i].response == answers(i)
    {
      pass := [];
      for index := 0 to |pending|
        invariant |pass| == index
        invariant forall i :: 0 <= i < index ==> pass[i] == Post(pending[i], answers(i)) && Final(answers(i))
      {
        var response := answers(index);
        pass := pass + [Post(pending[index], response)];
        if !Final(response) {
          return false, pass;
        }
      }
      ok := true;
    }

    method FlushBatch(batch: seq<string>, attempts: seq<Answers>) returns (f: Flush)
      ensures f.batch == batch && Honest(f, maxBackoff)
      ensures |f.passes| <= |attempts|
      ensures !f.done ==> batch != [] && |f.passes| == |attempts|
    {
      var pending := batch;
      var passes: seq<seq<Post>> := [];
      var delays: seq<real> := [];
      var attempt := 0;
      while pending != [] && |passes| < |attempts|
        invariant |passes| <= |attempts| && |delays| <= |passes|
        invariant attempt == if pending == [] then 0 else |passes|
        invariant pending == [] || pending == batch
        invariant Honest(Flush(batch, passes, delays, pending == []), maxBackoff)
        decreases |attempts| - |passes|
      {
        var ok, pass := SendPending(pending, attempts[|passes|]);
        passes := passes + [pass];
        if ok {
          pending := [];
          attempt := 0;
        } else {
          attempt := attempt + 1;
          delays := delays + [Backoff(attempt, maxBackoff)];
        }
      }
      f := Flush(batch, passes, delays, pending == []);
    }

    /** run(). `arrivals` is what the input queue yields before the stop event, None for a
        timeout; flush n meets the answers `attempts(n)`; `drained` is what is left in the
        queue after the stop. Returns the flushes before the stop, and the one after it. */
    method Run(arrivals: seq<Option<string>>, attempts: nat -> seq<Answers>, drained: seq<string>)
      returns (flushes: seq<Flush>, taken: nat, last: Flush)
      requires batchSize > 0
      ensures taken <= |arrivals|
      ensures exists stopped ::
                && Orderly(flushes, batchSize, maxBackoff, stopped)
                && (if stopped then Batches(flushes, |flushes|) == Items(arrivals, taken) else taken == |arrivals|)
      ensures Batches(flushes, |flushes|) + last.batch == Items(arrivals, taken) + drained
      ensures exists kept ::
                && last.batch == kept + drained && |kept| < batchSize
                && Batches(flushes, |flushes|) + kept == Items(arrivals, taken)
      ensures Timely(flushes, arrivals, taken, batchSize)
      ensures last.passes == []
    {
      flushes, taken := [], 0;
      var batch: seq<string> := [];
      var stopped := false;
      while taken < |arrivals| && !stopped
        invariant Progress(flushes, batch, arrivals, taken, batchSize, maxBackoff, stopped)
        decreases |arrivals| - taken
      {
        var arrival := arrivals[taken];
        ghost var before := batch;
        var due: bool;
        if arrival.Some? {
          batch := batch + [arrival.value];
          due := |batch| >= batchSize;
        } else {
          due := batch != [];
        }
        if due {
          var f := FlushBatch(batch, attempts(|flushes|));
          FlushProgress(flushes, before, arrivals, taken, batchSize, maxBackoff, f);
          flushes := flushes + [f];
          batch := [];
          stopped := !f.done;
        } else {
          NoFlushProgress(flushes, before, arrivals, taken, batchSize, maxBackoff);
        }
        taken := taken + 1;
      }
      ProgressEnds(flushes, batch, arrivals, taken, batchSize, maxBackoff, stopped, drained);
      last := FlushBatch(batch + drained, []);
    }
  }

  /** What the loop of run() keeps. */
  ghost predicate Progress(
    flushes: seq<Flush>, batch: seq<string>, arrivals: seq<Option<string>>, taken: nat, batchSize: nat,
    maxBackoff: real, stopped: bool)
  {
    && taken <= |arrivals| && |batch| < batchSize && (stopped ==> batch == [])
    && Orderly(flushes, batchSize, maxBackoff, stopped)
    && Accounted(flushes, batch, arrivals, taken)
    && Timely(flushes, arrivals, taken, batchSize)
  }

  function Grown(batch: seq<string>, arrival: Option<string>): seq<string> {
    if arrival.Some? then batch + [arrival.value] else batch
  }

  lemma FlushProgress(
    flushes: seq<Flush>, batch: seq<string>, arrivals: seq<Option<string>>, taken: nat, batchSize: nat,
    maxBackoff: real, f: Flush)
    requires Progress(flushes, batch, arrivals, taken, batchSize, maxBackoff, false) && taken < |arrivals|
    requires f.batch == Grown(batch, arrivals[taken]) && f.batch != [] && Honest(f, maxBackoff)
    requires arrivals[taken].None? || |f.batch| >= batchSize
    ensures Progress(flushes + [f], [], arrivals, taken + 1, batchSize, maxBackoff, !f.done)
  {
    TakeAccounted(flushes, batch, arrivals, taken);
    FlushAccounted(flushes, f, arrivals, taken + 1);
    FlushOrderly(flushes, f, batchSize, maxBackoff);
    FlushTimely(flushes, f, arrivals, taken, batchSize);
  }

  lemma NoFlushProgress(
    flushes: seq<Flush>, batch: seq<string>, arrivals: seq<Option<string>>, taken: nat, batchSize: nat,
    maxBackoff: real)
    requires Progress(flushes, batch, arrivals, taken, batchSize, maxBackoff, false) && taken < |arrivals|
    requires |Grown(batch, arrivals[taken])| < batchSize && (arrivals[taken].None? ==> batch == [])
    ensures Progress(flushes, Grown(batch, arrivals[taken]), arrivals, taken + 1, batchSize, maxBackoff, false)
  {
    TakeAccounted(flushes, batch, arrivals, taken);
    NoFlushTimely(flushes, Grown(batch, arrivals[taken]), arrivals, taken, batchSize);
  }

  lemma ProgressEnds(
    flushes: seq<Flush>, batch: seq<string>, arrivals: seq<Option<string>>, taken: nat, batchSize: nat,
    maxBackoff: real, stopped: bool, drained: seq<string>)
    requires Progress(flushes, batch, arrivals, taken, batchSize, maxBackoff, stopped)
    ensures Batches(flushes, |flushes|) + (batch + drained) == Items(arrivals, taken) + drained
    ensures Batches(flushes, |flushes|) + batch == Items(arrivals, taken)
    ensures stopped ==> Batches(flushes, |flushes|) == Items(arrivals, taken)
  {
    ConcatAssoc(Batches(flushes, |flushes|), batch, drained);
    assert stopped ==> Batches(flushes, |flushes|) + [] == Batches(flushes, |flushes|);
  }

  /** Some number of flushes has taken exactly what the first `k` arrivals brought. */
  ghost predicate FlushedUpTo(flushes: seq<Flush>, arrivals: seq<Option<string>>, k: nat)
    requires k <= |arrivals|
  {
    exists n :: 0 <= n <= |flushes| && Batches(flushes, n) == Items(arrivals, k)
  }

  /** Flush `n` was due when arrival `k` had come: a timeout, or the batch was full. */
  predicate DueAt(
    flushes: seq<Flush>, n: nat, arrivals: seq<Option<string>>, k: nat, batchSize: nat)
    requires n < |flushes| && k < |arrivals|
  {
    Batches(flushes, n + 1) == Items(arrivals, k + 1) && (arrivals[k].None? || |flushes[n].batch| == batchSize)
  }

  ghost predicate WasDue(
    flushes: seq<Flush>, n: nat, arrivals: seq<Option<string>>, taken: nat, batchSize: nat)
    requires n < |flushes| && taken <= |arrivals|
  {
    exists k :: 0 <= k < taken && DueAt(flushes, n, arrivals, k, batchSize)
  }

  /** At each timeout all that has arrived before it is flushed, and a flush happens only at a
      timeout or with a full batch. */
  ghost predicate Timely(flushes: seq<Flush>, arrivals: seq<Option<string>>, taken: nat, batchSize: nat)
    requires taken <= |arrivals|
  {
    && (forall k :: 0 <= k < taken && arrivals[k].None? ==> FlushedUpTo(flushes, arrivals, k + 1))
    && (forall n :: 0 <= n < |flushes| ==> WasDue(flushes, n, arrivals, taken, batchSize))
  }

  lemma StillFlushedUpTo(flushes: seq<Flush>, f: Flush, arrivals: seq<Option<string>>, k: nat)
    requires k <= |arrivals| && FlushedUpTo(flushes, arrivals, k)
    ensures FlushedUpTo(flushes + [f], arrivals, k)
  {
    var n :| 0 <= n <= |flushes| && Batches(flushes, n) == Items(arrivals, k);
    BatchesSame(flushes + [f], flushes, n);
  }

  lemma StillWasDue(
    flushes: seq<Flush>, f: Flush, n: nat, arrivals: seq<Option<string>>, taken: nat, batchSize: nat)
    requires n < |flushes| && taken < |arrivals| && WasDue(flushes, n, arrivals, taken, batchSize)
    ensures WasDue(flushes + [f], n, arrivals, taken + 1, batchSize)
  {
    var k :| 0 <= k < taken && DueAt(flushes, n, arrivals, k, batchSize);
    BatchesSame(flushes + [f], flushes, n + 1);
    assert DueAt(flushes + [f], n, arrivals, k, batchSize);
  }

  lemma FlushTimely(flushes: seq<Flush>, f: Flush, arrivals: seq<Option<string>>, taken: nat, batchSize: nat)
    requires taken < |arrivals| && Accounted(flushes + [f], [], arrivals, taken + 1)
    requires Timely(flushes, arrivals, taken, batchSize)
    requires arrivals[taken].None? || |f.batch| == batchSize
    ensures Timely(flushes + [f], arrivals, taken + 1, batchSize)
  {
    var all := flushes + [f];
    assert Batches(all, |all|) + [] == Batches(all, |all|);
    forall k | 0 <= k < taken + 1 && arrivals[k].None?
      ensures FlushedUpTo(all, arrivals, k + 1)
    {
      if k < taken {
        StillFlushedUpTo(flushes, f, arrivals, k + 1);
      }
    }
    var next := taken + 1;
    forall n | 0 <= n < |all|
      ensures WasDue(all, n, arrivals, next, batchSize)
    {
      if n < |flushes| {
        StillWasDue(flushes, f, n, arrivals, taken, batchSize);
      } else {
        assert DueAt(all, n, arrivals, taken, batchSize);
      }
    }
  }

  lemma NoFlushTimely(
    flushes: seq<Flush>, batch: seq<string>, arrivals: seq<Option<string>>, taken: nat, batchSize: nat)
    requires taken < |arrivals| && Accounted(flushes, batch, arrivals, taken + 1)
    requires Timely(flushes, arrivals, taken, batchSize)
    requires arrivals[taken].None? ==> batch == []
    ensures Timely(flushes, arrivals, taken + 1, batchSize)
  {
    if arrivals[taken].None? {
      assert Batches(flushes, |flushes|) + [] == Batches(flushes, |flushes|);
      assert FlushedUpTo(flushes, arrivals, taken + 1);
    }
    var next := taken + 1;
    forall n | 0 <= n < |flushes|
      ensures WasDue(flushes, n, arrivals, next, batchSize)
    {
      assert WasDue(flushes, n, arrivals, taken, batchSize);
      var k :| 0 <= k < taken && DueAt(flushes, n, arrivals, k, batchSize);
      assert DueAt(flushes, n, arrivals, k, batchSize);
    }
  }

  /** The batches flushed so far and the one being filled are what has been taken. */
  ghost predicate Accounted(flushes: seq<Flush>, batch: seq<string>, arrivals: seq<Option<string>>, taken: nat)
    requires taken <= |arrivals|
  {
    Batches(flushes, |flushes|) + batch == Items(arrivals, taken)
  }

  /** Batches are neither empty nor too long, and every flush ran to its end, except the last
      one when the stop event cut it off. */
  ghost predicate Orderly(flushes: seq<Flush>, batchSize: nat, maxBackoff: real, stopped: bool) {
    && (forall n :: 0 <= n < |flushes| ==> Honest(flushes[n], maxBackoff) && 0 < |flushes[n].batch| <= batchSize)
    && (forall n :: 0 <= n < |flushes| - (if stopped then 1 else 0) ==> flushes[n].done)
    && (stopped ==> flushes != [] && !flushes[|flushes| - 1].done)
  }

  lemma FlushOrderly(flushes: seq<Flush>, f: Flush, batchSize: nat, maxBackoff: real)
    requires Orderly(flushes, batchSize, maxBackoff, false) && Honest(f, maxBackoff) && 0 < |f.batch| <= batchSize
    ensures Orderly(flushes + [f], batchSize, maxBackoff, !f.done)
  {
  }

  lemma TakeAccounted(flushes: seq<Flush>, batch: seq<string>, arrivals: seq<Option<string>>, taken: nat)
    requires taken < |arrivals| && Accounted(flushes, batch, arrivals, taken)
    ensures
      var batch' := if arrivals[taken].Some? then batch + [arrivals[taken].value] else batch;
      Accounted(flushes, batch', arrivals, taken + 1)
  {
    if arrivals[taken].Some? {
      ConcatAssoc(Batches(flushes, |flushes|), batch, [arrivals[taken].value]);
    }
  }

  lemma FlushAccounted(flushes: seq<Flush>, f: Flush, arrivals: seq<Option<string>>, taken: nat)
    requires taken <= |arrivals| && Accounted(flushes, f.batch, arrivals, taken)
    ensures Accounted(flushes + [f], [], arrivals, taken)
  {
    BatchesSame(flushes, flushes + [f], |flushes|);
  }

  /** The payloads among the first `n` arrivals. */
  function Items(arrivals: seq<Option<string>>, n: nat): seq<string>
    requires n <= |arrivals|
  {
    if n == 0 then []
    else if arrivals[n - 1].Some? then Items(arrivals, n - 1) + [arrivals[n - 1].value]
    else Items(arrivals, n - 1)
  }

  /** The batches of the first `n` flushes, end to end. */
  function Batches(flushes: seq<Flush>, n: nat): seq<string>
    requires n <= |flushes|
  {
    if n == 0 then [] else Batches(flushes, n - 1) + flushes[n - 1].batch
  }

  lemma {:induction false} BatchesSame(a: seq<Flush>, b: seq<Flush>, n: nat)
    requires n <= |a| && n <= |b| && forall i :: 0 <= i < n ==> a[i] == b[i]
    ensures Batches(a, n) == Batches(b, n)
  {
    if n > 0 {
      BatchesSame(a, b, n - 1);
    }
  }

  /** At least once: a flush that is done has posted every payload of its batch, in order, in
      its last pass, and had each accepted or refused for good; before that it may have posted
      any prefix of the batch any number of times. */
  lemma DoneMeansDelivered(f: Flush, maxBackoff: real, i: nat)
    requires Honest(f, maxBackoff) && f.done && i < |f.batch|
    ensures
      && |f.passes| > 0
      && var last := f.passes[|f.passes| - 1];
         |last| == |f.batch| && last[i].payload == f.batch[i] && Final(last[i].response)
  {
    CompletePassCoversTheBatch(f.batch, f.passes[|f.passes| - 1]);
  }

  /** The price of it: a failed pass is repeated from the start of the batch, not from where it
      failed. All that it got finally answered, which is all but its last post, is posted again
      by every later pass that comes as far, and in a flush that is done by the last one. */
  lemma RetriesStartOver(f: Flush, maxBackoff: real, k: nat, j: nat, i: nat)
    requires Honest(f, maxBackoff) && k < j < |f.passes| && i < |f.passes[k]|
    ensures Final(f.passes[k][i].response) <==> i < |f.passes[k]| - 1
    ensures i < |f.passes[j]| ==> f.passes[j][i].payload == f.passes[k][i].payload
    ensures f.done && j == |f.passes| - 1 ==> i < |f.passes[j]|
  {
    assert IsPass(f.batch, f.passes[k]) && Interrupted(f.passes[k]);
    assert IsPass(f.batch, f.passes[j]);
    if f.done && j == |f.passes| - 1 {
      CompletePassCoversTheBatch(f.batch, f.passes[j]);
    }
  }

  /** The delays: two seconds after the first failure, doubled with each further one up to 32, and
      cut to the configured maximum. */
  lemma DelaysDouble(attempt: nat, maxBackoff: real)
    ensures Backoff(1, 32.0) == 2.0
    ensures 1 <= attempt < 5 ==> Backoff(attempt + 1, 32.0) == 2.0 * Backoff(attempt, 32.0)
    ensures 5 <= attempt ==> Backoff(attempt, 32.0) == 32.0
    ensures Backoff(attempt, maxBackoff) == MinReal(maxBackoff, Backoff(attempt, 32.0))
  {
    DelaysGrowToTheCap(attempt, 32.0);
    Pow2Grows(Min(attempt, 5), 5);
    assert Pow2(5) == 2 * Pow2(4) && Pow2(4) == 2 * Pow2(3) && Pow2(3) == 2 * Pow2(2);
    assert Pow2(2) == 2 * Pow2(1) && Pow2(1) == 2 * Pow2(0);
  }

  /** The delays never fall while failures continue, and stay within 32 seconds whatever the
      configured maximum. */
  lemma DelaysGrowToTheCap(attempt: nat, maxBackoff: real)
    ensures Backoff(attempt, maxBackoff) <= Backoff(attempt + 1, maxBackoff)
    ensures Backoff(attempt, maxBackoff) <= 32.0 && Backoff(attempt, maxBackoff) <= maxBackoff
  {
    Pow2Grows(Min(attempt, 5), Min(attempt + 1, 5));
    Pow2Grows(Min(attempt, 5), 5);
    assert Pow2(5) == 2 * Pow2(4) && Pow2(4) == 2 * Pow2(3) && Pow2(3) == 2 * Pow2(2);
    assert Pow2(2) == 2 * Pow2(1) && Pow2(1) == 2 * Pow2(0);
  }

  lemma {:induction false} Pow2Grows(a: nat, b: nat)
    requires a <= b
    ensures Pow2(a) <= Pow2(b)
    decreases b - a
  {
    if a < b {
      Pow2Grows(a, b - 1);
    }
  }
}
