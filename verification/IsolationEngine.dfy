/** The state part of app/services/isolation_engine.py: when a model is retrained, when the new
    model replaces the old one, and what a restart restores. The fitted model is an arbitrary
    function from feature vectors to decision values. */
module IsolationEngine {
  import opened Collections
  import opened Rounding

  const FEATURE_DIM: nat := 4
  const TOLERANCE: real := 0.05

  type Model = seq<real> -> real

  // ----- scoring -----

  /** The decision value, clamped to [-0.5, 0.5], inverted and moved to [0, 1]. */
  function Normalised(raw: real): real {
    var clamped := MaxReal(MinReal(-raw, 0.5), -0.5);
    Round4(MinReal(MaxReal((clamped + 0.5) / 1.0, 0.0), 1.0))
  }

  function ScoreWith(model: Option<Model>, features: seq<real>): real {
    if |features| != FEATURE_DIM || model.None? then 0.0 else Normalised(model.value(features))
  }

  /** Scores lie in [0, 1], and what the model finds more abnormal scores no lower. */
  lemma ScoreIsUnitAndAntitone(raw: real, other: real)
    ensures 0.0 <= Normalised(raw) <= 1.0
    ensures raw <= other ==> Normalised(raw) >= Normalised(other)
  {
    var a := MinReal(MaxReal((MaxReal(MinReal(-raw, 0.5), -0.5) + 0.5) / 1.0, 0.0), 1.0);
    var b := MinReal(MaxReal((MaxReal(MinReal(-other, 0.5), -0.5) + 0.5) / 1.0, 0.0), 1.0);
    RoundUnit(a);
    if raw <= other {
      RoundMonotone(b, a);
    }
  }

  /** The whole shape: 1 from a decision value of -0.5 down, 0 from 0.5 up, and in between as far
      from 0.5 on one side as the decision value is from 0 on the other. */
  lemma ScoreShape(raw: real)
    ensures raw <= -0.5 ==> Normalised(raw) == 1.0
    ensures raw >= 0.5 ==> Normalised(raw) == 0.0
    ensures -0.5 <= raw <= 0.5 ==> -0.00005 <= Normalised(raw) - (0.5 - raw) <= 0.00005
  {
    RoundGrid(0);
    RoundGrid(10000);
    if -0.5 <= raw <= 0.5 {
      RoundNear(0.5 - raw);
    }
  }

  /** A malformed vector and an untrained engine score 0; otherwise the model is asked. */
  lemma ScoreGuards(model: Option<Model>, features: seq<real>)
    ensures |features| != 4 || model.None? ==> ScoreWith(model, features) == 0.0
    ensures |features| == 4 && model.Some? ==> ScoreWith(model, features) == Normalised(model.value(features))
  {
  }

  // ----- the holdout -----

  /** The labels of the synthetic holdout: four normal vectors, three anomalous ones. */
  const HOLDOUT_LABELS: seq<bool> := [false, false, false, false, true, true, true]

  /** All (anomalous, normal) pairs of positions, and those that the model orders correctly. */
  function Pairs(labels: seq<bool>): set<(int, int)> {
    set i, j | 0 <= i < |labels| && 0 <= j < |labels| && labels[i] && !labels[j] :: (i, j)
  }

  function Hits(labels: seq<bool>, scores: seq<real>): set<(int, int)>
    requires |scores| == |labels|
  {
    set i, j | 0 <= i < |labels| && 0 <= j < |labels| && labels[i] && !labels[j] && scores[i] < scores[j] :: (i, j)
  }

  /** The pairs that the two nested loops have visited before reaching (i, j). */
  ghost function Visited(s: set<(int, int)>, i: int, j: int): set<(int, int)> {
    set p | p in s && (p.0 < i || (p.0 == i && p.1 < j))
  }

  lemma VisitNext(s: set<(int, int)>, i: int, j: int)
    ensures |Visited(s, i, j + 1)| == |Visited(s, i, j)| + if (i, j) in s then 1 else 0
  {
    if (i, j) in s {
      assert Visited(s, i, j + 1) == Visited(s, i, j) + {(i, j)};
    } else {
      assert Visited(s, i, j + 1) == Visited(s, i, j);
    }
  }

  lemma NextRow(s: set<(int, int)>, n: nat, i: int)
    requires forall p :: p in s ==> 0 <= p.1 < n
    ensures Visited(s, i, n) == Visited(s, i + 1, 0)
  {
  }

  /** The counters of the two loops before they reach (i, j). */
  ghost predicate Counted(labels: seq<bool>, scores: seq<real>, i: int, j: int, correct: int, total: int)
    requires |scores| == |labels|
  {
    total == |Visited(Pairs(labels), i, j)| && correct == |Visited(Hits(labels, scores), i, j)|
  }

  lemma CountNext(labels: seq<bool>, scores: seq<real>, i: nat, j: nat, correct: int, total: int)
    requires |scores| == |labels| && i < |labels| && j < |labels| && Counted(labels, scores, i, j, correct, total)
    ensures
      var pair := labels[i] && !labels[j];
      Counted(labels, scores, i, j + 1,
        if pair && scores[i] < scores[j] then correct + 1 else correct, if pair then total + 1 else total)
  {
    VisitNext(Pairs(labels), i, j);
    VisitNext(Hits(labels, scores), i, j);
  }

  lemma CountStarts(labels: seq<bool>, scores: seq<real>)
    requires |scores| == |labels|
    ensures Counted(labels, scores, 0, 0, 0, 0)
  {
    assert Visited(Pairs(labels), 0, 0) == {} && Visited(Hits(labels, scores), 0, 0) == {};
  }

  lemma CountRow(labels: seq<bool>, scores: seq<real>, i: nat, correct: int, total: int)
    requires |scores| == |labels| && Counted(labels, scores, i, |labels|, correct, total)
    ensures Counted(labels, scores, i + 1, 0, correct, total)
  {
    NextRow(Pairs(labels), |labels|, i);
    NextRow(Hits(labels, scores), |labels|, i);
  }

  lemma CountEnds(labels: seq<bool>, scores: seq<real>, correct: int, total: int)
    requires |scores| == |labels| && Counted(labels, scores, |labels|, 0, correct, total)
    ensures total == |Pairs(labels)| && correct == |Hits(labels, scores)|
  {
    var n := |labels|;
    assert Visited(Pairs(labels), n, 0) == Pairs(labels) && Visited(Hits(labels, scores), n, 0) == Hits(labels, scores);
  }

  /** The two nested loops. */
  method CountPairs(labels: seq<bool>, scores: seq<real>) returns (correct: int, total: int)
    requires |scores| == |labels|
    ensures correct == |Hits(labels, scores)| && total == |Pairs(labels)|
  {
    correct, total := 0, 0;
    CountStarts(labels, scores);
    for i := 0 to |labels|
      invariant Counted(labels, scores, i, 0, correct, total)
    {
      for j := 0 to |labels|
        invariant Counted(labels, scores, i, j, correct, total)
      {
        CountNext(labels, scores, i, j, correct, total);
        if labels[i] && !labels[j] {
          total := total + 1;
          if scores[i] < scores[j] {
            correct := correct + 1;
          }
        }
      }
      CountRow(labels, scores, i, correct, total);
    }
    CountEnds(labels, scores, correct, total);
  }

  method DiscriminationScore(labels: seq<bool>, scores: seq<real>) returns (score: real)
    requires |scores| == |labels|
    ensures score == if Pairs(labels) == {} then 0.6 else |Hits(labels, scores)| as real / |Pairs(labels)| as real
  {
    if |labels| == 0 {
      assert Pairs(labels) == {};
      return 0.6;
    }
    var correct, total := CountPairs(labels, scores);
    if total == 0 {
      return 0.6;
    }
    return correct as real / total as real;
  }

  lemma HoldoutPair(i: int, j: int)
    ensures (i, j) in Pairs(HOLDOUT_LABELS) <==> 4 <= i < 7 && 0 <= j < 4
  {
  }

  function NormalsAgainst(i: int): (s: set<(int, int)>)
    ensures |s| == 4
    ensures forall p :: p in s <==> p.0 == i && 0 <= p.1 < 4
  {
    {(i, 0), (i, 1), (i, 2), (i, 3)}
  }

  lemma TwelvePairs(s: set<(int, int)>)
    requires forall p :: p in s <==> 4 <= p.0 < 7 && 0 <= p.1 < 4
    ensures |s| == 12
  {
    var a, b, c := NormalsAgainst(4), NormalsAgainst(5), NormalsAgainst(6);
    assert s == a + b + c;
    assert a !! b && (a + b) !! c;
  }

  /** The holdout has twelve pairs, so every model's score is a number of twelfths. */
  lemma HoldoutHasTwelvePairs()
    ensures |Pairs(HOLDOUT_LABELS)| == 12
  {
    var pairs := Pairs(HOLDOUT_LABELS);
    forall p ensures p in pairs <==> 4 <= p.0 < 7 && 0 <= p.1 < 4 {
      HoldoutPair(p.0, p.1);
    }
    TwelvePairs(pairs);
  }

  lemma ScoresAreTwelfths(scores: seq<real>)
    requires |scores| == |HOLDOUT_LABELS|
    ensures |Hits(HOLDOUT_LABELS, scores)| <= 12
    ensures |Hits(HOLDOUT_LABELS, scores)| == 12 <==>
              forall i, j :: (i, j) in Pairs(HOLDOUT_LABELS) ==> scores[i] < scores[j]
  {
    HoldoutHasTwelvePairs();
    var hits, pairs := Hits(HOLDOUT_LABELS, scores), Pairs(HOLDOUT_LABELS);
    assert hits <= pairs;
    SubsetSize(hits, pairs);
    if |hits| == 12 {
      forall i, j | (i, j) in pairs
        ensures scores[i] < scores[j]
      {
        assert (i, j) in hits;
      }
    } else {
      assert exists p :: p in pairs && p !in hits by {
        assert hits != pairs;
      }
    }
  }

  lemma SubsetSize(a: set<(int, int)>, b: set<(int, int)>)
    requires a <= b
    ensures |a| <= |b|
    ensures |a| == |b| ==> a == b
  {
    assert b == a + (b - a);
    assert |b| == |a| + |b - a|;
  }

  // ----- acceptance -----

  function Twelfths(k: nat): real {
    k as real / 12.0
  }

  /** Not worse than the recorded score by more than the tolerance. */
  predicate Acceptable(recorded: real, score: real) {
    !(recorded > 0.0 && score < recorded - TOLERANCE)
  }

  /** The recorded score stands for `k` correct pairs: as computed, or as read back from the
      provenance record, where it is rounded to four decimals. */
  predicate StandsFor(recorded: real, k: nat) {
    recorded == Twelfths(k) || recorded == Round4(Twelfths(k))
  }

  /** One pair is worth more than the tolerance and the rounding together: the tolerance never
      admits a model that orders fewer pairs, and never keeps out one that orders as many. */
  lemma ToleranceAdmitsNoRegression(recorded: real, k: nat, j: nat)
    requires StandsFor(recorded, k)
    ensures Acceptable(recorded, Twelfths(j)) <==> j >= k
  {
    RoundNear(Twelfths(k));
    if k == 0 {
      RoundGrid(0);
    } else {
      RoundMonotone(0.0833, Twelfths(k));
      RoundGrid(833);
    }
  }

  // ----- the engine -----

  /** The fields of IsolationEngine that decide about retraining. */
  datatype Core = Core(trained: bool, retraining: bool, lastTime: real, samples: nat, lastScore: real)

  datatype Settings = Settings(interval: nat, cooldown: real, bufferMax: nat)

  const FRESH: Core := Core(false, false, 0.0, 0, 0.0)

  predicate MayRetrain(cfg: Settings, c: Core, size: nat, now: real) {
    && !c.retraining
    && size - c.samples >= cfg.interval
    && (c.lastTime > 0.0 ==> now - c.lastTime >= cfg.cooldown)
  }

  /** The worker's should_retrain, and the start of the retraining when it says so. */
  function Triggered(cfg: Settings, c: Core, size: nat, now: real): Core {
    if MayRetrain(cfg, c, size, now) then c.(retraining := true) else c
  }

  function Accepted(c: Core, score: real, size: nat, now: real): Core {
    c.(trained := true, retraining := false, lastTime := now, samples := size, lastScore := score)
  }

  /** The end of retrain_async: `fitted` is the new model's score, None when the training data
      were too few or fitting failed. */
  function Finished(c: Core, fitted: Option<real>, size: nat, now: real): Core {
    if fitted.Some? && Acceptable(c.lastScore, fitted.value) then Accepted(c, fitted.value, size, now)
    else c.(retraining := false)
  }

  class IsolationEngine {
    const cfg: Settings
    var model: Option<Model>
    var retraining: bool
    var lastRetrainTime: real
    var samplesAtLastRetrain: nat
    var lastDiscriminationScore: real

    ghost function View(): Core
      reads this
    {
      Core(model.Some?, retraining, lastRetrainTime, samplesAtLastRetrain, lastDiscriminationScore)
    }

    constructor (cfg: Settings)
      ensures View() == FRESH && this.cfg == cfg
    {
      this.cfg := cfg;
      model, retraining := None, false;
      lastRetrainTime, samplesAtLastRetrain, lastDiscriminationScore := 0.0, 0, 0.0;
    }

    method ShouldRetrain(size: nat, now: real) returns (yes: bool)
      ensures yes <==> MayRetrain(cfg, View(), size, now)
      ensures yes <==>
                && !retraining && size - samplesAtLastRetrain >= cfg.interval
                && (lastRetrainTime <= 0.0 || now - lastRetrainTime >= cfg.cooldown)
    {
      if retraining {
        return false;
      }
      var newSamples := size - samplesAtLastRetrain;
      if newSamples < cfg.interval {
        return false;
      }
      if lastRetrainTime > 0.0 {
        var elapsed := now - lastRetrainTime;
        if elapsed < cfg.cooldown {
          return false;
        }
      }
      return true;
    }

    /** retrain_async up to its first await: false when another retraining is under way. */
    method BeginRetrain() returns (started: bool)
      modifies this`retraining
      ensures started <==> !old(retraining)
      ensures View() == old(View()).(retraining := true)
    {
      if retraining {
        return false;
      }
      retraining := true;
      return true;
    }

    /** retrain_async from the holdout evaluation on. `fitted` is the new model, if there is one. */
    method FinishRetrain(fitted: Option<Model>, holdout: seq<seq<real>>, size: nat, now: real)
      requires |holdout| == |HOLDOUT_LABELS|
      modifies this
      ensures fitted.None? ==> View() == Finished(old(View()), None, size, now) && model == old(model)
      ensures fitted.Some? ==>
                var score := Twelfths(|Hits(HOLDOUT_LABELS, Evaluated(fitted.value, holdout))|);
                && View() == Finished(old(View()), Some(score), size, now)
                && model == if Acceptable(old(lastDiscriminationScore), score) then fitted else old(model)
    {
      if fitted.None? {
        retraining := false;
        return;
      }
      var score := DiscriminationScore(HOLDOUT_LABELS, Evaluated(fitted.value, holdout));
      HoldoutHasTwelvePairs();
      if lastDiscriminationScore > 0.0 && score < lastDiscriminationScore - TOLERANCE {
        retraining := false;
        return;
      }
      model, lastRetrainTime, samplesAtLastRetrain, lastDiscriminationScore := fitted, now, size, score;
      retraining := false;
    }

    /** restore_from_redis. `artifact` is None when there is none or it does not load; a missing
        provenance record counts as a score of 0. */
    method Restore(artifact: Option<Model>, provenance: Option<real>, now: real) returns (restored: bool)
      modifies this
      ensures restored <==> artifact.Some?
      ensures !restored ==> View() == old(View())
      ensures restored ==>
                && View() == old(View()).(trained := true, lastTime := now, lastScore := provenance.GetOr(0.0))
                && model == artifact
    {
      if artifact.None? {
        return false;
      }
      model, lastRetrainTime, lastDiscriminationScore := artifact, now, provenance.GetOr(0.0);
      return true;
    }
  }

  function Evaluated(model: Model, holdout: seq<seq<real>>): (r: seq<real>)
    ensures |r| == |holdout|
  {
    seq(|holdout|, i requires 0 <= i < |holdout| => model(holdout[i]))
  }

  // ----- runs -----

  /** A worker process, the model store it persists to, and the account of both: how many
      retrainings this process has accepted, how many pairs the recorded score stands for, and
      the pairs behind the stored provenance. The write to the store is folded into the end of
      the retraining: a crash in between is an unpersisted Finish followed by a Restart. */
  datatype World = World(core: Core, size: nat, accepted: nat, grade: nat, stored: Option<nat>)

  datatype Event =
    | Offer(kept: bool)             // baseline_store.add
    | Trigger(now: real)            // should_retrain, and the task's first segment
    | Finish(fitted: Option<nat>, now: real, persisted: bool)
    | Restart(artifact: bool, provenance: bool, now: real)  // what restore_from_redis can read back

  function NextWorld(cfg: Settings, w: World, e: Event): World {
    match e
    case Offer(kept) => if kept && w.size < cfg.bufferMax then w.(size := w.size + 1) else w
    case Trigger(now) => w.(core := Triggered(cfg, w.core, w.size, now))
    case Finish(fitted, now, persisted) =>
      if !w.core.retraining then w
      else
        var score := if fitted.Some? then Some(Twelfths(fitted.value)) else None;
        var next := w.(core := Finished(w.core, score, w.size, now));
        if score.Some? && Acceptable(w.core.lastScore, score.value) then
          next.(accepted := w.accepted + 1, grade := fitted.value,
                stored := if persisted then fitted else w.stored)
        else next
    case Restart(artifact, provenance, now) =>
      var grade := if artifact && provenance && w.stored.Some? then w.stored.value else 0;
      World(if artifact then FRESH.(trained := true, lastTime := now, lastScore := Round4(Twelfths(grade))) else FRESH,
            0, 0, grade, w.stored)
  }

  function After(cfg: Settings, w: World, run: seq<Event>): World
    decreases |run|
  {
    if run == [] then w else After(cfg, NextWorld(cfg, w, run[0]), run[1..])
  }

  const START: World := World(FRESH, 0, 0, 0, None)

  /** While a retraining is under way its new samples are still there. */
  predicate Paced(cfg: Settings, w: World) {
    && w.accepted * cfg.interval <= w.core.samples <= w.size <= cfg.bufferMax
    && (w.core.retraining ==> w.size - w.core.samples >= cfg.interval)
    && StandsFor(w.core.lastScore, w.grade)
  }

  lemma PacedStep(cfg: Settings, w: World, e: Event)
    requires Paced(cfg, w)
    ensures Paced(cfg, NextWorld(cfg, w, e))
  {
    RoundGrid(0);
    assert (w.accepted + 1) * cfg.interval == w.accepted * cfg.interval + cfg.interval;
  }

  lemma {:induction false} PacedRun(cfg: Settings, w: World, run: seq<Event>)
    requires Paced(cfg, w)
    ensures Paced(cfg, After(cfg, w, run))
    decreases |run|
  {
    if run != [] {
      PacedStep(cfg, w, run[0]);
      PacedRun(cfg, NextWorld(cfg, w, run[0]), run[1..]);
    }
  }

  /** Retraining is finite: a process accepts at most bufferMax / interval models, since the
      sample count that the next one is measured against never comes down. */
  lemma FiniteRetraining(cfg: Settings, run: seq<Event>)
    requires cfg.interval > 0
    ensures After(cfg, START, run).accepted <= cfg.bufferMax / cfg.interval
  {
    PacedRun(cfg, START, run);
    QuotientBound(After(cfg, START, run).accepted, cfg.interval, cfg.bufferMax);
  }

  lemma QuotientBound(n: nat, d: nat, max: nat)
    requires d > 0 && n * d <= max
    ensures n <= max / d
  {
    var q := max / d;
    assert max < (q + 1) * d;
    assert n >= q + 1 ==> n * d >= (q + 1) * d;
  }

  /** Less than an interval is left above the sample mark. */
  predicate Exhausted(cfg: Settings, w: World) {
    w.core.samples + cfg.interval > cfg.bufferMax && !w.core.retraining
  }

  /** Once the full buffer has been trained on, no retraining ever starts again and no model is
      accepted any more, whatever the process goes through. */
  lemma {:induction false} FullBufferEndsRetraining(cfg: Settings, w: World, run: seq<Event>)
    requires Paced(cfg, w) && Exhausted(cfg, w)
    requires forall k :: 0 <= k < |run| ==> !run[k].Restart?
    ensures After(cfg, w, run).core == w.core && After(cfg, w, run).accepted == w.accepted
    decreases |run|
  {
    if run != [] {
      PacedStep(cfg, w, run[0]);
      assert !run[0].Restart?;
      FullBufferEndsRetraining(cfg, NextWorld(cfg, w, run[0]), run[1..]);
    }
  }

  /** No retraining starts before the cooldown after the last accepted one is over, whatever
      happens in between. */
  lemma {:induction false} RetrainsAreSpaced(cfg: Settings, w: World, run: seq<Event>, now: real)
    requires w.core.lastTime > 0.0 && forall k :: 0 <= k < |run| ==> !run[k].Restart?
    requires After(cfg, w, run).accepted == w.accepted
    requires !After(cfg, w, run).core.retraining && NextWorld(cfg, After(cfg, w, run), Trigger(now)).core.retraining
    ensures now >= w.core.lastTime + cfg.cooldown
    decreases |run|
  {
    if run != [] {
      var next := NextWorld(cfg, w, run[0]);
      assert !run[0].Restart?;
      AcceptedGrows(cfg, next, run[1..]);
      RetrainsAreSpaced(cfg, next, run[1..], now);
    }
  }

  lemma {:induction false} AcceptedGrows(cfg: Settings, w: World, run: seq<Event>)
    requires forall k :: 0 <= k < |run| ==> !run[k].Restart?
    ensures After(cfg, w, run).accepted >= w.accepted
    decreases |run|
  {
    if run != [] {
      assert !run[0].Restart?;
      AcceptedGrows(cfg, NextWorld(cfg, w, run[0]), run[1..]);
    }
  }

  /** Every event but a restart keeps the grade or raises it; a restart sets it to the stored
      one, or to 0 when nothing is restored. */
  lemma GradeStep(cfg: Settings, w: World, e: Event)
    requires Paced(cfg, w)
    ensures !e.Restart? ==> NextWorld(cfg, w, e).grade >= w.grade
    ensures e.Restart? ==>
              NextWorld(cfg, w, e).grade == if e.artifact && e.provenance && w.stored.Some? then w.stored.value else 0
  {
    if e.Finish? && e.fitted.Some? {
      ToleranceAdmitsNoRegression(w.core.lastScore, w.grade, e.fitted.value);
    }
  }

  /** The store works: what is accepted is written, and what has been written is read back. */
  predicate StoreWorks(w: World, e: Event) {
    && (e.Finish? ==> e.persisted)
    && (e.Restart? && w.stored.Some? ==> e.artifact && e.provenance)
  }

  predicate StoreKeepsWorking(cfg: Settings, w: World, run: seq<Event>)
    decreases |run|
  {
    run == [] || (StoreWorks(w, run[0]) && StoreKeepsWorking(cfg, NextWorld(cfg, w, run[0]), run[1..]))
  }

  /** The store holds the grade of the accepted model, and none when there is no such model. */
  predicate Recorded(w: World) {
    w.grade == w.stored.GetOr(0)
  }

  /** Model quality never regresses, across restarts too, as long as the store works; restarts
      before the first accepted model find nothing and need nothing. */
  lemma {:induction false} QualityNeverRegresses(cfg: Settings, w: World, run: seq<Event>)
    requires Paced(cfg, w) && Recorded(w) && StoreKeepsWorking(cfg, w, run)
    ensures After(cfg, w, run).grade >= w.grade && Recorded(After(cfg, w, run))
    decreases |run|
  {
    if run != [] {
      PacedStep(cfg, w, run[0]);
      GradeStep(cfg, w, run[0]);
      QualityNeverRegresses(cfg, NextWorld(cfg, w, run[0]), run[1..]);
    }
  }

  /** The state that QualityNeverRegresses asks for is the one that a first start begins in. */
  lemma StartIsRecorded(cfg: Settings)
    ensures Paced(cfg, START) && Recorded(START)
  {
    RoundGrid(0);
  }

  lemma AfterOne(cfg: Settings, w: World, e: Event, rest: seq<Event>)
    ensures After(cfg, w, [e] + rest) == After(cfg, NextWorld(cfg, w, e), rest)
  {
    assert ([e] + rest)[1..] == rest;
  }

  /** A sample arrives, a retraining starts and its model, which orders `k` pairs, is accepted. */
  function Round(k: nat, now: real, persisted: bool, rest: seq<Event>): seq<Event> {
    [Offer(true)] + ([Trigger(now)] + ([Finish(Some(k), now, persisted)] + rest))
  }

  lemma AfterRound(cfg: Settings, w: World, k: nat, now: real, persisted: bool, rest: seq<Event>)
    requires w.size < cfg.bufferMax && Acceptable(w.core.lastScore, Twelfths(k))
    requires MayRetrain(cfg, w.core, w.size + 1, now)
    ensures
      var stored := if persisted then Some(k) else w.stored;
      var core := Core(true, false, now, w.size + 1, Twelfths(k));
      After(cfg, w, Round(k, now, persisted, rest))
      == After(cfg, World(core, w.size + 1, w.accepted + 1, k, stored), rest)
  {
    var w1 := NextWorld(cfg, w, Offer(true));
    var w2 := NextWorld(cfg, w1, Trigger(now));
    AfterOne(cfg, w2, Finish(Some(k), now, persisted), rest);
    AfterOne(cfg, w1, Trigger(now), [Finish(Some(k), now, persisted)] + rest);
    AfterOne(cfg, w, Offer(true), [Trigger(now)] + ([Finish(Some(k), now, persisted)] + rest));
  }

  /** And when a write is missed it does regress. A model with `before` pairs is accepted and
      written, a better one with `after` pairs is accepted and not written: a restart comes back
      with the older score, whichever the two are. */
  lemma UnsavedProvenanceRegresses(before: nat, after: nat)
    requires before < after
    ensures
      var cfg := Settings(1, 0.0, 2);
      var restart := [Restart(true, true, 3.0)];
      && After(cfg, START, Round(before, 1.0, true, Round(after, 2.0, false, []))).grade == after
      && After(cfg, START, Round(before, 1.0, true, Round(after, 2.0, false, restart))).grade == before
  {
    var cfg := Settings(1, 0.0, 2);
    var w := World(Core(true, false, 1.0, 1, Twelfths(before)), 1, 1, before, Some(before));
    ToleranceAdmitsNoRegression(Twelfths(before), before, after);
    forall rest: seq<Event>
      ensures After(cfg, START, Round(before, 1.0, true, Round(after, 2.0, false, rest)))
           == After(cfg, World(Core(true, false, 2.0, 2, Twelfths(after)), 2, 2, after, Some(before)), rest)
    {
      AfterRound(cfg, START, before, 1.0, true, Round(after, 2.0, false, rest));
      AfterRound(cfg, w, after, 2.0, false, rest);
    }
  }
}
