/** The severity scale that the rule and scoring engines share. */
module Severities {
  datatype Severity = NoAlert | Low | Medium | High

  /** _SEVERITY_ORDER. */
  function Rank(s: Severity): nat {
    match s
    case NoAlert => 0
    case Low => 1
    case Medium => 2
    case High => 3
  }
}

/** app/services/scoring_engine.py, and the two decisions that the worker bases on its result. */
module ScoringEngine {
  import opened Collections
  import opened Rounding
  import opened Severities

  datatype Settings = Settings(
    ruleWeight: real, statWeight: real, isoWeight: real,
    low: real, medium: real, high: real)

  const DEFAULTS: Settings := Settings(0.5, 0.3, 0.2, 0.2, 0.4, 0.7)

  predicate WeightsNonNegative(cfg: Settings) {
    cfg.ruleWeight >= 0.0 && cfg.statWeight >= 0.0 && cfg.isoWeight >= 0.0
  }

  predicate ThresholdsOrdered(cfg: Settings) {
    cfg.low <= cfg.medium <= cfg.high
  }

  predicate LowIsLowest(cfg: Settings) {
    cfg.low <= cfg.medium && cfg.low <= cfg.high
  }

  /** The arguments of compute. */
  datatype Findings = Findings(stat: real, iso: real, triggered: bool, ruleSeverity: Option<Severity>)

  function RuleRank(f: Findings): nat {
    if f.ruleSeverity.Some? then Rank(f.ruleSeverity.value) else 0
  }

  /** As _process_message passes them: the severity is that of the rule that fired. */
  predicate FromWorker(f: Findings) {
    if f.triggered then RuleRank(f) > 0 else f.ruleSeverity.None?
  }

  predicate UnitScores(f: Findings) {
    0.0 <= f.stat <= 1.0 && 0.0 <= f.iso <= 1.0
  }

  datatype ScoreResult = ScoreResult(riskScore: real, ruleScore: real, anomalyType: string, severity: Severity)

  function RuleScore(f: Findings): real {
    if f.triggered then 1.0 else 0.0
  }

  function Weighted(cfg: Settings, f: Findings): real {
    cfg.ruleWeight * RuleScore(f) + cfg.statWeight * f.stat + cfg.isoWeight * f.iso
  }

  function ByThreshold(cfg: Settings, risk: real): Severity {
    if risk >= cfg.high then High
    else if risk >= cfg.medium then Medium
    else if risk >= cfg.low then Low
    else NoAlert
  }

  /** The rounded sum, kept in [0, 1]. */
  function Clamped(sum: real): real {
    MinReal(1.0, MaxReal(0.0, Round4(sum)))
  }

  function Compute(cfg: Settings, f: Findings): ScoreResult {
    var risk := Clamped(Weighted(cfg, f));
    var severity := ByThreshold(cfg, risk);
    var floored := f.triggered && (severity == NoAlert || severity == Low);
    var risk' := if floored then MaxReal(risk, cfg.medium) else risk;
    var severity' := if floored then Medium else severity;
    var final := if RuleRank(f) > Rank(severity') then f.ruleSeverity.value else severity';
    ScoreResult(risk', RuleScore(f), Classify(f), final)
  }

  function Classify(f: Findings): string {
    var parts := Parts(f);
    if parts == [] then "normal" else Join(parts)
  }

  function Parts(f: Findings): seq<string> {
    (if f.triggered then ["rule_match"] else [])
    + (if f.stat >= 0.15 then ["statistical_anomaly"] else [])
    + (if f.iso >= 0.15 then ["isolation_anomaly"] else [])
  }

  function Join(parts: seq<string>): string {
    if parts == [] then ""
    else if |parts| == 1 then parts[0]
    else parts[0] + "+" + Join(parts[1..])
  }

  // ----- the worker's decisions (steps 7 and 8 of _process_message) -----

  predicate CreatesAlert(cfg: Settings, f: Findings) {
    Compute(cfg, f).severity != NoAlert
  }

  predicate OffersToBaseline(cfg: Settings, f: Findings) {
    !f.triggered && Compute(cfg, f).riskScore < cfg.low
  }

  lemma ClampedNear(sum: real)
    ensures 0.0 <= sum <= 1.0 ==> sum - 0.00005 <= Clamped(sum) <= sum + 0.00005
    ensures sum <= 0.0 ==> Clamped(sum) == 0.0
    ensures sum >= 1.0 ==> Clamped(sum) == 1.0
  {
    RoundNear(sum);
    RoundUnit(sum);
    RoundGrid(0);
    RoundGrid(10000);
    if sum <= 0.0 {
      RoundMonotone(sum, 0.0);
    }
    if sum >= 1.0 {
      RoundMonotone(1.0, sum);
    }
  }

  lemma RiskOfSum(cfg: Settings, f: Findings)
    ensures
      var risk := Clamped(Weighted(cfg, f));
      Compute(cfg, f).riskScore == if f.triggered && risk < cfg.medium && risk < cfg.high then cfg.medium else risk
  {
  }

  /** The risk is the weighted sum to four decimals, kept in [0, 1]; a rule hit raises what is
      below MEDIUM, and below HIGH, to MEDIUM. */
  lemma RiskIsTheWeightedSum(cfg: Settings, f: Findings)
    ensures
      var sum := (if f.triggered then cfg.ruleWeight else 0.0) + cfg.statWeight * f.stat + cfg.isoWeight * f.iso;
      var risk := MinReal(1.0, MaxReal(0.0, sum));
      var raised := f.triggered && Clamped(sum) < cfg.medium && Clamped(sum) < cfg.high;
      if raised then Compute(cfg, f).riskScore == cfg.medium
      else -0.00005 <= Compute(cfg, f).riskScore - risk <= 0.00005
  {
    var sum := (if f.triggered then cfg.ruleWeight else 0.0) + cfg.statWeight * f.stat + cfg.isoWeight * f.iso;
    assert cfg.ruleWeight * RuleScore(f) == if f.triggered then cfg.ruleWeight else 0.0;
    assert Weighted(cfg, f) == sum;
    ClampedNear(sum);
    RiskOfSum(cfg, f);
  }

  /** Without a rule hit the thresholds alone decide, each from its own value on. */
  lemma SeverityFollowsRisk(cfg: Settings, f: Findings)
    requires !f.triggered && FromWorker(f)
    ensures
      var r := Compute(cfg, f);
      && (r.severity == High <==> r.riskScore >= cfg.high)
      && (r.severity == Medium <==> cfg.medium <= r.riskScore < cfg.high)
      && (r.severity == Low <==> cfg.low <= r.riskScore < cfg.high && r.riskScore < cfg.medium)
      && (r.severity == NoAlert <==> r.riskScore < cfg.low && r.riskScore < cfg.medium && r.riskScore < cfg.high)
  {
  }

  /** With a rule hit it is the highest of the rule's severity, MEDIUM, and HIGH from that
      threshold on. */
  lemma RuleHitTakesTheHighest(cfg: Settings, f: Findings)
    requires f.triggered && FromWorker(f) && cfg.low <= cfg.medium < cfg.high
    ensures
      var r := Compute(cfg, f);
      Rank(r.severity) == Max(Max(2, RuleRank(f)), if r.riskScore >= cfg.high then 3 else 0)
  {
  }

  /** An alert is created exactly for a rule hit or a risk from LOW on, and the rest is offered
      to the baseline. */
  lemma AlertFromLowOn(cfg: Settings, f: Findings)
    requires LowIsLowest(cfg) && FromWorker(f)
    ensures CreatesAlert(cfg, f) <==> f.triggered || Compute(cfg, f).riskScore >= cfg.low
    ensures OffersToBaseline(cfg, f) <==> !f.triggered && Compute(cfg, f).riskScore < cfg.low
  {
  }

  /** Each evaluated log becomes an alert or training data, never both and never neither,
      exactly unless its risk lies below LOW but not below MEDIUM and HIGH. */
  lemma AlertOrTrainingData(cfg: Settings, f: Findings)
    requires FromWorker(f)
    ensures
      var risk := Compute(cfg, f).riskScore;
      (CreatesAlert(cfg, f) <==> !OffersToBaseline(cfg, f))
      <==> !(!f.triggered && (cfg.medium <= risk || cfg.high <= risk) && risk < cfg.low)
  {
  }

  /** That case does not arise when LOW is the lowest threshold. */
  lemma OrderedThresholdsPartition(cfg: Settings, f: Findings)
    requires LowIsLowest(cfg) && FromWorker(f)
    ensures CreatesAlert(cfg, f) <==> !OffersToBaseline(cfg, f)
  {
    AlertOrTrainingData(cfg, f);
  }

  /** And it does arise when they are not: a log that is alerted on and trained on. */
  lemma UnorderedThresholdsOverlap()
    ensures
      var cfg := DEFAULTS.(low := 0.5, medium := 0.1);
      var f := Findings(1.0, 0.0, false, None);
      CreatesAlert(cfg, f) && OffersToBaseline(cfg, f)
  {
    RoundGrid(3000);
    var cfg := DEFAULTS.(low := 0.5, medium := 0.1);
    assert Weighted(cfg, Findings(1.0, 0.0, false, None)) == 3000.0 / 10000.0;
  }

  /** `g` is at least as alarming as `f` in every respect. */
  predicate NoLessAlarming(f: Findings, g: Findings) {
    f.stat <= g.stat && f.iso <= g.iso && (f.triggered ==> g.triggered) && RuleRank(f) <= RuleRank(g)
  }

  lemma WeightedMonotone(cfg: Settings, f: Findings, g: Findings)
    requires WeightsNonNegative(cfg) && NoLessAlarming(f, g)
    ensures Weighted(cfg, f) <= Weighted(cfg, g)
  {
    assert cfg.statWeight * f.stat <= cfg.statWeight * g.stat;
    assert cfg.isoWeight * f.iso <= cfg.isoWeight * g.iso;
  }

  /** Neither the risk nor the severity ever drops when a score rises, a rule fires, or a rule
      fires with a higher severity. */
  lemma MoreAlarmingScoresHigher(cfg: Settings, f: Findings, g: Findings)
    requires WeightsNonNegative(cfg) && ThresholdsOrdered(cfg) && NoLessAlarming(f, g)
    ensures Compute(cfg, f).riskScore <= Compute(cfg, g).riskScore
    ensures Rank(Compute(cfg, f).severity) <= Rank(Compute(cfg, g).severity)
  {
    WeightedMonotone(cfg, f, g);
    RoundMonotone(Weighted(cfg, f), Weighted(cfg, g));
  }

  /** A rule hit is never scored below MEDIUM, nor below the rule's own severity. */
  lemma RuleSetsTheFloor(cfg: Settings, f: Findings)
    requires f.triggered && ThresholdsOrdered(cfg)
    ensures Compute(cfg, f).riskScore >= cfg.medium
    ensures Rank(Compute(cfg, f).severity) >= Rank(Medium)
    ensures Rank(Compute(cfg, f).severity) >= RuleRank(f)
  {
  }

  /** But it does not raise the risk to the 0.9 of the design document. With the default settings
      a HIGH rule is rated that high exactly if the other two engines contribute enough. */
  lemma HighRuleReachesNineTenths(f: Findings)
    requires f.triggered && f.ruleSeverity == Some(High)
    ensures Compute(DEFAULTS, f).severity == High
    ensures Compute(DEFAULTS, f).riskScore >= 0.9 <==> 0.3 * f.stat + 0.2 * f.iso >= 0.39995
  {
    var w := Weighted(DEFAULTS, f);
    assert w == 0.5 + 0.3 * f.stat + 0.2 * f.iso;
    RoundsUpTo(w, 9000);
  }

  /** Alone it is rated 0.5. */
  lemma HighRuleAloneIsRatedHalf()
    ensures
      var r := Compute(DEFAULTS, Findings(0.0, 0.0, true, Some(High)));
      r.severity == High && r.riskScore == 0.5
  {
    RoundGrid(5000);
    assert Weighted(DEFAULTS, Findings(0.0, 0.0, true, Some(High))) == 5000.0 / 10000.0;
  }

  /** With the default weights and thresholds nothing is HIGH unless a rule fired. */
  lemma HighNeedsARule(f: Findings)
    requires UnitScores(f) && FromWorker(f) && !f.triggered
    ensures Compute(DEFAULTS, f).riskScore <= 0.5
    ensures Rank(Compute(DEFAULTS, f).severity) <= Rank(Medium)
  {
    RoundGrid(5000);
    assert Weighted(DEFAULTS, f) <= 5000.0 / 10000.0;
    RoundMonotone(Weighted(DEFAULTS, f), 5000.0 / 10000.0);
  }

  /** The label tells exactly which of the three sources contributed. */
  lemma LabelsTellTheSource(f: Findings, g: Findings)
    ensures Classify(f) == Classify(g) <==>
              && (f.triggered <==> g.triggered)
              && (f.stat >= 0.15 <==> g.stat >= 0.15)
              && (f.iso >= 0.15 <==> g.iso >= 0.15)
  {
    LabelShape(f);
    LabelShape(g);
  }

  /** The first letter and the length of a label are enough to read it. */
  lemma LabelShape(f: Findings)
    ensures
      var text := Classify(f);
      var stat, iso := f.stat >= 0.15, f.iso >= 0.15;
      && text != []
      && text[0] == (if f.triggered then 'r' else if stat then 's' else if iso then 'i' else 'n')
      && |text| == (
        if f.triggered then 10 + (if stat then 20 else 0) + (if iso then 18 else 0)
        else if stat then 19 + (if iso then 18 else 0)
        else if iso then 17 else 6)
    decreases if f.triggered then 2 else if f.stat >= 0.15 then 1 else 0
  {
    var stat, iso := f.stat >= 0.15, f.iso >= 0.15;
    if f.triggered {
      assert Parts(f) == ["rule_match"] + Parts(f.(triggered := false));
      LabelShape(f.(triggered := false));
      assert Parts(f)[1..] == Parts(f.(triggered := false));
    } else if stat {
      assert Parts(f) == ["statistical_anomaly"] + Parts(f.(stat := 0.0));
      assert Parts(f)[1..] == Parts(f.(stat := 0.0));
      LabelShape(f.(stat := 0.0));
    } else if iso {
      assert Parts(f) == ["isolation_anomaly"];
    } else {
      assert Parts(f) == [];
    }
  }
}
