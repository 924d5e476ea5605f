/** app/services/statistical_engine.py. */
module StatisticalEngine {
  import opened Collections
  import opened Rounding
  import opened SlidingWindow
  import opened ProfileStore
  import opened Text

  /** The two rate components: the share of twice the threshold that is reached, capped at 1. */
  function Share(rate: nat, threshold: int): real {
    MinReal(rate as real / Max(threshold, 1) as real, 2.0) / 2.0
  }

  function Deviation(stats: ProfileStats): real {
    MaxReal(stats.ipErrorRatio - stats.globalErrorRatio, 0.0)
  }

  function Total(stats: ProfileStats, threshold: int): real {
    Share(stats.ipRate, threshold) * 0.40
    + MinReal(Deviation(stats), 1.0) * 0.35
    + Share(stats.globalRate, threshold * 3) * 0.25
  }

  function ScoreOf(stats: ProfileStats, threshold: int): real {
    Round4(MinReal(Total(stats, threshold), 1.0))
  }

  // ----- the address's events among all events -----

  lemma {:induction false} ErrorsConcat(s: seq<Stamped<bool>>, t: seq<Stamped<bool>>)
    ensures Errors(s + t) == Errors(s) + Errors(t)
  {
    if s == [] {
      assert s + t == t;
    } else {
      assert (s + t)[1..] == s[1..] + t;
      ErrorsConcat(s[1..], t);
    }
  }

  lemma ErrorsSnoc(s: seq<Stamped<bool>>, e: Stamped<bool>)
    ensures Errors(s + [e]) == Errors(s) + if e.what then 1 else 0
  {
    ErrorsConcat(s, [e]);
    assert [e][1..] == [];
  }

  lemma {:induction false} ErrorsAtMost(s: seq<Stamped<bool>>)
    ensures Errors(s) <= |s|
  {
    if s != [] {
      ErrorsAtMost(s[1..]);
    }
  }

  lemma ErrorsOfLast(s: seq<Stamped<bool>>, n: nat)
    ensures Errors(LastN(s, n)) <= Errors(s)
  {
    if |s| > n {
      assert s == s[..|s| - n] + s[|s| - n..];
      ErrorsConcat(s[..|s| - n], s[|s| - n..]);
    }
  }

  lemma {:induction false} OneAmongAll(h: History, ip: string, cutoff: real)
    ensures |Since(EventsOf(h, ip), cutoff)| <= |Since(AllEvents(h), cutoff)|
    ensures Errors(Since(EventsOf(h, ip), cutoff)) <= Errors(Since(AllEvents(h), cutoff))
  {
    if h != [] {
      var init, e := h[..|h| - 1], h[|h| - 1];
      var event := Stamped(e.at, e.what.err);
      OneAmongAll(init, ip, cutoff);
      SinceSnoc(AllEvents(init), event, cutoff);
      SinceSnoc(EventsOf(init, ip), event, cutoff);
      ErrorsSnoc(Since(AllEvents(init), cutoff), event);
      ErrorsSnoc(Since(EventsOf(init, ip), cutoff), event);
    }
  }

  /** The event just recorded is the newest in both deques. */
  lemma NewestIsInBoth(h: History, window: real, ip: string)
    requires InOrder(h) && window >= 0.0 && h != [] && h[|h| - 1].what.ip == Some(ip)
    ensures
      var e := Stamped(h[|h| - 1].at, h[|h| - 1].what.err);
      var mine, all := IpDeque(h, window, ip), GlobalDeque(h, window);
      && mine != [] && mine[|mine| - 1] == e
      && all != [] && all[|all| - 1] == e
  {
    var init, e := h[..|h| - 1], Stamped(h[|h| - 1].at, h[|h| - 1].what.err);
    SinceSnoc(AllEvents(init), e, e.at - window);
    SinceSnoc(EventsOf(init, ip), e, e.at - window);
  }

  /** An address never has more events in its deque than there are in the global one; and as
      long as the global deque has not overflowed, not more errors either. */
  lemma IpWithinGlobal(h: History, window: real, ip: string)
    requires InOrder(h) && window >= 0.0 && h != [] && h[|h| - 1].what.ip == Some(ip)
    ensures |IpDeque(h, window, ip)| <= |GlobalDeque(h, window)|
    ensures |Since(AllEvents(h), h[|h| - 1].at - window)| <= MAX_GLOBAL_EVENTS ==>
              Errors(IpDeque(h, window, ip)) <= Errors(GlobalDeque(h, window))
  {
    var cutoff := h[|h| - 1].at - window;
    OneAmongAll(h, ip, cutoff);
    ErrorsOfLast(Since(EventsOf(h, ip), cutoff), MAX_PER_IP_EVENTS);
  }

  // ----- the arithmetic of the score -----

  lemma RatioBounds(n: nat, total: nat)
    requires n <= total
    ensures 0.0 <= Ratio(n, total) <= 1.0
    ensures n < total ==> Ratio(n, total) < 1.0
    ensures n > 0 ==> Ratio(n, total) > 0.0
  {
    var d := Max(total, 1) as real;
    QuotientUnits(d);
    QuotientOrder(0.0, n as real, d);
    QuotientOrder(n as real, d, d);
  }

  lemma QuotientUnits(d: real)
    requires d > 0.0
    ensures 0.0 / d == 0.0 && d / d == 1.0
  {
    var p, q := 0.0 / d, d / d;
    assert p * d == 0.0 && q * d == d;
    assert (q - 1.0) * d == 0.0;
  }

  lemma ShareBounds(rate: nat, threshold: int)
    ensures 0.0 <= Share(rate, threshold) <= 1.0
  {
  }

  /** What the formula needs of its inputs to stay below 1: the error deviation does. */
  lemma TotalBelowOne(stats: ProfileStats, threshold: int)
    requires stats.ipErrorRatio - stats.globalErrorRatio < 1.0
    ensures 0.0 <= Total(stats, threshold) < 1.0
  {
    ShareBounds(stats.ipRate, threshold);
    ShareBounds(stats.globalRate, threshold * 3);
  }

  /** The unrounded score of every event in every history is in [0, 1), strictly below 1, even
      when a deque has overflowed: the three components cannot all be at their maximum. */
  lemma ScoreStaysBelowOne(h: History, window: real, threshold: int)
    requires InOrder(h) && window >= 0.0 && h != []
    ensures
      var stats := StatsOf(h, window, h[|h| - 1].what.ip);
      0.0 <= Total(stats, threshold) < 1.0
  {
    var ip := h[|h| - 1].what.ip;
    var all := GlobalDeque(h, window);
    ErrorsAtMost(all);
    RatioBounds(Errors(all), |all|);
    if ip.Some? {
      var mine := IpDeque(h, window, ip.value);
      ErrorsAtMost(mine);
      RatioBounds(Errors(mine), |mine|);
      NewestIsInBoth(h, window, ip.value);
      NewestDecides(mine);
      NewestDecides(all);
    }
    TotalBelowOne(StatsOf(h, window, ip), threshold);
  }

  lemma NewestDecides(s: seq<Stamped<bool>>)
    requires s != []
    ensures if s[|s| - 1].what then Errors(s) > 0 else Errors(s) < |s|
  {
    var init := s[..|s| - 1];
    assert s == init + [s[|s| - 1]];
    ErrorsSnoc(init, s[|s| - 1]);
    ErrorsAtMost(init);
  }

  /** While the global deque has not overflowed, an address that makes up a share of the
      traffic deviates by no more than the rest of it. */
  lemma DeviationWithinTheRest(h: History, window: real, ip: string)
    requires InOrder(h) && window >= 0.0 && h != [] && h[|h| - 1].what.ip == Some(ip)
    requires |Since(AllEvents(h), h[|h| - 1].at - window)| <= MAX_GLOBAL_EVENTS
    ensures
      var stats := StatsOf(h, window, Some(ip));
      && 0 < stats.ipRate <= stats.globalRate
      && Deviation(stats) <= 1.0 - stats.ipRate as real / stats.globalRate as real
  {
    var mine, all := IpDeque(h, window, ip), GlobalDeque(h, window);
    IpWithinGlobal(h, window, ip);
    NewestIsInBoth(h, window, ip);
    ErrorsAtMost(mine);
    DeviationOfSummary(mine, all);
  }

  lemma DeviationOfSummary(mine: seq<Stamped<bool>>, all: seq<Stamped<bool>>)
    requires 0 < |mine| <= |all| && Errors(mine) <= |mine| && Errors(mine) <= Errors(all)
    ensures Deviation(Summary(mine, all)) <= 1.0 - |mine| as real / |all| as real
  {
    DeviationOfRatios(Errors(mine), |mine|, Errors(all), |all|);
  }

  lemma DeviationOfRatios(e: nat, i: nat, f: nat, g: nat)
    requires e <= i && e <= f && 0 < i <= g
    ensures MaxReal(Ratio(e, i) - Ratio(f, g), 0.0) <= 1.0 - i as real / g as real
  {
    DeviationArithmetic(e as real, i as real, f as real, g as real);
  }

  lemma DeviationArithmetic(e: real, i: real, f: real, g: real)
    requires 0.0 <= e <= i && e <= f && 0.0 < i <= g
    ensures e / i - f / g <= 1.0 - i / g
    ensures 0.0 <= 1.0 - i / g
  {
    QuotientShrinks(i - e, i, g);
    QuotientOrder(e, f, g);
    QuotientOrder(i, g, g);
    QuotientOfDifference(i, e, g);
    QuotientOfDifference(i, e, i);
    QuotientOfDifference(g, g, g);
  }

  lemma QuotientOfDifference(x: real, y: real, d: real)
    requires 0.0 < d
    ensures (x - y) / d == x / d - y / d
    ensures d / d == 1.0
  {
    var p, q, r := x / d, y / d, (x - y) / d;
    assert p * d == x && q * d == y && r * d == x - y;
    assert (p - q - r) * d == 0.0;
  }

  lemma QuotientShrinks(x: real, small: real, large: real)
    requires x >= 0.0 && 0.0 < small <= large
    ensures x / large <= x / small
  {
    var q, r := x / large, x / small;
    assert q * large == x && r * small == x;
    assert q >= 0.0;
    assert q * small <= q * large;
    assert q > r ==> (q - r) * small > 0.0;
  }

  lemma QuotientOrder(x: real, y: real, d: real)
    requires x <= y && 0.0 < d
    ensures x / d <= y / d
    ensures x < y ==> x / d < y / d
  {
    var p, q := x / d, y / d;
    assert p * d == x && q * d == y;
    assert p > q ==> (p - q) * d > 0.0;
  }

  // ----- what the score is made of -----

  function OnlyAddress(rate: nat): ProfileStats {
    ProfileStats(rate, 0.0, 0, 0.0)
  }

  function OnlyGlobal(rate: nat): ProfileStats {
    ProfileStats(0, 0.0, rate, 0.0)
  }

  function OnlyErrors(mine: real, all: real): ProfileStats {
    ProfileStats(0, mine, 0, all)
  }

  lemma NothingScoresZero(threshold: int)
    ensures Share(0, threshold) == 0.0
  {
  }

  /** The address's rate, the error ratios and the global rate contribute independently. */
  lemma ContributionsAddUp(stats: ProfileStats, threshold: int)
    ensures Total(stats, threshold) ==
            Total(OnlyAddress(stats.ipRate), threshold)
            + Total(OnlyErrors(stats.ipErrorRatio, stats.globalErrorRatio), threshold)
            + Total(OnlyGlobal(stats.globalRate), threshold)
  {
    NothingScoresZero(threshold);
    NothingScoresZero(threshold * 3);
  }

  lemma TwiceTheDivisor(r: real, d: real)
    requires r >= 0.0 && d > 0.0
    ensures r / d >= 2.0 <==> r >= 2.0 * d
    ensures r <= 2.0 * d ==> MinReal(r / d, 2.0) / 2.0 * (2.0 * d) == r
  {
    var q := r / d;
    assert q * d == r;
    assert q >= 2.0 ==> q * d >= 2.0 * d;
    assert q < 2.0 ==> q * d < 2.0 * d;
    if r <= 2.0 * d {
      assert q > 2.0 ==> q * d > 2.0 * d;
      HalfTimesTwice(q, d);
    }
  }

  lemma HalfTimesTwice(q: real, d: real)
    ensures q / 2.0 * (2.0 * d) == q * d
  {
  }

  lemma ShareShape(rate: nat, threshold: int)
    requires threshold > 0
    ensures Share(rate, threshold) == 1.0 <==> rate >= 2 * threshold
    ensures rate <= 2 * threshold ==> Share(rate, threshold) * (2 * threshold) as real == rate as real
  {
    TwiceTheDivisor(rate as real, threshold as real);
    assert (2 * threshold) as real == 2.0 * threshold as real;
  }

  /** The address's rate contributes in proportion, and 0.40 from twice the threshold on. */
  lemma AddressContribution(rate: nat, threshold: int)
    requires threshold > 0
    ensures
      var c := Total(OnlyAddress(rate), threshold);
      && (c == 0.40 <==> rate >= 2 * threshold)
      && (rate <= 2 * threshold ==> c * (2 * threshold) as real == 0.40 * rate as real)
  {
    NothingScoresZero(threshold * 3);
    ShareShape(rate, threshold);
    assert Total(OnlyAddress(rate), threshold) == Share(rate, threshold) * 0.40;
    Scaled(Share(rate, threshold), 0.40, (2 * threshold) as real);
  }

  lemma Scaled(x: real, c: real, d: real)
    ensures x * c * d == c * (x * d)
  {
  }

  /** The global rate contributes in proportion, and 0.25 from six times the threshold on. */
  lemma GlobalContribution(rate: nat, threshold: int)
    requires threshold > 0
    ensures
      var c := Total(OnlyGlobal(rate), threshold);
      && (c == 0.25 <==> rate >= 6 * threshold)
      && (rate <= 6 * threshold ==> c * (6 * threshold) as real == 0.25 * rate as real)
  {
    NothingScoresZero(threshold);
    ShareShape(rate, threshold * 3);
    assert Total(OnlyGlobal(rate), threshold) == Share(rate, threshold * 3) * 0.25;
    Scaled(Share(rate, threshold * 3), 0.25, (6 * threshold) as real);
  }

  /** The address's error ratio contributes 0.35 times what it exceeds the global one by. */
  lemma ErrorContribution(mine: real, all: real, threshold: int)
    requires mine - all <= 1.0
    ensures Total(OnlyErrors(mine, all), threshold) == 0.35 * if mine > all then mine - all else 0.0
  {
    NothingScoresZero(threshold);
    NothingScoresZero(threshold * 3);
  }

  lemma ShareMonotone(rate: nat, more: nat, threshold: int)
    requires rate <= more
    ensures Share(rate, threshold) <= Share(more, threshold)
  {
    QuotientOrder(rate as real, more as real, Max(threshold, 1) as real);
  }

  /** The score never falls as a rate or the deviation rises. */
  lemma ScoreIsMonotone(stats: ProfileStats, more: ProfileStats, threshold: int)
    requires stats.ipRate <= more.ipRate && stats.globalRate <= more.globalRate
    requires stats.ipErrorRatio - stats.globalErrorRatio <= more.ipErrorRatio - more.globalErrorRatio
    ensures ScoreOf(stats, threshold) <= ScoreOf(more, threshold)
  {
    ShareMonotone(stats.ipRate, more.ipRate, threshold);
    ShareMonotone(stats.globalRate, more.globalRate, threshold * 3);
    RoundMonotone(MinReal(Total(stats, threshold), 1.0), MinReal(Total(more, threshold), 1.0));
  }

  /** An event without an address is rated by the global rate alone, at most 0.25. */
  lemma WithoutAddress(h: History, window: real, threshold: int)
    ensures
      var stats := StatsOf(h, window, None);
      && Total(stats, threshold) == Total(OnlyGlobal(stats.globalRate), threshold)
      && ScoreOf(stats, threshold) <= 0.25
  {
    var stats := StatsOf(h, window, None);
    var all := GlobalDeque(h, window);
    ErrorsAtMost(all);
    RatioBounds(Errors(all), |all|);
    RatioBounds(0, 0);
    NothingScoresZero(threshold);
    ShareBounds(stats.globalRate, threshold * 3);
    RoundGrid(2500);
    RoundMonotone(Total(stats, threshold), 0.25);
  }

  // ----- the statistics, counted in the plain history -----

  /** The events of the address, or of them only the errors, that are not older than the cutoff. */
  function Hits(h: History, cutoff: real, ip: string, errors: bool): set<int> {
    set i | 0 <= i < |h| && h[i].at >= cutoff && h[i].what.ip == Some(ip) && (errors ==> h[i].what.err)
  }

  function AllHits(h: History, cutoff: real, errors: bool): set<int> {
    set i | 0 <= i < |h| && h[i].at >= cutoff && (errors ==> h[i].what.err)
  }

  lemma HitsSnoc(h: History, e: Stamped<Visit>, cutoff: real, ip: string, errors: bool)
    ensures
      var hit := e.at >= cutoff && (errors ==> e.what.err);
      && |AllHits(h + [e], cutoff, errors)| == |AllHits(h, cutoff, errors)| + (if hit then 1 else 0)
      && |Hits(h + [e], cutoff, ip, errors)|
         == |Hits(h, cutoff, ip, errors)| + (if hit && e.what.ip == Some(ip) then 1 else 0)
  {
    var hit := e.at >= cutoff && (errors ==> e.what.err);
    AllHitsOf(h, e, cutoff, errors);
    HitsOf(h, e, cutoff, ip, errors);
    assert |h| !in AllHits(h, cutoff, errors) && |h| !in Hits(h, cutoff, ip, errors);
  }

  lemma AllHitsOf(h: History, e: Stamped<Visit>, cutoff: real, errors: bool)
    ensures AllHits(h + [e], cutoff, errors)
         == AllHits(h, cutoff, errors) + if e.at >= cutoff && (errors ==> e.what.err) then {|h|} else {}
  {
    var all := h + [e];
    assert all[|h|] == e && forall i :: 0 <= i < |h| ==> all[i] == h[i];
  }

  lemma HitsOf(h: History, e: Stamped<Visit>, cutoff: real, ip: string, errors: bool)
    ensures
      var hit := e.at >= cutoff && (errors ==> e.what.err) && e.what.ip == Some(ip);
      Hits(h + [e], cutoff, ip, errors) == Hits(h, cutoff, ip, errors) + if hit then {|h|} else {}
  {
    var all := h + [e];
    assert all[|h|] == e && forall i :: 0 <= i < |h| ==> all[i] == h[i];
  }

  lemma {:induction false} CountedEvents(h: History, cutoff: real, ip: string)
    ensures |Since(AllEvents(h), cutoff)| == |AllHits(h, cutoff, false)|
    ensures Errors(Since(AllEvents(h), cutoff)) == |AllHits(h, cutoff, true)|
    ensures |Since(EventsOf(h, ip), cutoff)| == |Hits(h, cutoff, ip, false)|
    ensures Errors(Since(EventsOf(h, ip), cutoff)) == |Hits(h, cutoff, ip, true)|
  {
    if h != [] {
      var init, e := h[..|h| - 1], h[|h| - 1];
      assert h == init + [e];
      CountedEvents(init, cutoff, ip);
      CountedOneMore(init, e, cutoff, ip);
    }
  }

  lemma CountedOneMore(h: History, e: Stamped<Visit>, cutoff: real, ip: string)
    requires |Since(AllEvents(h), cutoff)| == |AllHits(h, cutoff, false)|
    requires Errors(Since(AllEvents(h), cutoff)) == |AllHits(h, cutoff, true)|
    requires |Since(EventsOf(h, ip), cutoff)| == |Hits(h, cutoff, ip, false)|
    requires Errors(Since(EventsOf(h, ip), cutoff)) == |Hits(h, cutoff, ip, true)|
    ensures |Since(AllEvents(h + [e]), cutoff)| == |AllHits(h + [e], cutoff, false)|
    ensures Errors(Since(AllEvents(h + [e]), cutoff)) == |AllHits(h + [e], cutoff, true)|
    ensures |Since(EventsOf(h + [e], ip), cutoff)| == |Hits(h + [e], cutoff, ip, false)|
    ensures Errors(Since(EventsOf(h + [e], ip), cutoff)) == |Hits(h + [e], cutoff, ip, true)|
  {
    EventsSnoc(h, e, ip);
    HitsSnoc(h, e, cutoff, ip, false);
    HitsSnoc(h, e, cutoff, ip, true);
    SinceSnoc(AllEvents(h), Event(e), cutoff);
    SinceSnoc(EventsOf(h, ip), Event(e), cutoff);
    ErrorsSnoc(Since(AllEvents(h), cutoff), Event(e));
    ErrorsSnoc(Since(EventsOf(h, ip), cutoff), Event(e));
  }

  lemma LastEvents(h: History, ip: string)
    requires h != [] && h[|h| - 1].what.ip == Some(ip)
    ensures EventsOf(h, ip) != [] && EventsOf(h, ip)[|EventsOf(h, ip)| - 1].at == h[|h| - 1].at
    ensures AllEvents(h) != [] && AllEvents(h)[|AllEvents(h)| - 1].at == h[|h| - 1].at
  {
  }

  lemma CountRecent(s: seq<Stamped<bool>>, at: real, window: real, cap: nat)
    requires s != [] && s[|s| - 1].at == at
    ensures
      var inWindow, deque := Since(s, at - window), Recent(s, window, cap);
      && |deque| == Min(|inWindow|, cap)
      && (|inWindow| <= cap ==> deque == inWindow)
  {
  }

  /** The statistics of an event count the events of its address and of all addresses within the
      window before it; the ratios are the shares of errors among them while no deque is full. */
  lemma StatsCount(h: History, window: real, ip: string)
    requires h != [] && h[|h| - 1].what.ip == Some(ip)
    ensures
      var cutoff := h[|h| - 1].at - window;
      var mine, all := |Hits(h, cutoff, ip, false)|, |AllHits(h, cutoff, false)|;
      var stats := StatsOf(h, window, Some(ip));
      && stats.ipRate == Min(mine, 10_000) && stats.globalRate == Min(all, 50_000)
      && (mine <= 10_000 ==> stats.ipErrorRatio == Ratio(|Hits(h, cutoff, ip, true)|, mine))
      && (all <= 50_000 ==> stats.globalErrorRatio == Ratio(|AllHits(h, cutoff, true)|, all))
  {
    var at := h[|h| - 1].at;
    CountedEvents(h, at - window, ip);
    LastEvents(h, ip);
    StatsOfDeques(EventsOf(h, ip), AllEvents(h), at, window);
  }

  lemma StatsOfDeques(mine: seq<Stamped<bool>>, all: seq<Stamped<bool>>, at: real, window: real)
    requires mine != [] && mine[|mine| - 1].at == at && all != [] && all[|all| - 1].at == at
    ensures
      var m, a := Since(mine, at - window), Since(all, at - window);
      var stats := Summary(Recent(mine, window, MAX_PER_IP_EVENTS), Recent(all, window, MAX_GLOBAL_EVENTS));
      && stats.ipRate == Min(|m|, 10_000) && stats.globalRate == Min(|a|, 50_000)
      && (|m| <= 10_000 ==> stats.ipErrorRatio == Ratio(Errors(m), |m|))
      && (|a| <= 50_000 ==> stats.globalErrorRatio == Ratio(Errors(a), |a|))
  {
    CountRecent(mine, at, window, MAX_PER_IP_EVENTS);
    CountRecent(all, at, window, MAX_GLOBAL_EVENTS);
  }

  /** A ratio is the share of the first number in the second, and 0 of nothing. */
  lemma RatioIsTheShare(n: nat, total: nat)
    ensures total > 0 ==> Ratio(n, total) * total as real == n as real
    ensures Ratio(0, total) == 0.0
  {
  }

  /** score(): record the event, then rate the snapshot. */
  method Score(store: ProfileStore, isError: bool, ip: Option<string>, now: real, threshold: int)
    returns (score: real)
    requires store.Valid()
    requires store.history != [] ==> store.history[|store.history| - 1].at <= now
    modifies store
    ensures store.Valid()
    ensures store.history == old(store.history) + [Stamped(now, Visit(ip, isError))]
    ensures score == ScoreOf(StatsOf(store.history, store.window, ip), threshold)
    ensures 0.0 <= score <= 1.0 && (ip.None? ==> score <= 0.25)
  {
    var stats := store.Record(ip, isError, now);
    WithoutAddress(store.history, store.window, threshold);
    ScoreStaysBelowOne(store.history, store.window, threshold);
    RoundUnit(Total(stats, threshold));
    score := ScoreOf(stats, threshold);
  }

  // ----- features -----

  const FEATURE_KEYWORDS: seq<string> := ["failed login", "unauthorized", "error", "denied", "timeout", "attack"]

  predicate IsErrorLevel(level: string) {
    Upper(level) in ["ERROR", "CRITICAL", "FATAL"]
  }

  function LevelNumber(level: string): nat {
    var l := Upper(level);
    if l == "DEBUG" then 0
    else if l == "WARNING" || l == "WARN" then 2
    else if l == "ERROR" then 3
    else if l == "CRITICAL" || l == "FATAL" then 4
    else 1
  }

  function KeywordHits(text: string, n: nat): nat
    requires n <= |FEATURE_KEYWORDS|
  {
    if n == 0 then 0 else KeywordHits(text, n - 1) + if Contains(text, FEATURE_KEYWORDS[n - 1]) then 1 else 0
  }

  /** extract_features. */
  function Features(line: LogLine): (f: seq<real>)
    ensures |f| == 4
  {
    [ LevelNumber(line.level) as real,
      Min(|line.message|, 1000) as real,
      if line.ip.Some? && line.ip.value != "" then 1.0 else 0.0,
      KeywordHits(Lower(line.message), |FEATURE_KEYWORDS|) as real ]
  }

  /** The two readings of the level agree: an error is what counts 3 or 4. */
  lemma ErrorLevelsCountMost(level: string)
    ensures IsErrorLevel(level) <==> LevelNumber(level) >= 3
    ensures LevelNumber(level) == 0 <==> Upper(level) == "DEBUG"
    ensures LevelNumber(level) == 2 <==> Upper(level) in {"WARNING", "WARN"}
    ensures LevelNumber(level) == 3 <==> Upper(level) == "ERROR"
    ensures LevelNumber(level) <= 4
  {
  }

  function PresentKeywords(text: string, n: nat): set<int>
    requires n <= |FEATURE_KEYWORDS|
  {
    set k | 0 <= k < n && Contains(text, FEATURE_KEYWORDS[k])
  }

  lemma OneMoreKeyword(text: string, n: nat)
    requires n < |FEATURE_KEYWORDS|
    ensures PresentKeywords(text, n + 1)
         == PresentKeywords(text, n) + if Contains(text, FEATURE_KEYWORDS[n]) then {n} else {}
    ensures n !in PresentKeywords(text, n)
  {
  }

  lemma {:induction false} HitsAreKeywords(text: string, n: nat)
    requires n <= |FEATURE_KEYWORDS|
    ensures KeywordHits(text, n) == |PresentKeywords(text, n)|
  {
    if n > 0 {
      HitsAreKeywords(text, n - 1);
      OneMoreKeyword(text, n - 1);
    } else {
      assert PresentKeywords(text, 0) == {};
    }
  }

  /** The vector: the level, the length up to 1000, whether there is an address, and how many of
      the keywords the message contains in any case. */
  lemma FeaturesTell(line: LogLine)
    ensures
      var f := Features(line);
      && f[0] == LevelNumber(line.level) as real
      && f[1] <= 1000.0 && (|line.message| <= 1000 ==> f[1] == |line.message| as real)
      && (|line.message| >= 1000 ==> f[1] == 1000.0)
      && (f[2] == 0.0 <==> line.ip == None || line.ip == Some("")) && (f[2] == 0.0 || f[2] == 1.0)
      && f[3] == |set k | 0 <= k < |FEATURE_KEYWORDS| && FoundIn(line.message, FEATURE_KEYWORDS[k])| as real
  {
    HitsAreKeywords(Lower(line.message), |FEATURE_KEYWORDS|);
    forall k | 0 <= k < |FEATURE_KEYWORDS|
      ensures Contains(Lower(line.message), FEATURE_KEYWORDS[k]) <==> FoundIn(line.message, FEATURE_KEYWORDS[k])
    {
      assert IsLower(FEATURE_KEYWORDS[k]);
      FoundIgnoringCase(line.message, FEATURE_KEYWORDS[k]);
    }
    assert (set k | 0 <= k < |FEATURE_KEYWORDS| && FoundIn(line.message, FEATURE_KEYWORDS[k]))
        == PresentKeywords(Lower(line.message), |FEATURE_KEYWORDS|);
  }
}
