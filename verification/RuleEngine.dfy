/** Case folding (of ASCII letters) and substring search. */
module Text {
  import opened Collections

  /** What the engines look at in a log entry. */
  datatype LogLine = LogLine(level: string, message: string, ip: Option<string>)

  function Lower(s: string): string {
    seq(|s|, i requires 0 <= i < |s| => if 'A' <= s[i] <= 'Z' then s[i] - 'A' + 'a' else s[i])
  }

  function Upper(s: string): string {
    seq(|s|, i requires 0 <= i < |s| => if 'a' <= s[i] <= 'z' then s[i] - 'a' + 'A' else s[i])
  }

  predicate OccursAt(text: string, part: string, i: int) {
    0 <= i <= |text| - |part| && text[i..i + |part|] == part
  }

  predicate Contains(text: string, part: string) {
    exists i | 0 <= i <= |text| - |part| :: OccursAt(text, part, i)
  }

  predicate IsLetter(c: char) {
    'a' <= c <= 'z' || 'A' <= c <= 'Z'
  }

  /** The same character, or the same letter in the other case. */
  predicate SameButCase(c: char, d: char) {
    c == d || (IsLetter(c) && IsLetter(d) && (c as int == d as int + 32 || d as int == c as int + 32))
  }

  predicate IsLower(s: string) {
    forall i :: 0 <= i < |s| ==> !('A' <= s[i] <= 'Z')
  }

  predicate MatchesAt(text: string, part: string, i: int) {
    && 0 <= i <= |text| - |part|
    && forall j :: 0 <= j < |part| ==> SameButCase(text[i + j], part[j])
  }

  /** The part occurs in the text, whatever the case of the letters. */
  predicate FoundIn(text: string, part: string) {
    exists i | 0 <= i <= |text| - |part| :: MatchesAt(text, part, i)
  }

  lemma OneLetter(c: char, d: char)
    requires !('A' <= d <= 'Z')
    ensures (if 'A' <= c <= 'Z' then c - 'A' + 'a' else c) == d <==> SameButCase(c, d)
  {
  }

  /** Looking for a lower-case part in the lowered text ignores the case of the text. */
  lemma FoundIgnoringCase(text: string, part: string)
    requires IsLower(part)
    ensures Contains(Lower(text), part) <==> FoundIn(text, part)
  {
    forall i | 0 <= i <= |text| - |part|
      ensures OccursAt(Lower(text), part, i) <==> MatchesAt(text, part, i)
    {
      FoundHere(text, part, i);
    }
  }

  lemma FoundHere(text: string, part: string, i: int)
    requires IsLower(part) && 0 <= i <= |text| - |part|
    ensures OccursAt(Lower(text), part, i) <==> MatchesAt(text, part, i)
  {
    var there := Lower(text)[i..i + |part|];
    forall j | 0 <= j < |part|
      ensures there[j] == part[j] <==> SameButCase(text[i + j], part[j])
    {
      OneLetter(text[i + j], part[j]);
    }
    assert there == part <==> forall j :: 0 <= j < |part| ==> there[j] == part[j];
  }

  /** The level is read in any case too. */
  lemma UpperIgnoresCase(s: string, word: string)
    requires forall i :: 0 <= i < |word| ==> 'A' <= word[i] <= 'Z'
    ensures Upper(s) == word <==> |s| == |word| && forall i :: 0 <= i < |s| ==> SameButCase(s[i], word[i])
  {
    if |s| == |word| {
      assert Upper(s) == word <==> forall i :: 0 <= i < |s| ==> Upper(s)[i] == word[i];
    }
  }
}

/** app/services/rule_engine.py. */
module RuleEngine {
  import opened Collections
  import opened SlidingWindow
  import opened Severities
  import opened Text

  type Log = seq<Stamped<LogLine>>

  datatype Reason = LevelIsError | HasKeyword(keyword: string) | Burst(ip: string)

  datatype RuleResult = RuleResult(severity: Severity, reason: Reason)

  const HIGH_KEYWORDS: seq<string> :=
    ["failed login", "unauthorized", "script", "or '1'='1", "passwd", ".git/", "wp-config"]

  predicate HasHighKeyword(message: string) {
    exists k :: 0 <= k < |HIGH_KEYWORDS| && Contains(Lower(message), HIGH_KEYWORDS[k])
  }

  /** The lines that are settled by a HIGH rule; the burst tracker never sees them. */
  predicate HighSignal(line: LogLine) {
    Upper(line.level) == "ERROR" || HasHighKeyword(line.message)
  }

  predicate Tracked(line: LogLine, ip: string) {
    line.ip == Some(ip) && ip != "" && !HighSignal(line)
  }

  /** The times of the lines that count towards a burst of `ip`. */
  function CountedFor(log: Log, ip: string): seq<Stamped<()>> {
    if log == [] then []
    else
      var last := log[|log| - 1];
      var before := CountedFor(log[..|log| - 1], ip);
      if Tracked(last.what, ip) then before + [Stamped(last.at, ())] else before
  }

  function Bucket(buckets: map<string, seq<Stamped<()>>>, ip: string): seq<Stamped<()>> {
    if ip in buckets then buckets[ip] else []
  }

  /** The unbounded deque: Recent without its cap. */
  function InWindow(h: seq<Stamped<()>>, window: real): seq<Stamped<()>> {
    if h == [] then [] else Since(h, h[|h| - 1].at - window)
  }

  predicate Bursting(log: Log, window: real, threshold: int)
    requires log != []
  {
    var ip := log[|log| - 1].what.ip;
    ip.Some? && ip.value != "" && |InWindow(CountedFor(log, ip.value), window)| > threshold
  }

  /** The severity of the rule that fires on the newest line of a log, if one does. */
  function SeverityOf(log: Log, window: real, threshold: int): Option<Severity>
    requires log != []
  {
    if HighSignal(log[|log| - 1].what) then Some(High)
    else if Bursting(log, window, threshold) then Some(Medium)
    else None
  }

  /** What evaluate must answer for the newest line of a log. */
  ghost predicate Verdict(log: Log, window: real, threshold: int, r: Option<RuleResult>)
    requires log != []
  {
    var line := log[|log| - 1].what;
    if Upper(line.level) == "ERROR" then r == Some(RuleResult(High, LevelIsError))
    else if HasHighKeyword(line.message) then
      && r.Some? && r.value.severity == High && r.value.reason.HasKeyword?
      && FirstHit(line.message, r.value.reason.keyword)
    else if Bursting(log, window, threshold) then
      r == Some(RuleResult(Medium, Burst(line.ip.value)))
    else r == None
  }

  ghost predicate FirstHit(message: string, keyword: string) {
    exists k ::
      && 0 <= k < |HIGH_KEYWORDS| && keyword == HIGH_KEYWORDS[k]
      && Contains(Lower(message), HIGH_KEYWORDS[k])
      && forall j :: 0 <= j < k ==> !Contains(Lower(message), HIGH_KEYWORDS[j])
  }

  lemma VerdictSeverity(log: Log, window: real, threshold: int, r: Option<RuleResult>)
    requires log != [] && Verdict(log, window, threshold, r)
    ensures SeverityOf(log, window, threshold) == if r.Some? then Some(r.value.severity) else None
  {
  }

  method FindKeyword(message: string) returns (hit: Option<string>)
    ensures hit.None? <==> !HasHighKeyword(message)
    ensures hit.Some? ==> FirstHit(message, hit.value)
  {
    var k := 0;
    while k < |HIGH_KEYWORDS|
      invariant 0 <= k <= |HIGH_KEYWORDS|
      invariant forall j :: 0 <= j < k ==> !Contains(Lower(message), HIGH_KEYWORDS[j])
    {
      if Contains(Lower(message), HIGH_KEYWORDS[k]) {
        return Some(HIGH_KEYWORDS[k]);
      }
      k := k + 1;
    }
    return None;
  }

  ghost predicate Consistent(buckets: map<string, seq<Stamped<()>>>, log: Log, window: real) {
    && Ordered(log)
    && forall ip :: Bucket(buckets, ip) == InWindow(CountedFor(log, ip), window)
  }

  /** The buckets after one more line: exactly that of a tracked line has moved on. */
  function Advanced(buckets: map<string, seq<Stamped<()>>>, window: real, e: Stamped<LogLine>)
    : map<string, seq<Stamped<()>>>
  {
    if e.what.ip.Some? && Tracked(e.what, e.what.ip.value) then
      buckets[e.what.ip.value := Moved(Bucket(buckets, e.what.ip.value), window, e.at)]
    else buckets
  }

  function Moved(bucket: seq<Stamped<()>>, window: real, now: real): seq<Stamped<()>> {
    DropStale(bucket + [Stamped(now, ())], now - window)
  }

  /** The bucket decides about the lines that no HIGH rule settles. */
  lemma BucketDecides(buckets: map<string, seq<Stamped<()>>>, log: Log, window: real, threshold: int)
    requires Consistent(buckets, log, window) && log != [] && !HighSignal(log[|log| - 1].what)
    ensures
      var ip := log[|log| - 1].what.ip;
      var burst := ip.Some? && ip.value != "" && |Bucket(buckets, ip.value)| > threshold;
      Verdict(log, window, threshold, if burst then Some(RuleResult(Medium, Burst(ip.value))) else None)
  {
    var ip := log[|log| - 1].what.ip;
    assert ip.Some? ==> Bucket(buckets, ip.value) == InWindow(CountedFor(log, ip.value), window);
  }

  class IpTracker {
    const window: real
    const threshold: int
    var buckets: map<string, seq<Stamped<()>>>
    ghost var log: Log

    ghost predicate Valid()
      reads this
    {
      window >= 0.0 && Consistent(buckets, log, window)
    }

    constructor (window: real, threshold: int)
      requires window >= 0.0
      ensures Valid() && log == [] && this.window == window && this.threshold == threshold
    {
      this.window, this.threshold := window, threshold;
      buckets, log := map[], [];
    }

    method Record(ip: string, now: real) returns (exceeded: bool)
      modifies this`buckets
      ensures buckets == old(buckets)[ip := Moved(Bucket(old(buckets), ip), window, now)]
      ensures exceeded <==> |buckets[ip]| > threshold
    {
      var q := Bucket(buckets, ip) + [Stamped(now, ())];
      q := Evict(q, now - window);
      buckets := buckets[ip := q];
      exceeded := |q| > threshold;
    }

    method Evaluate(line: LogLine, now: real) returns (r: Option<RuleResult>)
      requires Valid()
      requires log != [] ==> log[|log| - 1].at <= now
      modifies this
      ensures Valid()
      ensures log == old(log) + [Stamped(now, line)]
      ensures Verdict(log, window, threshold, r)
    {
      TrackerAdvances(buckets, log, window, Stamped(now, line));
      ghost var next := Advanced(buckets, window, Stamped(now, line));
      log := log + [Stamped(now, line)];
      if Upper(line.level) == "ERROR" {
        return Some(RuleResult(High, LevelIsError));
      }
      var hit := FindKeyword(line.message);
      if hit.Some? {
        return Some(RuleResult(High, HasKeyword(hit.value)));
      }
      BucketDecides(next, log, window, threshold);
      if line.ip.Some? && line.ip.value != "" {
        var exceeded := Record(line.ip.value, now);
        assert buckets == next;
        if exceeded {
          return Some(RuleResult(Medium, Burst(line.ip.value)));
        }
      }
      return None;
    }
  }

  lemma {:induction false} SinceAtMost<T>(s: seq<Stamped<T>>, cutoff: real)
    ensures |Since(s, cutoff)| <= |s|
  {
    if s != [] {
      SinceAtMost(s[1..], cutoff);
    }
  }

  lemma UnboundedAdvances(h: seq<Stamped<()>>, e: Stamped<()>, window: real)
    requires Ordered(h + [e]) && window >= 0.0
    ensures DropStale(InWindow(h, window) + [e], e.at - window) == InWindow(h + [e], window)
  {
    var cap := |h| + 1;
    WindowAdvances(h, e, window, cap);
    if h != [] {
      SinceAtMost(h, h[|h| - 1].at - window);
    }
    SinceAtMost(h + [e], e.at - window);
  }

  lemma {:induction false} CountedInOrder(log: Log, ip: string)
    requires Ordered(log)
    ensures Ordered(CountedFor(log, ip))
    ensures log != [] ==> forall i :: 0 <= i < |CountedFor(log, ip)| ==> CountedFor(log, ip)[i].at <= log[|log| - 1].at
  {
    if log != [] {
      var init := log[..|log| - 1];
      CountedInOrder(init, ip);
      assert init != [] ==> init[|init| - 1].at <= log[|log| - 1].at;
    }
  }

  /** Moving on the bucket of a tracked line, and no other, keeps the buckets right. */
  lemma TrackerAdvances(buckets: map<string, seq<Stamped<()>>>, log: Log, window: real, e: Stamped<LogLine>)
    requires window >= 0.0 && Consistent(buckets, log, window)
    requires log != [] ==> log[|log| - 1].at <= e.at
    ensures Consistent(Advanced(buckets, window, e), log + [e], window)
  {
    var log' := log + [e];
    assert Ordered(log');
    forall ip ensures Bucket(Advanced(buckets, window, e), ip) == InWindow(CountedFor(log', ip), window) {
      BucketAdvances(log, window, e, ip);
      assert Bucket(buckets, ip) == InWindow(CountedFor(log, ip), window);
    }
  }

  lemma BucketAdvances(log: Log, window: real, e: Stamped<LogLine>, ip: string)
    requires window >= 0.0 && Ordered(log + [e])
    ensures InWindow(CountedFor(log + [e], ip), window)
         == if Tracked(e.what, ip) then Moved(InWindow(CountedFor(log, ip), window), window, e.at)
            else InWindow(CountedFor(log, ip), window)
  {
    CountedInOrder(log + [e], ip);
    assert (log + [e])[..|log|] == log;
    if Tracked(e.what, ip) {
      UnboundedAdvances(CountedFor(log, ip), Stamped(e.at, ()), window);
    }
  }

  /** A line is settled by a HIGH rule if its level is ERROR or it contains one of the keywords,
      in any case. */
  lemma HighSignalsIgnoreCase(line: LogLine)
    ensures HighSignal(line) <==>
              || (|line.level| == 5 && forall i :: 0 <= i < 5 ==> SameButCase(line.level[i], "ERROR"[i]))
              || exists k :: 0 <= k < |HIGH_KEYWORDS| && FoundIn(line.message, HIGH_KEYWORDS[k])
  {
    UpperIgnoresCase(line.level, "ERROR");
    forall k | 0 <= k < |HIGH_KEYWORDS|
      ensures Contains(Lower(line.message), HIGH_KEYWORDS[k]) <==> FoundIn(line.message, HIGH_KEYWORDS[k])
    {
      assert IsLower(HIGH_KEYWORDS[k]);
      FoundIgnoringCase(line.message, HIGH_KEYWORDS[k]);
    }
  }

  /** The lines of the address since the cutoff that no HIGH rule settles. */
  function CountedLines(log: Log, cutoff: real, ip: string): set<int> {
    set i | 0 <= i < |log| && log[i].at >= cutoff && log[i].what.ip == Some(ip) && !HighSignal(log[i].what)
  }

  lemma CountedOneMore(log: Log, cutoff: real, ip: string)
    requires log != [] && ip != ""
    ensures
      var init, e := log[..|log| - 1], log[|log| - 1];
      |CountedLines(log, cutoff, ip)|
      == |CountedLines(init, cutoff, ip)| + if e.at >= cutoff && Tracked(e.what, ip) then 1 else 0
  {
    var n, e := |log| - 1, log[|log| - 1];
    var before := CountedLines(log[..n], cutoff, ip);
    assert CountedLines(log, cutoff, ip) == before + if e.at >= cutoff && Tracked(e.what, ip) then {n} else {};
    assert n !in before;
  }

  lemma {:induction false} CountedInLog(log: Log, cutoff: real, ip: string)
    requires ip != ""
    ensures |Since(CountedFor(log, ip), cutoff)| == |CountedLines(log, cutoff, ip)|
  {
    if log != [] {
      var init, e := log[..|log| - 1], log[|log| - 1];
      CountedInLog(init, cutoff, ip);
      SinceSnoc(CountedFor(init, ip), Stamped(e.at, ()), cutoff);
      CountedOneMore(log, cutoff, ip);
    }
  }

  /** A burst is what its name says: more lines of the address than the threshold within the
      window, this one included, not counting those that a HIGH rule settles. */
  lemma BurstMeansManyLines(log: Log, window: real, threshold: int)
    requires log != [] && !HighSignal(log[|log| - 1].what)
    ensures
      var e := log[|log| - 1];
      SeverityOf(log, window, threshold) == (
        if e.what.ip.Some? && e.what.ip.value != ""
          && |CountedLines(log, e.at - window, e.what.ip.value)| > threshold
        then Some(Medium) else None)
  {
    var e := log[|log| - 1];
    if e.what.ip.Some? && e.what.ip.value != "" {
      CountedInLog(log, e.at - window, e.what.ip.value);
      assert CountedFor(log, e.what.ip.value)[|CountedFor(log, e.what.ip.value)| - 1].at == e.at;
    }
  }

  /** However many ERROR or keyword lines an address sends, they never add up to a burst: a log
      in which its lines are all of that kind leaves its bucket empty. */
  lemma {:induction false} HighSignalsNeverBurst(log: Log, ip: string)
    requires forall i :: 0 <= i < |log| && log[i].what.ip == Some(ip) ==> HighSignal(log[i].what)
    ensures CountedFor(log, ip) == []
  {
    if log != [] {
      HighSignalsNeverBurst(log[..|log| - 1], ip);
    }
  }
}
