/** app/services/baseline_store.py. */
module BaselineStore {
  import opened Collections

  const FEATURE_DIM: nat := 4

  datatype Sample = Sample(features: seq<real>, ip: Option<string>)

  /** int(max_size * 0.05), in exact arithmetic. */
  function Quota(maxSize: nat): nat {
    maxSize / 20
  }

  function Vectors(s: seq<Sample>): (r: seq<seq<real>>)
    ensures |r| == |s|
  {
    seq(|s|, i requires 0 <= i < |s| => s[i].features)
  }

  function Sources(s: seq<Sample>): (r: seq<Option<string>>)
    ensures |r| == |s|
  {
    seq(|s|, i requires 0 <= i < |s| => s[i].ip)
  }

  /** How many of the first `n` entries come from a source in `group`. */
  function CountIn(s: seq<Option<string>>, n: nat, group: set<string>): nat
    requires n <= |s|
  {
    if n == 0 then 0
    else CountIn(s, n - 1, group) + if s[n - 1].Some? && s[n - 1].value in group then 1 else 0
  }

  function SlotsOf(s: seq<Option<string>>, ip: string): nat {
    CountIn(s, |s|, {ip})
  }

  /** The store as a function of the additions it has accepted. */
  ghost predicate Holds(maxSize: nat, buffer: seq<seq<real>>, sources: seq<Option<string>>, accepted: seq<Sample>) {
    && buffer == Vectors(LastN(accepted, maxSize))
    && sources == Sources(LastN(accepted, maxSize))
    && forall ip :: SlotsOf(sources, ip) <= Quota(maxSize)
  }

  class BaselineStore {
    const maxSize: nat
    const featureDim: Option<nat>
    var buffer: seq<seq<real>>
    var ipBuffer: seq<Option<string>>
    ghost var accepted: seq<Sample>

    ghost predicate Valid()
      reads this
    {
      maxSize > 0 && Holds(maxSize, buffer, ipBuffer, accepted)
    }

    constructor (maxSize: nat, featureDim: Option<nat>)
      requires maxSize > 0
      ensures Valid() && accepted == [] && this.maxSize == maxSize && this.featureDim == featureDim
    {
      this.maxSize, this.featureDim := maxSize, featureDim;
      buffer, ipBuffer, accepted := [], [], [];
    }

    /** False stands for the ValueError. An over-represented source is dropped silently. */
    method Add(features: seq<real>, ip: Option<string>) returns (ok: bool)
      requires Valid()
      modifies this
      ensures Valid()
      ensures ok <==> featureDim.Some? ==> |features| == featureDim.value
      ensures
        if ok && (ip.Some? ==> SlotsOf(old(ipBuffer), ip.value) < Quota(maxSize)) then
          accepted == old(accepted) + [Sample(features, ip)]
        else accepted == old(accepted) && buffer == old(buffer) && ipBuffer == old(ipBuffer)
      ensures accepted != old(accepted) <==>
                && ok && (ip.Some? ==> 20 * (multiset(old(ipBuffer))[ip] + 1) <= maxSize)
    {
      if ip.Some? {
        SlotsAreOccurrences(ipBuffer, ip.value);
        RoomForOneMore(maxSize, SlotsOf(ipBuffer, ip.value));
      }
      if featureDim.Some? && |features| != featureDim.value {
        return false;
      }
      if ip.Some? && SlotsOf(ipBuffer, ip.value) >= Quota(maxSize) {
        return true;
      }
      AddHolds(maxSize, buffer, ipBuffer, accepted, Sample(features, ip));
      buffer := (if |buffer| == maxSize then buffer[1..] else buffer) + [features];
      ipBuffer := (if |ipBuffer| == maxSize then ipBuffer[1..] else ipBuffer) + [ip];
      accepted := accepted + [Sample(features, ip)];
      return true;
    }

    method Clear()
      requires Valid()
      modifies this
      ensures Valid() && accepted == [] && buffer == []
    {
      buffer, ipBuffer, accepted := [], [], [];
    }
  }

  /** The quota is a twentieth: an address has room for one more vector exactly if it then still
      has at most 5 percent of the buffer. */
  lemma RoomForOneMore(maxSize: nat, slots: nat)
    ensures slots < Quota(maxSize) <==> 20 * (slots + 1) <= maxSize
  {
  }

  lemma {:induction false} CountIsMultiplicity(s: seq<Option<string>>, n: nat, ip: string)
    requires n <= |s|
    ensures CountIn(s, n, {ip}) == multiset(s[..n])[Some(ip)]
  {
    if n > 0 {
      CountIsMultiplicity(s, n - 1, ip);
      assert s[..n] == s[..n - 1] + [s[n - 1]];
    }
  }

  lemma SlotsAreOccurrences(s: seq<Option<string>>, ip: string)
    ensures SlotsOf(s, ip) == multiset(s)[Some(ip)]
  {
    CountIsMultiplicity(s, |s|, ip);
    assert s[..|s|] == s;
  }

  /** No address ever has more than 5 percent of the buffer. */
  lemma FivePercentEach(
    maxSize: nat, buffer: seq<seq<real>>, sources: seq<Option<string>>, accepted: seq<Sample>, ip: string)
    requires Holds(maxSize, buffer, sources, accepted)
    ensures 20 * multiset(sources)[Some(ip)] <= maxSize
  {
    SlotsAreOccurrences(sources, ip);
  }

  lemma {:induction false} CountPrefix(s: seq<Option<string>>, t: seq<Option<string>>, n: nat, group: set<string>)
    requires n <= |s| && n <= |t| && forall k :: 0 <= k < n ==> s[k] == t[k]
    ensures CountIn(s, n, group) == CountIn(t, n, group)
  {
    if n > 0 {
      CountPrefix(s, t, n - 1, group);
    }
  }

  lemma {:induction false} CountWithoutOldest(s: seq<Option<string>>, n: nat, group: set<string>)
    requires 0 < n <= |s|
    ensures CountIn(s[1..], n - 1, group) <= CountIn(s, n, group)
  {
    if n > 1 {
      CountWithoutOldest(s, n - 1, group);
    }
  }

  function Pushed<T>(s: seq<T>, x: T, maxSize: nat): seq<T>
    requires maxSize > 0
  {
    (if |s| == maxSize then s[1..] else s) + [x]
  }

  lemma SlotsAfterPush(s: seq<Option<string>>, x: Option<string>, maxSize: nat, ip: string)
    requires maxSize > 0
    ensures SlotsOf(Pushed(s, x, maxSize), ip) <= SlotsOf(s, ip) + if x == Some(ip) then 1 else 0
  {
    var kept := if |s| == maxSize then s[1..] else s;
    if |s| == maxSize {
      CountWithoutOldest(s, |s|, {ip});
    }
    CountPrefix(Pushed(s, x, maxSize), kept, |kept|, {ip});
  }

  lemma LastNPushed(accepted: seq<Sample>, x: Sample, maxSize: nat)
    requires maxSize > 0
    ensures LastN(accepted + [x], maxSize) == Pushed(LastN(accepted, maxSize), x, maxSize)
  {
  }

  lemma VectorsPushed(kept: seq<Sample>, x: Sample, maxSize: nat)
    requires maxSize > 0
    ensures Vectors(Pushed(kept, x, maxSize)) == Pushed(Vectors(kept), x.features, maxSize)
    ensures Sources(Pushed(kept, x, maxSize)) == Pushed(Sources(kept), x.ip, maxSize)
  {
  }

  /** Both deques move in step, and the quota survives both the addition and the eviction. */
  lemma AddHolds(maxSize: nat, buffer: seq<seq<real>>, sources: seq<Option<string>>, accepted: seq<Sample>, x: Sample)
    requires maxSize > 0 && Holds(maxSize, buffer, sources, accepted)
    requires x.ip.Some? ==> SlotsOf(sources, x.ip.value) < Quota(maxSize)
    ensures Holds(maxSize, Pushed(buffer, x.features, maxSize), Pushed(sources, x.ip, maxSize), accepted + [x])
  {
    var kept := LastN(accepted, maxSize);
    LastNPushed(accepted, x, maxSize);
    VectorsPushed(kept, x, maxSize);
    forall ip ensures SlotsOf(Pushed(sources, x.ip, maxSize), ip) <= Quota(maxSize) {
      SlotsAfterPush(sources, x.ip, maxSize, ip);
      assert SlotsOf(sources, ip) <= Quota(maxSize);
    }
  }

  /** The vectors and their sources stay aligned. */
  lemma Aligned(maxSize: nat, buffer: seq<seq<real>>, sources: seq<Option<string>>, accepted: seq<Sample>, i: nat)
    requires Holds(maxSize, buffer, sources, accepted) && i < |buffer|
    ensures |buffer| == |sources| == Min(|accepted|, maxSize)
    ensures Sample(buffer[i], sources[i]) == accepted[|accepted| - |buffer| + i]
  {
  }

  lemma {:induction false} CountSplits(s: seq<Option<string>>, n: nat, group: set<string>, ip: string)
    requires n <= |s| && ip in group
    ensures CountIn(s, n, group) == CountIn(s, n, group - {ip}) + CountIn(s, n, {ip})
  {
    if n > 0 {
      CountSplits(s, n - 1, group, ip);
    }
  }

  /** No group of addresses fills more slots than its size times the quota: n vectors of known
      origin come from at least n / quota addresses. */
  lemma {:induction false} ManySlotsManySources(maxSize: nat, sources: seq<Option<string>>, group: set<string>)
    requires forall ip :: SlotsOf(sources, ip) <= Quota(maxSize)
    ensures CountIn(sources, |sources|, group) <= Quota(maxSize) * |group|
    decreases |group|
  {
    if group == {} {
      NoGroupNoSlots(sources, |sources|);
    } else {
      var ip :| ip in group;
      CountSplits(sources, |sources|, group, ip);
      ManySlotsManySources(maxSize, sources, group - {ip});
      assert SlotsOf(sources, ip) <= Quota(maxSize);
      assert Quota(maxSize) * |group| == Quota(maxSize) * (|group| - 1) + Quota(maxSize);
    }
  }

  lemma {:induction false} NoGroupNoSlots(s: seq<Option<string>>, n: nat)
    requires n <= |s|
    ensures CountIn(s, n, {}) == 0
  {
    if n > 0 {
      NoGroupNoSlots(s, n - 1);
    }
  }

  function KnownSources(s: seq<Option<string>>): set<string> {
    set i | 0 <= i < |s| && s[i].Some? :: s[i].value
  }

  /** How many of the first `n` entries have a known source. */
  function Known(s: seq<Option<string>>, n: nat): nat
    requires n <= |s|
  {
    if n == 0 then 0 else Known(s, n - 1) + if s[n - 1].Some? then 1 else 0
  }

  lemma {:induction false} KnownAreInKnownSources(s: seq<Option<string>>, n: nat)
    requires n <= |s|
    ensures CountIn(s, n, KnownSources(s)) == Known(s, n)
  {
    if n > 0 {
      KnownAreInKnownSources(s, n - 1);
    }
  }

  /** n vectors of known origin come from at least ceil(n / quota) distinct addresses; with a
      quota of 0 there are none. */
  lemma KnownVectorsNeedManySources(
    maxSize: nat, buffer: seq<seq<real>>, sources: seq<Option<string>>, accepted: seq<Sample>)
    requires Holds(maxSize, buffer, sources, accepted)
    ensures
      var n, quota := Known(sources, |sources|), Quota(maxSize);
      if quota == 0 then n == 0 else |KnownSources(sources)| >= (n + quota - 1) / quota
  {
    var n, quota := Known(sources, |sources|), Quota(maxSize);
    var group := KnownSources(sources);
    ManySlotsManySources(maxSize, sources, group);
    KnownAreInKnownSources(sources, |sources|);
    if quota > 0 {
      RoundedUpQuotient(n, quota, |group|);
    }
  }

  lemma RoundedUpQuotient(n: nat, quota: nat, groups: nat)
    requires quota > 0 && n <= quota * groups
    ensures (n + quota - 1) / quota <= groups
  {
    var q := (n + quota - 1) / quota;
    assert quota * q <= n + quota - 1 < quota * groups + quota == quota * (groups + 1);
    assert q >= groups + 1 ==> quota * q >= quota * (groups + 1);
  }
}
