/** Bounded, time-evicted deques, as profile_store.py and rule_engine.py keep them, and the
    plain filter over the whole history that they amount to. */
module SlidingWindow {
  import opened Collections

  datatype Stamped<+T> = Stamped(at: real, what: T)

  ghost predicate Ordered<T>(s: seq<Stamped<T>>) {
    forall i, j :: 0 <= i < j < |s| ==> s[i].at <= s[j].at
  }

  /** The events not older than the cutoff. */
  function Since<T>(s: seq<Stamped<T>>, cutoff: real): seq<Stamped<T>> {
    if s == [] then []
    else if s[0].at >= cutoff then [s[0]] + Since(s[1..], cutoff)
    else Since(s[1..], cutoff)
  }

  /** Eviction from the front only, up to the first event that is recent enough. */
  function DropStale<T>(s: seq<Stamped<T>>, cutoff: real): seq<Stamped<T>> {
    if s == [] || s[0].at >= cutoff then s else DropStale(s[1..], cutoff)
  }

  /** deque(maxlen=cap).append(e). */
  function AppendBounded<T>(s: seq<T>, e: T, cap: nat): seq<T> {
    LastN(s + [e], cap)
  }

  /** What the deque of a history should hold: of the events within `window` of the newest
      one, the last `cap`. */
  function Recent<T>(h: seq<Stamped<T>>, window: real, cap: nat): seq<Stamped<T>> {
    if h == [] then [] else LastN(Since(h, h[|h| - 1].at - window), cap)
  }

  /** The number of events older than the cutoff. */
  function Older<T>(s: seq<Stamped<T>>, cutoff: real): nat {
    if s == [] then 0 else (if s[0].at >= cutoff then 0 else 1) + Older(s[1..], cutoff)
  }

  lemma {:induction false} SinceSnoc<T>(s: seq<Stamped<T>>, e: Stamped<T>, cutoff: real)
    ensures Since(s + [e], cutoff) == if e.at >= cutoff then Since(s, cutoff) + [e] else Since(s, cutoff)
  {
    if s == [] {
      assert (s + [e])[1..] == [];
    } else {
      assert (s + [e])[1..] == s[1..] + [e];
      SinceSnoc(s[1..], e, cutoff);
    }
  }

  lemma {:induction false} AllRecent<T>(s: seq<Stamped<T>>, cutoff: real)
    requires forall i :: 0 <= i < |s| ==> s[i].at >= cutoff
    ensures Since(s, cutoff) == s && Older(s, cutoff) == 0
  {
    if s != [] {
      AllRecent(s[1..], cutoff);
    }
  }

  lemma {:induction false} SinceIsSuffix<T>(s: seq<Stamped<T>>, cutoff: real)
    requires Ordered(s)
    ensures Older(s, cutoff) <= |s|
    ensures Since(s, cutoff) == s[Older(s, cutoff)..]
    ensures forall i :: 0 <= i < |s| ==> (s[i].at < cutoff <==> i < Older(s, cutoff))
  {
    if s != [] {
      if s[0].at >= cutoff {
        AllRecent(s, cutoff);
      } else {
        SinceIsSuffix(s[1..], cutoff);
        assert forall i :: 0 < i < |s| ==> s[i] == s[1..][i - 1];
      }
    }
  }

  lemma {:induction false} DropStaleOfSuffix<T>(s: seq<Stamped<T>>, k: nat, cutoff: real)
    requires Ordered(s) && k <= |s|
    ensures Older(s, cutoff) <= |s|
    ensures DropStale(s[k..], cutoff) == s[Max(k, Older(s, cutoff))..]
    decreases |s| - k
  {
    SinceIsSuffix(s, cutoff);
    if k < |s| && s[k].at < cutoff {
      assert s[k..][1..] == s[k + 1..];
      DropStaleOfSuffix(s, k + 1, cutoff);
    }
  }

  lemma LastNOfSuffix<T>(s: seq<T>, k: nat, n: nat)
    requires k <= |s|
    ensures LastN(s[k..], n) == s[Max(k, |s| - n)..]
  {
  }

  lemma OrderedPrefix<T>(h: seq<Stamped<T>>, e: Stamped<T>)
    requires Ordered(h + [e])
    ensures Ordered(h)
    ensures forall i :: 0 <= i < |h| ==> h[i].at <= e.at
  {
    forall i, j | 0 <= i < j < |h|
      ensures h[i].at <= h[j].at
    {
      assert (h + [e])[i] == h[i] && (h + [e])[j] == h[j];
    }
    forall i | 0 <= i < |h|
      ensures h[i].at <= e.at
    {
      assert (h + [e])[i] == h[i] && (h + [e])[|h|] == e;
    }
  }

  /** A deque that agreed with the filter still does after append, overflow and eviction. */
  lemma WindowAdvances<T>(h: seq<Stamped<T>>, e: Stamped<T>, window: real, cap: nat)
    requires Ordered(h + [e]) && window >= 0.0 && cap > 0
    ensures DropStale(AppendBounded(Recent(h, window, cap), e, cap), e.at - window) == Recent(h + [e], window, cap)
  {
    OrderedPrefix(h, e);
    RecentIsSuffix(h, window, cap);
    RecentIsSuffix(h + [e], window, cap);
    KeptFromGrows(h, e, window, cap);
    EvictedSuffix(h, e, KeptFrom(h, window, cap), window, cap);
  }

  lemma KeptFromGrows<T>(h: seq<Stamped<T>>, e: Stamped<T>, window: real, cap: nat)
    requires Ordered(h + [e]) && window >= 0.0
    ensures KeptFrom(h, window, cap) <= KeptFrom(h + [e], window, cap)
  {
    OlderGrows(h, e, window);
  }

  lemma EvictedSuffix<T>(h: seq<Stamped<T>>, e: Stamped<T>, k: nat, window: real, cap: nat)
    requires Ordered(h + [e]) && k <= |h| && k <= KeptFrom(h + [e], window, cap) <= |h + [e]|
    ensures DropStale(AppendBounded(h[k..], e, cap), e.at - window) == (h + [e])[KeptFrom(h + [e], window, cap)..]
  {
    AppendToSuffix(h, k, e, cap);
    DropStaleOfSuffix(h + [e], Max(k, |h| + 1 - cap), e.at - window);
  }

  lemma AppendToSuffix<T>(h: seq<T>, k: nat, e: T, cap: nat)
    requires k <= |h|
    ensures AppendBounded(h[k..], e, cap) == (h + [e])[Max(k, |h| + 1 - cap)..]
  {
    assert h[k..] + [e] == (h + [e])[k..];
    LastNOfSuffix(h + [e], k, cap);
  }

  /** The index in the history of the first event still in the deque. */
  function KeptFrom<T>(h: seq<Stamped<T>>, window: real, cap: nat): int {
    if h == [] then 0 else Max(Older(h, h[|h| - 1].at - window), |h| - cap)
  }

  lemma RecentIsSuffix<T>(h: seq<Stamped<T>>, window: real, cap: nat)
    requires Ordered(h)
    ensures 0 <= KeptFrom(h, window, cap) <= |h|
    ensures Recent(h, window, cap) == h[KeptFrom(h, window, cap)..]
  {
    if h != [] {
      var cutoff := h[|h| - 1].at - window;
      SinceIsSuffix(h, cutoff);
      LastNOfSuffix(h, Older(h, cutoff), cap);
    }
  }

  lemma OlderGrows<T>(h: seq<Stamped<T>>, e: Stamped<T>, window: real)
    requires Ordered(h + [e]) && window >= 0.0
    ensures h != [] ==> Older(h, h[|h| - 1].at - window) <= Older(h + [e], e.at - window)
  {
    if h != [] {
      var all := h + [e];
      OrderedPrefix(h, e);
      var c0, c1 := h[|h| - 1].at - window, e.at - window;
      SinceIsSuffix(h, c0);
      SinceIsSuffix(all, c1);
      var k := Older(h, c0);
      assert k > 0 ==> all[k - 1] == h[k - 1];
    }
  }

  /** The eviction loop of both stores. */
  method Evict<T>(s: seq<Stamped<T>>, cutoff: real) returns (r: seq<Stamped<T>>)
    ensures r == DropStale(s, cutoff)
  {
    r := s;
    while r != [] && r[0].at < cutoff
      invariant DropStale(r, cutoff) == DropStale(s, cutoff)
      decreases |r|
    {
      r := r[1..];
    }
  }

  /** deque.append with maxlen. */
  method Append<T>(s: seq<T>, e: T, cap: nat) returns (r: seq<T>)
    requires cap > 0 && |s| <= cap
    ensures r == AppendBounded(s, e, cap)
  {
    if |s| == cap {
      assert (s + [e])[1..] == s[1..] + [e];
      r := s[1..] + [e];
    } else {
      r := s + [e];
    }
  }
}
