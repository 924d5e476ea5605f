/** app/services/profile_store.py. */
module ProfileStore {
  import opened Collections
  import opened SlidingWindow

  const MAX_PER_IP_EVENTS: nat := 10_000
  const MAX_GLOBAL_EVENTS: nat := 50_000

  datatype Visit = Visit(ip: Option<string>, err: bool)

  type History = seq<Stamped<Visit>>

  datatype ProfileStats = ProfileStats(ipRate: nat, ipErrorRatio: real, globalRate: nat, globalErrorRatio: real)

  /** The (timestamp, is_error) pairs of all events, and of those from one address. */
  function AllEvents(h: History): (r: seq<Stamped<bool>>)
    ensures |r| == |h|
  {
    if h == [] then []
    else AllEvents(h[..|h| - 1]) + [Stamped(h[|h| - 1].at, h[|h| - 1].what.err)]
  }

  function EventsOf(h: History, ip: string): seq<Stamped<bool>> {
    if h == [] then []
    else
      var e := h[|h| - 1];
      var before := EventsOf(h[..|h| - 1], ip);
      if e.what.ip == Some(ip) then before + [Stamped(e.at, e.what.err)] else before
  }

  function Errors(s: seq<Stamped<bool>>): (n: nat) {
    if s == [] then 0 else Errors(s[1..]) + if s[0].what then 1 else 0
  }

  function Ratio(n: nat, total: nat): real {
    n as real / Max(total, 1) as real
  }

  /** The global deque and the deque of one address, as functions of the history. */
  function GlobalDeque(h: History, window: real): seq<Stamped<bool>> {
    Recent(AllEvents(h), window, MAX_GLOBAL_EVENTS)
  }

  function IpDeque(h: History, window: real, ip: string): seq<Stamped<bool>> {
    Recent(EventsOf(h, ip), window, MAX_PER_IP_EVENTS)
  }

  function Summary(mine: seq<Stamped<bool>>, all: seq<Stamped<bool>>): ProfileStats {
    ProfileStats(|mine|, Ratio(Errors(mine), |mine|), |all|, Ratio(Errors(all), |all|))
  }

  /** The statistics that go with an event, from the plain history. */
  function StatsOf(h: History, window: real, ip: Option<string>): ProfileStats {
    Summary(if ip.Some? then IpDeque(h, window, ip.value) else [], GlobalDeque(h, window))
  }

  ghost predicate InOrder(h: History) {
    Ordered(h)
  }

  lemma {:induction false} EventsInOrder(h: History, ip: string)
    requires InOrder(h)
    ensures Ordered(AllEvents(h)) && Ordered(EventsOf(h, ip))
    ensures h != [] ==> forall i :: 0 <= i < |EventsOf(h, ip)| ==> EventsOf(h, ip)[i].at <= h[|h| - 1].at
    ensures forall i :: 0 <= i < |h| ==> AllEvents(h)[i].at == h[i].at
  {
    if h != [] {
      var init := h[..|h| - 1];
      assert h == init + [h[|h| - 1]];
      EventsInOrder(init, ip);
      assert init != [] ==> init[|init| - 1].at <= h[|h| - 1].at;
    }
  }

  type Profiles = map<string, seq<Stamped<bool>>>

  function Profile(profiles: Profiles, ip: string): seq<Stamped<bool>> {
    if ip in profiles then profiles[ip] else []
  }

  /** The deques agree with the filter over the whole history. An address that has been quiet
      keeps the deque of its own last event. */
  ghost predicate Agrees(global: seq<Stamped<bool>>, profiles: Profiles, h: History, window: real) {
    && InOrder(h)
    && global == GlobalDeque(h, window)
    && forall ip :: Profile(profiles, ip) == IpDeque(h, window, ip)
  }

  /** append with maxlen, then the eviction loop. */
  method Push(deque: seq<Stamped<bool>>, e: Stamped<bool>, window: real, cap: nat) returns (r: seq<Stamped<bool>>)
    requires |deque| <= cap && cap > 0
    ensures r == Pushed(deque, e, window, cap)
  {
    r := Append(deque, e, cap);
    r := Evict(r, e.at - window);
  }

  lemma StatsFromDeques(global: seq<Stamped<bool>>, profiles: Profiles, h: History, window: real, ip: Option<string>)
    requires Agrees(global, profiles, h, window)
    ensures Summary(if ip.Some? then Profile(profiles, ip.value) else [], global) == StatsOf(h, window, ip)
  {
    assert ip.Some? ==> Profile(profiles, ip.value) == IpDeque(h, window, ip.value);
  }

  class ProfileStore {
    const window: real
    var globalEvents: seq<Stamped<bool>>
    var profiles: Profiles
    ghost var history: History

    ghost predicate Valid()
      reads this
    {
      window >= 0.0 && Agrees(globalEvents, profiles, history, window)
    }

    constructor (window: real)
      requires window >= 0.0
      ensures Valid() && history == [] && this.window == window
    {
      this.window := window;
      globalEvents, profiles, history := [], map[], [];
    }

    method Record(ip: Option<string>, isError: bool, now: real) returns (stats: ProfileStats)
      requires Valid()
      requires history != [] ==> history[|history| - 1].at <= now
      modifies this
      ensures Valid()
      ensures history == old(history) + [Stamped(now, Visit(ip, isError))]
      ensures stats == StatsOf(history, window, ip)
    {
      ghost var e := Stamped(now, Visit(ip, isError));
      AgreementAdvances(globalEvents, profiles, history, window, e);
      globalEvents := Push(globalEvents, Stamped(now, isError), window, MAX_GLOBAL_EVENTS);
      var mine: seq<Stamped<bool>> := [];
      if ip.Some? {
        mine := Push(Profile(profiles, ip.value), Stamped(now, isError), window, MAX_PER_IP_EVENTS);
        profiles := profiles[ip.value := mine];
      }
      history := history + [e];
      StatsFromDeques(globalEvents, profiles, history, window, ip);
      stats := Summary(mine, globalEvents);
    }

    method Clear()
      requires Valid()
      modifies this
      ensures Valid() && history == [] && globalEvents == [] && profiles == map[]
    {
      globalEvents, profiles, history := [], map[], [];
    }
  }

  function Pushed(deque: seq<Stamped<bool>>, e: Stamped<bool>, window: real, cap: nat): seq<Stamped<bool>> {
    DropStale(AppendBounded(deque, e, cap), e.at - window)
  }

  function Event(e: Stamped<Visit>): Stamped<bool> {
    Stamped(e.at, e.what.err)
  }

  function PushedProfiles(profiles: Profiles, e: Stamped<Visit>, window: real): Profiles {
    if e.what.ip.None? then profiles
    else
      var ip := e.what.ip.value;
      profiles[ip := Pushed(Profile(profiles, ip), Event(e), window, MAX_PER_IP_EVENTS)]
  }

  /** Recording an event keeps the agreement: the deques that it touches are the ones whose
      filters change. */
  lemma AgreementAdvances(global: seq<Stamped<bool>>, profiles: Profiles, h: History, window: real, e: Stamped<Visit>)
    requires window >= 0.0 && Agrees(global, profiles, h, window)
    requires h != [] ==> h[|h| - 1].at <= e.at
    ensures |global| <= MAX_GLOBAL_EVENTS
    ensures e.what.ip.Some? ==> |Profile(profiles, e.what.ip.value)| <= MAX_PER_IP_EVENTS
    ensures Agrees(
              Pushed(global, Event(e), window, MAX_GLOBAL_EVENTS), PushedProfiles(profiles, e, window), h + [e], window)
  {
    var h' := h + [e];
    RecordAdvances(h, e, window, "");
    forall ip ensures Profile(PushedProfiles(profiles, e, window), ip) == IpDeque(h', window, ip) {
      RecordAdvances(h, e, window, ip);
      assert Profile(profiles, ip) == IpDeque(h, window, ip);
    }
  }

  /** The deques of a history that is one event longer. */
  lemma EventsSnoc(h: History, e: Stamped<Visit>, ip: string)
    ensures AllEvents(h + [e]) == AllEvents(h) + [Event(e)]
    ensures EventsOf(h + [e], ip) == if e.what.ip == Some(ip) then EventsOf(h, ip) + [Event(e)] else EventsOf(h, ip)
  {
    assert (h + [e])[..|h|] == h;
  }

  lemma StillInOrder(h: History, e: Stamped<Visit>)
    requires InOrder(h) && (h != [] ==> h[|h| - 1].at <= e.at)
    ensures InOrder(h + [e])
  {
  }

  /** One more event: the global deque, its address's deque, and nobody else's, move on. */
  lemma RecordAdvances(h: History, e: Stamped<Visit>, window: real, ip: string)
    requires window >= 0.0 && InOrder(h) && (h != [] ==> h[|h| - 1].at <= e.at)
    ensures InOrder(h + [e])
    ensures Pushed(GlobalDeque(h, window), Event(e), window, MAX_GLOBAL_EVENTS) == GlobalDeque(h + [e], window)
    ensures e.what.ip == Some(ip) ==>
              Pushed(IpDeque(h, window, ip), Event(e), window, MAX_PER_IP_EVENTS) == IpDeque(h + [e], window, ip)
    ensures e.what.ip != Some(ip) ==> IpDeque(h, window, ip) == IpDeque(h + [e], window, ip)
  {
    StillInOrder(h, e);
    EventsInOrder(h + [e], ip);
    EventsSnoc(h, e, ip);
    WindowAdvances(AllEvents(h), Event(e), window, MAX_GLOBAL_EVENTS);
    if e.what.ip == Some(ip) {
      WindowAdvances(EventsOf(h, ip), Event(e), window, MAX_PER_IP_EVENTS);
    }
  }
}
