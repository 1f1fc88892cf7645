/** The robots evaluator at work: any number of requests, one flight at a time for each key, a clock that never
    goes back, and a cache that keeps what is put into it. */
module RobotsRuns {
  import opened Common
  import opened RobotsCache

  type Key = string

  /** A flight has read the clock at its start; dispatched is when it sent its request, if it did. */
  datatype Flight = Flight(start: int, dispatched: Option<int>)

  /** attempts holds, for each key, the completed attempts; dispatches the times of all requests sent. */
  datatype State = State(
    clock: int,
    cache: map<Key, Entry>,
    flights: map<Key, Flight>,
    attempts: map<Key, seq<Attempt>>,
    dispatches: map<Key, seq<(int, int)>>)    // (clock read by the flight, clock when it sent)

  datatype Event =
    | Tick(to: int)
    | Begin(key: Key)                  // a caller that found no usable entry enters the flight group
    | Dispatch(key: Key)
    | RequestError(key: Key)           // the request could not be built: no fetch, nothing stored
    | Complete(key: Key, fetch: Fetch)

  function Lookup(s: State, key: Key): Option<Entry> { if key in s.cache then Some(s.cache[key]) else None }
  function History(s: State, key: Key): seq<Attempt> { if key in s.attempts then s.attempts[key] else [] }
  function Sent(s: State, key: Key): seq<(int, int)> { if key in s.dispatches then s.dispatches[key] else [] }

  predicate Enabled(s: State, e: Event) {
    match e
    case Tick(to) => s.clock <= to
    case Begin(key) => key !in s.flights
    case Dispatch(key) => key in s.flights && s.flights[key].dispatched.None?
    case RequestError(key) => key in s.flights && s.flights[key].dispatched.None?
    case Complete(key, _) => key in s.flights && s.flights[key].dispatched.Some?
  }

  function Step(s: State, e: Event, c: Settings): State {
    if !Enabled(s, e) then s
    else match e
      case Tick(to) => s.(clock := to)
      case Begin(key) =>
        // inside the flight the cache is consulted again
        if CachedResult(Lookup(s, key), s.clock).Some? then s
        else s.(flights := s.flights[key := Flight(s.clock, None)])
      case Dispatch(key) =>
        s.(flights := s.flights[key := s.flights[key].(dispatched := Some(s.clock))],
           dispatches := s.dispatches[key := Sent(s, key) + [(s.flights[key].start, s.clock)]])
      case RequestError(key) => s.(flights := s.flights - {key})
      case Complete(key, fetch) =>
        var start := s.flights[key].start;
        s.(flights := s.flights - {key},
           cache := s.cache[key := Refresh(Lookup(s, key), fetch, start, c).0],
           attempts := s.attempts[key := History(s, key) + [Attempt(start, Classify(fetch))]])
  }

  function Run(events: seq<Event>, from: int, c: Settings): State {
    if events == [] then State(from, map[], map[], map[], map[])
    else Step(Run(events[..|events| - 1], from, c), events[|events| - 1], c)
  }

  // ---- invariants ----------------------------------------------------------------------------------------

  /** Attempts come in order, each at least the gap after the one before. */
  predicate Spaced(h: seq<Attempt>, gap: int) { forall i, j :: 0 <= i < j < |h| ==> h[i].time + gap <= h[j].time }

  /** Requests are sent after their flights began; flights begin at least the gap apart, and not before the
      flights ahead of them have sent. */
  predicate SentSpaced(d: seq<(int, int)>, gap: int) {
    && (forall i :: 0 <= i < |d| ==> d[i].0 <= d[i].1)
    && (forall i, j :: 0 <= i < j < |d| ==> d[i].0 + gap <= d[j].0 && d[i].1 <= d[j].0)
  }

  ghost predicate KeyInv(s: State, key: Key, c: Settings) {
    var h, d := History(s, key), Sent(s, key);
    && Records(Lookup(s, key), h, c)
    && Spaced(h, c.Gap()) && SentSpaced(d, c.Gap())
    && (forall i :: 0 <= i < |h| ==> h[i].time <= s.clock)
    && |d| == |h| + (if key in s.flights && s.flights[key].dispatched.Some? then 1 else 0)
    && (forall i :: 0 <= i < |h| ==> d[i].0 == h[i].time)
    && (forall i :: 0 <= i < |d| ==> d[i].1 <= s.clock)
    && (key in s.flights ==>
          && s.flights[key].start <= s.clock
          && (forall i :: 0 <= i < |h| ==> d[i].1 <= s.flights[key].start)
          && (h != [] ==> h[|h| - 1].time + c.Gap() <= s.flights[key].start)
          && (s.flights[key].dispatched.Some? ==> d[|d| - 1].0 == s.flights[key].start))
  }

  ghost predicate Inv(s: State, c: Settings) { forall key :: KeyInv(s, key, c) }

  lemma OthersLookTheSame(s: State, e: Event, c: Settings, key: Key)
    requires e.Tick? || e.key != key
    ensures var s' := Step(s, e, c);
      && Lookup(s', key) == Lookup(s, key) && History(s', key) == History(s, key) && Sent(s', key) == Sent(s, key)
      && s.clock <= s'.clock && (key in s'.flights <==> key in s.flights)
      && (key in s.flights ==> s'.flights[key] == s.flights[key])
  {
  }

  lemma OtherKeysKept(s: State, e: Event, c: Settings, key: Key)
    requires KeyInv(s, key, c) && (e.Tick? || e.key != key)
    ensures KeyInv(Step(s, e, c), key, c)
  {
    OthersLookTheSame(s, e, c, key);
  }

  lemma BeginKeeps(s: State, key: Key, c: Settings)
    requires KeyInv(s, key, c) && Enabled(s, Begin(key))
    ensures KeyInv(Step(s, Begin(key), c), key, c)
  {
    var h := History(s, key);
    CacheServesHistory(Lookup(s, key), h, s.clock, c);
    if h != [] && Served(h, s.clock, c).None? {
      DueNoSooner(h, s.clock, c);
    }
  }

  lemma DispatchKeeps(s: State, key: Key, c: Settings)
    requires c.Valid() && KeyInv(s, key, c) && Enabled(s, Dispatch(key))
    ensures KeyInv(Step(s, Dispatch(key), c), key, c)
  {
    var d, h := Sent(s, key), History(s, key);
    var d' := d + [(s.flights[key].start, s.clock)];
    assert Sent(Step(s, Dispatch(key), c), key) == d';
    forall i | 0 <= i < |d| ensures d[i].0 + c.Gap() <= s.flights[key].start {
      assert d[i].0 == h[i].time;
      assert i < |h| - 1 ==> h[i].time + c.Gap() <= h[|h| - 1].time;
    }
  }

  lemma CompleteKeeps(s: State, key: Key, f: Fetch, c: Settings)
    requires c.Valid() && KeyInv(s, key, c) && Enabled(s, Complete(key, f))
    ensures KeyInv(Step(s, Complete(key, f), c), key, c)
  {
    var h, start := History(s, key), s.flights[key].start;
    RefreshExtends(Lookup(s, key), h, f, start, c);
    var s' := Step(s, Complete(key, f), c);
    assert History(s', key) == h + [Attempt(start, Classify(f))];
    assert Lookup(s', key) == Some(Refresh(Lookup(s, key), f, start, c).0) && key !in s'.flights;
    forall i | 0 <= i < |h| ensures h[i].time + c.Gap() <= start {
      assert i < |h| - 1 ==> h[i].time + c.Gap() <= h[|h| - 1].time;
    }
  }

  lemma StepKeeps(s: State, e: Event, c: Settings)
    requires c.Valid() && Inv(s, c)
    ensures Inv(Step(s, e, c), c)
  {
    forall key ensures KeyInv(Step(s, e, c), key, c) {
      assert KeyInv(s, key, c);
      if e.Tick? || e.key != key {
        OtherKeysKept(s, e, c, key);
      } else if Enabled(s, e) {
        match e
        case Begin(_) => BeginKeeps(s, key, c);
        case Dispatch(_) => DispatchKeeps(s, key, c);
        case Complete(_, f) => CompleteKeeps(s, key, f, c);
        case RequestError(_) =>
      }
    }
  }

  lemma {:induction false} RunKeeps(events: seq<Event>, from: int, c: Settings)
    requires c.Valid()
    ensures Inv(Run(events, from, c), c)
  {
    if events == [] {
      forall key ensures KeyInv(Run(events, from, c), key, c) {
      }
    } else {
      RunKeeps(events[..|events| - 1], from, c);
      StepKeeps(Run(events[..|events| - 1], from, c), events[|events| - 1], c);
    }
  }

  // ---- theorems ------------------------------------------------------------------------------------------------

  /** Over any run, what a request at any time is served from the cache is a function of the fetches made for
      its key. */
  lemma ServedFromHistory(events: seq<Event>, from: int, c: Settings, key: Key, now: int)
    requires c.Valid()
    ensures var s := Run(events, from, c);
      && CachedResult(Lookup(s, key), now) == Served(History(s, key), now, c)
      && (key in s.cache ==> s.cache[key].freshUntil.Some? != s.cache[key].retryAfter.Some?)
  {
    RunKeeps(events, from, c);
    var s := Run(events, from, c);
    assert KeyInv(s, key, c);
    CacheServesHistory(Lookup(s, key), History(s, key), now, c);
  }

  /** The answer of a flight, too, and it is stored with the attempt. */
  lemma FlightAnswersHistory(events: seq<Event>, from: int, c: Settings, key: Key, f: Fetch)
    requires c.Valid() && Enabled(Run(events, from, c), Complete(key, f))
    ensures var s := Run(events, from, c); var s' := Step(s, Complete(key, f), c);
      && History(s', key) != []
      && Refresh(Lookup(s, key), f, s.flights[key].start, c).1 == Fetched(History(s', key))
  {
    RunKeeps(events, from, c);
    var s := Run(events, from, c);
    assert KeyInv(s, key, c);
    RefreshExtends(Lookup(s, key), History(s, key), f, s.flights[key].start, c);
  }

  function Max(a: int, b: int): int { if a < b then b else a }

  /** Two fetches for one key are decided at least the smaller interval apart, and the later flight reads the
      clock after the earlier fetch was sent. So when the earlier was sent some lag after its flight read the
      clock, the later is sent at least the smaller interval less that lag after it, and never before it. */
  lemma FetchesApart(events: seq<Event>, from: int, c: Settings, key: Key, i: nat, j: nat)
    requires c.Valid() && i < j < |Sent(Run(events, from, c), key)|
    ensures var d := Sent(Run(events, from, c), key); var lag := d[i].1 - d[i].0;
      && lag >= 0
      && d[i].0 + c.Gap() <= d[j].0 <= d[j].1
      && d[i].1 + Max(lag, c.Gap()) - lag <= d[j].1
  {
    RunKeeps(events, from, c);
    assert KeyInv(Run(events, from, c), key, c);
  }

  /** In this run, a fetch sent with the lag keeps every later one for its key the distance away. */
  predicate SentApart(d: seq<(int, int)>, lag: int, distance: int) {
    forall i, j :: 0 <= i < j < |d| && d[i].1 - d[i].0 == lag ==> d[i].1 + distance <= d[j].1
  }

  ghost predicate AlwaysSentApart(c: Settings, lag: int, distance: int) {
    forall events, from, key :: SentApart(Sent(Run(events, from, c), key), lag, distance)
  }

  // ---- the shortest distance is met -----------------------------------------------------------------------------

  /** How a state looks to one key. */
  predicate Looks(s: State, key: Key, clock: int, entry: Option<Entry>, flight: Option<Flight>, sent: seq<(int, int)>) {
    && s.clock == clock && Lookup(s, key) == entry && Sent(s, key) == sent
    && (if key in s.flights then flight == Some(s.flights[key]) else flight == None)
  }

  /** An outcome whose entry is served for the smaller interval. */
  function Brief(c: Settings): Fetch { if c.retry <= c.freshness then NoResponse else Response(404, None) }

  function BriefEntry(c: Settings): Entry
    requires c.Valid()
  {
    if c.retry <= c.freshness then Entry("", false, None, None, Some(c.retry))
    else Entry("", false, Some(0), Some(c.freshness), None)
  }

  lemma FirstLooks(s: State, key: Key, c: Settings, lag: int)
    requires c.Valid() && lag >= 0 && Looks(s, key, 0, None, None, [])
    ensures var t := Step(Step(s, Begin(key), c), Tick(lag), c);
      Looks(Step(t, Dispatch(key), c), key, lag, None, Some(Flight(0, Some(lag))), [(0, lag)])
  {
    assert [] + [(0, lag)] == [(0, lag)];
  }

  lemma StoredLooks(s: State, key: Key, c: Settings, lag: int)
    requires c.Valid() && lag >= 0 && Looks(s, key, lag, None, Some(Flight(0, Some(lag))), [(0, lag)])
    ensures var t := Step(s, Complete(key, Brief(c)), c);
      Looks(Step(t, Tick(Max(lag, c.Gap())), c), key, Max(lag, c.Gap()), Some(BriefEntry(c)), None, [(0, lag)])
  {
  }

  lemma SecondLooks(s: State, key: Key, c: Settings, lag: int)
    requires c.Valid() && lag >= 0 && Looks(s, key, Max(lag, c.Gap()), Some(BriefEntry(c)), None, [(0, lag)])
    ensures var t := Step(s, Begin(key), c); var now := Max(lag, c.Gap());
      Sent(Step(t, Dispatch(key), c), key) == [(0, lag), (now, now)]
  {
    var now := Max(lag, c.Gap());
    assert [(0, lag)] + [(now, now)] == [(0, lag), (now, now)];
  }

  /** A flight sends with the lag and its fetch is served for the smaller interval; the next one begins and
      sends as soon as it may. */
  function ShortestRun(key: Key, c: Settings, lag: int): seq<Event> {
    [Begin(key), Tick(lag), Dispatch(key), Complete(key, Brief(c)), Tick(Max(lag, c.Gap())), Begin(key), Dispatch(key)]
  }

  lemma ShortestIsMet(key: Key, c: Settings, lag: int)
    requires c.Valid() && lag >= 0
    ensures var now := Max(lag, c.Gap()); Sent(Run(ShortestRun(key, c, lag), 0, c), key) == [(0, lag), (now, now)]
  {
    FirstLooks(Run([], 0, c), key, c, lag);
    var r := OneMore([], Begin(key), c);
    r := OneMore(r, Tick(lag), c);
    r := OneMore(r, Dispatch(key), c);
    StoredLooks(Run(r, 0, c), key, c, lag);
    r := OneMore(r, Complete(key, Brief(c)), c);
    r := OneMore(r, Tick(Max(lag, c.Gap())), c);
    SecondLooks(Run(r, 0, c), key, c, lag);
    r := OneMore(r, Begin(key), c);
    r := OneMore(r, Dispatch(key), c);
    assert r == ShortestRun(key, c, lag);
  }

  /** How far apart sending is kept, exactly: a fetch sent some lag after its flight read the clock keeps every
      later one away by the smaller interval less that lag, down to nothing, and by no more. */
  lemma SentApartIff(c: Settings, lag: int, distance: int)
    requires c.Valid() && lag >= 0
    ensures AlwaysSentApart(c, lag, distance) <==> distance <= Max(lag, c.Gap()) - lag
  {
    if distance <= Max(lag, c.Gap()) - lag {
      forall events, from, key ensures SentApart(Sent(Run(events, from, c), key), lag, distance) {
        var d := Sent(Run(events, from, c), key);
        forall i, j | 0 <= i < j < |d| && d[i].1 - d[i].0 == lag ensures d[i].1 + distance <= d[j].1 {
          FetchesApart(events, from, c, key, i, j);
        }
      }
    } else {
      var key := "";
      ShortestIsMet(key, c, lag);
      var d := Sent(Run(ShortestRun(key, c, lag), 0, c), key);
      assert d[0].1 - d[0].0 == lag && d[0].1 + distance > d[1].1;
      assert !SentApart(d, lag, distance);
    }
  }

  /** In particular the smaller interval itself is kept exactly for fetches sent at the instant their flight
      read the clock. */
  lemma FullGapIff(c: Settings, lag: int)
    requires c.Valid() && lag >= 0
    ensures AlwaysSentApart(c, lag, c.Gap()) <==> lag == 0
  {
    SentApartIff(c, lag, c.Gap());
  }

  lemma OneMore(events: seq<Event>, e: Event, c: Settings) returns (longer: seq<Event>)
    ensures longer == events + [e] && Run(longer, 0, c) == Step(Run(events, 0, c), e, c)
  {
    longer := events + [e];
    assert longer[..|events|] == events;
  }

  /** Rules a day old are served only while the latest attempt was unreachable. */
  lemma OldRulesOnlyInOutage(events: seq<Event>, from: int, c: Settings, key: Key, now: int, body: string)
    requires c.Valid() && CachedResult(Lookup(Run(events, from, c), key), now) == Some(Rules(body))
    ensures var h := History(Run(events, from, c), key);
      exists k :: 0 <= k < |h| && LastAt(h, k) && h[k].outcome == Found(body)
        && (now - h[k].time >= 86400 ==> k < |h| - 1)
  {
    ServedFromHistory(events, from, c, key, now);
    var h := History(Run(events, from, c), key);
    OldRulesNeedOutage(h, now, c);
    ReachableIs(h);
    var k :| 0 <= k < |h| && LastAt(h, k) && h[k] == LastReachable(h).value;
    assert now - h[k].time >= DAY ==> h[|h| - 1].outcome.Unreachable?;
  }

  // ---- one key does not see the others --------------------------------------------------------------------------

  predicate Concerns(e: Event, key: Key) { e.Tick? || e.key == key }

  function Only(events: seq<Event>, key: Key): seq<Event> {
    if events == [] then []
    else
      var before, e := Only(events[..|events| - 1], key), events[|events| - 1];
      if Concerns(e, key) then before + [e] else before
  }

  predicate SameFor(s: State, t: State, key: Key) {
    && s.clock == t.clock && Lookup(s, key) == Lookup(t, key)
    && History(s, key) == History(t, key) && Sent(s, key) == Sent(t, key)
    && (key in s.flights <==> key in t.flights) && (key in s.flights ==> s.flights[key] == t.flights[key])
  }

  lemma StepSame(s: State, t: State, e: Event, c: Settings, key: Key)
    requires SameFor(s, t, key)
    ensures Concerns(e, key) ==> SameFor(Step(s, e, c), Step(t, e, c), key)
    ensures !Concerns(e, key) ==> SameFor(Step(s, e, c), t, key)
  {
  }

  /** Deleting every event about other keys changes nothing for this one. */
  lemma {:induction false} KeysAreIsolated(events: seq<Event>, from: int, c: Settings, key: Key)
    ensures SameFor(Run(events, from, c), Run(Only(events, key), from, c), key)
  {
    if events != [] {
      var before, e := events[..|events| - 1], events[|events| - 1];
      KeysAreIsolated(before, from, c, key);
      StepSame(Run(before, from, c), Run(Only(before, key), from, c), e, c, key);
      if Concerns(e, key) {
        assert (Only(before, key) + [e])[..|Only(before, key)|] == Only(before, key);
      }
    }
  }
}
