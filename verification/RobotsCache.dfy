/** What the robots.txt cache holds and serves, first as the evaluator computes it entry by entry, then as a
    function of everything that was fetched. Times are integers; None is Go's zero time. */
module RobotsCache {
  import opened Common

  const DAY := 24 * 3600          // seconds

  /** A fetch of /robots.txt: no response; or a status with a body, None when reading it failed. */
  datatype Fetch = NoResponse | Response(status: int, body: Option<string>)

  /** The three results the Robots Exclusion Protocol distinguishes (RFC 9309, section 2.3.1). */
  datatype Outcome = Found(body: string) | Unavailable | Unreachable

  function Classify(f: Fetch): Outcome {
    if f.Response? && 200 <= f.status < 300 then (if f.body.Some? then Found(f.body.value) else Unreachable)
    else if f.Response? && 300 <= f.status < 500 then Unavailable
    else Unreachable
  }

  /** What the outcome of a fetch must be: rules exactly for a 2xx whose body could be read, none exactly for 3xx and
      4xx, and otherwise the server was not reached. */
  predicate JudgedAs(f: Fetch, o: Outcome) {
    && (o.Found? <==> f.Response? && 200 <= f.status < 300 && f.body.Some?)
    && (o.Found? ==> o.body == f.body.value)
    && (o.Unavailable? <==> f.Response? && 300 <= f.status < 500)
  }

  datatype Entry = Entry(rules: string, hasRules: bool, fetchedAt: Option<int>, freshUntil: Option<int>,
                         retryAfter: Option<int>)

  /** The result of fetchRobotsTxt: rules, none, or errRobotsUnreachable. */
  datatype Answer = Rules(body: string) | NoRules | NotReachable

  /** freshness and retry are the evaluator's cacheFreshness and unreachableRetryInterval. */
  datatype Settings = Settings(freshness: int, retry: int) {
    /** validateRobotsCacheSettings */
    predicate Valid() { 0 < freshness <= DAY && 0 < retry }
    function Gap(): int { if freshness <= retry then freshness else retry }
  }

  predicate Before(now: int, limit: Option<int>) { limit.Some? && now < limit.value }

  function CachedResult(entry: Option<Entry>, now: int): Option<Answer> {
    if entry.None? then None
    else
      var e := entry.value;
      if Before(now, e.freshUntil) then Some(if e.hasRules then Rules(e.rules) else NoRules)
      else if Before(now, e.retryAfter) then Some(if e.hasRules then Rules(e.rules) else NotReachable)
      else None
  }

  function HandleUnreachable(stale: Option<Entry>, now: int, c: Settings): (r: (Entry, Answer)) {
    var kept := if stale.Some? && stale.value.hasRules then stale.value else Entry("", false, None, None, None);
    var e := kept.(freshUntil := None, retryAfter := Some(now + c.retry));
    (e, if e.hasRules then Rules(e.rules) else NotReachable)
  }

  function Refresh(stale: Option<Entry>, f: Fetch, now: int, c: Settings): (r: (Entry, Answer)) {
    match Classify(f)
    case Found(body) => (Entry(body, true, Some(now), Some(now + c.freshness), None), Rules(body))
    case Unavailable => (Entry("", false, Some(now), Some(now + c.freshness), None), NoRules)
    case Unreachable => HandleUnreachable(stale, now, c)
  }

  // ---- the history of one key -------------------------------------------------------------------------

  /** An attempt to fetch, decided at a time. */
  datatype Attempt = Attempt(time: int, outcome: Outcome)

  /** The last attempt that reached the server. */
  function LastReachable(h: seq<Attempt>): Option<Attempt> {
    if h == [] then None
    else if h[|h| - 1].outcome.Unreachable? then LastReachable(h[..|h| - 1])
    else Some(h[|h| - 1])
  }

  /** What a request gets at a time, told from the history alone; None when a new fetch is due. */
  function Served(h: seq<Attempt>, now: int, c: Settings): Option<Answer> {
    if h == [] then None
    else
      var last, reached := h[|h| - 1], LastReachable(h);
      match last.outcome
      case Found(body) => if now < last.time + c.freshness then Some(Rules(body)) else None
      case Unavailable => if now < last.time + c.freshness then Some(NoRules) else None
      case Unreachable =>
        if now >= last.time + c.retry then None
        else if reached.Some? && reached.value.outcome.Found? then Some(Rules(reached.value.outcome.body))
        else Some(NotReachable)
  }

  /** The server was reached, and the last time it was it gave these rules. */
  predicate LastGave(h: seq<Attempt>, body: string) {
    exists k :: 0 <= k < |h| && LastAt(h, k) && h[k].outcome == Found(body)
  }

  /** What is served, read off the attempts: for the fresh time after an attempt that reached the server, what it
      gave; for the retry time after one that did not, the rules of the last attempt that did, if it gave rules; and
      after that nothing, a fetch is due. */
  lemma ServedMeans(h: seq<Attempt>, now: int, c: Settings)
    ensures Served(h, now, c).None? <==>
      || h == []
      || now >= h[|h| - 1].time + if h[|h| - 1].outcome.Unreachable? then c.retry else c.freshness
    ensures Served(h, now, c).Some? ==>
      && (Served(h, now, c).value.NoRules? <==> h[|h| - 1].outcome.Unavailable?)
      && (forall body :: Served(h, now, c).value == Rules(body) <==> LastGave(h, body))
  {
    if h != [] {
      LastGaveIs(h);
    }
  }

  lemma LastGaveIs(h: seq<Attempt>)
    ensures forall body :: LastGave(h, body) <==>
      LastReachable(h).Some? && LastReachable(h).value.outcome == Found(body)
  {
    ReachableIs(h);
    forall body | LastGave(h, body) ensures LastReachable(h).Some? && LastReachable(h).value.outcome == Found(body) {
      var k :| 0 <= k < |h| && LastAt(h, k) && h[k].outcome == Found(body);
      var n :| 0 <= n < |h| && LastAt(h, n) && h[n] == LastReachable(h).value;
      assert k == n;
    }
  }

  /** The answer of the fetch that made the last attempt. */
  function Fetched(h: seq<Attempt>): Answer
    requires h != []
  {
    match h[|h| - 1].outcome
    case Found(body) => Rules(body)
    case Unavailable => NoRules
    case Unreachable =>
      var reached := LastReachable(h);
      if reached.Some? && reached.value.outcome.Found? then Rules(reached.value.outcome.body) else NotReachable
  }

  /** The entry is what this history leaves in the cache. */
  predicate Records(entry: Option<Entry>, h: seq<Attempt>, c: Settings) {
    if h == [] then entry.None? else entry.Some? && RecordedIn(entry.value, h, c)
  }

  predicate RecordedIn(e: Entry, h: seq<Attempt>, c: Settings)
    requires h != []
  {
    var last, reached := h[|h| - 1], LastReachable(h);
      && e.hasRules == (reached.Some? && reached.value.outcome.Found?)
      && (e.hasRules ==> e.rules == reached.value.outcome.body && e.fetchedAt == Some(reached.value.time))
      && e.freshUntil == (if last.outcome.Unreachable? then None else Some(last.time + c.freshness))
      && e.retryAfter == (if last.outcome.Unreachable? then Some(last.time + c.retry) else None)
  }

  lemma ReachableSnoc(h: seq<Attempt>, a: Attempt)
    ensures LastReachable(h + [a]) == if a.outcome.Unreachable? then LastReachable(h) else Some(a)
  {
    assert (h + [a])[..|h|] == h;
  }

  /** A refresh extends the history by its attempt, and answers with what the new history says. */
  lemma RefreshExtends(stale: Option<Entry>, h: seq<Attempt>, f: Fetch, now: int, c: Settings)
    requires Records(stale, h, c)
    ensures var h' := h + [Attempt(now, Classify(f))];
      Records(Some(Refresh(stale, f, now, c).0), h', c) && Refresh(stale, f, now, c).1 == Fetched(h')
  {
    var a := Attempt(now, Classify(f));
    ReachableSnoc(h, a);
    assert (h + [a])[|h|] == a;
  }

  predicate LastAt(h: seq<Attempt>, k: nat)
    requires k < |h|
  {
    !h[k].outcome.Unreachable? && forall j :: k < j < |h| ==> h[j].outcome.Unreachable?
  }

  lemma {:induction false} ReachableIs(h: seq<Attempt>)
    ensures LastReachable(h).None? <==> forall k :: 0 <= k < |h| ==> h[k].outcome.Unreachable?
    ensures LastReachable(h).Some? ==> exists k :: 0 <= k < |h| && LastAt(h, k) && h[k] == LastReachable(h).value
  {
    if h != [] {
      var init := h[..|h| - 1];
      ReachableIs(init);
      if h[|h| - 1].outcome.Unreachable? && LastReachable(init).Some? {
        var k :| 0 <= k < |init| && LastAt(init, k) && init[k] == LastReachable(init).value;
        assert LastAt(h, k) && h[k] == LastReachable(h).value;
      } else if h[|h| - 1].outcome.Unreachable? {
        assert forall k :: 0 <= k < |init| ==> h[k] == init[k];
      } else {
        assert LastAt(h, |h| - 1);
      }
    }
  }

  /** The cache refines the history: it serves what the history says, and exactly one of its two times is set. */
  lemma CacheServesHistory(entry: Option<Entry>, h: seq<Attempt>, now: int, c: Settings)
    requires Records(entry, h, c)
    ensures CachedResult(entry, now) == Served(h, now, c)
    ensures entry.Some? ==> entry.value.freshUntil.Some? != entry.value.retryAfter.Some?
  {
    if h != [] && !h[|h| - 1].outcome.Unreachable? {
      assert LastReachable(h) == Some(h[|h| - 1]);
    }
  }

  /** Section 2.4 of RFC 9309: rules a day old or older are served only while the latest attempt found the
      server unreachable. */
  lemma OldRulesNeedOutage(h: seq<Attempt>, now: int, c: Settings)
    requires c.Valid() && Served(h, now, c).Some? && Served(h, now, c).value.Rules?
    ensures LastReachable(h).Some? && LastReachable(h).value.outcome == Found(Served(h, now, c).value.body)
    ensures now - LastReachable(h).value.time >= 86400 ==> h[|h| - 1].outcome.Unreachable?
  {
  }

  /** A new fetch is due no sooner than the smaller of the two intervals after the last attempt. */
  lemma DueNoSooner(h: seq<Attempt>, now: int, c: Settings)
    requires h != [] && Served(h, now, c).None?
    ensures now >= h[|h| - 1].time + c.Gap()
  {
  }
}
