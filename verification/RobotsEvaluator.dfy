/** The robots evaluator object: the cache key of a request, the cached fetch, and the robots policies. */
module RobotsEvaluator {
  import opened Common
  import opened RobotsCache

  // ---- the cache key -------------------------------------------------------------------------------------

  function Digits(n: nat): (d: string)
    ensures |d| > 0 && forall k :: 0 <= k < |d| ==> '0' <= d[k] <= '9'
  {
    var last := [('0' as int + n % 10) as char];
    if n < 10 then last else Digits(n / 10) + last
  }

  predicate NoBar(s: string) { forall k :: 0 <= k < |s| ==> s[k] != '|' }

  const UNSCOPED := "unscoped"

  function Partition(collection: string): string { if |collection| == 0 then UNSCOPED else collection }

  /** The location of robots.txt, as URL parsing gives it; a URL scheme and host hold no vertical bar. */
  datatype Site = Site(scheme: string, host: string, port: nat) {
    predicate Valid() { NoBar(scheme) && NoBar(host) }
  }

  function CacheKey(collection: string, site: Site): string {
    "robots|" + Partition(collection) + "|" + site.scheme + "|" + site.host + "|" + Digits(site.port)
  }

  lemma {:induction false} DigitsInjective(m: nat, n: nat)
    requires Digits(m) == Digits(n)
    ensures m == n
  {
    var d, e := Digits(m), Digits(n);
    assert d[|d| - 1] as int == '0' as int + m % 10 && e[|e| - 1] as int == '0' as int + n % 10;
    if m < 10 || n < 10 {
      assert |d| == 1 <==> m < 10;
      assert |e| == 1 <==> n < 10;
    } else {
      assert d[..|d| - 1] == Digits(m / 10) && e[..|e| - 1] == Digits(n / 10);
      DigitsInjective(m / 10, n / 10);
    }
  }

  /** Splitting at the last bar. */
  lemma LastBar(a: string, b: string, c: string, d: string)
    requires NoBar(b) && NoBar(d) && a + "|" + b == c + "|" + d
    ensures a == c && b == d
  {
    var s, t := a + "|" + b, c + "|" + d;
    assert s[|a|] == '|' && t[|c|] == '|';
    assert forall k :: |a| < k < |s| ==> s[k] == b[k - |a| - 1];
    assert forall k :: |c| < k < |t| ==> t[k] == d[k - |c| - 1];
    assert |a| == |c|;
    assert a == s[..|a|] && c == t[..|c|] && b == s[|a| + 1..] && d == t[|c| + 1..];
  }

  /** Two requests share a cache entry exactly when they are about the same site for the same partition, even
      if collection names contain bars. */
  lemma KeysCoincideIff(c1: string, s1: Site, c2: string, s2: Site)
    requires s1.Valid() && s2.Valid()
    ensures CacheKey(c1, s1) == CacheKey(c2, s2) <==> Partition(c1) == Partition(c2) && s1 == s2
  {
    if CacheKey(c1, s1) == CacheKey(c2, s2) {
      var a1, a2 := "robots|" + Partition(c1), "robots|" + Partition(c2);
      LastBar(a1 + "|" + s1.scheme + "|" + s1.host, Digits(s1.port),
              a2 + "|" + s2.scheme + "|" + s2.host, Digits(s2.port));
      DigitsInjective(s1.port, s2.port);
      LastBar(a1 + "|" + s1.scheme, s1.host, a2 + "|" + s2.scheme, s2.host);
      LastBar(a1, s1.scheme, a2, s2.scheme);
      assert Partition(c1) == a1[|"robots|"|..] && Partition(c2) == a2[|"robots|"|..];
    }
  }

  /** So two collections share entries exactly when they are the same, or one is missing and the other is
      called unscoped. */
  lemma CollectionsShareIff(c1: string, c2: string, site: Site)
    requires site.Valid()
    ensures CacheKey(c1, site) == CacheKey(c2, site) <==> c1 == c2 || {c1, c2} == {"", "unscoped"}
  {
    KeysCoincideIff(c1, site, c2, site);
  }

  // ---- the policies -------------------------------------------------------------------------------------------

  datatype Policy =
    | IgnoreRobots | ObeyRobots | ObeyRobotsClassic | CustomRobots | CustomRobotsClassic
    | CustomIfMissing | CustomIfMissingClassic | Other

  datatype Verdict = Decided(allowed: bool) | ServiceError

  /** What fetchRobotsTxt returns: the rules, none, or an error of any kind. */
  datatype Robots = Has(rules: string) | HasNone | Failed

  predicate Fetches(p: Policy) {
    p.ObeyRobots? || p.ObeyRobotsClassic? || p.CustomIfMissing? || p.CustomIfMissingClassic?
  }

  /** The decision, when `allows` matches rules against the request's user agent and URI. */
  function Decide(p: Policy, r: Robots, custom: string, allows: string -> bool): Verdict {
    match p
    case IgnoreRobots => Decided(true)
    case CustomRobots => Decided(allows(custom))
    case CustomRobotsClassic => Decided(allows(custom))
    case Other => Decided(true)
    case _ =>
      var customIfMissing := p.CustomIfMissing? || p.CustomIfMissingClassic?;
      match r
      case Has(rules) => Decided(allows(rules))
      case HasNone => if customIfMissing then Decided(allows(custom)) else Decided(true)
      case Failed => if customIfMissing then Decided(allows(custom)) else ServiceError
  }

  /** An error is reported exactly when robots.txt must be obeyed and could not be had; the site's own rules
      decide exactly when they are to be fetched and exist; and a policy with custom rules never fails. */
  lemma PolicyTable(p: Policy, r: Robots, custom: string, allows: string -> bool)
    ensures Decide(p, r, custom, allows).ServiceError? <==> (p.ObeyRobots? || p.ObeyRobotsClassic?) && r.Failed?
    ensures Fetches(p) && r.Has? ==> Decide(p, r, custom, allows) == Decided(allows(r.rules))
    ensures !Fetches(p) ==> forall r' :: Decide(p, r', custom, allows) == Decide(p, r, custom, allows)
    ensures Decide(p, r, custom, allows) == Decided(false) ==>
      !allows(custom) || (Fetches(p) && r.Has? && !allows(r.rules))
  {
  }

  // ---- the evaluator -----------------------------------------------------------------------------------------------

  /** Go's error values, as far as callers can tell them apart. */
  datatype FetchError = BadURI | BadRequest | RobotsUnreachable

  datatype FetchResult = Result(rules: Option<string>) | Error(error: FetchError)

  function ResultOf(a: Answer): FetchResult {
    match a
    case Rules(body) => Result(Some(body))
    case NoRules => Result(None)
    case NotReachable => Error(RobotsUnreachable)
  }

  function RobotsOf(r: FetchResult): Robots {
    if r.Error? then Failed else if r.rules.Some? then Has(r.rules.value) else HasNone
  }

  /** What fetchRobotsTxt returns, told from the history of the key: asked and begun are the clock when the
      cache is first consulted and when the flight begins; built says whether the request could be built. */
  function Answered(h: seq<Attempt>, asked: int, begun: int, built: bool, fetch: Fetch, c: Settings): FetchResult {
    if Served(h, asked, c).Some? then ResultOf(Served(h, asked, c).value)
    else if Served(h, begun, c).Some? then ResultOf(Served(h, begun, c).value)
    else if !built then Error(BadRequest)
    else ResultOf(Fetched(h + [Attempt(begun, Classify(fetch))]))
  }

  /** Whether that call fetches. */
  predicate Due(h: seq<Attempt>, asked: int, begun: int, built: bool, c: Settings) {
    Served(h, asked, c).None? && Served(h, begun, c).None? && built
  }

  /** What a fetch answers, by its status and body, when these attempts were made before: the rules of a 2xx whose body
      could be read; none for 3xx and 4xx; else the rules of the last attempt that reached the server, if it gave any,
      else that the server is not reachable. */
  ghost predicate FetchAnswers(h: seq<Attempt>, fetch: Fetch, a: Answer) {
    if fetch.Response? && 200 <= fetch.status < 300 && fetch.body.Some? then a == Rules(fetch.body.value)
    else if fetch.Response? && 300 <= fetch.status < 500 then a == NoRules
    else !a.NoRules? && (forall body :: a == Rules(body) <==> LastGave(h, body))
  }

  /** What a request learns about robots.txt: what is served when it asks, else when its flight begins, else what the
      fetch answers; without a request to send there is no answer. */
  ghost predicate Learns(h: seq<Attempt>, asked: int, begun: int, built: bool, fetch: Fetch, c: Settings, a: Answer) {
    if Served(h, asked, c).Some? then a == Served(h, asked, c).value
    else if Served(h, begun, c).Some? then a == Served(h, begun, c).value
    else if built then FetchAnswers(h, fetch, a)
    else a == NotReachable
  }

  /** The decision of a policy: robots.txt is ignored, replaced by the custom rules, or followed; without rules a
      followed robots.txt allows everything, or leaves it to the custom rules; and when it cannot be had, the custom
      rules decide if there are to be any, else it is an error. */
  predicate Follows(p: Policy, a: Answer, custom: string, allows: string -> bool, v: Verdict) {
    match p
    case IgnoreRobots | Other => v == Decided(true)
    case CustomRobots | CustomRobotsClassic => v == Decided(allows(custom))
    case ObeyRobots | ObeyRobotsClassic =>
      (match a
       case Rules(body) => v == Decided(allows(body))
       case NoRules => v == Decided(true)
       case NotReachable => v == ServiceError)
    case CustomIfMissing | CustomIfMissingClassic =>
      v == Decided(allows(if a.Rules? then a.body else custom))
  }

  /** The answer in the evaluator's terms is one in these. */
  lemma AnsweredMeans(h: seq<Attempt>, asked: int, begun: int, built: bool, fetch: Fetch, c: Settings)
    ensures exists a ::
      && Learns(h, asked, begun, built, fetch, c, a)
      && RobotsOf(Answered(h, asked, begun, built, fetch, c)) == RobotsOf(ResultOf(a))
  {
    var longer := h + [Attempt(begun, Classify(fetch))];
    var a := if Served(h, asked, c).Some? then Served(h, asked, c).value
             else if Served(h, begun, c).Some? then Served(h, begun, c).value
             else if built then Fetched(longer)
             else NotReachable;
    ReachableSnoc(h, Attempt(begun, Classify(fetch)));
    LastGaveIs(h);
    assert Learns(h, asked, begun, built, fetch, c, a);
  }

  lemma DecideMeans(p: Policy, a: Answer, custom: string, allows: string -> bool)
    ensures Follows(p, a, custom, allows, Decide(p, RobotsOf(ResultOf(a)), custom, allows))
  {
  }

  class Evaluator {
    const settings: Settings
    var cache: map<string, Entry>
    ghost var history: map<string, seq<Attempt>>

    ghost function HistoryOf(key: string): seq<Attempt>
      reads this
    {
      if key in history then history[key] else []
    }

    function Entry(key: string): Option<Entry>
      reads this
    {
      if key in cache then Some(cache[key]) else None
    }

    /** The cache holds, for every key, what the fetches made for it leave there. */
    ghost predicate Valid()
      reads this
    {
      forall key :: Records(Entry(key), HistoryOf(key), settings)
    }

    constructor (settings: Settings)
      ensures Valid() && this.settings == settings && history == map[]
    {
      this.settings, cache, history := settings, map[], map[];
    }

    /** Nothing changed for any other key. */
    twostate predicate OthersKept(key: string)
      reads this
    {
      forall other :: other != key ==> Entry(other) == old(Entry(other)) && HistoryOf(other) == old(HistoryOf(other))
    }

    /** One call of refreshRobotsTxt, when the request could be built; fetch is what the network gives. */
    method RefreshRobotsTxt(key: string, now: int, fetch: Fetch) returns (answer: Answer)
      requires Valid()
      modifies this
      ensures Valid()
      ensures OthersKept(key)
      ensures HistoryOf(key) == old(HistoryOf(key)) + [Attempt(now, Classify(fetch))]
      ensures answer == Fetched(HistoryOf(key))
      ensures FetchAnswers(old(HistoryOf(key)), fetch, answer)
      ensures JudgedAs(fetch, HistoryOf(key)[|HistoryOf(key)| - 1].outcome)
    {
      ghost var longer := HistoryOf(key) + [Attempt(now, Classify(fetch))];
      ReachableSnoc(HistoryOf(key), Attempt(now, Classify(fetch)));
      LastGaveIs(HistoryOf(key));
      RefreshExtends(Entry(key), HistoryOf(key), fetch, now, settings);
      var stale := if key in cache then Some(cache[key]) else None;
      var entry;
      match Classify(fetch) {
        case Found(body) =>
          entry := RobotsCache.Entry.Entry(body, true, Some(now), Some(now + settings.freshness), None);
          answer := Rules(body);
        case Unavailable =>
          entry := RobotsCache.Entry.Entry("", false, Some(now), Some(now + settings.freshness), None);
          answer := NoRules;
        case Unreachable =>
          entry := if stale.Some? && stale.value.hasRules then stale.value
                   else RobotsCache.Entry.Entry("", false, None, None, None);
          entry := entry.(freshUntil := None, retryAfter := Some(now + settings.retry));
          answer := if entry.hasRules then Rules(entry.rules) else NotReachable;
      }
      assert (entry, answer) == Refresh(stale, fetch, now, settings);
      history := history[key := longer];
      cache := cache[key := entry];
      assert Entry(key) == Some(entry) && HistoryOf(key) == longer && OthersKept(key);
    }

    /** fetchRobotsTxt: from the cache while it may be used, else by a fetch. */
    method FetchRobotsTxt(collection: string, site: Option<Site>, asked: int, begun: int, built: bool, fetch: Fetch)
      returns (result: FetchResult)
      requires Valid()
      modifies this
      ensures Valid()
      ensures site.None? ==> result == Error(BadURI) && history == old(history) && cache == old(cache)
      ensures site.Some? ==>
        var key := CacheKey(collection, site.value);
        var h := old(HistoryOf(key));
        && result == Answered(h, asked, begun, built, fetch, settings)
        && HistoryOf(key)
          == (if Due(h, asked, begun, built, settings) then h + [Attempt(begun, Classify(fetch))] else h)
        && OthersKept(key)
      ensures site.Some? ==>
        exists a ::
          && Learns(old(HistoryOf(CacheKey(collection, site.value))), asked, begun, built, fetch, settings, a)
          && RobotsOf(result) == RobotsOf(ResultOf(a))
    {
      if site.None? {
        return Error(BadURI);
      }
      var key := CacheKey(collection, site.value);
      AnsweredMeans(HistoryOf(key), asked, begun, built, fetch, settings);
      CacheServesHistory(Entry(key), HistoryOf(key), asked, settings);
      CacheServesHistory(Entry(key), HistoryOf(key), begun, settings);
      var entry := Entry(key);
      var cached := CachedResult(entry, asked);
      if cached.None? {
        cached := CachedResult(entry, begun);
      }
      if cached.Some? {
        return ResultOf(cached.value);
      }
      if !built {
        return Error(BadRequest);
      }
      var answer := RefreshRobotsTxt(key, begun, fetch);
      result := ResultOf(answer);
    }

    /** What the policy decides, given what the history of the key and this fetch say. A policy that does not
        look at robots.txt leaves the cache alone, and no request touches another collection's entries. */
    method IsAllowed(policy: Policy, collection: string, site: Option<Site>, custom: string, allows: string -> bool,
                     asked: int, begun: int, built: bool, fetch: Fetch)
      returns (verdict: Verdict)
      requires Valid()
      modifies this
      ensures Valid()
      ensures site.None? ==> verdict == Decide(policy, Failed, custom, allows)
      ensures site.Some? ==>
        var h := old(HistoryOf(CacheKey(collection, site.value)));
        verdict == Decide(policy, RobotsOf(Answered(h, asked, begun, built, fetch, settings)), custom, allows)
      ensures site.Some? ==>
        exists a ::
          && Follows(policy, a, custom, allows, verdict)
          && Learns(old(HistoryOf(CacheKey(collection, site.value))), asked, begun, built, fetch, settings, a)
      ensures site.None? ==> Follows(policy, NotReachable, custom, allows, verdict)
      ensures !Fetches(policy) ==> history == old(history) && cache == old(cache)
      ensures Fetches(policy) && site.Some? ==>
        var key := CacheKey(collection, site.value); var h := old(HistoryOf(key));
        HistoryOf(key) == if Due(h, asked, begun, built, settings) then h + [Attempt(begun, Classify(fetch))] else h
      ensures forall c: string, other: Site ::
        site.Some? && site.value.Valid() && other.Valid()
          && (other != site.value || Partition(c) != Partition(collection)) ==>
        HistoryOf(CacheKey(c, other)) == old(HistoryOf(CacheKey(c, other)))
    {
      if site.Some? {
        ghost var h := HistoryOf(CacheKey(collection, site.value));
        AnsweredMeans(h, asked, begun, built, fetch, settings);
        ghost var a :| Learns(h, asked, begun, built, fetch, settings, a)
          && RobotsOf(Answered(h, asked, begun, built, fetch, settings)) == RobotsOf(ResultOf(a));
        DecideMeans(policy, a, custom, allows);
      } else {
        DecideMeans(policy, NotReachable, custom, allows);
      }
      if Fetches(policy) {
        var result := FetchRobotsTxt(collection, site, asked, begun, built, fetch);
        forall c: string, other: Site |
          site.Some? && site.value.Valid() && other.Valid()
            && (other != site.value || Partition(c) != Partition(collection))
          ensures CacheKey(c, other) != CacheKey(collection, site.value)
        {
          KeysCoincideIff(c, other, collection, site.value);
        }
        var customIfMissing := policy.CustomIfMissing? || policy.CustomIfMissingClassic?;
        if result.Result? && result.rules.Some? {
          verdict := Decided(allows(result.rules.value));
        } else if customIfMissing {
          verdict := Decided(allows(custom));
        } else if result.Result? {
          verdict := Decided(true);
        } else {
          verdict := ServiceError;
        }
      } else if policy.CustomRobots? || policy.CustomRobotsClassic? {
        verdict := Decided(allows(custom));
      } else {
        verdict := Decided(true);
      }
    }
  }
}
