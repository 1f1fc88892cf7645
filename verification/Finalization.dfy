/** FinalizeResponses and resolveRootRequest as they work on request objects: a snapshot is cloned, its
    redirect parents are linked, and its crawl logs are filled in place. */
module Finalization {
  import opened Common
  import opened RequestRecords
  import opened RequestRegistry
  import opened Discovery

  ghost predicate Distinct(requests: seq<Request>) {
    forall i, j :: 0 <= i < j < |requests| ==> requests[i] != requests[j]
  }

  ghost predicate Carry(requests: seq<Request>, infos: seq<Info>)
    reads requests
  {
    |infos| == |requests| && forall i :: 0 <= i < |requests| ==> requests[i].info == infos[i]
  }

  method RequestsByURL(requests: seq<Request>, ghost infos: seq<Info>) returns (byURL: map<string, Request>)
    requires Carry(requests, infos) && Distinct(requests)
    ensures Found(requests, infos, byURL)
  {
    byURL := map[];
    for n := 0 to |requests|
      invariant forall url :: url in byURL <==> LastWithURL(infos[..n], url) >= 0
      invariant forall url :: url in byURL ==> byURL[url] == requests[LastWithURL(infos[..n], url)]
    {
      assert infos[..n + 1][..n] == infos[..n];
      if |requests[n].info.url| > 0 {
        byURL := byURL[requests[n].info.url := requests[n]];
      }
    }
    assert infos[..|requests|] == infos;
  }

  /** The redirect parent of request i once the first n requests were linked. */
  ghost function LinkOf(requests: seq<Request>, infos: seq<Info>, i: nat, n: nat): Request?
    requires |infos| == |requests| && i < |requests|
  {
    if i < n && RedirectParent(infos, i) >= 0 then requests[RedirectParent(infos, i)] else null
  }

  ghost predicate Linked(requests: seq<Request>, infos: seq<Info>, n: nat)
    requires |infos| == |requests|
    reads requests
  {
    forall i :: 0 <= i < |requests| ==> requests[i].redirectParent == LinkOf(requests, infos, i, n)
  }

  /** The root request; with linkParents, also sets each request's redirect parent. */
  method ResolveRootRequest(requests: seq<Request>, linkParents: bool, ghost infos: seq<Info>, ghost mine: set<Request>)
    returns (root: Request?)
    requires forall i :: 0 <= i < |requests| ==> requests[i] in mine
    requires Carry(requests, infos) && Distinct(requests)
    requires forall i :: 0 <= i < |requests| ==> requests[i].redirectParent == null
    modifies mine`redirectParent
    ensures Linked(requests, infos, if linkParents then |requests| else 0)
    ensures root == if requests == [] then null else requests[RootAfter(infos, |infos|)]
  {
    if |requests| == 0 {
      return null;
    }
    var byURL := RequestsByURL(requests, infos);
    root := requests[0];
    for n := 0 to |requests|
      invariant root == requests[RootAfter(infos, n)]
      invariant Linked(requests, infos, if linkParents then n else 0)
    {
      assert forall i :: 0 <= i < |requests| && i != n ==> requests[i] != requests[n];
      root := Link(requests, linkParents, infos, byURL, n, requests[n], root);
    }
  }

  /** One turn of the loop of resolveRootRequest. */
  method Link(requests: seq<Request>, linkParents: bool, ghost infos: seq<Info>, byURL: map<string, Request>,
              n: nat, req: Request, before: Request) returns (root: Request)
    requires Found(requests, infos, byURL) && n < |requests|
    requires req == requests[n] && req.info == infos[n] && req.redirectParent == null
    requires before == requests[RootAfter(infos, n)]
    modifies req`redirectParent
    ensures req.redirectParent == LinkOf(requests, infos, n, if linkParents then n + 1 else 0)
    ensures root == requests[RootAfter(infos, n + 1)]
  {
    root := before;
    var source := req.info.redirectFromURL;
    if req.info.redirected && |source| > 0 && source in byURL && byURL[source] != req {
      LinkFound(requests, infos, byURL, n, RootAfter(infos, n));
      if linkParents {
        req.redirectParent := byURL[source];
      }
      if byURL[source] == root {
        root := req;
      }
    } else {
      LinkMissing(requests, infos, byURL, n);
    }
  }

  ghost predicate Found(requests: seq<Request>, infos: seq<Info>, byURL: map<string, Request>) {
    && |infos| == |requests| && Distinct(requests)
    && (forall url :: url in byURL <==> LastWithURL(infos, url) >= 0)
    && (forall url :: url in byURL ==> byURL[url] == requests[LastWithURL(infos, url)])
  }

  lemma LinkFound(requests: seq<Request>, infos: seq<Info>, byURL: map<string, Request>, n: nat, root: nat)
    requires root < |infos|
    requires Found(requests, infos, byURL) && n < |infos| && infos[n].redirected && |infos[n].redirectFromURL| > 0
    requires infos[n].redirectFromURL in byURL && byURL[infos[n].redirectFromURL] != requests[n]
    ensures RedirectParent(infos, n) >= 0 && byURL[infos[n].redirectFromURL] == requests[RedirectParent(infos, n)]
    ensures requests[root] == requests[RedirectParent(infos, n)] <==> root == RedirectParent(infos, n)
  {
  }

  lemma LinkMissing(requests: seq<Request>, infos: seq<Info>, byURL: map<string, Request>, n: nat)
    requires Found(requests, infos, byURL) && n < |infos|
    requires !(infos[n].redirected && |infos[n].redirectFromURL| > 0 && infos[n].redirectFromURL in byURL
               && byURL[infos[n].redirectFromURL] != requests[n])
    ensures RedirectParent(infos, n) == -1
  {
  }

  function PageOf(s: seq<Record>, requested: string): (p: Page)
    ensures p.Valid() && p.Size() == |s|
  {
    Page(seq(|s|, i requires 0 <= i < |s| => s[i].info),
         seq(|s|, i requires 0 <= i < |s| => s[i].log.Some?),
         seq(|s|, i requires 0 <= i < |s| => if s[i].log.Some? then s[i].log.value.discoveryPath else ""),
         requested)
  }

  /** A clone of request i and its log, told by the page. */
  ghost predicate Cloned(copy: Request, log: CrawlLog?, p: Page, i: nat, warcId: string)
    requires p.Valid() && i < p.Size()
    reads copy, log
  {
    && copy.info == p.infos[i] && copy.redirectParent == null && copy.crawlLog == log && (p.logged[i] <==> log != null)
    && (log != null ==> log.discoveryPath == p.before[i] && log.warcId == warcId)
  }

  lemma ClonedIs(copy: Request, rec: Record, p: Page, i: nat)
    requires p.Valid() && i < p.Size() && p.infos[i] == rec.info && p.logged[i] == rec.log.Some?
    requires rec.log.Some? ==> p.before[i] == rec.log.value.discoveryPath
    requires copy.View() == rec && copy.redirectParent == null
    ensures Cloned(copy, copy.crawlLog, p, i, if rec.log.Some? then rec.log.value.warcId else "")
  {
  }

  ghost predicate DistinctLogs(logs: seq<CrawlLog?>) {
    forall i, j :: 0 <= i < j < |logs| && logs[i] != null ==> logs[i] != logs[j]
  }

  /** All the requests and logs are in these sets. */
  ghost predicate Within(requests: seq<Request>, logs: seq<CrawlLog?>, mine: set<Request>, logSet: set<CrawlLog>) {
    && |requests| == |logs|
    && (forall i :: 0 <= i < |requests| ==> requests[i] in mine)
    && (forall i :: 0 <= i < |logs| && logs[i] != null ==> logs[i] in logSet)
  }

  ghost function With(logSet: set<CrawlLog>, log: CrawlLog?): set<CrawlLog> {
    if log == null then logSet else logSet + {log}
  }

  lemma WithinSnoc(requests: seq<Request>, logs: seq<CrawlLog?>, mine: set<Request>, logSet: set<CrawlLog>,
                   copy: Request, log: CrawlLog?)
    requires Within(requests, logs, mine, logSet) && Distinct(requests) && DistinctLogs(logs)
    requires copy !in mine && (log != null ==> log !in logSet)
    ensures Within(requests + [copy], logs + [log], mine + {copy}, With(logSet, log))
    ensures Distinct(requests + [copy]) && DistinctLogs(logs + [log])
  {
  }

  /** What the single pass works on, record by record. */
  lemma PageShows(s: seq<Record>, requested: string, i: nat)
    requires i < |s|
    ensures var p := PageOf(s, requested);
      && p.requested == requested && p.infos[i] == s[i].info && (p.logged[i] <==> s[i].log.Some?)
      && (s[i].log.Some? ==> p.before[i] == s[i].log.value.discoveryPath)
  {
  }

  /** Every path begins with its source's path and ends in the step that led to the request. */
  predicate PathsMean(p: Page)
    requires p.Valid()
  {
    forall i :: 0 <= i < p.Size() && p.logged[i] ==>
      EndsInStep(Paths(p)[i], i, p.infos[i], p.requested) && BeginsAtSource(p, i)
  }

  lemma AllPathsTell(p: Page)
    requires p.Valid()
    ensures PathsMean(p)
  {
    forall i | 0 <= i < p.Size() && p.logged[i]
      ensures EndsInStep(Paths(p)[i], i, p.infos[i], p.requested) && BeginsAtSource(p, i)
    {
      PathsTell(p, i);
    }
  }

  function WarcIds(s: seq<Record>): (ids: seq<string>) {
    seq(|s|, i requires 0 <= i < |s| => if s[i].log.Some? then s[i].log.value.warcId else "")
  }

  ghost predicate AllCloned(requests: seq<Request>, logs: seq<CrawlLog?>, p: Page, warcIds: seq<string>, n: nat)
    requires p.Valid() && |warcIds| == p.Size() && |requests| == |logs| == n <= p.Size()
    reads requests, logs
  {
    forall i :: 0 <= i < n ==> Cloned(requests[i], logs[i], p, i, warcIds[i])
  }

  /** The clones of the registry's requests: nothing in them is shared, with the registry or each other. */
  method CloneAll(r: Registry, ghost p: Page)
    returns (requests: seq<Request>, ghost logs: seq<CrawlLog?>, ghost mine: set<Request>, ghost logSet: set<CrawlLog>)
    requires r.Valid() && p == PageOf(r.records, p.requested)
    ensures |requests| == |logs| == p.Size() && fresh(mine) && fresh(logSet)
    ensures Within(requests, logs, mine, logSet) && Distinct(requests) && DistinctLogs(logs)
    ensures AllCloned(requests, logs, p, WarcIds(r.records), p.Size())
  {
    requests, logs, mine, logSet := [], [], {}, {};
    for n := 0 to |r.requests|
      invariant r.Valid() && |requests| == |logs| == n && fresh(mine) && fresh(logSet)
      invariant Within(requests, logs, mine, logSet) && Distinct(requests) && DistinctLogs(logs)
      invariant AllCloned(requests, logs, p, WarcIds(r.records), n)
    {
      var copy := r.CloneOut(r.requests[n], n);
      ClonedIs(copy, r.records[n], p, n);
      WithinSnoc(requests, logs, mine, logSet, copy, copy.crawlLog);
      requests, logs := requests + [copy], logs + [copy.crawlLog];
      mine, logSet := mine + {copy}, With(logSet, copy.crawlLog);
    }
  }

  /** Requests, their logs and the page they make up. */
  ghost predicate Laid(requests: seq<Request>, logs: seq<CrawlLog?>, p: Page)
    reads requests
  {
    && p.Valid() && |requests| == |logs| == p.Size() && Distinct(requests)
    && DistinctLogs(logs)
    && Linked(requests, p.infos, |requests|)
    && (forall i :: 0 <= i < |requests| ==>
          && requests[i].info == p.infos[i] && requests[i].crawlLog == logs[i] && (p.logged[i] <==> logs[i] != null))
  }

  lemma ParentIs(requests: seq<Request>, logs: seq<CrawlLog?>, p: Page, byURL: map<string, Request>, n: nat)
    requires Laid(requests, logs, p) && Found(requests, p.infos, byURL) && n < p.Size()
    ensures var rr, k := requests[n], Parent(p, n);
      if rr.redirectParent != null && rr.redirectParent.crawlLog != null
      then k >= 0 && rr.redirectParent.crawlLog == logs[k]
      else if p.infos[n].referrer in byURL && byURL[p.infos[n].referrer].crawlLog != null then
        k >= 0 && byURL[p.infos[n].referrer].crawlLog == logs[k]
      else k < 0
  {
  }

  function StepType(n: nat, i: Info, linked: bool, requested: string): string {
    if n == 0 then requested else if i.initiator == "script" then "X" else if linked || i.redirected then "R" else "E"
  }

  /** One turn of the loop of FinalizeResponses. */
  method FillLog(requests: seq<Request>, ghost logs: seq<CrawlLog?>, ghost p: Page, byURL: map<string, Request>,
                 requested: string, n: nat, log: CrawlLog)
    requires Laid(requests, logs, p) && Found(requests, p.infos, byURL) && p.requested == requested
    requires n < |requests| && logs[n] == log
    requires Parent(p, n) >= 0 ==> logs[Parent(p, n)].discoveryPath == Pass(p, n)[Parent(p, n)]
    modifies log`discoveryPath, log`referrer
    ensures log.discoveryPath == Pass(p, n + 1)[n] && log.referrer == p.infos[n].referrer
  {
    ParentIs(requests, logs, p, byURL, n);
    var rr := requests[n];
    var step := StepType(n, rr.info, rr.redirectParent != null, requested);
    assert step == DiscoveryType(p, n);
    log.referrer := rr.info.referrer;
    if rr.redirectParent != null && rr.redirectParent.crawlLog != null {
      log.discoveryPath := rr.redirectParent.crawlLog.discoveryPath + step;
    } else if rr.info.referrer in byURL && byURL[rr.info.referrer].crawlLog != null {
      log.discoveryPath := byURL[rr.info.referrer].crawlLog.discoveryPath + step;
    } else {
      log.discoveryPath := step;
    }
  }

  /** One turn gives request n its path, if it has a log, and no other. */
  lemma PassAt(p: Page, n: nat)
    requires p.Valid() && n < p.Size()
    ensures |Pass(p, n)| == |Pass(p, n + 1)| == p.Size()
    ensures forall i :: 0 <= i < p.Size() && i != n ==> Pass(p, n + 1)[i] == Pass(p, n)[i]
    ensures !p.logged[n] ==> Pass(p, n + 1) == Pass(p, n)
  {
  }

  method FillLogs(requests: seq<Request>, ghost logs: seq<CrawlLog?>, ghost p: Page, byURL: map<string, Request>,
                  requested: string, ghost logSet: set<CrawlLog>)
    requires forall i :: 0 <= i < |logs| && logs[i] != null ==> logs[i] in logSet
    requires Laid(requests, logs, p) && Found(requests, p.infos, byURL) && p.requested == requested
    requires forall i :: 0 <= i < |logs| && logs[i] != null ==> logs[i].discoveryPath == p.before[i]
    modifies logSet`discoveryPath, logSet`referrer
    ensures forall i :: 0 <= i < |logs| && logs[i] != null ==> logs[i].discoveryPath == Paths(p)[i]
    ensures forall i :: 0 <= i < |logs| && logs[i] != null ==> logs[i].referrer == p.infos[i].referrer
  {
    for n := 0 to |requests|
      invariant forall i :: 0 <= i < |logs| && logs[i] != null ==> logs[i].discoveryPath == Pass(p, n)[i]
      invariant forall i :: 0 <= i < n && logs[i] != null ==> logs[i].referrer == p.infos[i].referrer
    {
      PassAt(p, n);
      if requests[n].crawlLog != null {
        FillLog(requests, logs, p, byURL, requested, n, requests[n].crawlLog);
      }
    }
  }

  /** The work on the snapshot once it is cloned. */
  method FinalizeSnapshot(requests: seq<Request>, ghost logs: seq<CrawlLog?>, ghost p: Page, requested: string,
                          ghost mine: set<Request>, ghost logSet: set<CrawlLog>, ghost warcIds: seq<string>)
    returns (root: Request?)
    requires p.Valid() && p.requested == requested && |requests| == |logs| == |warcIds| == p.Size()
    requires Within(requests, logs, mine, logSet) && Distinct(requests) && DistinctLogs(logs)
    requires AllCloned(requests, logs, p, warcIds, p.Size())
    modifies mine`redirectParent, logSet`discoveryPath, logSet`referrer
    ensures Laid(requests, logs, p)
    ensures forall i :: 0 <= i < |logs| && logs[i] != null ==>
      logs[i].View() == Log(warcIds[i], p.infos[i].referrer, Paths(p)[i])
    ensures root == if requests == [] then null else requests[RootAfter(p.infos, p.Size())]
  {
    root := ResolveRootRequest(requests, true, p.infos, mine);
    var byURL := RequestsByURL(requests, p.infos);
    FillLogs(requests, logs, p, byURL, requested, logSet);
  }

  /** A snapshot for the caller: copies of all requests, linked to their redirect sources, whose crawl logs
      carry the referrer and the discovery path of the single pass. The registry itself is left alone. */
  method FinalizeResponses(r: Registry, requested: string)
    returns (requests: seq<Request>, root: Request?, counts: Match, ghost p: Page, ghost logs: seq<CrawlLog?>)
    requires r.Valid()
    ensures p == PageOf(r.records, requested) && |logs| == |r.records| && Laid(requests, logs, p)
    ensures forall i :: 0 <= i < |requests| ==> fresh(requests[i]) && (logs[i] != null ==> fresh(logs[i]))
    ensures forall i :: 0 <= i < |logs| && logs[i] != null ==>
      logs[i].View() == Log(WarcIds(r.records)[i], p.infos[i].referrer, Paths(p)[i])
    ensures PathsMean(p)
    ensures root == if requests == [] then null else requests[RootAfter(p.infos, p.Size())]
    ensures counts == MatchOf(r.records)
  {
    p := PageOf(r.records, requested);
    AllPathsTell(p);
    counts := r.BuildCrawlLogMatch();
    ghost var mine, logSet;
    requests, logs, mine, logSet := CloneAll(r, p);
    root := FinalizeSnapshot(requests, logs, p, requested, mine, logSet, WarcIds(r.records));
  }

  // ---- removal and the order the pass relies on -----------------------------------------------------

  function Observations(s: seq<Record>): seq<Op> {
    if s == [] then [] else Observations(s[..|s| - 1]) + [Observe(s[|s| - 1])]
  }

  /** Every list with distinct ids can come about. */
  lemma {:induction false} AnyListReachable(s: seq<Record>)
    requires DistinctIds(s)
    ensures Canonical(Observations(s)) && Run(Observations(s)) == s
  {
    if s != [] {
      var init, last := s[..|s| - 1], s[|s| - 1];
      LastIsNew(s);
      AnyListReachable(init);
      RunSnoc(Observations(init), Observe(last));
    }
  }

  lemma LastIsNew(s: seq<Record>)
    requires s != [] && DistinctIds(s)
    ensures var init, last := s[..|s| - 1], s[|s| - 1];
      DistinctIds(init) && Apply(init, Observe(last)) == s && last.info.id != ""
  {
    var init, last := s[..|s| - 1], s[|s| - 1];
    assert IndexOf(init, last.info.id) == |init|;
    assert s == init + [last];
  }

  lemma RunSnoc(ops: seq<Op>, op: Op)
    ensures Run(ops + [op]) == Apply(Run(ops), op)
    ensures Canonical(ops) && (op.Observe? ==> op.seen.info.id != "") ==> Canonical(ops + [op])
  {
    assert (ops + [op])[..|ops|] == ops;
  }

  predicate LogsUnset(s: seq<Record>) {
    forall i :: 0 <= i < |s| && s[i].log.Some? ==> s[i].log.value.discoveryPath == ""
  }

  lemma LastWithURLIs(s: seq<Info>, url: string, k: nat)
    requires k < |s| && |url| > 0 && s[k].url == url && forall j :: k < j < |s| ==> s[j].url != url
    ensures LastWithURL(s, url) == k
  {
  }

  /** The order is not safe from removals. Rolling back a request moves the last one into its place; if
      that one was redirected from a request in between, it now precedes its source and its path no
      longer extends the source's. */
  lemma {:induction false} RemovalBreaksChain(s: seq<Record>, id: string, requested: string)
    requires DistinctIds(s) && Has(s, id) && LogsUnset(s) && s[|s| - 1].log.Some?
    requires 0 <= IndexOf(s, id) < RedirectParent(PageOf(s, requested).infos, |s| - 1)
    requires s[RedirectParent(PageOf(s, requested).infos, |s| - 1)].log.Some?
    ensures !Chained(PageOf(Apply(s, Remove(id)), requested))
  {
    var i, n := IndexOf(s, id), |s|;
    var p, p' := PageOf(s, requested), PageOf(Apply(s, Remove(id)), requested);
    var k, url := RedirectParent(p.infos, n - 1), p.infos[n - 1].redirectFromURL;
    assert p'.infos[i] == p.infos[n - 1];
    assert forall j :: k <= j < n - 1 ==> p'.infos[j] == p.infos[j];
    assert p.infos[k].url == url && forall j :: k < j < n ==> p.infos[j].url != url;
    LastWithURLIs(p'.infos, url, k);
    assert RedirectParent(p'.infos, i) == k;
    assert p'.logged[i] && p'.logged[k];
    assert Parent(p', i) == k;
    ChainedIff(p');
  }

  function Sample(name: string, from: string): Record {
    Record(Info(name, "", "", name, "", "", NoType, "", "", false, false, |from| > 0, from, false),
           Some(Log("", "", "")))
  }

  /** A concrete run: q, x, p and c, redirected from p, are observed, then x is rolled back. */
  lemma SampleChained(s: seq<Record>, requested: string)
    requires s == [Sample("q", ""), Sample("x", ""), Sample("p", ""), Sample("c", "p")]
    ensures Chained(PageOf(s, requested)) && RedirectParent(PageOf(s, requested).infos, 3) == 2
  {
    var p := PageOf(s, requested);
    assert "q"[0] == 'q' && "x"[0] == 'x' && "p"[0] == 'p' && "c"[0] == 'c';
    LastWithURLIs(p.infos, "p", 2);
    assert LastWithURL(p.infos, "") == -1;
    assert forall i :: 0 <= i < 3 ==> Parent(p, i) == -1;
    assert Parent(p, 3) == 2;
    ChainedIff(p);
  }

  lemma RemovalExample(requested: string)
    ensures var s := [Sample("q", ""), Sample("x", ""), Sample("p", ""), Sample("c", "p")];
      && Run(Observations(s)) == s
      && Chained(PageOf(s, requested)) && !Chained(PageOf(Apply(s, Remove("x")), requested))
  {
    var s := [Sample("q", ""), Sample("x", ""), Sample("p", ""), Sample("c", "p")];
    assert s[0].info.id == "q" && s[1].info.id == "x" && s[2].info.id == "p" && s[3].info.id == "c";
    assert "q"[0] == 'q' && "x"[0] == 'x' && "p"[0] == 'p' && "c"[0] == 'c';
    AnyListReachable(s);
    IndexUnique(s, 1);
    SampleChained(s, requested);
    RemovalBreaksChain(s, "x", requested);
  }
}
