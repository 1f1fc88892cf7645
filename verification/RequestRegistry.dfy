/** The browser controller's request registry: a list of request objects and an index over it, updated in
    place under one lock. Every caller gets copies. */
module RequestRegistry {
  import opened Common
  import opened RequestRecords

  class CrawlLog {
    var warcId: string
    var referrer: string
    var discoveryPath: string

    ghost function View(): Log reads this { Log(warcId, referrer, discoveryPath) }

    constructor (warcId: string, referrer: string, discoveryPath: string)
      ensures View() == Log(warcId, referrer, discoveryPath)
    {
      this.warcId, this.referrer, this.discoveryPath := warcId, referrer, discoveryPath;
    }

    method Clone() returns (copy: CrawlLog)
      ensures fresh(copy) && copy.View() == View()
    {
      copy := new CrawlLog(warcId, referrer, discoveryPath);
    }
  }

  /** A request variable: its plain fields, updated one by one, and two references. */
  class Request {
    var info: Info
    var crawlLog: CrawlLog?
    var redirectParent: Request?

    ghost function View(): Record
      reads this, crawlLog
    {
      Record(info, if crawlLog == null then None else Some(crawlLog.View()))
    }

    constructor Copying(info: Info, crawlLog: CrawlLog?)
      ensures this.info == info && this.crawlLog == crawlLog && redirectParent == null
    {
      this.info, this.crawlLog, redirectParent := info, crawlLog, null;
    }

    /** A copy that shares nothing with the original, and has no redirect parent. */
    method Clone() returns (copy: Request)
      ensures fresh(copy) && (copy.crawlLog != null ==> fresh(copy.crawlLog))
      ensures copy.View() == View() && copy.redirectParent == null
    {
      var log: CrawlLog? := null;
      if crawlLog != null {
        log := crawlLog.Clone();
      }
      copy := new Request.Copying(info, log);
    }

    method MergeInfoFrom(from: Info)
      modifies this`info
      ensures info == MergeInfo(old(info), from)
    {
      var d := info;
      d := d.(id := Or(d.id, from.id), fetchRequestID := Or(d.fetchRequestID, from.fetchRequestID),
              networkID := Or(d.networkID, from.networkID));
      if |from.url| > 0 {
        d := d.(originalURL := if |d.originalURL| == 0 then from.url else d.originalURL, url := from.url);
      }
      d := d.(httpMethod := Or(d.httpMethod, from.httpMethod),
              resourceType := OrType(d.resourceType, from.resourceType),
              referrer := Or(d.referrer, from.referrer), initiator := Or(d.initiator, from.initiator));
      if from.redirected {
        d := d.(redirected := true,
                redirectFromURL := if |d.redirectFromURL| == 0 then from.redirectFromURL else d.redirectFromURL);
      }
      info := d.(gotNew := d.gotNew || from.gotNew, gotComplete := d.gotComplete || from.gotComplete,
                 fromCache := d.fromCache || from.fromCache);
    }

    method MergeFrom(src: Request)
      requires src != this
      modifies this
      ensures View() == Merge(old(View()), src.View())
      ensures crawlLog == if old(crawlLog) == null then src.crawlLog else old(crawlLog)
      ensures redirectParent == if old(redirectParent) == null then src.redirectParent else old(redirectParent)
    {
      MergeInfoFrom(src.info);
      if crawlLog == null {
        crawlLog := src.crawlLog;
      }
      if redirectParent == null {
        redirectParent := src.redirectParent;
      }
    }

    /** Applies the change in place. */
    method Perform(change: Change)
      requires change.Merging? ==> change.src != this
      modifies this
      ensures View() == ApplyEvent(old(View()), old(change.Meaning()))
      ensures crawlLog == old(crawlLog) || crawlLog == old(change.NewLog())
      ensures (change.Merging? ==> old(change.src.redirectParent) == null) ==> redirectParent == old(redirectParent)
    {
      match change
      case Merging(src) => MergeFrom(src);
      case Registering => info := info.(gotNew := true);
      case Finishing => info := info.(gotComplete := true);
      case Completing(log, cached) =>
        crawlLog := log;
        info := info.(gotComplete := true);
        if cached {
          info := info.(fromCache := true);
        }
    }
  }

  /** What an operation does to the request it found. The logs and requests in it become the registry's. */
  datatype Change = Merging(src: Request) | Registering | Finishing | Completing(log: CrawlLog?, cached: bool) {
    ghost function NewLog(): CrawlLog?
      reads if Merging? then {src} else {}
    {
      match this
      case Merging(src) => src.crawlLog
      case Completing(log, _) => log
      case _ => null
    }

    ghost function Meaning(): Event
      reads if Merging? then {src} else {}, NewLog()
    {
      match this
      case Merging(src) => Seen(src.View())
      case Registering => Registered
      case Finishing => Done
      case Completing(log, cached) => Finished(if log == null then None else Some(log.View()), cached)
    }
  }

  /** The counts MatchCrawlLogs works with; missing holds the first MAX_LOGGED_MISSING unresolved requests. */
  datatype Match = Match(blocking: nat, resolved: nat, unresolved: nat, ignored: nat, missing: seq<Info>)

  const MAX_LOGGED_MISSING := 8

  function Blocking(s: seq<Record>): (n: nat)
    ensures n <= |s|
  {
    if s == [] then 0 else Blocking(s[..|s| - 1]) + (if s[|s| - 1].info.BlocksPageCompletion() then 1 else 0)
  }

  function Missing(s: seq<Record>): (infos: seq<Info>)
    ensures |infos| <= Blocking(s)
  {
    if s == [] then []
    else if s[|s| - 1].Unresolved() then Missing(s[..|s| - 1]) + [s[|s| - 1].info]
    else Missing(s[..|s| - 1])
  }

  function MatchOf(s: seq<Record>): Match {
    var infos := Missing(s);
    Match(Blocking(s), Blocking(s) - |infos|, |infos|, |s| - Blocking(s),
          if |infos| <= MAX_LOGGED_MISSING then infos else infos[..MAX_LOGGED_MISSING])
  }

  /** The counts with one more request. */
  function Counted(m: Match, i: Info, logged: bool): Match {
    if !i.BlocksPageCompletion() then m.(ignored := m.ignored + 1)
    else if logged then m.(blocking := m.blocking + 1, resolved := m.resolved + 1)
    else m.(blocking := m.blocking + 1, unresolved := m.unresolved + 1,
            missing := if |m.missing| < MAX_LOGGED_MISSING then m.missing + [i] else m.missing)
  }

  lemma MatchSnoc(s: seq<Record>, rec: Record)
    ensures MatchOf(s + [rec]) == Counted(MatchOf(s), rec.info, rec.log.Some?)
  {
    assert (s + [rec])[..|s|] == s;
  }

  predicate AllResolved(s: seq<Record>) {
    forall i :: 0 <= i < |s| && s[i].info.BlocksPageCompletion() ==> s[i].log.Some?
  }

  /** The request was registered, and its type is none of those that need not finish. */
  predicate MustFinish(i: Info) { i.gotNew && WireName(i.resourceType) !in NON_BLOCKING }

  /** Every request that must finish has its crawl log. */
  predicate PageSettled(s: seq<Record>) {
    forall i :: 0 <= i < |s| && MustFinish(s[i].info) ==> s[i].log.Some?
  }

  lemma BlockingMeansMustFinish(i: Info)
    ensures i.BlocksPageCompletion() <==> MustFinish(i)
  {
    assert NON_BLOCKING[0] == "Ping" && NON_BLOCKING[1] == "EventSource" && NON_BLOCKING[2] == "WebSocket";
    assert NON_BLOCKING[3] == "CSPViolationReport" && NON_BLOCKING[4] == "Preflight" && NON_BLOCKING[5] == "XHR";
    assert NON_BLOCKING[6] == "Fetch" && NON_BLOCKING[7] == "Manifest" && NON_BLOCKING[8] == "SignedExchange";
    assert NON_BLOCKING[9] == "FedCM" && NON_BLOCKING[10] == "Other" && NON_BLOCKING[11] == "Prefetch";
  }

  lemma SettledMeansResolved(s: seq<Record>)
    ensures PageSettled(s) <==> AllResolved(s)
  {
    forall i | 0 <= i < |s| ensures s[i].info.BlocksPageCompletion() <==> MustFinish(s[i].info) {
      BlockingMeansMustFinish(s[i].info);
    }
  }

  /** The requests that must finish. */
  function MustFinishAt(s: seq<Record>): set<nat> { set i: nat | i < |s| && MustFinish(s[i].info) }

  /** Those of them without a crawl log. */
  function WaitedFor(s: seq<Record>): set<nat> { set i: nat | i < |s| && MustFinish(s[i].info) && s[i].log.None? }

  lemma {:induction false} AtSnoc(s: seq<Record>)
    requires s != []
    ensures var init, n := s[..|s| - 1], |s| - 1;
      && MustFinishAt(s) == MustFinishAt(init) + (if MustFinish(s[n].info) then {n} else {})
      && WaitedFor(s) == WaitedFor(init) + (if MustFinish(s[n].info) && s[n].log.None? then {n} else {})
      && n !in MustFinishAt(init) && n !in WaitedFor(init)
  {
  }

  lemma {:induction false} BlockingCount(s: seq<Record>)
    ensures Blocking(s) == |MustFinishAt(s)|
  {
    if s != [] {
      BlockingCount(s[..|s| - 1]);
      BlockingMeansMustFinish(s[|s| - 1].info);
      AtSnoc(s);
    }
  }

  lemma {:induction false} MissingCount(s: seq<Record>)
    ensures |Missing(s)| == |WaitedFor(s)|
  {
    if s != [] {
      MissingCount(s[..|s| - 1]);
      BlockingMeansMustFinish(s[|s| - 1].info);
      AtSnoc(s);
    }
  }

  /** What the counts mean. */
  lemma {:induction false} CountsMean(s: seq<Record>)
    ensures var m := MatchOf(s);
      && m.blocking == |MustFinishAt(s)| && m.unresolved == |WaitedFor(s)|
      && m.resolved == m.blocking - m.unresolved && m.ignored == |s| - m.blocking
      && |m.missing| == if m.unresolved <= 8 then m.unresolved else 8
  {
    BlockingCount(s);
    MissingCount(s);
  }

  /** The missing requests come in list order. */
  lemma {:induction false} MissingInOrder(s: seq<Record>, t: seq<Record>)
    ensures Missing(s + t) == Missing(s) + Missing(t)
  {
    if t == [] {
      assert s + t == s;
    } else {
      var init := t[..|t| - 1];
      assert (s + t)[..|s + t| - 1] == s + init;
      MissingInOrder(s, init);
    }
  }

  /** Nothing is missing exactly when every blocking request has a crawl log; the missing requests are
      the unresolved ones, in list order. */
  lemma {:induction false} MissingExactly(s: seq<Record>)
    ensures Missing(s) == [] <==> AllResolved(s)
    ensures forall info :: info in Missing(s) <==> exists i :: 0 <= i < |s| && s[i].Unresolved() && s[i].info == info
    ensures Blocking(s) == 0 <==> forall i :: 0 <= i < |s| ==> !s[i].info.BlocksPageCompletion()
  {
    if s != [] {
      var init, last := s[..|s| - 1], s[|s| - 1];
      MissingExactly(init);
      assert forall i :: 0 <= i < |init| ==> s[i] == init[i];
      assert AllResolved(s) <==> AllResolved(init) && !last.Unresolved();
      forall info ensures info in Missing(s) <==> exists i :: 0 <= i < |s| && s[i].Unresolved() && s[i].info == info {
        if info in Missing(init) {
          var i :| 0 <= i < |init| && init[i].Unresolved() && init[i].info == info;
          assert s[i].Unresolved() && s[i].info == info;
        }
        if last.Unresolved() && last.info == info {
          assert s[|s| - 1].Unresolved();
        }
      }
    }
  }

  lemma ObservedAt(s: seq<Record>, seen: Record)
    ensures var t, i := Apply(s, Observe(seen)), IndexOf(s, seen.info.id);
      t == if i < |s| then s[i := Merge(s[i], seen)] else s + [seen]
    ensures seen.info.id != "" ==>
      IndexOf(Apply(s, Observe(seen)), seen.info.id) == IndexOf(s, seen.info.id) < |Apply(s, Observe(seen))|
  {
    var t, i := Apply(s, Observe(seen)), IndexOf(s, seen.info.id);
    assert t[i].info.id == seen.info.id && forall j :: 0 <= j < i ==> t[j] == s[j];
  }

  lemma RemovedAt(s: seq<Record>, id: string)
    ensures var i := IndexOf(s, id);
      Apply(s, Remove(id)) == if i < |s| then s[i := s[|s| - 1]][..|s| - 1] else s
  {
  }

  lemma MarkedAt(s: seq<Record>, id: string)
    ensures var i := IndexOf(s, id);
      && Apply(s, MarkNew(id)) == (if i < |s| then s[i := ApplyEvent(s[i], Registered)] else s)
      && Apply(s, MarkComplete(id)) == (if i < |s| then s[i := ApplyEvent(s[i], Done)] else s)
  {
  }

  lemma UnregisteredAt(s: seq<Record>, url: string)
    ensures var i := FirstUnregistered(s, url);
      Apply(s, MarkFirstUnregistered(url)) == if i < |s| then s[i := ApplyEvent(s[i], Done)] else s
  {
  }

  lemma CompletedAt(s: seq<Record>, id: string, log: Option<Log>, cached: bool)
    ensures var t, i := Apply(s, Complete(id, log, cached)), IndexOf(s, id);
      t == if i < |s| then s[i := ApplyEvent(s[i], Finished(log, cached))] else s
  {
  }

  // ---- list and index ---------------------------------------------------------------------------

  /** Every request of the list is in the index under its id, each id once, and nothing else is;
      place says where in the list. */
  ghost predicate Places<T>(list: seq<T>, index: map<string, T>, records: seq<Record>, place: map<string, nat>) {
    && |records| == |list|
    && index.Keys == place.Keys
    && (forall i :: 0 <= i < |records| ==>
          records[i].info.id != "" && records[i].info.id in place && place[records[i].info.id] == i)
    && (forall id :: id in place ==>
          place[id] < |list| && records[place[id]].info.id == id && index[id] == list[place[id]])
  }

  lemma PlacedIds<T>(list: seq<T>, index: map<string, T>, records: seq<Record>, place: map<string, nat>, id: string)
    requires Places(list, index, records, place)
    ensures id in index <==> Has(records, id)
    ensures id in index ==> id in place && place[id] == IndexOf(records, id) && index[id] == list[place[id]]
  {
    assert id in index <==> id in place.Keys;
  }

  lemma AppendPlaces<T>(list: seq<T>, index: map<string, T>, records: seq<Record>, place: map<string, nat>, t: T,
                        rec: Record)
    requires Places(list, index, records, place) && rec.info.id != "" && rec.info.id !in index
    ensures Places(list + [t], index[rec.info.id := t], records + [rec], place[rec.info.id := |records|])
  {
    assert rec.info.id !in place.Keys;
  }

  lemma ChangeKeepsPlaces<T>(list: seq<T>, index: map<string, T>, records: seq<Record>, place: map<string, nat>,
                             i: nat, rec: Record)
    requires Places(list, index, records, place) && i < |records| && rec.info.id == records[i].info.id
    ensures Places(list, index, records[i := rec], place)
  {
  }

  ghost function Without(place: map<string, nat>, id: string, n: nat): map<string, nat>
    requires id in place
  {
    map k | k in place && k != id :: if place[k] == n - 1 then place[id] else place[k]
  }

  lemma RemovePlaces<T>(list: seq<T>, index: map<string, T>, records: seq<Record>, place: map<string, nat>, id: string)
    requires Places(list, index, records, place) && id in place
    ensures var i, n := place[id], |list|;
      Places(list[i := list[n - 1]][..n - 1], map k | k in index && k != id :: index[k],
             records[i := records[n - 1]][..n - 1], Without(place, id, n))
  {
    var index' := map k | k in index && k != id :: index[k];
    assert index'.Keys == index.Keys - {id} && Without(place, id, |list|).Keys == place.Keys - {id};
  }

  ghost function With(repr: set<object>, log: CrawlLog?): set<object> { if log == null then repr else repr + {log} }

  class Registry {
    var requests: seq<Request>
    var byID: map<string, Request>
    ghost var records: seq<Record>        // what the requests say
    ghost var place: map<string, nat>
    ghost var Repr: set<object>           // the requests and their logs, now and before

    ghost predicate Shown()
      requires |records| == |requests|
      reads this, Repr
    {
      forall i :: 0 <= i < |requests| ==>
        && requests[i] in Repr && requests[i].redirectParent == null
        && (requests[i].crawlLog != null ==> requests[i].crawlLog in Repr)
        && requests[i].View() == records[i]
    }

    /** List and index hold the same objects, each id once; records says what is in them. */
    ghost predicate Valid()
      reads this, Repr
    {
      Places(requests, byID, records, place) && Shown()
    }

    /** A copy handed to a caller: nothing reachable from it belongs to the registry. */
    ghost predicate Detached(copy: Request)
      reads this, copy
    {
      copy !in Repr && copy.redirectParent == null && (copy.crawlLog != null ==> copy.crawlLog !in Repr)
    }

    constructor ()
      ensures Valid() && records == [] && Repr == {}
    {
      requests, byID, records, place, Repr := [], map[], [], map[], {};
    }

    /** Changes the request at position i in place. */
    method ChangeAt(req: Request, ghost i: nat, change: Change)
      requires Valid() && i < |requests| && requests[i] == req
      requires change.Merging? ==> change.src !in Repr && change.src.redirectParent == null
      modifies this`records, this`Repr, req
      ensures Valid() && Repr == With(old(Repr), old(change.NewLog()))
      ensures records == old(records)[i := ApplyEvent(old(records[i]), old(change.Meaning()))]
    {
      ghost var repr := With(Repr, change.NewLog());
      req.Perform(change);
      SetView(req, i, repr);
    }

    ghost predicate ShownBut(i: nat)
      requires |records| == |requests|
      reads this, Repr
    {
      forall j :: 0 <= j < |requests| && j != i ==>
        && requests[j] in Repr && requests[j].redirectParent == null
        && (requests[j].crawlLog != null ==> requests[j].crawlLog in Repr)
        && requests[j].View() == records[j]
    }

    /** Request i has changed, but for its id; what is shown follows. */
    ghost method SetView(req: Request, i: nat, repr: set<object>)
      requires Places(requests, byID, records, place) && ShownBut(i)
      requires i < |requests| && requests[i] == req && req.info.id == records[i].info.id && req.redirectParent == null
      requires Repr <= repr && req in repr && (req.crawlLog != null ==> req.crawlLog in repr)
      modifies this`records, this`Repr
      ensures Valid() && records == old(records)[i := req.View()] && Repr == repr
    {
      ChangeKeepsPlaces(requests, byID, records, place, i, req.View());
      records, Repr := records[i := req.View()], repr;
    }

    method Append(req: Request) returns (owned: Request)
      requires Valid() && req.info.id != "" && req.info.id !in byID
      modifies this
      ensures Valid() && requests == old(requests) + [owned] && fresh(Repr - old(Repr))
      ensures records == old(records) + [req.View()]
    {
      owned := req.Clone();
      AppendPlaces(requests, byID, records, place, owned, req.View());
      SetList(requests + [owned], byID[owned.info.id := owned], records + [req.View()], place[req.info.id := |records|],
              With(Repr + {owned}, owned.crawlLog));
    }

    method SetList(list: seq<Request>, index: map<string, Request>, ghost shown: seq<Record>,
                   ghost places: map<string, nat>, ghost repr: set<object>)
      modifies this
      ensures requests == list && byID == index && records == shown && place == places && Repr == repr
    {
      requests, byID, records, place, Repr := list, index, shown, places, repr;
    }

    method MergeInto(existing: Request, ghost i: nat, req: Request)
      requires Valid() && i < |requests| && requests[i] == existing
      modifies this`records, this`Repr, existing
      ensures Valid() && fresh(Repr - old(Repr))
      ensures records == old(records)[i := Merge(old(records[i]), old(req.View()))]
    {
      var incoming := req.Clone();
      ChangeAt(existing, i, Merging(incoming));
    }

    method CloneOut(req: Request, ghost i: nat) returns (copy: Request)
      requires Valid() && i < |requests| && requests[i] == req
      ensures Valid() && fresh(copy) && (copy.crawlLog != null ==> fresh(copy.crawlLog))
      ensures Detached(copy) && copy.View() == records[i]
    {
      copy := req.Clone();
    }

    method MutationResult(req: Request, ghost i: nat) returns (copy: Request, initial: bool)
      requires Valid() && i < |requests| && requests[i] == req
      ensures Valid() && fresh(copy) && Detached(copy) && copy.View() == records[i]
      ensures initial <==> i == 0
    {
      StandsOnce(i);
      copy := CloneOut(req, i);
      initial := |requests| > 0 && requests[0] == req;
    }

    lemma StandsOnce(i: nat)
      requires Valid() && i < |requests|
      ensures requests[0] == requests[i] <==> i == 0
    {
      assert requests[0] == requests[i] ==> records[i].info.id == records[0].info.id;
    }

    /** The result of an operation that acted at position i, if there is one: a copy of the record as it is now. */
    ghost predicate Reported(before: seq<Record>, i: nat, copy: Request?, initial: bool)
      reads this, copy, if copy == null then null else copy.crawlLog
    {
      && (copy != null <==> i < |before|)
      && (initial <==> i < |before| && i == 0)
      && (copy != null ==> i < |records| && copy.View() == records[i])
    }

    /** The change Observe makes; at is the request now holding the observation. */
    method Absorb(req: Request) returns (at: Request, ghost i: nat, added: bool)
      requires Valid() && req.info.id != ""
      modifies this, Repr
      ensures Valid() && i < |requests| && at == requests[i]
      ensures fresh(Repr - old(Repr))
      ensures i == IndexOf(old(records), old(req.info.id)) && (added <==> i == |old(records)|)
      ensures records ==
        if added then old(records) + [old(req.View())] else old(records)[i := Merge(old(records)[i], old(req.View()))]
    {
      i := IndexOf(records, req.info.id);
      PlacedIds(requests, byID, records, place, req.info.id);
      added := req.info.id !in byID;
      if added {
        at := Append(req);
      } else {
        at := byID[req.info.id];
        MergeInto(at, i, req);
      }
    }

    method Observe(req: Request) returns (copy: Request, added: bool)
      requires Valid() && req.info.id != ""
      modifies this, Repr
      ensures Valid() && fresh(Repr - old(Repr))
      ensures records == Apply(old(records), Op.Observe(old(req.View())))
      ensures added <==> !Has(old(records), old(req.info.id))
      ensures fresh(copy) && Detached(copy)
      ensures Has(records, old(req.info.id)) && copy.View() == records[IndexOf(records, old(req.info.id))]
    {
      ObservedAt(records, req.View());
      var at;
      ghost var i;
      at, i, added := Absorb(req);
      copy := CloneOut(at, i);
    }

    /** Changes the request at position i and reports it. */
    method ChangeAndReport(req: Request, ghost i: nat, change: Change) returns (copy: Request, initial: bool)
      requires Valid() && i < |requests| && requests[i] == req && !change.Merging?
      modifies this`records, this`Repr, req
      ensures Valid() && Repr == With(old(Repr), change.NewLog())
      ensures records == old(records)[i := ApplyEvent(old(records[i]), change.Meaning())]
      ensures fresh(copy) && Detached(copy) && copy.View() == records[i] && (initial <==> i == 0)
    {
      ChangeAt(req, i, change);
      copy, initial := MutationResult(req, i);
    }

    method Mutate(id: string, change: Change) returns (copy: Request?, initial: bool)
      requires Valid() && !change.Merging?
      modifies this`records, this`Repr, Repr
      ensures Valid() && (Repr == old(Repr) || Repr == With(old(Repr), change.NewLog()))
      ensures var i := IndexOf(old(records), id);
        && records ==
             (if i < |old(records)| then old(records)[i := ApplyEvent(old(records)[i], change.Meaning())]
              else old(records))
        && Reported(old(records), i, copy, initial)
      ensures copy != null ==> fresh(copy) && Detached(copy)
    {
      PlacedIds(requests, byID, records, place, id);
      if id !in byID {
        return null, false;
      }
      copy, initial := ChangeAndReport(byID[id], place[id], change);
    }

    method CloneLog(crawlLog: CrawlLog?) returns (log: CrawlLog?)
      requires Valid()
      ensures Valid() && (log == null <==> crawlLog == null)
      ensures log != null ==> fresh(log) && log.View() == crawlLog.View()
    {
      log := null;
      if crawlLog != null {
        log := crawlLog.Clone();
      }
    }

    method MarkNew(id: string) returns (copy: Request?, initial: bool)
      requires Valid()
      modifies this`records, this`Repr, Repr
      ensures Valid() && Repr == old(Repr) && records == Apply(old(records), Op.MarkNew(id))
      ensures Reported(old(records), IndexOf(old(records), id), copy, initial)
      ensures copy != null ==> fresh(copy) && Detached(copy)
    {
      MarkedAt(records, id);
      copy, initial := Mutate(id, Registering);
    }

    method MarkComplete(id: string) returns (copy: Request?, initial: bool)
      requires Valid()
      modifies this`records, this`Repr, Repr
      ensures Valid() && Repr == old(Repr) && records == Apply(old(records), Op.MarkComplete(id))
      ensures Reported(old(records), IndexOf(old(records), id), copy, initial)
      ensures copy != null ==> fresh(copy) && Detached(copy)
    {
      MarkedAt(records, id);
      copy, initial := Mutate(id, Finishing);
    }

    method Complete(id: string, crawlLog: CrawlLog?, cached: bool) returns (copy: Request?, initial: bool)
      requires Valid()
      modifies this`records, this`Repr, Repr
      ensures Valid() && fresh(Repr - old(Repr))
      ensures records ==
        Apply(old(records), Op.Complete(id, if crawlLog == null then None else Some(old(crawlLog.View())), cached))
      ensures Reported(old(records), IndexOf(old(records), id), copy, initial)
      ensures copy != null ==> fresh(copy) && Detached(copy)
    {
      ghost var logged := if crawlLog == null then None else Some(crawlLog.View());
      CompletedAt(records, id, logged, cached);
      var log := CloneLog(crawlLog);
      copy, initial := Mutate(id, Completing(log, cached));
    }

    method FindUnregistered(url: string) returns (n: nat)
      requires Valid()
      ensures Valid() && n == FirstUnregistered(records, url)
    {
      n := 0;
      while n < |requests| && !(requests[n].info.url == url && !requests[n].info.gotNew)
        invariant n <= FirstUnregistered(records, url) <= |requests|
      {
        n := n + 1;
      }
    }

    method MarkFirstUnregisteredCompleteByURL(url: string) returns (copy: Request?, initial: bool)
      requires Valid()
      modifies this`records, this`Repr, Repr
      ensures Valid() && Repr == old(Repr)
      ensures records == Apply(old(records), Op.MarkFirstUnregistered(url))
      ensures Reported(old(records), FirstUnregistered(old(records), url), copy, initial)
      ensures copy != null ==> fresh(copy) && Detached(copy)
    {
      UnregisteredAt(records, url);
      var n := FindUnregistered(url);
      if n == |requests| {
        return null, false;
      }
      copy, initial := ChangeAndReport(requests[n], n, Finishing);
    }

    method Remove(id: string) returns (copy: Request?, initial: bool)
      requires Valid()
      modifies this
      ensures Valid() && records == Apply(old(records), Op.Remove(id))
      ensures Repr == old(Repr)
      ensures copy != null <==> Has(old(records), id)
      ensures initial <==> copy != null && IndexOf(old(records), id) == 0
      ensures copy != null ==> fresh(copy) && Detached(copy)
      ensures copy != null ==> copy.View() == old(records)[IndexOf(old(records), id)]
    {
      PlacedIds(requests, byID, records, place, id);
      RemovedAt(records, id);
      copy, initial := null, false;
      if id in byID {
        copy, initial := RemoveFound(id, byID[id], place[id]);
      }
    }

    method RemoveFound(id: string, req: Request, ghost i: nat) returns (copy: Request, initial: bool)
      requires Valid() && id in place && i == place[id] == IndexOf(records, id) && req == requests[i]
      modifies this
      ensures Valid() && Repr == old(Repr)
      ensures records == old(records)[i := old(records)[|old(records)| - 1]][..|old(records)| - 1]
      ensures fresh(copy) && Detached(copy) && copy.View() == old(records)[i]
      ensures initial <==> i == 0
    {
      StandsOnce(i);
      initial := requests[0] == req;
      copy := CloneOut(req, i);
      Drop(id, i);
    }

    method Drop(id: string, ghost i: nat)
      requires Valid() && id in place && i == place[id]
      modifies this
      ensures Valid() && |requests| == |old(requests)| - 1
      ensures records == old(records)[i := old(records)[|old(records)| - 1]][..|old(records)| - 1]
      ensures Repr == old(Repr)
    {
      RemovePlaces(requests, byID, records, place, id);
      var n := 0;
      while requests[n].info.id != id
        invariant n <= i
        decreases i - n
      {
        n := n + 1;
      }
      assert requests[n].View() == records[n];
      SetList(requests[n := requests[|requests| - 1]][..|requests| - 1], map k | k in byID && k != id :: byID[k],
              records[i := records[|records| - 1]][..|records| - 1], Without(place, id, |requests|), Repr);
    }

    method Snapshot(id: string) returns (copy: Request?)
      requires Valid()
      ensures copy != null <==> Has(records, id)
      ensures copy != null ==> fresh(copy) && Detached(copy)
      ensures copy != null ==> copy.View() == records[IndexOf(records, id)]
    {
      PlacedIds(requests, byID, records, place, id);
      copy := null;
      if id in byID {
        copy := CloneOut(byID[id], place[id]);
      }
    }

    method BuildCrawlLogMatch() returns (m: Match)
      requires Valid()
      ensures m == MatchOf(records)
    {
      m := Match(0, 0, 0, 0, []);
      for n := 0 to |requests|
        invariant m == MatchOf(records[..n])
      {
        MatchSnoc(records[..n], records[n]);
        assert records[..n + 1] == records[..n] + [records[n]];
        assert requests[n].View() == records[n];
        m := Counted(m, requests[n].info, requests[n].crawlLog != null);
      }
      assert records[..|records|] == records;
    }

    /** True exactly when every request that blocks page completion has its crawl log. */
    method MatchCrawlLogs() returns (settled: bool)
      requires Valid()
      ensures settled <==>
        forall i :: 0 <= i < |records| && records[i].log.None? ==>
          !records[i].info.gotNew || WireName(records[i].info.resourceType) in NON_BLOCKING
    {
      SettledMeansResolved(records);
      var m := BuildCrawlLogMatch();
      MissingExactly(records);
      settled := m.unresolved == 0;
    }
  }
}
