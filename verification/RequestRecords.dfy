/** The browser controller's request records as values: what each registry operation does to the list
    of records, and what a record means in terms of everything that was reported about its request. */
module RequestRecords {
  import opened Common

  datatype Log = Log(warcId: string, referrer: string, discoveryPath: string)

  /** Everything in a request but its crawl log and its redirect parent. */
  datatype Info = Info(
    id: string, fetchRequestID: string, networkID: string,
    url: string, originalURL: string, httpMethod: string,
    resourceType: ResourceType, referrer: string, initiator: string,
    gotNew: bool, gotComplete: bool,
    redirected: bool, redirectFromURL: string, fromCache: bool)
  {
    predicate BlocksPageCompletion() { gotNew && resourceType.Blocks() }
  }

  datatype Record = Record(info: Info, log: Option<Log>) {
    predicate Unresolved() { info.BlocksPageCompletion() && log.None? }
  }

  /** A name that is neither empty nor one of the listed ones. */
  type OtherName = name: string | name != "" && name !in NON_BLOCKING witness "Document"

  const NON_BLOCKING := [
    "Ping", "EventSource", "WebSocket", "CSPViolationReport", "Preflight", "XHR",
    "Fetch", "Manifest", "SignedExchange", "FedCM", "Other", "Prefetch"]

  /** A resource type as the browser names it; NoType is the empty string, Named any name not listed here. */
  datatype ResourceType =
    | NoType
    | Ping | EventSource | WebSocket | CSPViolationReport | Preflight | XHR
    | Fetch | Manifest | SignedExchange | FedCM | Other | Prefetch
    | Named(name: OtherName)
  {
    predicate Blocks() { NoType? || Named? }
  }

  /** The name the browser gives a resource type, and the type it means by a name. */
  function WireName(t: ResourceType): string {
    match t
    case NoType => ""
    case Ping => "Ping"
    case EventSource => "EventSource"
    case WebSocket => "WebSocket"
    case CSPViolationReport => "CSPViolationReport"
    case Preflight => "Preflight"
    case XHR => "XHR"
    case Fetch => "Fetch"
    case Manifest => "Manifest"
    case SignedExchange => "SignedExchange"
    case FedCM => "FedCM"
    case Other => "Other"
    case Prefetch => "Prefetch"
    case Named(name) => name
  }

  function TypeNamed(name: string): ResourceType {
    if name == "" then NoType
    else if name == "Ping" then Ping
    else if name == "EventSource" then EventSource
    else if name == "WebSocket" then WebSocket
    else if name == "CSPViolationReport" then CSPViolationReport
    else if name == "Preflight" then Preflight
    else if name == "XHR" then XHR
    else if name == "Fetch" then Fetch
    else if name == "Manifest" then Manifest
    else if name == "SignedExchange" then SignedExchange
    else if name == "FedCM" then FedCM
    else if name == "Other" then Other
    else if name == "Prefetch" then Prefetch
    else Named(name)
  }

  /** Types and names are the same thing: no two types have the same name, and every name is that of a type. */
  lemma TypeOfName(t: ResourceType)
    ensures TypeNamed(WireName(t)) == t
  {
  }

  lemma NameOfType(name: string)
    ensures WireName(TypeNamed(name)) == name
  {
  }

  function Or(a: string, b: string): string { if |a| == 0 then b else a }
  function OrType(a: ResourceType, b: ResourceType): ResourceType { if a.NoType? then b else a }

  function MergeInfo(dst: Info, src: Info): Info {
    Info(
      Or(dst.id, src.id), Or(dst.fetchRequestID, src.fetchRequestID), Or(dst.networkID, src.networkID),
      Or(src.url, dst.url),
      if |src.url| > 0 && |dst.originalURL| == 0 then src.url else dst.originalURL,
      Or(dst.httpMethod, src.httpMethod),
      OrType(dst.resourceType, src.resourceType), Or(dst.referrer, src.referrer), Or(dst.initiator, src.initiator),
      dst.gotNew || src.gotNew, dst.gotComplete || src.gotComplete,
      dst.redirected || src.redirected,
      if src.redirected && |dst.redirectFromURL| == 0 then src.redirectFromURL else dst.redirectFromURL,
      dst.fromCache || src.fromCache)
  }

  function Merge(dst: Record, src: Record): Record {
    Record(MergeInfo(dst.info, src.info), if dst.log.None? then src.log else dst.log)
  }

  function Completed(rec: Record, log: Option<Log>, cached: bool): Record {
    Record(rec.info.(gotComplete := true, fromCache := rec.info.fromCache || cached), log)
  }

  // ---- the list of records ------------------------------------------------------------------------

  datatype Op =
    | Observe(seen: Record)
    | Remove(id: string)
    | MarkNew(id: string)
    | MarkComplete(id: string)
    | MarkFirstUnregistered(url: string)
    | Complete(id: string, log: Option<Log>, cached: bool)

  function IndexOf(s: seq<Record>, id: string): (i: nat)
    ensures i <= |s| && (forall j :: 0 <= j < i ==> s[j].info.id != id) && (i < |s| ==> s[i].info.id == id)
  {
    if s == [] then 0 else if s[0].info.id == id then 0 else 1 + IndexOf(s[1..], id)
  }

  function FirstUnregistered(s: seq<Record>, url: string): (i: nat)
    ensures i <= |s| && (forall j :: 0 <= j < i ==> !(s[j].info.url == url && !s[j].info.gotNew))
    ensures i < |s| ==> s[i].info.url == url && !s[i].info.gotNew
  {
    if s == [] then 0 else if s[0].info.url == url && !s[0].info.gotNew then 0 else 1 + FirstUnregistered(s[1..], url)
  }

  /** The position the operation acts on; the length of the list when there is none. */
  function Target(s: seq<Record>, op: Op): (i: nat)
    ensures i <= |s|
  {
    match op
    case Observe(seen) => IndexOf(s, seen.info.id)
    case Remove(id) => IndexOf(s, id)
    case MarkNew(id) => IndexOf(s, id)
    case MarkComplete(id) => IndexOf(s, id)
    case MarkFirstUnregistered(url) => FirstUnregistered(s, url)
    case Complete(id, _, _) => IndexOf(s, id)
  }

  function Changed(rec: Record, op: Op): Record {
    match op
    case Observe(seen) => Merge(rec, seen)
    case Remove(_) => rec
    case MarkNew(_) => rec.(info := rec.info.(gotNew := true))
    case MarkComplete(_) => rec.(info := rec.info.(gotComplete := true))
    case MarkFirstUnregistered(_) => rec.(info := rec.info.(gotComplete := true))
    case Complete(_, log, cached) => Completed(rec, log, cached)
  }

  /** Removal moves the last record into the hole. */
  function Apply(s: seq<Record>, op: Op): seq<Record> {
    var i := Target(s, op);
    if i == |s| then (if op.Observe? then s + [op.seen] else s)
    else if op.Remove? then s[i := s[|s| - 1]][..|s| - 1]
    else s[i := Changed(s[i], op)]
  }

  function Run(ops: seq<Op>): seq<Record> {
    if ops == [] then [] else Apply(Run(ops[..|ops| - 1]), ops[|ops| - 1])
  }

  /** The registry refuses, by a panic, a request without an id. */
  predicate Canonical(ops: seq<Op>) { forall k :: 0 <= k < |ops| && ops[k].Observe? ==> ops[k].seen.info.id != "" }

  predicate DistinctIds(s: seq<Record>) {
    && (forall i :: 0 <= i < |s| ==> s[i].info.id != "")
    && (forall i, j :: 0 <= i < j < |s| ==> s[i].info.id != s[j].info.id)
  }

  predicate Has(s: seq<Record>, id: string) { IndexOf(s, id) < |s| }

  lemma IndexUnique(s: seq<Record>, i: nat)
    requires DistinctIds(s) && i < |s|
    ensures IndexOf(s, s[i].info.id) == i
  {
  }

  lemma ApplyKeepsIds(s: seq<Record>, op: Op)
    requires DistinctIds(s) && (op.Observe? ==> op.seen.info.id != "")
    ensures DistinctIds(Apply(s, op))
  {
  }

  // ---- the history of a request -----------------------------------------------------------------

  datatype Event = Seen(rec: Record) | Registered | Done | Finished(log: Option<Log>, cached: bool)

  /** What the operation tells about the request with this id, in this state of the list. */
  function Told(s: seq<Record>, op: Op, id: string): Option<Event> {
    match op
    case Observe(seen) => if seen.info.id == id then Some(Seen(seen)) else None
    case Remove(_) => None
    case MarkNew(x) => if x == id && Has(s, id) then Some(Registered) else None
    case MarkComplete(x) => if x == id && Has(s, id) then Some(Done) else None
    case MarkFirstUnregistered(url) =>
      var i := FirstUnregistered(s, url);
      if i < |s| && s[i].info.id == id then Some(Done) else None
    case Complete(x, log, cached) => if x == id && Has(s, id) then Some(Finished(log, cached)) else None
  }

  /** Everything reported about the request since it was last removed. */
  function History(ops: seq<Op>, id: string): seq<Event> {
    if ops == [] then []
    else
      var before, op := ops[..|ops| - 1], ops[|ops| - 1];
      if op.Remove? && op.id == id then []
      else match Told(Run(before), op, id)
        case None => History(before, id)
        case Some(e) => History(before, id) + [e]
  }

  // ---- the meaning of a history --------------------------------------------------------------------

  datatype Field = Id | FetchRequestID | NetworkID | URL | Method | Referrer | Initiator | RedirectFrom

  function Get(rec: Record, f: Field): string {
    match f
    case Id => rec.info.id
    case FetchRequestID => rec.info.fetchRequestID
    case NetworkID => rec.info.networkID
    case URL => rec.info.url
    case Method => rec.info.httpMethod
    case Referrer => rec.info.referrer
    case Initiator => rec.info.initiator
    case RedirectFrom => rec.info.redirectFromURL
  }

  /** The text an event reports; a redirect source counts only in a redirected observation. */
  function Text(e: Event, f: Field): string {
    if e.Seen? && (f.RedirectFrom? ==> e.rec.info.redirected) then Get(e.rec, f) else ""
  }

  function First(h: seq<Event>, f: Field): string {
    if h == [] then "" else Or(Text(h[0], f), First(h[1..], f))
  }

  function Last(h: seq<Event>, f: Field): string {
    if h == [] then "" else Or(Last(h[1..], f), Text(h[0], f))
  }

  function FirstType(h: seq<Event>): ResourceType {
    if h == [] then NoType else OrType(if h[0].Seen? then h[0].rec.info.resourceType else NoType, FirstType(h[1..]))
  }

  function FirstLog(h: seq<Event>): Option<Log> {
    if h == [] then None
    else if h[0].Seen? && h[0].rec.log.Some? then h[0].rec.log
    else FirstLog(h[1..])
  }

  /** The events after the last completion report. */
  function AfterCompletion(h: seq<Event>): seq<Event> {
    if h == [] then [] else if exists k :: 1 <= k < |h| && h[k].Finished? then AfterCompletion(h[1..])
    else if h[0].Finished? then h[1..] else h
  }

  /** The log of the last completion report; the first log observed after it when it carried none. */
  function LogOf(h: seq<Event>): Option<Log> {
    var rest := AfterCompletion(h);
    if |rest| < |h| && Completion(h[|h| - |rest| - 1]).Some? then Completion(h[|h| - |rest| - 1]) else FirstLog(rest)
  }

  function Completion(e: Event): Option<Log> { if e.Finished? then e.log else None }

  predicate EverNew(h: seq<Event>) {
    exists k :: 0 <= k < |h| && (h[k].Registered? || (h[k].Seen? && h[k].rec.info.gotNew))
  }
  predicate EverComplete(h: seq<Event>) {
    exists k :: 0 <= k < |h| && (h[k].Done? || h[k].Finished? || (h[k].Seen? && h[k].rec.info.gotComplete))
  }
  predicate EverCached(h: seq<Event>) {
    exists k :: 0 <= k < |h| && ((h[k].Finished? && h[k].cached) || (h[k].Seen? && h[k].rec.info.fromCache))
  }
  predicate EverRedirected(h: seq<Event>) { exists k :: 0 <= k < |h| && h[k].Seen? && h[k].rec.info.redirected }

  ghost predicate MeansNames(i: Info, h: seq<Event>) {
    && i.id == First(h, Id) && i.fetchRequestID == First(h, FetchRequestID) && i.networkID == First(h, NetworkID)
    && i.httpMethod == First(h, Method) && i.resourceType == FirstType(h)
    && i.referrer == First(h, Referrer) && i.initiator == First(h, Initiator)
  }

  ghost predicate MeansURLs(i: Info, h: seq<Event>)
    requires h != [] && h[0].Seen?
  {
    && i.url == Last(h, URL)
    && i.originalURL == Or(h[0].rec.info.originalURL, First(h[1..], URL))
    && i.redirectFromURL == Or(h[0].rec.info.redirectFromURL, First(h[1..], RedirectFrom))
  }

  ghost predicate MeansFlags(i: Info, h: seq<Event>) {
    && (i.gotNew <==> EverNew(h)) && (i.gotComplete <==> EverComplete(h))
    && (i.fromCache <==> EverCached(h)) && (i.redirected <==> EverRedirected(h))
  }

  /** A record, told from its history. The observation that added it sets the original URL and the
      redirect source as they are; afterwards the first text that arrives fills a gap, and the
      original URL is filled from the URL of a later observation only. */
  ghost predicate Means(rec: Record, h: seq<Event>)
    requires h != [] && h[0].Seen?
  {
    MeansNames(rec.info, h) && MeansURLs(rec.info, h) && MeansFlags(rec.info, h) && rec.log == LogOf(h)
  }

  lemma {:induction false} FirstSnoc(h: seq<Event>, e: Event, f: Field)
    ensures First(h + [e], f) == Or(First(h, f), Text(e, f))
  {
    if h == [] {
      assert First([e][1..], f) == "";
    } else {
      assert (h + [e])[1..] == h[1..] + [e];
      FirstSnoc(h[1..], e, f);
    }
  }

  lemma {:induction false} FirstTypeSnoc(h: seq<Event>, e: Event)
    ensures FirstType(h + [e]) == OrType(FirstType(h), if e.Seen? then e.rec.info.resourceType else NoType)
  {
    if h == [] {
      assert FirstType([e][1..]) == NoType;
    } else {
      assert (h + [e])[1..] == h[1..] + [e];
      FirstTypeSnoc(h[1..], e);
    }
  }

  lemma {:induction false} LastSnoc(h: seq<Event>, e: Event, f: Field)
    ensures Last(h + [e], f) == Or(Text(e, f), Last(h, f))
  {
    if h == [] {
      assert Last([e][1..], f) == "";
    } else {
      assert (h + [e])[1..] == h[1..] + [e];
      LastSnoc(h[1..], e, f);
    }
  }

  lemma {:induction false} FirstLogSnoc(h: seq<Event>, e: Event)
    ensures FirstLog(h + [e]) ==
      if FirstLog(h).Some? then FirstLog(h) else if e.Seen? then e.rec.log else None
  {
    if h == [] {
      assert FirstLog([e][1..]) == None;
    } else {
      assert (h + [e])[1..] == h[1..] + [e];
      FirstLogSnoc(h[1..], e);
    }
  }

  /** The events after the last completion are a suffix that holds none, just after the last one. */
  lemma {:induction false} AfterCompletionIs(h: seq<Event>)
    ensures |AfterCompletion(h)| <= |h| && AfterCompletion(h) == h[|h| - |AfterCompletion(h)|..]
    ensures forall k :: |h| - |AfterCompletion(h)| <= k < |h| ==> !h[k].Finished?
    ensures |AfterCompletion(h)| < |h| ==> h[|h| - |AfterCompletion(h)| - 1].Finished?
  {
    if h != [] && exists k :: 1 <= k < |h| && h[k].Finished? {
      var k :| 1 <= k < |h| && h[k].Finished?;
      AfterCompletionIs(h[1..]);
      assert h[1..][k - 1].Finished?;
      assert forall k :: 1 <= k < |h| ==> h[k] == h[1..][k - 1];
      SuffixOfSuffix(h, AfterCompletion(h[1..]));
    }
  }

  lemma SuffixOfSuffix(h: seq<Event>, t: seq<Event>)
    requires h != [] && |t| <= |h| - 1 && t == h[1..][|h| - 1 - |t|..]
    ensures t == h[|h| - |t|..]
  {
  }

  /** The description determines the suffix. */
  lemma AfterCompletionUnique(h: seq<Event>, n: nat)
    requires n <= |h| && (forall k :: n <= k < |h| ==> !h[k].Finished?) && (n > 0 ==> h[n - 1].Finished?)
    ensures AfterCompletion(h) == h[n..]
  {
    AfterCompletionIs(h);
    SamePlace(h, |h| - |AfterCompletion(h)|, n);
  }

  lemma SamePlace(h: seq<Event>, m: nat, n: nat)
    requires m <= |h| && (forall k :: m <= k < |h| ==> !h[k].Finished?) && (m > 0 ==> h[m - 1].Finished?)
    requires n <= |h| && (forall k :: n <= k < |h| ==> !h[k].Finished?) && (n > 0 ==> h[n - 1].Finished?)
    ensures m == n
  {
  }

  lemma LogSnoc(h: seq<Event>, e: Event)
    ensures LogOf(h + [e]) ==
      if e.Finished? then e.log
      else if LogOf(h).Some? then LogOf(h)
      else if e.Seen? then e.rec.log else None
  {
    var g := h + [e];
    AfterCompletionIs(h);
    var n := |h| - |AfterCompletion(h)|;
    if e.Finished? {
      AfterCompletionUnique(g, |g|);
      assert FirstLog([]) == None;
    } else {
      AfterCompletionUnique(g, n);
      assert g[n..] == h[n..] + [e];
      FirstLogSnoc(h[n..], e);
    }
  }

  lemma EverSnoc(h: seq<Event>, e: Event)
    ensures EverNew(h + [e]) <==> EverNew(h) || e.Registered? || (e.Seen? && e.rec.info.gotNew)
    ensures EverComplete(h + [e]) <==> EverComplete(h) || e.Done? || e.Finished? || (e.Seen? && e.rec.info.gotComplete)
    ensures EverCached(h + [e]) <==> EverCached(h) || (e.Finished? && e.cached) || (e.Seen? && e.rec.info.fromCache)
    ensures EverRedirected(h + [e]) <==> EverRedirected(h) || (e.Seen? && e.rec.info.redirected)
  {
    var g := h + [e];
    assert g[|h|] == e && forall k :: 0 <= k < |h| ==> g[k] == h[k];
  }

  function ApplyEvent(rec: Record, e: Event): Record {
    match e
    case Seen(seen) => Merge(rec, seen)
    case Registered => rec.(info := rec.info.(gotNew := true))
    case Done => rec.(info := rec.info.(gotComplete := true))
    case Finished(log, cached) => Completed(rec, log, cached)
  }

  lemma NamesSnoc(rec: Record, h: seq<Event>, e: Event)
    requires MeansNames(rec.info, h)
    ensures MeansNames(ApplyEvent(rec, e).info, h + [e])
  {
    forall f: Field ensures First(h + [e], f) == Or(First(h, f), Text(e, f)) { FirstSnoc(h, e, f); }
    FirstTypeSnoc(h, e);
  }

  lemma URLsSnoc(rec: Record, h: seq<Event>, e: Event)
    requires h != [] && h[0].Seen? && MeansURLs(rec.info, h)
    ensures MeansURLs(ApplyEvent(rec, e).info, h + [e])
  {
    assert (h + [e])[1..] == h[1..] + [e];
    FirstSnoc(h[1..], e, URL);
    FirstSnoc(h[1..], e, RedirectFrom);
    LastSnoc(h, e, URL);
  }

  lemma FlagsSnoc(rec: Record, h: seq<Event>, e: Event)
    requires MeansFlags(rec.info, h)
    ensures MeansFlags(ApplyEvent(rec, e).info, h + [e])
  {
    EverSnoc(h, e);
  }

  /** One more event changes the meaning as the operation changes the record. */
  lemma MeaningSnoc(rec: Record, h: seq<Event>, e: Event)
    requires h != [] && h[0].Seen? && Means(rec, h)
    ensures Means(ApplyEvent(rec, e), h + [e])
  {
    NamesSnoc(rec, h, e);
    URLsSnoc(rec, h, e);
    FlagsSnoc(rec, h, e);
    LogSnoc(h, e);
  }

  lemma MeaningOne(rec: Record)
    ensures Means(rec, [Seen(rec)])
  {
    var e := Seen(rec);
    assert [] + [e] == [e];
    forall f: Field ensures First([e], f) == Text(e, f) && Last([e], f) == Text(e, f) {
      FirstSnoc([], e, f);
      LastSnoc([], e, f);
    }
    assert [e][1..] == [];
    FirstTypeSnoc([], e);
    LogSnoc([], e);
    assert LogOf([]) == None;
    EverSnoc([], e);
  }

  // ---- theorems ----------------------------------------------------------------------------------

  /** The other operations keep every id at its place. */
  lemma OthersKeepPlaces(s: seq<Record>, op: Op, i: nat)
    requires DistinctIds(s) && !op.Remove? && i < |s|
    ensures i < |Apply(s, op)| && Apply(s, op)[i].info.id == s[i].info.id
    ensures |Apply(s, op)| == |s| + (if op.Observe? && !Has(s, op.seen.info.id) then 1 else 0)
    ensures i != Target(s, op) ==> Apply(s, op)[i] == s[i]
  {
  }

  /** What one operation does to the record with a given id. */
  lemma ApplyTells(s: seq<Record>, op: Op, id: string)
    requires DistinctIds(s) && (op.Observe? ==> op.seen.info.id != "") && id != ""
    ensures op.Remove? && op.id == id ==> !Has(Apply(s, op), id)
    ensures !(op.Remove? && op.id == id) && !Has(s, id) ==>
      if op.Observe? && op.seen.info.id == id then
        var t := Apply(s, op); Told(s, op, id) == Some(Seen(op.seen)) && Has(t, id) && t[IndexOf(t, id)] == op.seen
      else Told(s, op, id).None? && !Has(Apply(s, op), id)
    ensures !(op.Remove? && op.id == id) && Has(s, id) ==>
      var t := Apply(s, op); var told := Told(s, op, id);
      Has(t, id) && t[IndexOf(t, id)] ==
        if told.None? then s[IndexOf(s, id)] else ApplyEvent(s[IndexOf(s, id)], told.value)
  {
    ApplyKeepsIds(s, op);
    if op.Remove? {
      RemoveTells(s, op.id, id);
    } else if Has(s, id) {
      OthersKeepPlaces(s, op, IndexOf(s, id));
      IndexUnique(Apply(s, op), IndexOf(s, id));
    } else if op.Observe? && op.seen.info.id == id {
      IndexUnique(Apply(s, op), |s|);
    }
  }

  lemma RemoveTells(s: seq<Record>, gone: string, id: string)
    requires DistinctIds(s)
    ensures var t := Apply(s, Remove(gone));
      if id == gone || !Has(s, id) then !Has(t, id) else Has(t, id) && t[IndexOf(t, id)] == s[IndexOf(s, id)]
  {
    var t := Apply(s, Remove(gone));
    ApplyKeepsIds(s, Remove(gone));
    if id != gone && Has(s, id) {
      var i, j := IndexOf(s, gone), IndexOf(s, id);
      IndexUnique(t, if i < |s| && j == |s| - 1 then i else j);
    }
  }

  lemma {:induction false} RunKeepsIds(ops: seq<Op>)
    requires Canonical(ops)
    ensures DistinctIds(Run(ops))
  {
    if ops != [] {
      var before, op := ops[..|ops| - 1], ops[|ops| - 1];
      RunKeepsIds(before);
      ApplyKeepsIds(Run(before), op);
    }
  }

  /** The registry refines the histories: after any operations, a request is in the list exactly when
      something was reported since its last removal, and its record is what that history means. */
  lemma {:induction false} RecordMeansHistory(ops: seq<Op>, id: string)
    requires Canonical(ops) && id != ""
    ensures Has(Run(ops), id) <==> History(ops, id) != []
    ensures Has(Run(ops), id) ==> History(ops, id)[0].Seen? && Means(Run(ops)[IndexOf(Run(ops), id)], History(ops, id))
  {
    if ops != [] {
      var before, op := ops[..|ops| - 1], ops[|ops| - 1];
      assert op.Observe? ==> op.seen.info.id != "";
      var s := Run(before);
      RunKeepsIds(before);
      RecordMeansHistory(before, id);
      ApplyTells(s, op, id);
      if Has(s, id) {
        if Told(s, op, id).Some? {
          MeaningSnoc(s[IndexOf(s, id)], History(before, id), Told(s, op, id).value);
        }
      } else if op.Observe? && op.seen.info.id == id {
        MeaningOne(op.seen);
        assert [] + [Seen(op.seen)] == [Seen(op.seen)];
      }
    }
  }

  /** Removal takes out the one record and nothing else, and only the removal of the first record
      changes which record is first: then it is the one that was last. */
  lemma {:induction false} RemovalKeepsTheRest(s: seq<Record>, id: string)
    requires DistinctIds(s) && Has(s, id)
    ensures multiset(Apply(s, Remove(id))) == multiset(s) - multiset{s[IndexOf(s, id)]}
    ensures |Apply(s, Remove(id))| == |s| - 1
    ensures |s| > 1 ==> Apply(s, Remove(id))[0] == if s[0].info.id == id then s[|s| - 1] else s[0]
  {
    SwapRemoval(s, IndexOf(s, id));
  }

  lemma SwapRemoval<T>(s: seq<T>, i: nat)
    requires i < |s|
    ensures multiset(s[i := s[|s| - 1]][..|s| - 1]) == multiset(s) - multiset{s[i]}
  {
    var one := multiset{s[|s| - 1]};
    var u := s[i := s[|s| - 1]];
    var rest, wanted := multiset(u[..|s| - 1]), multiset(s) - multiset{s[i]};
    assert u == u[..|s| - 1] + [s[|s| - 1]];
    assert multiset(u) == rest + one == wanted + one;
    assert rest == rest + one - one && wanted == wanted + one - one;
  }
}
