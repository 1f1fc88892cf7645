/** How the browser controller follows redirects to the root request and gives each crawl log a discovery
    path, in one pass over the list of requests. Requests are named by their place in the list. */
module Discovery {
  import opened RequestRecords

  /** A later request with the same URL hides an earlier one; a request without URL is never found. */
  function LastWithURL(s: seq<Info>, url: string): (k: int)
    ensures -1 <= k < |s|
    ensures k >= 0 ==> |url| > 0 && s[k].url == url
    ensures forall j :: k < j < |s| && |url| > 0 ==> s[j].url != url
  {
    if s == [] then -1
    else if |url| > 0 && s[|s| - 1].url == url then |s| - 1
    else LastWithURL(s[..|s| - 1], url)
  }

  /** The request this one was redirected from, or -1. */
  function RedirectParent(s: seq<Info>, i: nat): (p: int)
    requires i < |s|
    ensures -1 <= p < |s| && p != i
    ensures p >= 0 ==> s[i].redirected && s[p].url == s[i].redirectFromURL != ""
    ensures p >= 0 ==> forall j :: p < j < |s| ==> s[j].url != s[p].url
  {
    if !s[i].redirected || |s[i].redirectFromURL| == 0 then -1
    else
      var p := LastWithURL(s, s[i].redirectFromURL);
      if p == i then -1 else p
  }

  // ---- the root request ----------------------------------------------------------------------------

  /** The root after the pass has seen the first k requests. */
  function RootAfter(s: seq<Info>, k: nat): (r: nat)
    requires k <= |s| && s != []
    ensures r < |s| && (r == 0 || r < k)
  {
    if k == 0 then 0
    else
      var r := RootAfter(s, k - 1);
      if RedirectParent(s, k - 1) == r then k - 1 else r
  }

  /** The first request after place i that was redirected from request i; the length when there is none. */
  function NextChild(s: seq<Info>, i: nat, from: nat): (j: nat)
    requires i < |s| && from <= |s|
    ensures from <= j <= |s|
    ensures forall k :: from <= k < j ==> RedirectParent(s, k) != i
    ensures j < |s| ==> RedirectParent(s, j) == i
    decreases |s| - from
  {
    if from == |s| || RedirectParent(s, from) == i then from else NextChild(s, i, from + 1)
  }

  /** Follows redirects forwards, taking the first later child each time. */
  function Follow(s: seq<Info>, i: nat): (r: nat)
    requires i < |s|
    ensures i <= r < |s|
    decreases |s| - i
  {
    var j := NextChild(s, i, i + 1);
    if j < |s| then Follow(s, j) else i
  }

  predicate RedirectedFromFirst(s: seq<Info>, i: nat)
    requires i < |s|
    decreases i
  {
    i == 0 || (0 <= RedirectParent(s, i) < i && RedirectedFromFirst(s, RedirectParent(s, i)))
  }

  lemma NextChildIs(s: seq<Info>, i: nat, from: nat, j: nat)
    requires i < |s| && from <= j <= |s| && (j < |s| ==> RedirectParent(s, j) == i)
    requires forall k :: from <= k < j ==> RedirectParent(s, k) != i
    ensures NextChild(s, i, from) == j
    decreases j - from
  {
    if from < j {
      NextChildIs(s, i, from + 1, j);
    }
  }

  lemma FollowOne(s: seq<Info>, r: nat, j: nat)
    requires r < j < |s| && RedirectParent(s, j) == r && NoneYet(s, r, j)
    ensures Follow(s, r) == Follow(s, j)
  {
    NextChildIs(s, r, r + 1, j);
  }

  /** So far, no later request was redirected from the root. */
  predicate NoneYet(s: seq<Info>, r: nat, k: nat)
    requires k <= |s|
  {
    forall j :: r < j < k ==> RedirectParent(s, j) != r
  }

  lemma {:induction false} PassFindsFirst(s: seq<Info>, k: nat)
    requires s != [] && k <= |s|
    ensures NoneYet(s, RootAfter(s, k), k)
  {
    if k > 0 {
      PassFindsFirst(s, k - 1);
    }
  }

  lemma {:induction false} PassStaysOnPath(s: seq<Info>, k: nat)
    requires s != [] && k <= |s|
    ensures Follow(s, RootAfter(s, k)) == Follow(s, 0)
  {
    if k > 0 {
      PassStaysOnPath(s, k - 1);
      var r := RootAfter(s, k - 1);
      if RedirectParent(s, k - 1) == r {
        PassFindsFirst(s, k - 1);
        FollowOne(s, r, k - 1);
      }
    }
  }

  lemma {:induction false} PassComesFromFirst(s: seq<Info>, k: nat)
    requires s != [] && k <= |s|
    ensures RedirectedFromFirst(s, RootAfter(s, k))
  {
    if k > 0 {
      PassComesFromFirst(s, k - 1);
    }
  }

  /** The one pass of resolveRootRequest ends where following redirects forwards ends: at a request reached
      from the first by redirects, which no later request was redirected from. */
  lemma {:induction false} RootIsFollowed(s: seq<Info>)
    requires s != []
    ensures var r := RootAfter(s, |s|);
      && r == Follow(s, 0) && RedirectedFromFirst(s, r)
      && forall j :: r < j < |s| ==> RedirectParent(s, j) != r
  {
    PassStaysOnPath(s, |s|);
    PassComesFromFirst(s, |s|);
    PassFindsFirst(s, |s|);
    var r := RootAfter(s, |s|);
    NextChildIs(s, r, r + 1, |s|);
  }

  predicate RedirectsGoForward(s: seq<Info>) { forall j :: 0 <= j < |s| ==> RedirectParent(s, j) < j }

  /** When every redirect comes after its source, nothing at all was redirected from the root. */
  lemma {:induction false} RootHasNoChild(s: seq<Info>)
    requires s != [] && RedirectsGoForward(s)
    ensures forall j :: 0 <= j < |s| ==> RedirectParent(s, j) != RootAfter(s, |s|)
  {
    RootIsFollowed(s);
  }

  // ---- discovery paths --------------------------------------------------------------------------------

  /** What one finalization works on: which requests have a crawl log, the discovery paths in those logs
      before it, and the discovery path of the requested URL. */
  datatype Page = Page(infos: seq<Info>, logged: seq<bool>, before: seq<string>, requested: string) {
    ghost predicate Valid() { |logged| == |infos| && |before| == |infos| }
    function Size(): nat { |infos| }
  }

  /** The request whose path is extended: the redirect source with a log, else the referrer with a log. */
  function Parent(p: Page, i: nat): (k: int)
    requires p.Valid() && i < p.Size()
    ensures -1 <= k < p.Size() && (k >= 0 ==> p.logged[k])
  {
    var r := RedirectParent(p.infos, i);
    var f := LastWithURL(p.infos, p.infos[i].referrer);
    if r >= 0 && p.logged[r] then r else if f >= 0 && p.logged[f] then f else -1
  }

  function DiscoveryType(p: Page, i: nat): (t: string)
    requires p.Valid() && i < p.Size()
    ensures i > 0 ==> |t| == 1
  {
    if i == 0 then p.requested
    else if p.infos[i].initiator == "script" then "X"
    else if RedirectParent(p.infos, i) >= 0 || p.infos[i].redirected then "R"
    else "E"
  }

  /** The discovery paths after the pass has seen the first k requests. */
  function Pass(p: Page, k: nat): (paths: seq<string>)
    requires p.Valid() && k <= p.Size()
    ensures |paths| == p.Size()
  {
    if k == 0 then p.before
    else
      var i, paths := k - 1, Pass(p, k - 1);
      if !p.logged[i] then paths
      else paths[i := (if Parent(p, i) >= 0 then paths[Parent(p, i)] else "") + DiscoveryType(p, i)]
  }

  function Paths(p: Page): seq<string>
    requires p.Valid()
  {
    Pass(p, p.Size())
  }

  lemma {:induction false} PassLeaves(p: Page, k: nat, n: nat, i: nat)
    requires p.Valid() && k <= n <= p.Size() && i < p.Size()
    requires i < k || n <= i || !p.logged[i]
    ensures Pass(p, n)[i] == Pass(p, k)[i]
    decreases n
  {
    if k < n {
      PassLeaves(p, k, n - 1, i);
    }
  }

  /** In general: a request extends the final path of an earlier parent, but the path a later parent had
      before the pass. */
  lemma OnePass(p: Page, i: nat)
    requires p.Valid() && i < p.Size() && p.logged[i]
    ensures var k := Parent(p, i);
      Paths(p)[i] ==
        (if k < 0 then "" else if k < i then Paths(p)[k] else p.before[k]) + DiscoveryType(p, i)
  {
    PassLeaves(p, i + 1, p.Size(), i);
    var k := Parent(p, i);
    if 0 <= k < i {
      PassLeaves(p, i, p.Size(), k);
    } else if k >= i {
      PassLeaves(p, 0, i, k);
    }
  }

  /** How a path ends: with the requested path for the first request, else with the step that led to the request, X
      for a script, R for a redirect, E for anything else embedded. */
  predicate EndsInStep(path: string, i: nat, info: Info, requested: string) {
    if i == 0 then |requested| <= |path| && path[|path| - |requested|..] == requested
    else
      && path != ""
      && (path[|path| - 1] == 'X' <==> info.initiator == "script")
      && (path[|path| - 1] == 'R' <==> info.initiator != "script" && info.redirected)
      && (path[|path| - 1] == 'E' <==> info.initiator != "script" && !info.redirected)
  }

  /** How a path begins: with the path of the redirect source if that has a log, else of the referrer if that has
      one, else with nothing. A source later in the list contributes the path it had before. */
  predicate BeginsAtSource(p: Page, i: nat)
    requires p.Valid() && i < p.Size()
  {
    var r, f := RedirectParent(p.infos, i), LastWithURL(p.infos, p.infos[i].referrer);
    var path, step := Paths(p)[i], if i == 0 then |p.requested| else 1;
    && |path| >= step
    && path[..|path| - step] ==
         if r >= 0 && p.logged[r] then (if r < i then Paths(p)[r] else p.before[r])
         else if f >= 0 && p.logged[f] then (if f < i then Paths(p)[f] else p.before[f])
         else ""
  }

  /** Every final path is the path of its source and one step. */
  lemma PathsTell(p: Page, i: nat)
    requires p.Valid() && i < p.Size() && p.logged[i]
    ensures EndsInStep(Paths(p)[i], i, p.infos[i], p.requested) && BeginsAtSource(p, i)
  {
    OnePass(p, i);
    var k, path, t := Parent(p, i), Paths(p)[i], DiscoveryType(p, i);
    var base := if k < 0 then "" else if k < i then Paths(p)[k] else p.before[k];
    assert path == base + t && path[|base|..] == t && path[..|base|] == base;
  }

  predicate ParentsFirst(p: Page)
    requires p.Valid()
  {
    forall i :: 0 <= i < p.Size() && p.logged[i] ==> Parent(p, i) < i
  }

  /** The path as the design describes it: the parent's path and one step. */
  function Path(p: Page, i: nat): string
    requires p.Valid() && ParentsFirst(p) && i < p.Size() && p.logged[i]
  {
    (if Parent(p, i) < 0 then "" else Path(p, Parent(p, i))) + DiscoveryType(p, i)
  }

  /** The single pass computes the recursive path whenever parents come first in the list. */
  lemma {:induction false} PassIsRecursive(p: Page, i: nat)
    requires p.Valid() && ParentsFirst(p) && i < p.Size() && p.logged[i]
    ensures Paths(p)[i] == Path(p, i)
  {
    OnePass(p, i);
    if Parent(p, i) >= 0 {
      PassIsRecursive(p, Parent(p, i));
    }
  }

  /** Every logged request's final path is its parent's final path and its own step. */
  predicate Chained(p: Page)
    requires p.Valid()
  {
    forall i :: 0 <= i < p.Size() && p.logged[i] ==>
      Paths(p)[i] == (if Parent(p, i) < 0 then "" else Paths(p)[Parent(p, i)]) + DiscoveryType(p, i)
  }

  /** Crawl logs arrive without a discovery path. */
  predicate Unset(p: Page) { forall i :: 0 <= i < |p.before| ==> p.before[i] == "" }

  predicate HarmlessSelfReferrer(p: Page, i: nat)
    requires p.Valid() && i < p.Size()
  {
    i == 0 && Parent(p, 0) == 0 && p.requested == ""
  }

  /** Exactly when the paths form chains: when parents come first, but for a first request that refers to
      itself and is requested with an empty path. */
  lemma ChainedIff(p: Page)
    requires p.Valid() && Unset(p)
    ensures Chained(p) <==>
      forall i :: 0 <= i < p.Size() && p.logged[i] ==> Parent(p, i) < i || HarmlessSelfReferrer(p, i)
  {
    forall i | 0 <= i < p.Size() && p.logged[i]
      ensures (Paths(p)[i] == (if Parent(p, i) < 0 then "" else Paths(p)[Parent(p, i)]) + DiscoveryType(p, i))
        <==> Parent(p, i) < i || HarmlessSelfReferrer(p, i)
    {
      OnePass(p, i);
      var k := Parent(p, i);
      if k >= i {
        OnePass(p, k);
        assert p.before[k] == "";
        assert |Paths(p)[i]| == |DiscoveryType(p, i)|;
      }
    }
  }
}
