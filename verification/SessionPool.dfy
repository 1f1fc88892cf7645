/** The pool of browser session ids and the controller loop that takes sessions from it, fetches pages with
    them and gives them back. */
module SessionPool {
  import opened Common

  /** serial numbers the sessions in the order they were made. */
  datatype Session = Session(serial: nat, accepting: bool)

  /** max sessions, ids 1 to max - 1; free is the channel, active the wait group. */
  datatype Pool = Pool(max: nat, free: seq<nat>, slots: seq<Option<Session>>, active: int, made: nat) {
    predicate Sized() { |slots| == max && max >= 1 }

    function Take(): Pool
      requires free != []
    {
      this.(free := free[1..], active := active + 1)
    }

    function Store(id: nat): Pool
      requires id < |slots|
    {
      this.(slots := slots[id := Some(Session(made, false))], made := made + 1)
    }

    function SetAccepting(id: nat, on: bool): Pool
      requires id < |slots|
    {
      if slots[id].Some? then this.(slots := slots[id := Some(slots[id].value.(accepting := on))]) else this
    }

    function Release(id: nat): Pool
      requires id < |slots|
    {
      this.(slots := slots[id := None], free := free + [id], active := active - 1)
    }

    function GetActive(id: int): Option<Session> {
      if 0 <= id < |slots| && slots[id].Some? && slots[id].value.accepting then slots[id] else None
    }
  }

  /** 1, 2, ..., n - 1 */
  function Below(n: nat): (ids: seq<nat>)
    ensures |ids| == if n == 0 then 0 else n - 1
    ensures forall k :: 0 <= k < |ids| ==> ids[k] == k + 1
  {
    if n <= 1 then [] else Below(n - 1) + [n - 1]
  }

  function NewPool(max: nat): Pool
    requires max >= 1
  {
    Pool(max, Below(max), seq(max, _ => None), 0, 0)
  }

  // ---- Run and RunFetch -------------------------------------------------------------------------------

  datatype NoPage = Canceled | NotFound | OtherError

  /** Where the loop of Run is. */
  datatype Loop =
    | Top
    | Acquiring
    | Took(id: nat)
    | Has(id: nat, serial: nat)
    | Dropping(id: nat, serial: nat, why: NoPage)
    | BackingOff
    | Leaving
    | Returned

  /** A goroutine running RunFetch; the k-th one works on the k-th page obtained. */
  datatype Phase = Fetching | Reporting | Draining | Gone
  datatype Worker = Worker(id: nat, serial: nat, phase: Phase)

  datatype State = State(
    pool: Pool, loop: Loop, workers: seq<Worker>,
    released: seq<nat>,       // serials, in the order they were released
    reported: seq<nat>)       // pages, in the order PageCompleted was called for them

  datatype Event =
    | ContextCheck(over: bool)
    | AcquireFails
    | Receive
    | MakeSession
    | PageArrives
    | PageFails(why: NoPage)
    | GiveBack
    | BackoffEnds(over: bool)
    | Accepting(k: nat, on: bool)
    | FetchEnds(k: nat)
    | PageCompleted(k: nat)
    | ReleaseSession(k: nat)
    | AllDone

  predicate Works(s: State, k: nat, phase: Phase) { k < |s.workers| && s.workers[k].phase == phase }

  predicate Enabled(s: State, e: Event) {
    match e
    case ContextCheck(_) => s.loop.Top?
    case AcquireFails => s.loop.Acquiring?
    case Receive => s.loop.Acquiring? && s.pool.free != []
    case MakeSession => s.loop.Took?
    case PageArrives => s.loop.Has?
    case PageFails(_) => s.loop.Has?
    case GiveBack => s.loop.Dropping? && |s.pool.free| < s.pool.max - 1
    case BackoffEnds(_) => s.loop.BackingOff?
    case Accepting(k, _) => Works(s, k, Fetching)
    case FetchEnds(k) => Works(s, k, Fetching)
    case PageCompleted(k) => Works(s, k, Reporting)
    case ReleaseSession(k) => Works(s, k, Draining) && |s.pool.free| < s.pool.max - 1
    case AllDone => s.loop.Leaving? && forall k :: 0 <= k < |s.workers| ==> s.workers[k].phase.Gone?
  }


  function SetPhase(ws: seq<Worker>, k: nat, phase: Phase): seq<Worker>
    requires k < |ws|
  {
    ws[k := ws[k].(phase := phase)]
  }

  ghost predicate Shaped(s: State) {
    && s.pool.Sized()
    && (s.loop.Took? || s.loop.Has? || s.loop.Dropping? ==> 1 <= s.loop.id < s.pool.max)
    && forall k :: 0 <= k < |s.workers| ==> 1 <= s.workers[k].id < s.pool.max
  }

  ghost function Step(s: State, e: Event): State
    requires Shaped(s)
  {
    if !Enabled(s, e) then s
    else match e
      case ContextCheck(over) => s.(loop := if over then Leaving else Acquiring)
      case AcquireFails => s.(loop := Leaving)
      case Receive => s.(pool := s.pool.Take(), loop := Took(s.pool.free[0]))
      case MakeSession => s.(pool := s.pool.Store(s.loop.id), loop := Has(s.loop.id, s.pool.made))
      case PageArrives => s.(loop := Top, workers := s.workers + [Worker(s.loop.id, s.loop.serial, Fetching)])
      case PageFails(why) => s.(loop := Dropping(s.loop.id, s.loop.serial, why))
      case GiveBack =>
        s.(pool := s.pool.Release(s.loop.id), released := s.released + [s.loop.serial],
           loop := if s.loop.why.NotFound? then BackingOff else Leaving)
      case BackoffEnds(over) => s.(loop := if over then Leaving else Top)
      case Accepting(k, on) => s.(pool := s.pool.SetAccepting(s.workers[k].id, on))
      case FetchEnds(k) =>
        s.(pool := s.pool.SetAccepting(s.workers[k].id, false), workers := SetPhase(s.workers, k, Reporting))
      case PageCompleted(k) => s.(reported := s.reported + [k], workers := SetPhase(s.workers, k, Draining))
      case ReleaseSession(k) =>
        s.(pool := s.pool.Release(s.workers[k].id), released := s.released + [s.workers[k].serial],
           workers := SetPhase(s.workers, k, Gone))
      case AllDone => s.(loop := Returned)
  }

  function Start(max: nat): State
    requires max >= 1
  {
    State(NewPool(max), Top, [], [], [])
  }

  // ---- what is held --------------------------------------------------------------------------------

  /** What is handed around: session ids, sessions, and pages not yet reported. */
  datatype Kind = Ids | Serials | Pages

  function Holds(kind: Kind, k: nat, w: Worker, x: nat): nat {
    match kind
    case Ids => if !w.phase.Gone? && w.id == x then 1 else 0
    case Serials => if !w.phase.Gone? && w.serial == x then 1 else 0
    case Pages => if (w.phase.Fetching? || w.phase.Reporting?) && k == x then 1 else 0
  }

  function LoopHolds(kind: Kind, l: Loop, x: nat): nat {
    match kind
    case Ids => if (l.Took? || l.Has? || l.Dropping?) && l.id == x then 1 else 0
    case Serials => if (l.Has? || l.Dropping?) && l.serial == x then 1 else 0
    case Pages => 0
  }

  function WorkersHold(kind: Kind, ws: seq<Worker>, x: nat): nat {
    if ws == [] then 0 else WorkersHold(kind, ws[..|ws| - 1], x) + Holds(kind, |ws| - 1, ws[|ws| - 1], x)
  }

  /** Where a thing is once it is given back: the channel, the released sessions, the reported pages. */
  function GivenBack(kind: Kind, s: State): seq<nat> {
    match kind
    case Ids => s.pool.free
    case Serials => s.released
    case Pages => s.reported
  }

  predicate Exists(kind: Kind, s: State, x: nat) {
    match kind
    case Ids => 1 <= x < s.pool.max
    case Serials => x < s.pool.made
    case Pages => x < |s.workers|
  }

  /** The thing is in exactly one place, if it exists: given back, with the loop, or with one worker. */
  predicate InOnePlace(kind: Kind, s: State, x: nat) {
    multiset(GivenBack(kind, s))[x] + LoopHolds(kind, s.loop, x) + WorkersHold(kind, s.workers, x)
      == if Exists(kind, s, x) then 1 else 0
  }

  function Working(ws: seq<Worker>): nat {
    if ws == [] then 0 else Working(ws[..|ws| - 1]) + (if ws[|ws| - 1].phase.Gone? then 0 else 1)
  }

  /** How many sessions are out. */
  function Out(s: State): nat {
    (if s.loop.Took? || s.loop.Has? || s.loop.Dropping? then 1 else 0) + Working(s.workers)
  }

  ghost predicate Conserved(s: State) {
    && (forall kind, x :: InOnePlace(kind, s, x))
    && s.pool.active == Out(s) && |s.pool.free| + Out(s) == s.pool.max - 1
  }

  lemma {:induction false} BelowCounts(n: nat, x: nat)
    ensures multiset(Below(n))[x] == if 1 <= x < n then 1 else 0
  {
    if n > 1 {
      BelowCounts(n - 1, x);
    }
  }

  lemma WorkersSnoc(kind: Kind, ws: seq<Worker>, w: Worker, x: nat)
    ensures WorkersHold(kind, ws + [w], x) == WorkersHold(kind, ws, x) + Holds(kind, |ws|, w, x)
    ensures Working(ws + [w]) == Working(ws) + if w.phase.Gone? then 0 else 1
  {
    assert (ws + [w])[..|ws|] == ws;
  }

  lemma {:induction false} WorkersUpdate(kind: Kind, ws: seq<Worker>, k: nat, w: Worker, x: nat)
    requires k < |ws|
    ensures WorkersHold(kind, ws[k := w], x) + Holds(kind, k, ws[k], x)
      == WorkersHold(kind, ws, x) + Holds(kind, k, w, x)
  {
    var n := |ws| - 1;
    if k < n {
      WorkersUpdate(kind, ws[..n], k, w, x);
      assert ws[k := w][..n] == ws[..n][k := w];
    } else {
      assert ws[k := w][..n] == ws[..n];
    }
  }

  lemma {:induction false} WorkingUpdate(ws: seq<Worker>, k: nat, w: Worker)
    requires k < |ws| && !ws[k].phase.Gone?
    ensures Working(ws[k := w]) == Working(ws) - if w.phase.Gone? then 1 else 0
    ensures Working(ws) >= 1
  {
    var n := |ws| - 1;
    if k < n {
      WorkingUpdate(ws[..n], k, w);
      assert ws[k := w][..n] == ws[..n][k := w];
    } else {
      assert ws[k := w][..n] == ws[..n];
    }
  }

  lemma {:induction false} WorkersContain(kind: Kind, ws: seq<Worker>, k: nat, x: nat)
    requires k < |ws|
    ensures Holds(kind, k, ws[k], x) <= WorkersHold(kind, ws, x)
  {
    if k < |ws| - 1 {
      WorkersContain(kind, ws[..|ws| - 1], k, x);
    }
  }

  lemma {:induction false} WorkersContainBoth(kind: Kind, ws: seq<Worker>, j: nat, k: nat, x: nat)
    requires j < k < |ws|
    ensures Holds(kind, j, ws[j], x) + Holds(kind, k, ws[k], x) <= WorkersHold(kind, ws, x)
  {
    if k < |ws| - 1 {
      WorkersContainBoth(kind, ws[..|ws| - 1], j, k, x);
    } else {
      WorkersContain(kind, ws[..k], j, x);
    }
  }

  lemma {:induction false} WorkersHolder(kind: Kind, ws: seq<Worker>, x: nat) returns (k: nat)
    requires WorkersHold(kind, ws, x) > 0
    ensures k < |ws| && Holds(kind, k, ws[k], x) == 1
  {
    var n := |ws| - 1;
    if Holds(kind, n, ws[n], x) > 0 {
      k := n;
    } else {
      k := WorkersHolder(kind, ws[..n], x);
    }
  }

  lemma {:induction false} AllGone(kind: Kind, ws: seq<Worker>, x: nat)
    requires forall k :: 0 <= k < |ws| ==> ws[k].phase.Gone?
    ensures WorkersHold(kind, ws, x) == 0 && Working(ws) == 0
  {
    if ws != [] {
      AllGone(kind, ws[..|ws| - 1], x);
    }
  }

  // ---- conservation ------------------------------------------------------------------------------------

  lemma AppendCounts(l: seq<nat>, y: nat, x: nat)
    ensures multiset(l + [y])[x] == multiset(l)[x] + if x == y then 1 else 0
  {
  }

  lemma ReceiveKeepsPlaces(s: State, kind: Kind, x: nat)
    requires Shaped(s) && InOnePlace(kind, s, x) && Enabled(s, Receive)
    ensures InOnePlace(kind, Step(s, Receive), x)
  {
    assert s.pool.free == [s.pool.free[0]] + s.pool.free[1..];
  }

  lemma MakeSessionKeepsPlaces(s: State, kind: Kind, x: nat)
    requires Shaped(s) && InOnePlace(kind, s, x) && Enabled(s, MakeSession)
    ensures InOnePlace(kind, Step(s, MakeSession), x)
  {
  }

  lemma GiveBackKeepsPlaces(s: State, kind: Kind, x: nat)
    requires Shaped(s) && InOnePlace(kind, s, x) && Enabled(s, GiveBack)
    ensures InOnePlace(kind, Step(s, GiveBack), x)
  {
    AppendCounts(s.pool.free, s.loop.id, x);
    AppendCounts(s.released, s.loop.serial, x);
  }

  lemma PageArrivesKeepsPlaces(s: State, kind: Kind, x: nat)
    requires Shaped(s) && InOnePlace(kind, s, x) && Enabled(s, PageArrives)
    ensures InOnePlace(kind, Step(s, PageArrives), x)
  {
    WorkersSnoc(kind, s.workers, Worker(s.loop.id, s.loop.serial, Fetching), x);
  }

  lemma FetchEndsKeepsPlaces(s: State, k: nat, kind: Kind, x: nat)
    requires Shaped(s) && InOnePlace(kind, s, x) && Enabled(s, FetchEnds(k))
    ensures InOnePlace(kind, Step(s, FetchEnds(k)), x)
  {
    WorkersUpdate(kind, s.workers, k, s.workers[k].(phase := Reporting), x);
  }

  lemma PageCompletedKeepsPlaces(s: State, k: nat, kind: Kind, x: nat)
    requires Shaped(s) && InOnePlace(kind, s, x) && Enabled(s, PageCompleted(k))
    ensures InOnePlace(kind, Step(s, PageCompleted(k)), x)
  {
    WorkersUpdate(kind, s.workers, k, s.workers[k].(phase := Draining), x);
    AppendCounts(s.reported, k, x);
  }

  lemma ReleaseKeepsPlaces(s: State, k: nat, kind: Kind, x: nat)
    requires Shaped(s) && InOnePlace(kind, s, x) && Enabled(s, ReleaseSession(k))
    ensures InOnePlace(kind, Step(s, ReleaseSession(k)), x)
  {
    WorkersUpdate(kind, s.workers, k, s.workers[k].(phase := Gone), x);
    AppendCounts(s.pool.free, s.workers[k].id, x);
    AppendCounts(s.released, s.workers[k].serial, x);
  }

  /** The other events move nothing. */
  lemma QuietKeepsPlaces(s: State, e: Event, kind: Kind, x: nat)
    requires Shaped(s) && InOnePlace(kind, s, x)
    requires e.ContextCheck? || e.AcquireFails? || e.PageFails? || e.BackoffEnds? || e.Accepting? || e.AllDone?
    ensures InOnePlace(kind, Step(s, e), x)
  {
    var s' := Step(s, e);
    assert LoopHolds(kind, s'.loop, x) == LoopHolds(kind, s.loop, x) && s'.workers == s.workers;
    assert GivenBack(kind, s') == GivenBack(kind, s) && s'.pool.made == s.pool.made && s'.pool.max == s.pool.max;
  }

  lemma StepKeepsPlaces(s: State, e: Event, kind: Kind, x: nat)
    requires Shaped(s) && InOnePlace(kind, s, x)
    ensures InOnePlace(kind, Step(s, e), x)
  {
    if Enabled(s, e) {
      match e
      case Receive => ReceiveKeepsPlaces(s, kind, x);
      case MakeSession => MakeSessionKeepsPlaces(s, kind, x);
      case GiveBack => GiveBackKeepsPlaces(s, kind, x);
      case PageArrives => PageArrivesKeepsPlaces(s, kind, x);
      case FetchEnds(k) => FetchEndsKeepsPlaces(s, k, kind, x);
      case PageCompleted(k) => PageCompletedKeepsPlaces(s, k, kind, x);
      case ReleaseSession(k) => ReleaseKeepsPlaces(s, k, kind, x);
      case _ => QuietKeepsPlaces(s, e, kind, x);
    }
  }

  lemma StepCounts(s: State, e: Event)
    requires Shaped(s) && s.pool.active == Out(s) && |s.pool.free| + Out(s) == s.pool.max - 1
    ensures Step(s, e).pool.active == Out(Step(s, e)) && |Step(s, e).pool.free| + Out(Step(s, e)) == s.pool.max - 1
  {
    if Enabled(s, e) {
      if e.PageArrives? {
        WorkersSnoc(Ids, s.workers, Worker(s.loop.id, s.loop.serial, Fetching), 0);
      } else if e.FetchEnds? || e.PageCompleted? || e.ReleaseSession? {
        WorkingUpdate(s.workers, e.k, Step(s, e).workers[e.k]);
      }
    }
  }

  lemma StepConserves(s: State, e: Event)
    requires Shaped(s) && Conserved(s)
    ensures Conserved(Step(s, e))
  {
    StepCounts(s, e);
    forall kind, x ensures InOnePlace(kind, Step(s, e), x) {
      assert InOnePlace(kind, s, x);
      StepKeepsPlaces(s, e, kind, x);
    }
  }

  predicate LoopHas(s: State, id: nat) { (s.loop.Took? || s.loop.Has? || s.loop.Dropping?) && s.loop.id == id }
  predicate WorkerHas(s: State, j: nat, id: nat) {
    j < |s.workers| && !s.workers[j].phase.Gone? && s.workers[j].id == id
  }

  /** An id that a worker has is nowhere else. */
  lemma HolderIsAlone(s: State, k: nat, id: nat)
    requires Conserved(s) && WorkerHas(s, k, id)
    ensures id !in s.pool.free && !LoopHas(s, id) && forall j: nat :: WorkerHas(s, j, id) ==> j == k
  {
    assert InOnePlace(Ids, s, id);
    WorkersContain(Ids, s.workers, k, id);
    forall j: nat | WorkerHas(s, j, id) && j != k ensures false {
      WorkersContainBoth(Ids, s.workers, if j < k then j else k, if j < k then k else j, id);
    }
  }

  lemma LoopIsAlone(s: State, id: nat)
    requires Conserved(s) && LoopHas(s, id)
    ensures id !in s.pool.free && forall j: nat :: !WorkerHas(s, j, id)
  {
    assert InOnePlace(Ids, s, id);
    forall j: nat | WorkerHas(s, j, id) ensures false {
      WorkersContain(Ids, s.workers, j, id);
    }
  }

  lemma FreeIsAlone(s: State, i: nat)
    requires Conserved(s) && i < |s.pool.free|
    ensures var id := s.pool.free[i]; 1 <= id < s.pool.max && !LoopHas(s, id) && forall j: nat :: !WorkerHas(s, j, id)
    ensures forall j :: 0 <= j < |s.pool.free| && j != i ==> s.pool.free[j] != s.pool.free[i]
  {
    var free, id := s.pool.free, s.pool.free[i];
    assert InOnePlace(Ids, s, id) && id in multiset(free);
    forall j: nat | WorkerHas(s, j, id) ensures false {
      WorkersContain(Ids, s.workers, j, id);
    }
    forall j | 0 <= j < |free| && j != i ensures free[j] != id {
      TwiceIn(free, if j < i then j else i, if j < i then i else j);
    }
  }

  lemma TwiceIn(l: seq<nat>, a: nat, b: nat)
    requires a < b < |l|
    ensures l[a] == l[b] ==> multiset(l)[l[a]] >= 2
  {
    assert l == l[..b] + [l[b]] + l[b + 1..] && l[..b] == l[..a] + [l[a]] + l[a + 1..b];
  }

  // ---- the slots -----------------------------------------------------------------------------------------

  predicate SlotOf(p: Pool, w: Worker)
    requires w.id < |p.slots|
  {
    p.slots[w.id].Some? && p.slots[w.id].value.serial == w.serial
      && (p.slots[w.id].value.accepting ==> w.phase.Fetching?)
  }

  ghost predicate SlotsInv(s: State)
    requires Shaped(s)
  {
    && s.pool.slots[0].None?
    && (forall i :: 0 <= i < |s.pool.free| ==> s.pool.free[i] < s.pool.max && s.pool.slots[s.pool.free[i]].None?)
    && (s.loop.Took? ==> s.pool.slots[s.loop.id].None?)
    && (s.loop.Has? || s.loop.Dropping? ==> s.pool.slots[s.loop.id] == Some(Session(s.loop.serial, false)))
    && (forall k :: 0 <= k < |s.workers| && !s.workers[k].phase.Gone? ==> SlotOf(s.pool, s.workers[k]))
  }

  ghost predicate Ended(s: State) {
    s.loop.Returned? ==> forall k :: 0 <= k < |s.workers| ==> s.workers[k].phase.Gone?
  }

  ghost predicate Inv(s: State) { Shaped(s) && Conserved(s) && SlotsInv(s) && Ended(s) }

  lemma StepKeepsSlots(s: State, e: Event)
    requires Inv(s)
    ensures Shaped(Step(s, e)) && SlotsInv(Step(s, e))
  {
    if Enabled(s, e) {
      if e.Receive? {
        FreeIsAlone(s, 0);
      } else if e.MakeSession? || e.GiveBack? {
        LoopIsAlone(s, s.loop.id);
        assert forall k :: 0 <= k < |s.workers| && !s.workers[k].phase.Gone? ==> !WorkerHas(s, k, s.loop.id);
      } else if e.Accepting? || e.FetchEnds? || e.ReleaseSession? {
        HolderIsAlone(s, e.k, s.workers[e.k].id);
        assert forall k :: 0 <= k < |s.workers| && !s.workers[k].phase.Gone? && k != e.k ==>
          !WorkerHas(s, k, s.workers[e.k].id);
        assert SlotOf(s.pool, s.workers[e.k]);
      }
    }
  }

  lemma StepKeepsEnded(s: State, e: Event)
    requires Shaped(s) && Ended(s)
    ensures Ended(Step(s, e))
  {
  }

  lemma StepKeeps(s: State, e: Event)
    requires Inv(s)
    ensures Inv(Step(s, e))
  {
    StepConserves(s, e);
    StepKeepsSlots(s, e);
    StepKeepsEnded(s, e);
  }

  lemma StartInv(max: nat)
    requires max >= 1
    ensures Inv(Start(max))
  {
    var s := Start(max);
    forall kind, x ensures InOnePlace(kind, s, x) { BelowCounts(max, x); }
    forall i | 0 <= i < |s.pool.free| ensures 1 <= s.pool.free[i] < max {
      BelowCounts(max, s.pool.free[i]);
      assert s.pool.free[i] in multiset(s.pool.free);
    }
  }

  ghost function Run(max: nat, events: seq<Event>): (s: State)
    requires max >= 1
    ensures Inv(s) && s.pool.max == max
  {
    if events == [] then
      StartInv(max);
      Start(max)
    else
      var before := Run(max, events[..|events| - 1]);
      StepKeeps(before, events[|events| - 1]);
      Step(before, events[|events| - 1])
  }

  // ---- theorems --------------------------------------------------------------------------------------------

  /** Every id is in the channel once, or with the loop, or with exactly one fetch: no id has two live
      sessions, and no id is ever lost. */
  lemma {:induction false} IdsConserved(max: nat, events: seq<Event>, id: nat)
    requires max >= 1
    ensures var s := Run(max, events);
      && multiset(s.pool.free)[id] + LoopHolds(Ids, s.loop, id) + WorkersHold(Ids, s.workers, id)
        == (if 1 <= id < max then 1 else 0)
      && (forall j: nat, k: nat :: WorkerHas(s, j, id) && WorkerHas(s, k, id) ==> j == k)
  {
    var s := Run(max, events);
    assert InOnePlace(Ids, s, id);
    forall j: nat, k: nat | WorkerHas(s, j, id) && WorkerHas(s, k, id) ensures j == k {
      HolderIsAlone(s, k, id);
    }
  }

  /** Release never waits for room in the channel, which it would do while holding the registry's lock. */
  lemma ReleaseNeverBlocks(max: nat, events: seq<Event>)
    requires max >= 1
    ensures var s := Run(max, events);
      && (s.loop.Dropping? ==> Enabled(s, GiveBack))
      && (forall k: nat :: Works(s, k, Draining) ==> Enabled(s, ReleaseSession(k)))
  {
    var s := Run(max, events);
    forall k: nat | Works(s, k, Draining) ensures Enabled(s, ReleaseSession(k)) {
      WorkingUpdate(s.workers, k, s.workers[k]);
    }
  }

  /** GetActive finds only sessions in the middle of a fetch: the one worker that has the id is fetching
      with that very session. */
  lemma ActiveIsFetching(max: nat, events: seq<Event>, id: int)
    requires max >= 1 && Run(max, events).pool.GetActive(id).Some?
    ensures id >= 0
    ensures var s := Run(max, events);
      exists k: nat :: WorkerHas(s, k, id) && s.workers[k].phase.Fetching?
        && s.workers[k].serial == s.pool.GetActive(id).value.serial
  {
    var s := Run(max, events);
    var k := ActiveHolder(s, id);
    assert WorkerHas(s, k, id) && SlotOf(s.pool, s.workers[k]);
  }

  lemma ActiveHolder(s: State, id: nat) returns (k: nat)
    requires Inv(s) && s.pool.GetActive(id).Some?
    ensures WorkerHas(s, k, id)
  {
    assert InOnePlace(Ids, s, id);
    forall i | 0 <= i < |s.pool.free| ensures s.pool.free[i] != id {
    }
    assert id !in s.pool.free && LoopHolds(Ids, s.loop, id) == 0;
    k := WorkersHolder(Ids, s.workers, id);
  }

  /** When Run returns, every session it acquired was released once, every page it obtained was reported
      complete once, all ids are back in the channel, and Close does not wait. */
  lemma ReturnSettlesAll(max: nat, events: seq<Event>)
    requires max >= 1 && Run(max, events).loop.Returned?
    ensures var s := Run(max, events);
      && (forall serial: nat :: multiset(s.released)[serial] == if serial < s.pool.made then 1 else 0)
      && (forall page: nat :: multiset(s.reported)[page] == if page < |s.workers| then 1 else 0)
      && (forall id: nat :: multiset(s.pool.free)[id] == if 1 <= id < max then 1 else 0)
      && s.pool.active == 0
  {
    var s := Run(max, events);
    forall kind, x ensures multiset(GivenBack(kind, s))[x] == if Exists(kind, s, x) then 1 else 0 {
      assert InOnePlace(kind, s, x);
      AllGone(kind, s.workers, x);
    }
    AllGone(Ids, s.workers, 0);
    forall x: nat ensures multiset(s.released)[x] == if x < s.pool.made then 1 else 0 {
      assert multiset(GivenBack(Serials, s))[x] == if Exists(Serials, s, x) then 1 else 0;
    }
    forall x: nat ensures multiset(s.reported)[x] == if x < |s.workers| then 1 else 0 {
      assert multiset(GivenBack(Pages, s))[x] == if Exists(Pages, s, x) then 1 else 0;
    }
    forall x: nat ensures multiset(s.pool.free)[x] == if 1 <= x < max then 1 else 0 {
      assert multiset(GivenBack(Ids, s))[x] == if Exists(Ids, s, x) then 1 else 0;
    }
  }

  // ---- when Run goes on and when it ends -----------------------------------------------------------------------

  /** Why the loop leaves: its context is over, it got no session, or the frontier failed other than by having no
      page. */
  predicate Ends(e: Event) {
    || ((e.ContextCheck? || e.BackoffEnds?) && e.over)
    || e.AcquireFails?
    || (e.PageFails? && !e.why.NotFound?)
  }

  predicate Left(l: Loop) { l.Leaving? || l.Returned? || (l.Dropping? && !l.why.NotFound?) }

  lemma StepLeavesIff(s: State, e: Event)
    requires Shaped(s) && !Left(s.loop)
    ensures Left(Step(s, e).loop) <==> Enabled(s, e) && Ends(e)
  {
  }

  lemma StepStaysLeft(s: State, e: Event)
    requires Shaped(s) && Left(s.loop)
    ensures Left(Step(s, e).loop)
  {
  }

  /** Event n was possible where it came, and ended the loop. */
  ghost predicate EndedBy(max: nat, events: seq<Event>, n: nat)
    requires max >= 1 && n < |events|
  {
    Enabled(Run(max, events[..n]), events[n]) && Ends(events[n])
  }

  ghost predicate EverEnded(max: nat, events: seq<Event>)
    requires max >= 1
  {
    exists n :: 0 <= n < |events| && EndedBy(max, events, n)
  }

  lemma {:induction false} EverEndedSnoc(max: nat, before: seq<Event>, e: Event)
    requires max >= 1
    ensures EverEnded(max, before + [e]) <==> EverEnded(max, before) || (Enabled(Run(max, before), e) && Ends(e))
  {
    var events := before + [e];
    assert events[..|before|] == before;
    if EverEnded(max, before) {
      var n :| 0 <= n < |before| && EndedBy(max, before, n);
      assert events[..n] == before[..n] && EndedBy(max, events, n);
    }
    if Enabled(Run(max, before), e) && Ends(e) {
      assert EndedBy(max, events, |before|);
    }
    if EverEnded(max, events) {
      var n :| 0 <= n < |events| && EndedBy(max, events, n);
      assert n < |before| ==> events[..n] == before[..n] && EndedBy(max, before, n);
    }
  }

  /** Run goes on fetching pages exactly until such an event: in particular, having no page never ends it. */
  lemma {:induction false} LeavesIff(max: nat, events: seq<Event>)
    requires max >= 1
    ensures Left(Run(max, events).loop) <==> EverEnded(max, events)
    decreases |events|
  {
    if events != [] {
      var before, e := events[..|events| - 1], events[|events| - 1];
      assert events == before + [e];
      LeavesIff(max, before);
      EverEndedSnoc(max, before, e);
      if Left(Run(max, before).loop) {
        StepStaysLeft(Run(max, before), e);
      } else {
        StepLeavesIff(Run(max, before), e);
      }
    }
  }

  // ---- the registry object -------------------------------------------------------------------------------------

  class BrowserSession {
    const id: nat
    ghost const serial: nat
    var accepting: bool

    constructor (id: nat, ghost serial: nat)
      ensures this.id == id && this.serial == serial && !accepting
    {
      this.id, this.serial, accepting := id, serial, false;
    }
  }

  class Registry {
    const sessions: array<BrowserSession?>
    var free: seq<nat>
    var active: int
    ghost var made: nat

    /** The registry's fields read as this pool. */
    ghost predicate Shows(p: Pool)
      reads this, sessions, set i | 0 <= i < sessions.Length :: sessions[i]
    {
      && p.max == |p.slots| == sessions.Length && p.free == free && p.active == active && p.made == made
      && forall i :: 0 <= i < sessions.Length ==>
           if sessions[i] == null then p.slots[i].None?
           else sessions[i].id == i && p.slots[i] == Some(Session(sessions[i].serial, sessions[i].accepting))
    }

    constructor (maxSessions: nat)
      requires maxSessions >= 1
      ensures Shows(NewPool(maxSessions)) && fresh(sessions)
    {
      sessions := new BrowserSession?[maxSessions](_ => null);
      active, made := 0, 0;
      var ids: seq<nat> := [];
      for i := 1 to maxSessions
        invariant ids == Below(i)
      {
        ids := ids + [i];
      }
      free := ids;
    }

    /** A session under the first free id, or null when the context ended first. */
    method GetNextAvailable(contextDone: bool, ghost p: Pool) returns (sess: BrowserSession?, ghost p': Pool)
      requires Shows(p) && p.Sized() && (!contextDone ==> free != [])
      requires forall i :: 0 <= i < |free| ==> free[i] < p.max
      modifies this`free, this`active, this`made, sessions
      ensures Shows(p')
      ensures contextDone ==> sess == null && p' == p
      ensures !contextDone ==>
        free == old(free)[1..] && sess != null && sess.id == old(free)[0] && sessions[sess.id] == sess
        && active == old(active) + 1
      ensures !contextDone ==>
        p' == p.Take().Store(p.free[0]) && sess != null && fresh(sess) && sess.id == p.free[0] && !sess.accepting
    {
      p' := p;
      if contextDone {
        return null, p;
      }
      var i := free[0];
      free, active := free[1..], active + 1;
      sess := new BrowserSession(i, made);
      made := made + 1;
      sessions[i] := sess;
      p' := p.Take().Store(i);
    }

    /** The session when it accepts requests; ids out of range, unused and drained sessions give null. */
    method GetActive(id: int, ghost p: Pool) returns (sess: BrowserSession?)
      requires Shows(p)
      ensures sess != null <==> p.GetActive(id).Some?
      ensures sess != null <==> 0 <= id < sessions.Length && sessions[id] != null && sessions[id].accepting
      ensures sess != null ==> sess == sessions[id]
      ensures sess != null ==> Session(sess.serial, sess.accepting) == p.GetActive(id).value && sess.id == id
    {
      if id < 0 || id >= sessions.Length {
        return null;
      }
      sess := sessions[id];
      if sess != null && !sess.accepting {
        sess := null;
      }
    }

    /** The channel must have room: it always has, by ReleaseNeverBlocks. */
    method Release(sess: BrowserSession, ghost p: Pool) returns (ghost p': Pool)
      requires Shows(p) && sess.id < sessions.Length && |free| < p.max - 1
      modifies this`free, this`active, sessions, sess
      ensures p' == p.Release(sess.id) && Shows(p') && !sess.accepting
      ensures sessions[sess.id] == null && free == old(free) + [sess.id] && active == old(active) - 1
    {
      sess.accepting := false;
      sessions[sess.id] := null;
      free, active := free + [sess.id], active - 1;
      p' := p.Release(sess.id);
    }
  }
}
