/** How a browser session waits until every request that blocks page completion has its crawl log. Callers
    change the registry and then signal on a channel of capacity one; the waiter checks, then waits for a
    signal, and checks again. */
module Completion {
  import opened Common
  import opened RequestRecords
  import opened RequestRegistry

  // ---- the session's operations ----------------------------------------------------------------------

  /** One atomic change of the registry, by the session operation that makes it. */
  datatype SessionOp =
    | WillBeSent(seen: Record)               // network event
    | Paused(seen: Record)                   // fetch event, before the request is continued
    | Rollback(id: string)                   // continuing a newly added request failed
    | LoadingDone(id: string)
    | Register(id: string)
    | Reject(id: string)
    | CompleteOptions(url: string)
    | RecordCompletion(id: string, log: Option<Log>, cached: bool)

  function RegistryOp(op: SessionOp): Op {
    match op
    case WillBeSent(seen) => Observe(seen)
    case Paused(seen) => Observe(seen)
    case Rollback(id) => Remove(id)
    case LoadingDone(id) => MarkComplete(id)
    case Register(id) => MarkNew(id)
    case Reject(id) => MarkComplete(id)
    case CompleteOptions(url) => MarkFirstUnregistered(url)
    case RecordCompletion(id, log, cached) => Complete(id, log, cached)
  }

  /** The request the operation reports: removed, changed or added. */
  function Touched(s: seq<Record>, op: SessionOp): Option<Info> {
    var o := RegistryOp(op);
    var i := Target(s, o);
    if i < |s| then Some(if o.Remove? then s[i].info else Changed(s[i], o).info)
    else if o.Observe? then Some(o.seen.info)
    else None
  }

  /** Whether the operation signals: a rejection always, the others when the request they report blocks. */
  predicate Signals(s: seq<Record>, op: SessionOp) {
    var touched := Touched(s, op);
    touched.Some? && !op.WillBeSent? && !op.LoadingDone? && (op.Reject? || touched.value.BlocksPageCompletion())
  }

  /** What the two listeners report: a request that is neither registered nor complete and has no log. */
  predicate Sighting(seen: Record) {
    seen.info.id != "" && !seen.info.gotNew && !seen.info.gotComplete && !seen.info.fromCache && seen.log.None?
  }

  predicate Allowed(op: SessionOp) { (op.WillBeSent? || op.Paused?) ==> Sighting(op.seen) }

  predicate OthersResolved(s: seq<Record>, i: nat) {
    forall j :: 0 <= j < |s| && j != i ==> !s[j].Unresolved()
  }

  /** An observation that gives the one unresolved request, so far without a type, a type that does not block. */
  predicate LateHarmlessType(s: seq<Record>, op: SessionOp) {
    && (op.WillBeSent? || op.Paused?)
    && var i := IndexOf(s, op.seen.info.id);
    && i < |s| && s[i].Unresolved() && s[i].info.resourceType.NoType?
    && !op.seen.info.resourceType.Blocks() && OthersResolved(s, i)
  }

  lemma ResolvedMeans(s: seq<Record>)
    ensures AllResolved(s) <==> forall i :: 0 <= i < |s| ==> !s[i].Unresolved()
  {
  }

  /** Only the target can become resolved. */
  lemma OnlyTargetChanges(s: seq<Record>, op: SessionOp)
    requires DistinctIds(s) && Allowed(op) && !AllResolved(s)
    ensures AllResolved(Apply(s, RegistryOp(op))) ==>
      var i := Target(s, RegistryOp(op)); i < |s| && s[i].Unresolved() && OthersResolved(s, i)
  {
    var o := RegistryOp(op);
    var t, i := Apply(s, o), Target(s, o);
    if AllResolved(t) {
      ResolvedMeans(s);
      ResolvedMeans(t);
      forall j | 0 <= j < |s| && (j != i || i == |s|) ensures !s[j].Unresolved() {
        var j' := if o.Remove? && i < |s| && j == |s| - 1 then i else j;
        assert t[j'] == s[j];
      }
    }
  }

  /** A paused request that settles the page no longer blocks, so it does not signal either. */
  lemma PausedSettlesSilently(s: seq<Record>, op: SessionOp)
    requires DistinctIds(s) && Allowed(op) && op.Paused? && !AllResolved(s)
    ensures AllResolved(Apply(s, RegistryOp(op))) ==> !Signals(s, op)
  {
    var t, i := Apply(s, RegistryOp(op)), Target(s, RegistryOp(op));
    OnlyTargetChanges(s, op);
    ResolvedMeans(t);
    assert i < |s| ==> t[i] == Changed(s[i], RegistryOp(op));
  }

  /** Exactly when an operation completes the set of crawl logs and does not signal. */
  lemma SilentIff(s: seq<Record>, op: SessionOp)
    requires DistinctIds(s) && Allowed(op) && !AllResolved(s)
    ensures AllResolved(Apply(s, RegistryOp(op))) && !Signals(s, op) <==> LateHarmlessType(s, op)
  {
    var o := RegistryOp(op);
    var t, i := Apply(s, o), Target(s, o);
    OnlyTargetChanges(s, op);
    ResolvedMeans(t);
    if i < |s| && !o.Remove? {
      assert t[i] == Changed(s[i], o);
    }
    if LateHarmlessType(s, op) {
      forall j | 0 <= j < |t| ensures !t[j].Unresolved() {
        assert j != i ==> t[j] == s[j];
      }
    }
  }

  // ---- the machine -----------------------------------------------------------------------------------------

  /** The goroutine in waitForSettled. Parked covers everything from an incomplete check to the next
      wake-up; seen holds the records of the check. */
  datatype Waiter = NotWaiting | AwaitingNetwork | Checking | Parked | Settled(seen: seq<Record>) | Failed

  /** What a session operation still has to do after its change. */
  datatype Task = Continuing(id: string, added: bool, blocks: bool) | Signalling

  datatype State = State(records: seq<Record>, token: bool, tasks: seq<Task>, waiter: Waiter, done: bool)

  datatype Event =
    | Do(op: SessionOp)               // one change, of any operation but Rollback
    | Continued(t: nat)               // the paused request went on
    | ContinueFailed(t: nat)          // it did not: roll back
    | Signal(t: nat)
    | StartWait
    | NetworkIdle
    | Check
    | Wake
    | WaiterFails                     // context done, network wait failed, or idle timeout
    | SessionDone

  predicate Enabled(s: State, e: Event) {
    match e
    case Do(op) => !op.Rollback? && Allowed(op)
    case Continued(t) => t < |s.tasks| && s.tasks[t].Continuing?
    case ContinueFailed(t) => t < |s.tasks| && s.tasks[t].Continuing?
    case Signal(t) => t < |s.tasks| && s.tasks[t].Signalling?
    case StartWait => s.waiter.NotWaiting?
    case NetworkIdle => s.waiter.AwaitingNetwork?
    case Check => s.waiter.Checking?
    case Wake => s.waiter.Parked? && s.token
    case WaiterFails => s.waiter.AwaitingNetwork? || s.waiter.Parked?
    case SessionDone => true
  }

  function Drop(tasks: seq<Task>, t: nat): seq<Task>
    requires t < |tasks|
  {
    tasks[..t] + tasks[t + 1..]
  }

  function Next(blocks: bool): seq<Task> { if blocks then [Signalling] else [] }

  function Step(s: State, e: Event): State {
    if !Enabled(s, e) then s
    else match e
      case Do(op) =>
        var records := Apply(s.records, RegistryOp(op));
        if op.Paused? then
          var id := op.seen.info.id;
          var added := IndexOf(s.records, id) == |s.records|;
          s.(records := records,
             tasks := s.tasks + [Continuing(id, added, Signals(s.records, op))])
        else s.(records := records, tasks := s.tasks + Next(Signals(s.records, op)))
      case Continued(t) => s.(tasks := Drop(s.tasks, t) + Next(s.tasks[t].blocks))
      case ContinueFailed(t) =>
        var op := Rollback(s.tasks[t].id);
        if s.tasks[t].added then
          s.(records := Apply(s.records, RegistryOp(op)), tasks := Drop(s.tasks, t) + Next(Signals(s.records, op)))
        else s.(tasks := Drop(s.tasks, t))
      case Signal(t) => s.(tasks := Drop(s.tasks, t), token := s.token || !s.done)
      case StartWait => s.(waiter := AwaitingNetwork)
      case NetworkIdle => s.(waiter := Checking)
      case Check => s.(waiter := if AllResolved(s.records) then Settled(s.records) else Parked)
      case Wake => s.(waiter := AwaitingNetwork, token := false)
      case WaiterFails => s.(waiter := Failed)
      case SessionDone => s.(done := true)
  }

  const START := State([], false, [], NotWaiting, false)

  function Run(events: seq<Event>): State {
    if events == [] then START else Step(Run(events[..|events| - 1]), events[|events| - 1])
  }

  // ---- no lost wake-up ------------------------------------------------------------------------------------

  /** A wake-up is stored, a caller is about to signal, or the session is over. */
  predicate WillWake(s: State) {
    s.token || s.done || exists t :: 0 <= t < |s.tasks| && s.tasks[t].Signalling?
  }

  predicate WakeInv(s: State) { s.waiter.Parked? && AllResolved(s.records) ==> WillWake(s) }

  lemma NextWakes(tasks: seq<Task>, blocks: bool)
    ensures blocks ==> (tasks + Next(blocks))[|tasks|].Signalling?
    ensures forall t :: 0 <= t < |tasks| ==> (tasks + Next(blocks))[t] == tasks[t]
  {
  }

  /** Tasks other than the dropped one stay. */
  lemma DropKeeps(tasks: seq<Task>, t: nat, u: nat)
    requires t < |tasks| && u < |tasks| && u != t
    ensures exists v :: 0 <= v < |Drop(tasks, t)| && Drop(tasks, t)[v] == tasks[u]
  {
    assert Drop(tasks, t)[if u < t then u else u - 1] == tasks[u];
  }

  lemma TaskStepKeepsWake(s: State, e: Event)
    requires Enabled(s, e) && (e.Continued? || e.Signal?) && WakeInv(s)
    ensures WakeInv(Step(s, e))
  {
    if s.waiter.Parked? && AllResolved(s.records) && !s.token && !s.done {
      var u :| 0 <= u < |s.tasks| && s.tasks[u].Signalling?;
      if u != e.t {
        DropKeeps(s.tasks, e.t, u);
        var v :| 0 <= v < |Drop(s.tasks, e.t)| && Drop(s.tasks, e.t)[v] == s.tasks[u];
        assert Step(s, e).tasks[v].Signalling?;
      }
    }
  }

  lemma RollbackKeepsWake(s: State, e: Event)
    requires Enabled(s, e) && e.ContinueFailed? && WakeInv(s) && DistinctIds(s.records)
    ensures WakeInv(Step(s, e))
  {
    var s' := Step(s, e);
    var op := Rollback(s.tasks[e.t].id);
    if s.waiter.Parked? && AllResolved(s'.records) && !s.token && !s.done {
      if AllResolved(s.records) {
        var u :| 0 <= u < |s.tasks| && s.tasks[u].Signalling?;
        DropKeeps(s.tasks, e.t, u);
        var v :| 0 <= v < |Drop(s.tasks, e.t)| && Drop(s.tasks, e.t)[v] == s.tasks[u];
        assert s'.tasks[v].Signalling?;
      } else {
        SilentIff(s.records, op);
        NextWakes(Drop(s.tasks, e.t), true);
        assert s'.tasks[|Drop(s.tasks, e.t)|].Signalling?;
      }
    }
  }

  lemma DoKeepsWakeUnless(s: State, e: Event)
    requires Enabled(s, e) && e.Do? && WakeInv(s) && DistinctIds(s.records)
    ensures !WakeInv(Step(s, e)) <==> s.waiter.Parked? && !WillWake(s) && LateHarmlessType(s.records, e.op)
  {
    var s' := Step(s, e);
    if s.waiter.Parked? {
      if WillWake(s) {
        if !s.token && !s.done {
          var u :| 0 <= u < |s.tasks| && s.tasks[u].Signalling?;
          assert s'.tasks[u].Signalling?;
        }
      } else {
        SilentIff(s.records, e.op);
        if e.op.Paused? && !AllResolved(s.records) {
          PausedSettlesSilently(s.records, e.op);
        }
        assert forall t :: 0 <= t < |s.tasks| ==> s'.tasks[t] == s.tasks[t];
        if Signals(s.records, e.op) && !e.op.Paused? {
          assert s'.tasks[|s.tasks|].Signalling?;
        }
      }
    }
  }

  lemma OtherStepsKeepWake(s: State, e: Event)
    requires !e.Do? && !e.Continued? && !e.Signal? && !e.ContinueFailed? && WakeInv(s)
    ensures WakeInv(Step(s, e))
  {
    assert Step(s, e).tasks == s.tasks && Step(s, e).records == s.records;
  }

  /** In general: the one step that can lose a wake-up is a late type for the last unresolved request, made
      while the waiter is parked and nobody is about to signal. */
  lemma WakeLostIff(s: State, e: Event)
    requires DistinctIds(s.records) && WakeInv(s)
    ensures !WakeInv(Step(s, e)) <==>
      Enabled(s, e) && e.Do? && s.waiter.Parked? && !WillWake(s) && LateHarmlessType(s.records, e.op)
  {
    if Enabled(s, e) {
      if e.Do? {
        DoKeepsWakeUnless(s, e);
      } else if e.Continued? || e.Signal? {
        TaskStepKeepsWake(s, e);
      } else if e.ContinueFailed? {
        RollbackKeepsWake(s, e);
      } else {
        OtherStepsKeepWake(s, e);
      }
    }
  }

  /** Event k of the run loses a wake-up: it gives the last unresolved request a late type, while the waiter
      is parked and nobody is about to signal. */
  predicate Loses(events: seq<Event>, k: nat)
    requires k < |events|
  {
    var s := Run(events[..k]);
    && Enabled(s, events[k]) && events[k].Do? && s.waiter.Parked? && !WillWake(s)
    && LateHarmlessType(s.records, events[k].op)
  }

  predicate Typed(s: seq<Record>) { forall i :: 0 <= i < |s| ==> !s[i].info.resourceType.NoType? }

  /** A report that adds a request gives its resource type; later reports need not. */
  predicate AddsTyped(s: seq<Record>, o: Op) {
    o.Observe? && IndexOf(s, o.seen.info.id) == |s| ==> !o.seen.info.resourceType.NoType?
  }

  predicate TypedWhenAdded(events: seq<Event>) {
    forall k :: 0 <= k < |events| && events[k].Do? ==> AddsTyped(Run(events[..k]).records, RegistryOp(events[k].op))
  }

  lemma ApplyKeepsTyped(s: seq<Record>, o: Op)
    requires Typed(s) && AddsTyped(s, o)
    ensures Typed(Apply(s, o))
  {
  }

  lemma StepKeepsTyped(s: State, e: Event)
    requires Typed(s.records) && (e.Do? ==> AddsTyped(s.records, RegistryOp(e.op)))
    ensures Typed(Step(s, e).records)
  {
    if Enabled(s, e) {
      if e.Do? {
        ApplyKeepsTyped(s.records, RegistryOp(e.op));
      } else if e.ContinueFailed? {
        ApplyKeepsTyped(s.records, Remove(s.tasks[e.t].id));
      }
    }
  }

  lemma StepKeepsIds(s: State, e: Event)
    requires DistinctIds(s.records)
    ensures DistinctIds(Step(s, e).records)
  {
    if Enabled(s, e) {
      if e.Do? {
        ApplyKeepsIds(s.records, RegistryOp(e.op));
      } else if e.ContinueFailed? {
        ApplyKeepsIds(s.records, Remove(s.tasks[e.t].id));
      }
    }
  }

  lemma {:induction false} RunKeepsIds(events: seq<Event>)
    ensures DistinctIds(Run(events).records)
  {
    if events != [] {
      RunKeepsIds(events[..|events| - 1]);
      StepKeepsIds(Run(events[..|events| - 1]), events[|events| - 1]);
    }
  }

  /** After every event so far, no wake-up is lost. */
  predicate WakeKept(events: seq<Event>) { forall n :: 0 <= n <= |events| ==> WakeInv(Run(events[..n])) }

  predicate NoneLoses(events: seq<Event>) { forall k :: 0 <= k < |events| ==> !Loses(events, k) }

  lemma {:induction false} WakeKeptSnoc(before: seq<Event>, e: Event)
    ensures WakeKept(before + [e]) <==> WakeKept(before) && WakeInv(Run(before + [e]))
  {
    var events := before + [e];
    assert events[..|events|] == events;
    assert forall n :: 0 <= n <= |before| ==> events[..n] == before[..n];
    if WakeKept(events) {
      forall n | 0 <= n <= |before| ensures WakeInv(Run(before[..n])) {
        assert WakeInv(Run(events[..n]));
      }
      assert WakeInv(Run(events[..|events|]));
    }
  }

  lemma {:induction false} NoneLosesSnoc(before: seq<Event>, e: Event)
    ensures NoneLoses(before + [e]) <==> NoneLoses(before) && !Loses(before + [e], |before|)
  {
    var events := before + [e];
    forall k | 0 <= k < |before| ensures Loses(before, k) <==> Loses(events, k) {
      assert events[..k] == before[..k];
    }
  }

  /** Exactly which runs lose a wake-up: those with an event that does. */
  lemma {:induction false} WakeKeptIff(events: seq<Event>)
    ensures WakeKept(events) <==> NoneLoses(events)
  {
    if events == [] {
      assert events[..0] == [];
    } else {
      var before, e := events[..|events| - 1], events[|events| - 1];
      WakeKeptIff(before);
      RunKeepsIds(before);
      assert events == before + [e];
      WakeKeptSnoc(before, e);
      NoneLosesSnoc(before, e);
      assert before[..|before|] == before;
      assert WakeKept(before) ==> WakeInv(Run(before[..|before|]));
      if WakeInv(Run(before)) {
        WakeLostIff(Run(before), e);
      }
    }
  }

  lemma {:induction false} RunKeepsTyped(events: seq<Event>)
    requires TypedWhenAdded(events)
    ensures Typed(Run(events).records)
  {
    if events != [] {
      var before, e := events[..|events| - 1], events[|events| - 1];
      assert forall k :: 0 <= k < |before| ==> before[..k] == events[..k] && before[k] == events[k];
      RunKeepsTyped(before);
      StepKeepsTyped(Run(before), e);
    }
  }

  lemma TypedLosesNothing(events: seq<Event>, k: nat)
    requires TypedWhenAdded(events) && k < |events|
    ensures !Loses(events, k)
  {
    var before := events[..k];
    assert forall n :: 0 <= n < k ==> before[..n] == events[..n] && before[n] == events[n];
    RunKeepsTyped(before);
  }

  /** No lost wake-up: when every report that adds a request carries its resource type, a waiter that is
      parked although all blocking requests have their logs will be woken, by a stored token, by a caller
      that has yet to signal, or by the end of the session. */
  lemma NoLostWakeup(events: seq<Event>)
    requires TypedWhenAdded(events)
    ensures var s := Run(events); s.waiter.Parked? && PageSettled(s.records) ==> WillWake(s)
  {
    SettledMeansResolved(Run(events).records);
    forall k | 0 <= k < |events| ensures !Loses(events, k) {
      TypedLosesNothing(events, k);
    }
    WakeKeptIff(events);
    assert events[..|events|] == events;
    assert WakeInv(Run(events[..|events|]));
  }

  /** Event n is a check, and it found the records as given, all resolved. */
  predicate CheckedAt(events: seq<Event>, n: nat, seen: seq<Record>)
    requires n < |events|
  {
    var s := Run(events[..n]);
    events[n].Check? && s.waiter.Checking? && s.records == seen && AllResolved(seen)
  }

  /** Event n found the network idle for the waiter, which has been checking since. */
  predicate IdleAt(events: seq<Event>, n: nat)
    requires n < |events|
  {
    && events[n].NetworkIdle? && Run(events[..n]).waiter.AwaitingNetwork?
    && forall k :: n < k <= |events| ==> Run(events[..k]).waiter.Checking?
  }

  /** Every check is made after the network was found idle, each time anew. */
  lemma {:induction false} ChecksAfterIdle(events: seq<Event>)
    requires Run(events).waiter.Checking?
    ensures exists n :: 0 <= n < |events| && IdleAt(events, n)
  {
    var before, e := events[..|events| - 1], events[|events| - 1];
    assert events[..|events|] == events;
    if Run(before).waiter.Checking? {
      ChecksAfterIdle(before);
      var n :| 0 <= n < |before| && IdleAt(before, n);
      assert before[..n] == events[..n] && before[n] == events[n];
      assert forall k :: n < k <= |before| ==> before[..k] == events[..k];
      assert IdleAt(events, n);
    } else {
      assert IdleAt(events, |before|);
    }
  }

  lemma {:induction false} CheckedMeansSettled(events: seq<Event>)
    requires Run(events).waiter.Settled?
    ensures PageSettled(Run(events).waiter.seen)
  {
    var before, e := events[..|events| - 1], events[|events| - 1];
    if Run(before).waiter.Settled? {
      CheckedMeansSettled(before);
    } else {
      SettledMeansResolved(Run(before).records);
    }
  }

  /** waitForSettled returns nil only after a check that found every blocking request resolved, at some
      point of the run. */
  lemma {:induction false} SettledWasTrue(events: seq<Event>)
    requires Run(events).waiter.Settled?
    ensures exists n :: 0 <= n < |events| && CheckedAt(events, n, Run(events).waiter.seen)
    ensures forall i :: 0 <= i < |Run(events).waiter.seen| ==>
      var rec := Run(events).waiter.seen[i];
      rec.info.gotNew && WireName(rec.info.resourceType) !in NON_BLOCKING ==> rec.log.Some?
  {
    CheckedMeansSettled(events);
    if events != [] {
      var before, e := events[..|events| - 1], events[|events| - 1];
      if Run(before).waiter.Settled? {
        SettledWasTrue(before);
        var n :| 0 <= n < |before| && CheckedAt(before, n, Run(before).waiter.seen);
        assert before[..n] == events[..n] && events[n] == before[n];
        assert CheckedAt(events, n, Run(events).waiter.seen);
      } else {
        assert CheckedAt(events, |events| - 1, Run(events).waiter.seen);
      }
    }
  }

  // ---- the hypothesis is needed -----------------------------------------------------------------------------

  function Sample(kind: ResourceType): Record {
    Record(Info("a", "", "", "", "", "", kind, "", "", false, false, false, "", false), None)
  }

  const UNTYPED := Sample(NoType)
  const WAITED_FOR := UNTYPED.(info := UNTYPED.info.(gotNew := true))
  const PINGED := WAITED_FOR.(info := WAITED_FOR.info.(resourceType := Ping))

  lemma StrandedReports()
    ensures Step(START, Do(Paused(UNTYPED)))
      == State([UNTYPED], false, [Continuing("a", true, false)], NotWaiting, false)
    ensures Step(State([UNTYPED], false, [Continuing("a", true, false)], NotWaiting, false), Continued(0))
      == State([UNTYPED], false, [], NotWaiting, false)
    ensures Step(State([UNTYPED], false, [], NotWaiting, false), Do(Register("a")))
      == State([WAITED_FOR], false, [Signalling], NotWaiting, false)
    ensures Step(State([WAITED_FOR], false, [Signalling], NotWaiting, false), Signal(0))
      == State([WAITED_FOR], true, [], NotWaiting, false)
    ensures Step(State([WAITED_FOR], false, [], Parked, false), Do(WillBeSent(Sample(Ping))))
      == State([PINGED], false, [], Parked, false)
  {
    assert Merge(WAITED_FOR, Sample(Ping)) == PINGED;
    assert IndexOf([UNTYPED], "a") == 0 && IndexOf([WAITED_FOR], "a") == 0;
  }

  lemma StrandedChecks(token: bool)
    ensures Step(State([WAITED_FOR], token, [], NotWaiting, false), StartWait)
      == State([WAITED_FOR], token, [], AwaitingNetwork, false)
    ensures Step(State([WAITED_FOR], token, [], AwaitingNetwork, false), NetworkIdle)
      == State([WAITED_FOR], token, [], Checking, false)
    ensures Step(State([WAITED_FOR], token, [], Checking, false), Check)
      == State([WAITED_FOR], token, [], Parked, false)
    ensures Step(State([WAITED_FOR], true, [], Parked, false), Wake)
      == State([WAITED_FOR], false, [], AwaitingNetwork, false)
  {
    assert [WAITED_FOR][0].info.BlocksPageCompletion();
  }

  lemma OneMore(events: seq<Event>, s: State, e: Event, s': State) returns (longer: seq<Event>)
    requires Run(events) == s && Step(s, e) == s'
    ensures longer == events + [e] && Run(longer) == s'
  {
    longer := events + [e];
    assert longer[..|events|] == events;
  }

  /** A request is reported without a type and registered, and its change is signalled. */
  lemma StrandedRegisters() returns (events: seq<Event>)
    ensures Run(events) == State([WAITED_FOR], true, [], NotWaiting, false)
  {
    StrandedReports();
    events := OneMore([], START, Do(Paused(UNTYPED)),
                      State([UNTYPED], false, [Continuing("a", true, false)], NotWaiting, false));
    events := OneMore(events, Run(events), Continued(0), State([UNTYPED], false, [], NotWaiting, false));
    events := OneMore(events, Run(events), Do(Register("a")),
                      State([WAITED_FOR], false, [Signalling], NotWaiting, false));
    events := OneMore(events, Run(events), Signal(0), State([WAITED_FOR], true, [], NotWaiting, false));
  }

  /** The waiter finds it unresolved, takes the signal, finds it unresolved again and parks. */
  lemma StrandedParks() returns (events: seq<Event>)
    ensures Run(events) == State([WAITED_FOR], false, [], Parked, false)
  {
    StrandedChecks(true);
    StrandedChecks(false);
    events := StrandedRegisters();
    events := OneMore(events, Run(events), StartWait, State([WAITED_FOR], true, [], AwaitingNetwork, false));
    events := OneMore(events, Run(events), NetworkIdle, State([WAITED_FOR], true, [], Checking, false));
    events := OneMore(events, Run(events), Check, State([WAITED_FOR], true, [], Parked, false));
    events := OneMore(events, Run(events), Wake, State([WAITED_FOR], false, [], AwaitingNetwork, false));
    events := OneMore(events, Run(events), NetworkIdle, State([WAITED_FOR], false, [], Checking, false));
    events := OneMore(events, Run(events), Check, State([WAITED_FOR], false, [], Parked, false));
  }

  /** Then a second report says the request was a ping: the page is settled, and nothing will tell the waiter. */
  lemma StrandedWaiter() returns (events: seq<Event>)
    ensures var s := Run(events); s.waiter.Parked? && PageSettled(s.records) && !WillWake(s)
  {
    StrandedReports();
    events := StrandedParks();
    events := OneMore(events, Run(events), Do(WillBeSent(Sample(Ping))), State([PINGED], false, [], Parked, false));
  }
}
