/** The recorder proxy's lifecycleTracker: shutdown waits for every accepted connection and every
    record, although a tracked connection may still create records while shutdown waits. */
module Lifecycle {
  import opened Common

  // ---- lifecycleTracker ---------------------------------------------------------------------------

  /** Channels are numbered in the order they are made; changed is the current one. The history
      variable closings lists the channels in the order they were closed. */
  datatype Tracker = Tracker(closed: bool, changed: nat, conns: set<nat>, records: set<nat>, closings: seq<nat>) {
    function Notify(): Tracker { this.(changed := changed + 1, closings := closings + [changed]) }

    function AddConnection(c: nat): Tracker {
      if closed then this else this.(conns := conns + {c}).Notify()
    }
    function RemoveConnection(c: nat): Tracker {
      if c in conns then this.(conns := conns - {c}).Notify() else this
    }
    function AddRecord(r: nat): Tracker { this.(records := records + {r}).Notify() }
    function RemoveRecord(r: nat): Tracker { this.(records := records - {r}).Notify() }
    function Close(): Tracker { this.(closed := true).Notify() }

    predicate Quiet() { conns == {} && records == {} }
    predicate IsOpen(ch: nat) { ch !in closings }
  }

  const NEW_TRACKER := Tracker(false, 0, {}, {}, [])

  class LifecycleTracker {
    var closed: bool
    var changed: nat
    var conns: set<nat>
    var records: set<nat>
    ghost var closings: seq<nat>

    ghost function View(): Tracker reads this { Tracker(closed, changed, conns, records, closings) }

    constructor ()
      ensures View() == NEW_TRACKER
    {
      closed, changed, conns, records, closings := false, 0, {}, {}, [];
    }

    method NotifyLocked()
      modifies this`changed, this`closings
      ensures View() == old(View()).Notify()
    {
      closings := closings + [changed];
      changed := changed + 1;
    }

    method AddConnection(c: nat) returns (ok: bool)
      modifies this
      ensures ok == !old(closed) && View() == old(View()).AddConnection(c)
      ensures conns == old(conns) + (if ok then {c} else {}) && records == old(records) && closed == old(closed)
    {
      if closed {
        return false;
      }
      conns := conns + {c};
      NotifyLocked();
      return true;
    }

    method RemoveConnection(c: nat)
      modifies this
      ensures View() == old(View()).RemoveConnection(c)
      ensures conns == old(conns) - {c} && records == old(records) && closed == old(closed)
      ensures changed == old(changed) <==> conns == old(conns)
    {
      if c in conns {
        conns := conns - {c};
        NotifyLocked();
      }
    }

    method AddRecord(r: nat)
      modifies this
      ensures View() == old(View()).AddRecord(r)
      ensures records == old(records) + {r} && conns == old(conns) && closed == old(closed) && changed != old(changed)
    {
      records := records + {r};
      NotifyLocked();
    }

    /** The body of the record's CloseFunc; sync.Once runs it once. */
    method RecordClosed(r: nat)
      modifies this
      ensures View() == old(View()).RemoveRecord(r)
      ensures records == old(records) - {r} && conns == old(conns) && closed == old(closed) && changed != old(changed)
    {
      records := records - {r};
      NotifyLocked();
    }

    method CloseAndSnapshotConnections() returns (snapshot: set<nat>)
      modifies this
      ensures View() == old(View()).Close() && snapshot == old(conns)
      ensures closed && conns == old(conns) && records == old(records)
    {
      closed := true;
      snapshot := conns;
      NotifyLocked();
    }

    /** The critical section of wait's loop: nothing left, or the channel to wait on, which is open and which
        the next change closes. */
    method Poll() returns (channel: Option<nat>)
      ensures channel.None? <==> View().Quiet()
      ensures channel.Some? && ChannelsInv(View()) ==> View().IsOpen(channel.value)
      ensures channel.Some? ==> View().Notify().closings == View().closings + [channel.value]
    {
      channel := if conns == {} && records == {} then None else Some(changed);
    }
  }

  /** A connection that may be closed from several sides: the first Close cancels its context and closes the
      socket, the others do nothing. */
  class WrappedConnection {
    var closed: bool
    var cancelled: bool
    ghost var socketCloses: nat

    ghost predicate Valid() reads this { socketCloses == (if closed then 1 else 0) && (closed ==> cancelled) }

    constructor ()
      ensures Valid() && !closed && !cancelled
    {
      closed, cancelled, socketCloses := false, false, 0;
    }

    /** socketError is what closing the socket returns. */
    method Close(socketError: Option<int>) returns (error: Option<int>)
      requires Valid()
      modifies this
      ensures Valid() && closed && cancelled && socketCloses == 1
      ensures error == if old(closed) then None else socketError
    {
      if closed {
        return None;
      }
      closed := true;
      cancelled := true;
      socketCloses := socketCloses + 1;
      error := socketError;
    }
  }

  // ---- Serve, Shutdown and the handlers -----------------------------------------------------------

  /** An accepted connection: not yet offered to the tracker; refused by it; being handled; handled. The first
      two name the Serve call that accepted it. */
  datatype Conn = Accepted(server: nat) | Rejected(server: nat) | Handling | Handled

  /** Where a Serve call stands: before Accept, before offering a connection to the tracker, before closing one
      that the tracker refused, or returned because Accept failed. */
  datatype Serve = AtAccept | Offering(c: nat) | Refusing(c: nat) | Ended

  /** A Shutdown call: it takes a snapshot, closes those connections one by one, then waits. Parked
      remembers what the tracker held when the channel was read. */
  datatype Shutdown =
    | Called
    | Closing(snapshot: set<nat>, left: set<nat>)
    | Polling(snapshot: set<nat>)
    | Parked(snapshot: set<nat>, channel: nat, conns: set<nat>, records: set<nat>)
    | Returned(snapshot: set<nat>, ok: bool)

  datatype State = State(
    tracker: Tracker,
    conns: seq<Conn>,             // every connection Accept ever returned
    closedConns: set<nat>,        // those Close was called on
    made: nat,                    // records created so far
    servers: seq<Serve>,
    shutdowns: seq<Shutdown>)

  datatype Event =
    | CallServe
    | Accept(l: nat)
    | AcceptFails(l: nat)
    | Offer(l: nat)
    | CloseRefused(l: nat)
    | NewRecord(c: nat)           // the handler of a tracked connection creates a RecordContext
    | StrayRecord                 // a RecordContext created outside any tracked connection
    | RecordDone(r: nat)
    | HandlerReturns(c: nat)
    | CallShutdown
    | Snapshot(w: nat)
    | CloseOne(w: nat, c: nat)
    | Poll(w: nat)
    | Wake(w: nat)
    | GiveUp(w: nat)

  predicate Enabled(s: State, e: Event) {
    match e
    case CallServe => true
    case Accept(l) => l < |s.servers| && s.servers[l].AtAccept?
    case AcceptFails(l) => l < |s.servers| && s.servers[l].AtAccept?
    case Offer(l) => l < |s.servers| && s.servers[l].Offering? && s.servers[l].c < |s.conns|
    case CloseRefused(l) => l < |s.servers| && s.servers[l].Refusing?
    case NewRecord(c) => c < |s.conns| && s.conns[c].Handling?
    case StrayRecord => true
    case RecordDone(r) => r in s.tracker.records
    case HandlerReturns(c) => c < |s.conns| && s.conns[c].Handling?
    case CallShutdown => true
    case Snapshot(w) => w < |s.shutdowns| && s.shutdowns[w].Called?
    case CloseOne(w, c) => w < |s.shutdowns| && s.shutdowns[w].Closing? && c in s.shutdowns[w].left
    case Poll(w) =>
      && w < |s.shutdowns|
      && (s.shutdowns[w].Polling? || (s.shutdowns[w].Closing? && s.shutdowns[w].left == {}))
    case Wake(w) => w < |s.shutdowns| && s.shutdowns[w].Parked? && !s.tracker.IsOpen(s.shutdowns[w].channel)
    case GiveUp(w) => w < |s.shutdowns| && s.shutdowns[w].Parked?
  }

  function Step(s: State, e: Event): State {
    if !Enabled(s, e) then s
    else match e
      case CallServe => s.(servers := s.servers + [AtAccept])
      case Accept(l) => s.(conns := s.conns + [Accepted(l)], servers := s.servers[l := Offering(|s.conns|)])
      case AcceptFails(l) => s.(servers := s.servers[l := Ended])
      case Offer(l) =>
        var c := s.servers[l].c;
        var refused := s.tracker.closed;
        s.(tracker := s.tracker.AddConnection(c),
           conns := s.conns[c := if refused then Rejected(l) else Handling],
           servers := s.servers[l := if refused then Refusing(c) else AtAccept])
      case CloseRefused(l) => s.(closedConns := s.closedConns + {s.servers[l].c}, servers := s.servers[l := AtAccept])
      case NewRecord(_) => s.(tracker := s.tracker.AddRecord(s.made), made := s.made + 1)
      case StrayRecord => s.(tracker := s.tracker.AddRecord(s.made), made := s.made + 1)
      case RecordDone(r) => s.(tracker := s.tracker.RemoveRecord(r))
      case HandlerReturns(c) => s.(tracker := s.tracker.RemoveConnection(c), conns := s.conns[c := Handled])
      case CallShutdown => s.(shutdowns := s.shutdowns + [Called])
      case Snapshot(w) =>
        s.(tracker := s.tracker.Close(), shutdowns := s.shutdowns[w := Closing(s.tracker.conns, s.tracker.conns)])
      case CloseOne(w, c) =>
        s.(closedConns := s.closedConns + {c},
           shutdowns := s.shutdowns[w := s.shutdowns[w].(left := s.shutdowns[w].left - {c})])
      case Poll(w) =>
        var snapshot := s.shutdowns[w].snapshot;
        s.(shutdowns := s.shutdowns[w :=
          if s.tracker.Quiet() then Returned(snapshot, true)
          else Parked(snapshot, s.tracker.changed, s.tracker.conns, s.tracker.records)])
      case Wake(w) => s.(shutdowns := s.shutdowns[w := Polling(s.shutdowns[w].snapshot)])
      case GiveUp(w) => s.(shutdowns := s.shutdowns[w := Returned(s.shutdowns[w].snapshot, false)])
  }

  function Run(s: State, events: seq<Event>): State
    decreases |events|
  {
    if events == [] then s else Run(Step(s, events[0]), events[1..])
  }

  const START := State(NEW_TRACKER, [], {}, 0, [], [])

  // ---- the invariant ---------------------------------------------------------------------------------

  /** Every channel before the current one has been closed, once, in order; the current one is open. */
  predicate ChannelsInv(t: Tracker) {
    |t.closings| == t.changed && forall k :: 0 <= k < |t.closings| ==> t.closings[k] == k
  }

  ghost predicate ConnsInv(s: State) {
    && (forall c :: c in s.tracker.conns <==> 0 <= c < |s.conns| && s.conns[c].Handling?)
    && (forall c :: 0 <= c < |s.conns| && s.conns[c].Rejected? ==> s.tracker.closed)
    && (forall r :: r in s.tracker.records ==> r < s.made)
  }

  /** A connection not yet offered, or refused and not closed, is in the hands of the Serve call that accepted
      it, and a Serve call holds at most one. */
  predicate ServersInv(s: State) {
    && (forall c :: 0 <= c < |s.conns| ==> ConnHeld(s, c))
    && (forall l :: 0 <= l < |s.servers| ==> Holds(s, l))
  }

  predicate ConnHeld(s: State, c: nat)
    requires c < |s.conns|
  {
    match s.conns[c]
    case Accepted(l) => l < |s.servers| && s.servers[l] == Offering(c)
    case Rejected(l) => c in s.closedConns || (l < |s.servers| && s.servers[l] == Refusing(c))
    case _ => true
  }

  predicate Holds(s: State, l: nat)
    requires l < |s.servers|
  {
    match s.servers[l]
    case Offering(c) => c < |s.conns| && s.conns[c] == Accepted(l)
    case Refusing(c) => c < |s.conns| && s.conns[c] == Rejected(l)
    case _ => true
  }

  predicate ShutdownInv(s: State, w: Shutdown) {
    match w
    case Called => true
    case Closing(snapshot, left) => s.tracker.closed && s.tracker.conns <= snapshot && snapshot - left <= s.closedConns
    case Polling(snapshot) => s.tracker.closed && s.tracker.conns <= snapshot && snapshot <= s.closedConns
    case Parked(snapshot, ch, conns, records) =>
      && s.tracker.closed && s.tracker.conns <= snapshot && snapshot <= s.closedConns
      && ch <= s.tracker.changed && !(conns == {} && records == {})
      && (s.tracker.IsOpen(ch) ==> ch == s.tracker.changed && conns == s.tracker.conns && records == s.tracker.records)
    case Returned(snapshot, _) => s.tracker.closed && s.tracker.conns <= snapshot && snapshot <= s.closedConns
  }

  ghost predicate Inv(s: State) {
    && ChannelsInv(s.tracker) && ConnsInv(s) && ServersInv(s)
    && forall w :: 0 <= w < |s.shutdowns| ==> ShutdownInv(s, s.shutdowns[w])
  }

  lemma StepKeepsChannels(s: State, e: Event)
    requires ChannelsInv(s.tracker)
    ensures ChannelsInv(Step(s, e).tracker)
    ensures s.tracker.changed <= Step(s, e).tracker.changed
    ensures Step(s, e).tracker.changed == s.tracker.changed ==>
      Step(s, e).tracker == s.tracker
  {
  }

  lemma StepKeepsConns(s: State, e: Event)
    requires Inv(s)
    ensures ConnsInv(Step(s, e))
    ensures s.tracker.closed ==> Step(s, e).tracker.closed && Step(s, e).tracker.conns <= s.tracker.conns
    ensures s.closedConns <= Step(s, e).closedConns
  {
    assert Enabled(s, e) && (e.Offer? || e.CloseRefused?) ==> Holds(s, e.l);
  }

  lemma StepKeepsServers(s: State, e: Event)
    requires Inv(s)
    ensures ServersInv(Step(s, e))
  {
    var s' := Step(s, e);
    assert Enabled(s, e) && (e.Offer? || e.CloseRefused?) ==> Holds(s, e.l);
    forall l | 0 <= l < |s'.servers| ensures Holds(s', l) {
      assert l < |s.servers| ==> Holds(s, l);
    }
    forall c | 0 <= c < |s'.conns| ensures ConnHeld(s', c) {
      assert c < |s.conns| ==> ConnHeld(s, c);
    }
  }

  /** Another step leaves a Shutdown call's knowledge intact. */
  lemma ShutdownStable(s: State, e: Event, w: Shutdown)
    requires Inv(s) && ShutdownInv(s, w)
    ensures ShutdownInv(Step(s, e), w)
  {
    StepKeepsChannels(s, e);
    StepKeepsConns(s, e);
  }

  lemma StepKeeps(s: State, e: Event)
    requires Inv(s)
    ensures Inv(Step(s, e))
  {
    StepKeepsChannels(s, e);
    StepKeepsConns(s, e);
    StepKeepsServers(s, e);
    var s' := Step(s, e);
    forall w | 0 <= w < |s'.shutdowns| ensures ShutdownInv(s', s'.shutdowns[w]) {
      if w < |s.shutdowns| {
        ShutdownStable(s, e, s.shutdowns[w]);
      }
    }
  }

  lemma {:induction false} RunKeeps(s: State, events: seq<Event>)
    requires Inv(s)
    ensures Inv(Run(s, events))
    decreases |events|
  {
    if events != [] {
      StepKeeps(s, events[0]);
      RunKeeps(Step(s, events[0]), events[1..]);
    }
  }

  // ---- theorems ------------------------------------------------------------------------------------------

  /** No lost wake-up: a wait parked on a channel that is still open holds the current channel, and
      nothing was added or removed since it looked. Every channel but the current one was closed
      exactly once. */
  lemma NoLostWakeup(events: seq<Event>, w: nat)
    requires w < |Run(START, events).shutdowns| && Run(START, events).shutdowns[w].Parked?
    ensures var s := Run(START, events); var p := s.shutdowns[w];
      && (s.tracker.IsOpen(p.channel) ==>
            && p.channel == s.tracker.changed && p.conns == s.tracker.conns && p.records == s.tracker.records
            && !s.tracker.Quiet())
      && (!s.tracker.IsOpen(p.channel) ==> Enabled(s, Wake(w)))
    ensures var t := Run(START, events).tracker;
      forall ch: nat :: multiset(t.closings)[ch] == if ch < t.changed then 1 else 0
  {
    RunKeeps(START, events);
    var t := Run(START, events).tracker;
    forall ch: nat ensures multiset(t.closings)[ch] == if ch < t.changed then 1 else 0 {
      ClosedOnce(t.closings, ch);
    }
  }

  lemma {:induction false} ClosedOnce(closings: seq<nat>, ch: nat)
    requires forall k :: 0 <= k < |closings| ==> closings[k] == k
    ensures multiset(closings)[ch] == if ch < |closings| then 1 else 0
  {
    if closings != [] {
      var init := closings[..|closings| - 1];
      assert closings == init + [closings[|closings| - 1]];
      ClosedOnce(init, ch);
    }
  }

  /** Once a shutdown has closed the tracker, every accepted connection is
      - still held by the Serve call that accepted it, whose next step offers it and has it refused;
      - refused, and closed unless that Serve call is about to close it, before it can accept another;
      - in the shutdown's snapshot, and closed once the shutdown waits; or handled and removed. */
  lemma EveryConnectionAccounted(events: seq<Event>, w: nat, c: nat)
    requires var s := Run(START, events); w < |s.shutdowns| && !s.shutdowns[w].Called? && c < |s.conns|
    ensures var s := Run(START, events);
      && s.tracker.closed && (c in s.tracker.conns <==> s.conns[c].Handling?)
      && match s.conns[c]
         case Accepted(l) =>
           && l < |s.servers| && s.servers[l] == Offering(c) && Step(s, Offer(l)).conns[c] == Rejected(l)
           && !Enabled(s, Accept(l))
         case Rejected(l) =>
           || c in s.closedConns
           || (&& l < |s.servers| && s.servers[l] == Refusing(c) && c in Step(s, CloseRefused(l)).closedConns
               && !Enabled(s, Accept(l)))
         case Handling => c in s.shutdowns[w].snapshot && (!s.shutdowns[w].Closing? ==> c in s.closedConns)
         case Handled => true
  {
    RunKeeps(START, events);
    var s := Run(START, events);
    assert ShutdownInv(s, s.shutdowns[w]);
    assert c in s.tracker.conns <==> s.conns[c].Handling?;
    assert ConnHeld(s, c);
  }

  /** While every Serve call is before Accept or has returned, every refused connection has been closed. */
  lemma RefusedAreClosed(events: seq<Event>, c: nat)
    requires var s := Run(START, events); c < |s.conns| && s.conns[c].Rejected?
    requires forall l :: 0 <= l < |Run(START, events).servers| ==> !Run(START, events).servers[l].Refusing?
    ensures c in Run(START, events).closedConns
  {
    RunKeeps(START, events);
    assert ConnHeld(Run(START, events), c);
  }

  predicate NoStray(events: seq<Event>) { StrayRecord !in events }

  ghost predicate Quiescent(s: State) { Inv(s) && s.tracker.closed && s.tracker.Quiet() }

  lemma StepStaysQuiet(s: State, e: Event)
    requires Quiescent(s)
    ensures Quiescent(Step(s, e)) <==> !e.StrayRecord?
  {
    StepKeeps(s, e);
    if e.StrayRecord? {
      assert s.made in Step(s, e).tracker.records;
    } else {
      assert forall c :: c !in s.tracker.conns;
    }
  }

  lemma {:induction false} RunStaysQuiet(s: State, events: seq<Event>)
    requires Quiescent(s) && NoStray(events)
    ensures Quiescent(Run(s, events))
    decreases |events|
  {
    if events != [] {
      assert events[0] in events;
      StepStaysQuiet(s, events[0]);
      RunStaysQuiet(Step(s, events[0]), events[1..]);
    }
  }

  /** Poll returned nil to a shutdown: from then on, in every continuation in which records are made
      by handlers of tracked connections only, no connection is tracked and no record is open. */
  lemma StableQuiescence(events: seq<Event>, w: nat, more: seq<Event>)
    requires NoStray(more)
    requires Enabled(Run(START, events), Poll(w)) && Step(Run(START, events), Poll(w)).shutdowns[w].Returned?
    ensures Run(Step(Run(START, events), Poll(w)), more).tracker.Quiet()
  {
    RunKeeps(START, events);
    var s := Run(START, events);
    assert ShutdownInv(s, s.shutdowns[w]);
    StepKeeps(s, Poll(w));
    RunStaysQuiet(Step(s, Poll(w)), more);
  }

  /** The hypothesis is exact: a single record made elsewhere ends the quiet. */
  lemma StrayRecordEndsQuiet(s: State, e: Event)
    requires Quiescent(s)
    ensures Step(s, e).tracker.Quiet() <==> e != StrayRecord
  {
    StepStaysQuiet(s, e);
    StepKeepsConns(s, e);
    StepKeeps(s, e);
  }
}
