/** Deadlock freedom and termination of the terminal protocol: waits never form a cycle, and a
    measure bounds the number of steps of every run. */
module TerminalProgress {
  import opened Common
  import opened TerminalMachine
  import opened TerminalInvariant
  import opened TerminalSteps
  import opened TerminalRuns

  // ---- nobody waits in a cycle ------------------------------------------------------------------

  /** Inside a call that is not the idle watch for a disconnect. */
  predicate InCall(t: Thread) { !t.pc.Ready? && !t.pc.Stopped? && !t.pc.Watching? }

  /** Waiting for a channel to close or for sendMu. */
  predicate Blocked(sh: Shared, t: Thread) {
    || (t.pc.AwaitReady? && t.pc.ch !in sh.readyClosed)
    || (t.pc.AwaitPeek? && t.pc.ch !in sh.readyClosed)
    || ((t.pc.LockSend? || t.pc.LockClose?) && SendOwner(sh).Some?)
    || (t.pc.AwaitTerminal? && !sh.terminalDone)
  }

  lemma UnblockedActs(s: State, j: nat, c: Choice)
    requires Inv(s) && j < |s.threads| && InCall(s.threads[j]) && !Blocked(s.shared, s.threads[j])
    ensures Enabled(s, Act(j, c))
  {
  }

  /** Whom a blocked goroutine waits for: the creator of the stream, the holder of sendMu, the winner. */
  function WaitsFor(s: State, j: nat): nat
    requires Inv(s) && j < |s.threads| && Blocked(s.shared, s.threads[j])
  {
    match s.threads[j].pc
    case AwaitTerminal => s.shared.winner.value.tid
    case LockSend => SendOwner(s.shared).value
    case LockClose(_) => SendOwner(s.shared).value
    case _ => if s.shared.creator.Some? then s.shared.creator.value else 0
  }

  /** How many waits can follow one another. */
  function Rank(t: Thread): nat {
    if t.pc.AwaitTerminal? then 2
    else if t.pc.AwaitReady? || t.pc.AwaitPeek? || t.pc.LockSend? || t.pc.LockClose? then 1
    else 0
  }

  /** The wait-for graph descends in rank, so it has no cycle. */
  lemma WaitsDescend(s: State, j: nat)
    requires Inv(s) && j < |s.threads| && Blocked(s.shared, s.threads[j])
    ensures var k := WaitsFor(s, j);
      k < |s.threads| && InCall(s.threads[k]) && Rank(s.threads[k]) < Rank(s.threads[j])
  {
    var k := WaitsFor(s, j);
    var t := s.threads[j];
    assert ThreadInv(s.shared, j, t);
    if t.pc.AwaitTerminal? {
      WinnerRank(s.shared, k, s.threads[k]);
    } else if t.pc.LockSend? || t.pc.LockClose? {
      HolderRank(s.shared, k, s.threads[k]);
    } else {
      CreatorExists(s.shared, j, t);
      CreatorRank(s.shared, k, s.threads[k]);
    }
  }

  lemma WinnerRank(sh: Shared, k: nat, t: Thread)
    requires ThreadInv(sh, k, t) && Leads(sh, k)
    ensures InCall(t) && Rank(t) < 2
  {
  }

  lemma HolderRank(sh: Shared, k: nat, t: Thread)
    requires ThreadInv(sh, k, t) && SendOwner(sh) == Some(k)
    ensures InCall(t) && Rank(t) == 0
  {
  }

  lemma CreatorRank(sh: Shared, k: nat, t: Thread)
    requires ThreadInv(sh, k, t) && sh.creator == Some(k)
    ensures InCall(t) && Rank(t) == 0
  {
  }

  /** Who waits for the stream waits for somebody who is opening it. */
  lemma CreatorExists(sh: Shared, j: nat, t: Thread)
    requires SharedInv(sh) && ThreadInv(sh, j, t) && (t.pc.AwaitReady? || t.pc.AwaitPeek?) && Blocked(sh, t)
    ensures sh.creator.Some?
  {
  }

  /** Deadlock freedom: whenever some goroutine is inside a call, some goroutine inside a call can
      take a step, whatever the environment answers. */
  lemma NoDeadlock(s0: State, events: seq<Event>, j: nat) returns (k: nat)
    requires Initial(s0) && j < |Run(s0, events).threads| && InCall(Run(s0, events).threads[j])
    ensures var s := Run(s0, events);
      k < |s.threads| && InCall(s.threads[k]) && forall c: Choice :: Enabled(s, Act(k, c))
  {
    Reachable(s0, events);
    k := Runner(Run(s0, events), j);
  }

  lemma {:induction false} Runner(s: State, j: nat) returns (k: nat)
    requires Inv(s) && j < |s.threads| && InCall(s.threads[j])
    ensures k < |s.threads| && InCall(s.threads[k]) && forall c: Choice :: Enabled(s, Act(k, c))
    decreases Rank(s.threads[j])
  {
    if Blocked(s.shared, s.threads[j]) {
      WaitsDescend(s, j);
      k := Runner(s, WaitsFor(s, j));
    } else {
      k := j;
      forall c: Choice ensures Enabled(s, Act(k, c)) {
        UnblockedActs(s, k, c);
      }
    }
  }

  // ---- every run is finite ------------------------------------------------------------------------

  const CALL := 32

  function Weight(published: bool, pc: Pc): (w: nat)
    ensures w < CALL
  {
    match pc
    case Watching => 31
    case Acquire => if published then 27 else 30
    case PeekSession => if published then 27 else 30
    case AwaitReady(_) => 28
    case AwaitPeek(_) => 28
    case Open => 26
    case Publish(_) => 25
    case MarkDone => 24
    case CheckCanceled => 24
    case LockSend => 23
    case CheckDone => 22
    case SkipSend => 21
    case BeginSend => 21
    case Send => 20
    case EndSend(_) => 19
    case UnlockSend(_) => 18
    case LockClose(_) => 17
    case CloseRecv(_) => 16
    case UnlockClose(_, _) => 15
    case LoadTimeout(_, _) => 14
    case StopTimer(_) => 13
    case Complete(_) => 12
    case Record(_) => 11
    case CloseSession => 10
    case CloseDone => 9
    case AwaitTerminal => 5
    case Ready => 0
    case Stopped(_, _) => 0
  }

  /** An upper bound on the steps a goroutine still takes. */
  function Remaining(published: bool, t: Thread): nat {
    if t.pc.Stopped? || !t.HasCall() then 0
    else if t.pc.Ready? then (|t.script| - t.Pos()) * CALL
    else (|t.script| - t.Pos() - 1) * CALL + Weight(published, t.pc)
  }

  function TimerWeight(timer: Timer): nat {
    match timer
    case Off => 2
    case Armed => 1
    case Fired => 0
    case Disarmed => 0
  }

  function Total(published: bool, threads: seq<Thread>): nat {
    if threads == [] then 0
    else Total(published, threads[..|threads| - 1]) + Remaining(published, threads[|threads| - 1])
  }

  function Measure(s: State): nat { Total(Published(s.shared), s.threads) + TimerWeight(s.shared.timer) }

  /** What the send path, the close path and the finish path leave as it is. */
  lemma SendLeaves(sh: Shared, i: nat, t: Thread, c: Choice)
    requires CanAct(sh, t, c) && (OnSendPath(t.pc) || t.pc.Send?)
    ensures var b := Do(sh, i, t, c).0; b.cwc.Some? && b.timer == sh.timer
  {
  }

  lemma CloseLeaves(sh: Shared, i: nat, t: Thread, c: Choice)
    requires CanAct(sh, t, c) && (OnClosePath(t.pc) || t.pc.CloseRecv?)
    ensures var b := Do(sh, i, t, c).0; b.cwc.Some? && TimerWeight(b.timer) <= TimerWeight(sh.timer)
  {
    assert Do(sh, i, t, c) == ClosePath(sh, i, t, c);
    var b := ClosePath(sh, i, t, c).0;
    assert t.pc.StopTimer? || b.timer == sh.timer;
  }

  lemma FinishLeaves(sh: Shared, i: nat, t: Thread, c: Choice)
    requires CanAct(sh, t, c) && (t.pc.Record? || t.pc.CloseSession? || t.pc.CloseDone?)
    ensures var b := Do(sh, i, t, c).0; b.cwc == sh.cwc && b.cwcErr == sh.cwcErr && b.timer == sh.timer
  {
  }

  lemma CompleteLeaves(sh: Shared, i: nat, t: Thread, c: Choice)
    requires CanAct(sh, t, c) && t.pc.Complete?
    ensures var b := Do(sh, i, t, c).0; b.cwc == sh.cwc && b.cwcErr == sh.cwcErr && b.timer == sh.timer
  {
  }

  lemma PathLeaves(sh: Shared, i: nat, t: Thread, c: Choice)
    requires CanAct(sh, t, c)
    requires OnSendPath(t.pc) || t.pc.Send? || OnClosePath(t.pc) || t.pc.CloseRecv? || OnFinishPath(t.pc)
    ensures var b := Do(sh, i, t, c).0;
      (Published(sh) ==> Published(b)) && TimerWeight(b.timer) <= TimerWeight(sh.timer)
  {
    if OnSendPath(t.pc) || t.pc.Send? {
      SendLeaves(sh, i, t, c);
    } else if t.pc.Complete? {
      CompleteLeaves(sh, i, t, c);
    } else if OnFinishPath(t.pc) {
      FinishLeaves(sh, i, t, c);
    } else {
      CloseLeaves(sh, i, t, c);
    }
  }

  lemma DoPublished(sh: Shared, i: nat, t: Thread, c: Choice)
    requires At(sh, i, t, c)
    ensures Published(sh) ==> Published(Do(sh, i, t, c).0)
    ensures t.pc.Publish? ==> Published(Do(sh, i, t, c).0)
  {
    if OnSendPath(t.pc) || t.pc.Send? || OnClosePath(t.pc) || t.pc.CloseRecv? || OnFinishPath(t.pc) {
      PathLeaves(sh, i, t, c);
    }
  }

  lemma DoTimer(sh: Shared, i: nat, t: Thread, c: Choice)
    requires At(sh, i, t, c)
    ensures TimerWeight(Do(sh, i, t, c).0.timer) <= TimerWeight(sh.timer)
  {
    if OnSendPath(t.pc) || t.pc.Send? || OnClosePath(t.pc) || t.pc.CloseRecv? || OnFinishPath(t.pc) {
      PathLeaves(sh, i, t, c);
    }
  }

  /** Each step either finishes the current call or moves down in the call's weights. */
  lemma StartDescends(sh: Shared, i: nat, t: Thread, c: Choice)
    requires CanAct(sh, t, c) && (Published(sh) ==> Published(Do(sh, i, t, c).0))
      && (t.pc.Ready? || t.pc.Watching? || t.pc.AwaitTerminal?)
    ensures Descends(t, Do(sh, i, t, c).1, Published(sh), Published(Do(sh, i, t, c).0))
  {
  }

  lemma SessionDescends(sh: Shared, i: nat, t: Thread, c: Choice)
    requires CanAct(sh, t, c) && (Published(sh) ==> Published(Do(sh, i, t, c).0)) && CreationInv(sh)
      && (t.pc.Acquire? || t.pc.Open? || t.pc.Publish? || t.pc.PeekSession? || t.pc.MarkDone?)
    ensures Descends(t, Do(sh, i, t, c).1, Published(sh), Published(Do(sh, i, t, c).0))
  {
  }

  lemma WaitDescends(sh: Shared, i: nat, t: Thread, c: Choice)
    requires CanAct(sh, t, c) && (Published(sh) ==> Published(Do(sh, i, t, c).0))
      && (t.pc.AwaitReady? || t.pc.AwaitPeek?) && Published(sh)
    ensures Descends(t, Do(sh, i, t, c).1, Published(sh), Published(Do(sh, i, t, c).0))
  {
  }

  lemma SendDescends(sh: Shared, i: nat, t: Thread, c: Choice)
    requires CanAct(sh, t, c) && (Published(sh) ==> Published(Do(sh, i, t, c).0)) && (OnSendPath(t.pc) || t.pc.Send?)
    ensures Descends(t, Do(sh, i, t, c).1, Published(sh), Published(Do(sh, i, t, c).0))
  {
  }

  lemma CloseDescends(sh: Shared, i: nat, t: Thread, c: Choice)
    requires CanAct(sh, t, c) && (Published(sh) ==> Published(Do(sh, i, t, c).0))
      && (OnClosePath(t.pc) || t.pc.CloseRecv?)
    ensures Descends(t, Do(sh, i, t, c).1, Published(sh), Published(Do(sh, i, t, c).0))
  {
  }

  lemma CompleteDescends(sh: Shared, i: nat, t: Thread, c: Choice)
    requires CanAct(sh, t, c) && (Published(sh) ==> Published(Do(sh, i, t, c).0)) && t.pc.Complete?
    ensures Descends(t, Do(sh, i, t, c).1, Published(sh), Published(Do(sh, i, t, c).0))
  {
  }

  lemma FinishDescends(sh: Shared, i: nat, t: Thread, c: Choice)
    requires CanAct(sh, t, c) && (Published(sh) ==> Published(Do(sh, i, t, c).0))
      && (t.pc.Record? || t.pc.CloseSession? || t.pc.CloseDone?)
    ensures Descends(t, Do(sh, i, t, c).1, Published(sh), Published(Do(sh, i, t, c).0))
  {
  }

  predicate Descends(t: Thread, u: Thread, p: bool, q: bool) {
    && t.HasCall() && u.script == t.script
    && (u.pc.Stopped?
        || (u.pc.Ready? && u.Pos() == t.Pos() + 1)
        || (!u.pc.Ready? && u.Pos() == t.Pos() && (t.pc.Ready? || Weight(q, u.pc) < Weight(p, t.pc))))
    && !t.pc.Stopped?
  }

  lemma DoDecreases(sh: Shared, i: nat, t: Thread, c: Choice)
    requires At(sh, i, t, c)
    ensures var (b, u) := Do(sh, i, t, c); Remaining(Published(b), u) < Remaining(Published(sh), t)
  {
    DoPublished(sh, i, t, c);
    if OnSendPath(t.pc) || t.pc.Send? {
      SendDescends(sh, i, t, c);
    } else if t.pc.Complete? {
      CompleteDescends(sh, i, t, c);
    } else if OnFinishPath(t.pc) {
      FinishDescends(sh, i, t, c);
    } else if OnClosePath(t.pc) || t.pc.CloseRecv? {
      CloseDescends(sh, i, t, c);
    } else if t.pc.AwaitReady? || t.pc.AwaitPeek? {
      WaitDescends(sh, i, t, c);
    } else if t.pc.Ready? || t.pc.Watching? || t.pc.AwaitTerminal? {
      StartDescends(sh, i, t, c);
    } else {
      SessionDescends(sh, i, t, c);
    }
    DescentDecreases(t, Do(sh, i, t, c).1, Published(sh), Published(Do(sh, i, t, c).0));
  }

  lemma DescentDecreases(t: Thread, u: Thread, p: bool, q: bool)
    requires Descends(t, u, p, q)
    ensures Remaining(q, u) < Remaining(p, t)
  {
  }

  lemma {:induction false} TotalDrops(p: bool, q: bool, threads: seq<Thread>, i: nat, u: Thread)
    requires i < |threads| && (p ==> q) && Remaining(q, u) < Remaining(p, threads[i])
    ensures Total(q, threads[i := u]) < Total(p, threads)
  {
    var n := |threads| - 1;
    var init := threads[..n];
    if i == n {
      assert threads[i := u][..n] == init;
      TotalMonotone(p, q, init);
    } else {
      assert threads[i := u][..n] == init[i := u];
      TotalDrops(p, q, init, i, u);
    }
  }

  lemma TotalMonotone(p: bool, q: bool, threads: seq<Thread>)
    requires p ==> q
    ensures Total(q, threads) <= Total(p, threads)
  {
  }

  lemma StepDecreases(s: State, e: Event)
    requires Inv(s) && Enabled(s, e)
    ensures Measure(Step(s, e)) < Measure(s)
  {
    match e
    case TimerFires =>
    case Act(i, c) =>
      var t := s.threads[i];
      DoDecreases(s.shared, i, t, c);
      DoTimer(s.shared, i, t, c);
      DoPublished(s.shared, i, t, c);
      TotalDrops(Published(s.shared), Published(Step(s, e).shared), s.threads, i, Do(s.shared, i, t, c).1);
  }

  predicate AllEnabled(s: State, events: seq<Event>)
    decreases |events|
  {
    events != [] ==> Enabled(s, events[0]) && AllEnabled(Step(s, events[0]), events[1..])
  }

  lemma {:induction false} RunBounded(s: State, events: seq<Event>)
    requires Inv(s) && AllEnabled(s, events)
    ensures |events| + Measure(Run(s, events)) <= Measure(s)
    decreases |events|
  {
    if events != [] {
      StepKeeps(s, events[0]);
      StepDecreases(s, events[0]);
      RunBounded(Step(s, events[0]), events[1..]);
    }
  }

  /** If every RPC returns, every run ends: it has at most Measure(s0) steps. */
  lemma {:induction false} RunsEnd(s0: State, events: seq<Event>)
    requires Initial(s0) && AllEnabled(s0, events)
    ensures |events| <= Measure(s0)
  {
    InitialInv(s0);
    RunBounded(s0, events);
  }

  /** No step is possible except a client disconnect. */
  ghost predicate Quiescent(s: State) {
    forall k: nat, c: Choice :: !c.gone ==> !Enabled(s, Act(k, c))
  }

  /** Where a run ends, every call has returned: goroutines are finished, stopped by a failed send,
      still gated, or idle watchers. If anyone was elected, terminalDone is closed and no watcher is left. */
  lemma RunsEndSettled(s0: State, events: seq<Event>, j: nat)
    requires Initial(s0) && Quiescent(Run(s0, events)) && j < |Run(s0, events).threads|
    ensures var s := Run(s0, events); var t := s.threads[j];
      && (t.Settled() || (t.pc.Ready? && !GateOpen(s, t)) || (t.pc.Watching? && !s.shared.terminalDone))
      && (s.shared.winner.Some? ==> s.shared.terminalDone)
  {
    Reachable(s0, events);
    var s := Run(s0, events);
    var t := s.threads[j];
    var c := Choice(true, Reply(None), false);
    if InCall(t) {
      var k := Runner(s, j);
      var possible := Enabled(s, Act(k, c));
      assert false;
    }
    assert !Enabled(s, Act(j, c));
    if s.shared.winner.Some? && !s.shared.terminalDone {
      var w := s.shared.winner.value.tid;
      assert ThreadInv(s.shared, w, s.threads[w]);
      var k := Runner(s, w);
      var possible := Enabled(s, Act(k, c));
      assert false;
    }
  }
}
