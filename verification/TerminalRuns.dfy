/** From single steps to whole runs: the invariant of every reachable state of a RecordContext. */
module TerminalRuns {
  import opened Common
  import opened TerminalMachine
  import opened TerminalInvariant
  import opened TerminalSteps

  // ---- the wire as a whole ----------------------------------------------------------------

  function PhaseAfter(tr: seq<Wire>): Phase {
    if tr == [] then Flowing else PhaseAfter(tr[..|tr| - 1]).Advance(tr[|tr| - 1])
  }

  /** The data attempts of one goroutine, in order. */
  function SentBy(tr: seq<Wire>, j: nat): seq<Wire> {
    if tr == [] then []
    else
      var w := tr[|tr| - 1];
      SentBy(tr[..|tr| - 1], j) + if w.IsData() && w.tid == j then [w] else []
  }

  lemma WireSnoc(tr: seq<Wire>, w: Wire)
    ensures PhaseAfter(tr + [w]) == PhaseAfter(tr).Advance(w)
    ensures forall j: nat :: SentBy(tr + [w], j) == SentBy(tr, j) + if w.IsData() && w.tid == j then [w] else []
  {
    assert (tr + [w])[..|tr|] == tr;
  }

  // ---- the invariant ------------------------------------------------------------------------

  /** Locks, the creation token and the election name goroutines that exist. */
  predicate OwnersExist(s: State) {
    var sh := s.shared;
    && (SendOwner(sh).Some? ==> SendOwner(sh).value < |s.threads|)
    && (sh.creator.Some? ==> sh.creator.value < |s.threads|)
    && (sh.winner.Some? ==> Elected(s, sh.winner.value))
  }

  /** The election names a terminal call of an existing goroutine. */
  predicate Elected(s: State, w: Win) {
    && w.tid < |s.threads| && w.pos < |s.threads[w.tid].script|
    && IsTerminal(s.threads[w.tid].script[w.pos]) && s.threads[w.tid].script[w.pos].req == w.req
  }

  /** The trace is accounted for: by its phase, by its senders' histories, by their scripts. */
  predicate TraceInv(s: State) {
    var tr := Trace(s.shared);
    && PhaseOf(s.shared) == PhaseAfter(tr)
    && (forall j :: 0 <= j < |s.threads| ==> SentBy(tr, j) == s.threads[j].sent)
    && (forall k :: 0 <= k < |tr| && tr[k].IsData() ==>
          tr[k].tid < |s.threads| && Data(tr[k].msg) in s.threads[tr[k].tid].script)
  }

  /** Once the terminal message is out, the winner has sent exactly the data before its election. */
  predicate WinnerSent(s: State)
    requires OwnersExist(s)
  {
    !PhaseOf(s.shared).Flowing? && s.shared.winner.Some? ==>
      var w := s.shared.winner.value;
      s.threads[w.tid].sent == Owed(s.threads[w.tid].script, w.pos, w.tid)
  }

  predicate GateRespected(s: State, j: nat)
    requires j < |s.threads|
  {
    var g := s.threads[j].gate;
    s.threads[j].Begun() && g.Some? ==> g.value.tid < |s.threads| && g.value.pos <= s.threads[g.value.tid].Pos()
  }

  /** A finished coordinateTerminal call means terminalDone is closed, and unless it is the elected
      one it returned AlreadyCompleted. */
  predicate CallsInv(sh: Shared, j: nat, t: Thread)
    requires t.Pos() <= |t.script|
  {
    forall p :: 0 <= p < t.Pos() && t.script[p].Finish? ==>
      && sh.terminalDone && sh.winner.Some?
      && if sh.winner.value.tid == j && sh.winner.value.pos == p then Vouched(sh, t.outcomes[p])
         else t.outcomes[p] == Returned(Some(ALREADY_COMPLETED))
  }

  /** The elected call returns no error only when there was none to begin with and the writer settled. */
  predicate Vouched(sh: Shared, o: Outcome)
    requires sh.winner.Some?
  {
    var req := sh.winner.value.req;
    && (req.originalErr.Some? ==> o == Returned(req.originalErr))
    && (req.originalErr.None? && o == Returned(None) ==> TerminalInvariant.Settled(sh, req))
    && (req.originalErr.None? ==> o == Returned(sh.terminalErr))
  }

  predicate Inv(s: State) {
    && SharedInv(s.shared)
    && (forall j :: 0 <= j < |s.threads| ==> ThreadInv(s.shared, j, s.threads[j]))
    && (forall j :: 0 <= j < |s.threads| ==> GateRespected(s, j))
    && (forall j :: 0 <= j < |s.threads| ==> CallsInv(s.shared, j, s.threads[j]))
    && OwnersExist(s) && TraceInv(s) && WinnerSent(s)
  }

  // ---- initial states and steps ---------------------------------------------------------------

  lemma InitialInv(s: State)
    requires Initial(s)
    ensures Inv(s)
  {
    forall j | 0 <= j < |s.threads| ensures ThreadInv(s.shared, j, s.threads[j]) {
      assert InitialThread(s.threads[j]);
    }
  }

  lemma ActKeepsThreads(s: State, i: nat, c: Choice)
    requires Inv(s) && Enabled(s, Act(i, c))
    ensures var s' := Step(s, Act(i, c));
      SharedInv(s'.shared) && forall j :: 0 <= j < |s'.threads| ==> ThreadInv(s'.shared, j, s'.threads[j])
  {
    var t := s.threads[i];
    var s' := Step(s, Act(i, c));
    DoKeepsShared(s.shared, i, t, c);
    forall j | 0 <= j < |s'.threads| ensures ThreadInv(s'.shared, j, s'.threads[j]) {
      if j == i {
        DoKeepsOwn(s.shared, i, t, c);
      } else {
        DoKeepsOthers(s.shared, i, t, c, j);
        RelyKeepsThread(s.shared, s'.shared, j, s.threads[j]);
      }
    }
  }

  /** The election is decided once. */
  lemma WinnerStable(sh: Shared, i: nat, t: Thread, c: Choice)
    requires At(sh, i, t, c) && sh.winner.Some?
    ensures Do(sh, i, t, c).0.winner == sh.winner
  {
    if OnSendPath(t.pc) || t.pc.Send? {
      assert Do(sh, i, t, c) == SendPath(sh, i, t, c);
    } else if OnClosePath(t.pc) || t.pc.CloseRecv? {
      assert Do(sh, i, t, c) == ClosePath(sh, i, t, c);
    } else if OnFinishPath(t.pc) {
      assert Do(sh, i, t, c) == FinishPath(sh, t, c);
    }
  }

  /** It is decided in favour of the goroutine whose terminal call it names. */
  lemma WinnerElected(sh: Shared, i: nat, t: Thread, c: Choice)
    requires At(sh, i, t, c) && sh.winner.None?
    ensures var w := Do(sh, i, t, c).0.winner;
      w.Some? ==> t.HasCall() && IsTerminal(t.Current()) && w == Some(Win(i, t.Pos(), t.Current().req))
  {
  }

  lemma DoWinner(sh: Shared, i: nat, t: Thread, c: Choice)
    requires At(sh, i, t, c)
    ensures var w := Do(sh, i, t, c).0.winner;
      if sh.winner.Some? then w == sh.winner
      else w.Some? ==> t.HasCall() && IsTerminal(t.Current()) && w == Some(Win(i, t.Pos(), t.Current().req))
  {
    if sh.winner.Some? {
      WinnerStable(sh, i, t, c);
    } else {
      WinnerElected(sh, i, t, c);
    }
  }

  lemma ActKeepsOwners(s: State, i: nat, c: Choice)
    requires Inv(s) && Enabled(s, Act(i, c))
    ensures OwnersExist(Step(s, Act(i, c)))
  {
    var t := s.threads[i];
    var b := Do(s.shared, i, t, c).0;
    DoFrame(s.shared, i, t, c);
    DoWinner(s.shared, i, t, c);
    if SendOwner(b).Some? && SendOwner(b).value != i {
      DoKeepsOthers(s.shared, i, t, c, SendOwner(b).value);
    }
    if b.creator.Some? && b.creator.value != i {
      DoKeepsOthers(s.shared, i, t, c, b.creator.value);
    }
  }

  lemma ActKeepsTrace(s: State, i: nat, c: Choice)
    requires Inv(s) && Enabled(s, Act(i, c))
    ensures TraceInv(Step(s, Act(i, c)))
  {
    var t := s.threads[i];
    DoFrame(s.shared, i, t, c);
    if t.pc.Send? || t.pc.CloseRecv? {
      WireKeepsTrace(s, i, c);
    } else {
      QuietStep(s.shared, i, t, c);
    }
  }

  lemma WireKeepsTrace(s: State, i: nat, c: Choice)
    requires Inv(s) && Enabled(s, Act(i, c)) && (s.threads[i].pc.Send? || s.threads[i].pc.CloseRecv?)
    ensures TraceInv(Step(s, Act(i, c)))
  {
    var t := s.threads[i];
    var (b, u) := Do(s.shared, i, t, c);
    var w := Attempt(s.shared, i, t, c).value;
    DoFrame(s.shared, i, t, c);
    WireStep(s.shared, i, t, c);
    LongerTrace(s, b, i, u, w);
  }

  /** The trace with one more attempt w by goroutine i, which has become u. */
  lemma LongerTrace(s: State, b: Shared, i: nat, u: Thread, w: Wire)
    requires TraceInv(s) && i < |s.threads| && u.script == s.threads[i].script
    requires Trace(b) == Trace(s.shared) + [w] && PhaseOf(b) == PhaseOf(s.shared).Advance(w)
    requires u.sent == s.threads[i].sent + (if w.IsData() then [w] else [])
    requires w.IsData() ==> w.tid == i && Data(w.msg) in u.script
    ensures TraceInv(State(b, s.threads[i := u]))
  {
    WireSnoc(Trace(s.shared), w);
    var s' := State(b, s.threads[i := u]);
    forall k | 0 <= k < |Trace(b)| && Trace(b)[k].IsData()
      ensures Trace(b)[k].tid < |s'.threads| && Data(Trace(b)[k].msg) in s'.threads[Trace(b)[k].tid].script
    {
      if k < |Trace(s.shared)| {
        assert Trace(b)[k] == Trace(s.shared)[k];
      }
    }
  }

  lemma ActKeepsWinnerSent(s: State, i: nat, c: Choice)
    requires Inv(s) && Enabled(s, Act(i, c)) && OwnersExist(Step(s, Act(i, c)))
    ensures WinnerSent(Step(s, Act(i, c)))
  {
    var t := s.threads[i];
    DoFrame(s.shared, i, t, c);
    DoWinner(s.shared, i, t, c);
    if t.pc.Send? || t.pc.CloseRecv? {
      WireStep(s.shared, i, t, c);
    } else {
      QuietStep(s.shared, i, t, c);
    }
  }

  lemma ActKeepsGates(s: State, i: nat, c: Choice)
    requires Inv(s) && Enabled(s, Act(i, c))
    ensures var s' := Step(s, Act(i, c)); forall j :: 0 <= j < |s'.threads| ==> GateRespected(s', j)
  {
    DoFrame(s.shared, i, s.threads[i], c);
    forall j | 0 <= j < |s.threads| ensures GateRespected(Step(s, Act(i, c)), j) {
      assert GateRespected(s, j);
    }
  }

  /** How a call returns. */
  predicate ReturnsWell(sh: Shared, b: Shared, i: nat, t: Thread, u: Thread) {
    && (sh.terminalDone ==> b.terminalDone)
    && (u.outcomes == t.outcomes ||
        (&& t.HasCall() && u.Pos() == t.Pos() + 1 && u.outcomes[..t.Pos()] == t.outcomes
         && (t.Current().Finish? ==> FinishReturns(b, i, t, u.outcomes[t.Pos()]))))
  }

  /** A terminal call returns as the elected one, or with AlreadyCompleted, once terminalDone is closed. */
  predicate FinishReturns(b: Shared, i: nat, t: Thread, o: Outcome)
    requires t.HasCall() && t.Current().Finish?
  {
    && b.terminalDone && b.winner.Some?
    && if b.winner.value.tid == i && b.winner.value.pos == t.Pos() then Vouched(b, o)
       else o == Returned(Some(ALREADY_COMPLETED))
  }

  lemma SendReturns(sh: Shared, i: nat, t: Thread, c: Choice)
    requires At(sh, i, t, c) && (OnSendPath(t.pc) || t.pc.Send?)
    ensures var (b, u) := Do(sh, i, t, c); ReturnsWell(sh, b, i, t, u)
  {
  }

  lemma CloseReturns(sh: Shared, i: nat, t: Thread, c: Choice)
    requires At(sh, i, t, c) && (OnClosePath(t.pc) || t.pc.CloseRecv?)
    ensures var (b, u) := Do(sh, i, t, c); ReturnsWell(sh, b, i, t, u)
  {
  }

  lemma CompleteReturns(sh: Shared, i: nat, t: Thread, c: Choice)
    requires At(sh, i, t, c) && t.pc.Complete?
    ensures var (b, u) := Do(sh, i, t, c); ReturnsWell(sh, b, i, t, u)
  {
  }

  lemma WinnerReturns(sh: Shared, i: nat, t: Thread, c: Choice)
    requires At(sh, i, t, c) && (t.pc.Record? || t.pc.CloseSession? || t.pc.CloseDone?)
    ensures var (b, u) := Do(sh, i, t, c); ReturnsWell(sh, b, i, t, u)
  {
  }

  lemma DoReturns(sh: Shared, i: nat, t: Thread, c: Choice)
    requires At(sh, i, t, c)
    ensures var (b, u) := Do(sh, i, t, c); ReturnsWell(sh, b, i, t, u)
  {
    if OnSendPath(t.pc) || t.pc.Send? {
      SendReturns(sh, i, t, c);
    } else if OnClosePath(t.pc) || t.pc.CloseRecv? {
      CloseReturns(sh, i, t, c);
    } else if t.pc.Complete? {
      CompleteReturns(sh, i, t, c);
    } else if OnFinishPath(t.pc) {
      WinnerReturns(sh, i, t, c);
    }
  }

  /** Once terminalDone is closed, nothing changes what terminating the writer gave. */
  lemma ResultStable(sh: Shared, i: nat, t: Thread, c: Choice)
    requires At(sh, i, t, c) && sh.terminalDone
    ensures SameResult(sh, Do(sh, i, t, c).0)
  {
    if OnSendPath(t.pc) || t.pc.Send? {
      SendKeepsResult(sh, i, t, c);
    }
  }

  predicate SameResult(sh: Shared, b: Shared)
    requires sh.winner.Some?
  {
    && b.env == sh.env && b.winner == sh.winner && b.terminalErr == sh.terminalErr
    && Result(b, sh.winner.value.req) == Result(sh, sh.winner.value.req)
  }

  lemma SendKeepsResult(sh: Shared, i: nat, t: Thread, c: Choice)
    requires At(sh, i, t, c) && sh.terminalDone && (OnSendPath(t.pc) || t.pc.Send?)
    ensures SameResult(sh, Do(sh, i, t, c).0)
  {
  }

  lemma CallsStable(sh: Shared, b: Shared, j: nat, t: Thread)
    requires t.Pos() <= |t.script| && CallsInv(sh, j, t)
    requires Persists(sh, b)
    ensures CallsInv(b, j, t)
  {
  }

  /** What finished calls have returned for stays as it was. */
  predicate Persists(sh: Shared, b: Shared) {
    sh.terminalDone && sh.winner.Some? ==> b.terminalDone && SameResult(sh, b)
  }

  lemma DoPersists(sh: Shared, i: nat, t: Thread, c: Choice)
    requires At(sh, i, t, c)
    ensures Persists(sh, Do(sh, i, t, c).0)
  {
    DoReturns(sh, i, t, c);
    if sh.terminalDone {
      ResultStable(sh, i, t, c);
    }
  }

  /** The call that returned joins those that had. */
  lemma OwnCalls(sh: Shared, b: Shared, i: nat, t: Thread, u: Thread)
    requires t.Pos() <= |t.script| && CallsInv(b, i, t) && ReturnsWell(sh, b, i, t, u) && u.script == t.script
    ensures u.Pos() <= |u.script| && CallsInv(b, i, u)
  {
    forall p | 0 <= p < t.Pos() ensures u.outcomes[p] == t.outcomes[p] {
      assert u.outcomes[..t.Pos()][p] == u.outcomes[p] || u.outcomes == t.outcomes;
    }
  }

  lemma ActKeepsCalls(s: State, i: nat, c: Choice)
    requires Inv(s) && Enabled(s, Act(i, c))
    ensures var s' := Step(s, Act(i, c));
      forall j :: 0 <= j < |s'.threads| ==>
        s'.threads[j].Pos() <= |s'.threads[j].script| && CallsInv(s'.shared, j, s'.threads[j])
  {
    var t := s.threads[i];
    var (b, u) := Do(s.shared, i, t, c);
    var s' := State(b, s.threads[i := u]);
    DoFrame(s.shared, i, t, c);
    DoReturns(s.shared, i, t, c);
    DoPersists(s.shared, i, t, c);
    forall j | 0 <= j < |s'.threads|
      ensures s'.threads[j].Pos() <= |s'.threads[j].script| && CallsInv(b, j, s'.threads[j])
    {
      CallsStable(s.shared, b, j, s.threads[j]);
      if j == i {
        OwnCalls(s.shared, b, i, t, u);
      }
    }
  }

  lemma FireKeepsAll(s: State)
    requires Inv(s) && s.shared.timer.Armed?
    ensures Inv(Step(s, TimerFires))
  {
    var s' := Step(s, TimerFires);
    forall j | 0 <= j < |s.threads|
      ensures ThreadInv(s'.shared, j, s.threads[j]) && GateRespected(s', j) && CallsInv(s'.shared, j, s.threads[j])
    {
      assert GateRespected(s, j) && CallsInv(s.shared, j, s.threads[j]);
      FireKeeps(s.shared, j);
      RelyKeepsThread(s.shared, s'.shared, j, s.threads[j]);
    }
    FireKeeps(s.shared, 0);
  }

  lemma StepKeeps(s: State, e: Event)
    requires Inv(s)
    ensures Inv(Step(s, e))
  {
    if Enabled(s, e) {
      match e
      case TimerFires => FireKeepsAll(s);
      case Act(i, c) =>
        ActKeepsThreads(s, i, c);
        ActKeepsOwners(s, i, c);
        ActKeepsTrace(s, i, c);
        ActKeepsWinnerSent(s, i, c);
        ActKeepsGates(s, i, c);
        ActKeepsCalls(s, i, c);
    }
  }

  lemma {:induction false} RunKeeps(s: State, events: seq<Event>)
    requires Inv(s)
    ensures Inv(Run(s, events))
    decreases |events|
  {
    if events != [] {
      StepKeeps(s, events[0]);
      RunKeeps(Step(s, events[0]), events[1..]);
    }
  }

  /** Every state of every run from a fresh RecordContext satisfies the invariant. */
  lemma Reachable(s0: State, events: seq<Event>)
    requires Initial(s0)
    ensures Inv(Run(s0, events))
  {
    InitialInv(s0);
    RunKeeps(s0, events);
  }
}
