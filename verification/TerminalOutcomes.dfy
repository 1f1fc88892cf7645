/** What a terminal call returns to its caller, told from the steps of the run: how the completion was answered, and
    whether the finalization timer fired before it was read. */
module TerminalOutcomes {
  import opened Common
  import opened TerminalMachine
  import opened TerminalInvariant
  import opened TerminalSteps
  import opened TerminalRuns
  import opened TerminalTheorems

  // ---- the finalization timer -----------------------------------------------------------------------

  /** The timer has fired, and nobody has looked yet. */
  predicate FiredUnread(sh: Shared) { sh.timer.Fired? && sh.loaded.None? }

  predicate EverFiredUnread(s0: State, events: seq<Event>) {
    exists n :: 0 <= n <= |events| && FiredUnread(Run(s0, events[..n]).shared)
  }

  lemma {:induction false} FiredSnoc(s0: State, before: seq<Event>, e: Event)
    ensures EverFiredUnread(s0, before + [e]) <==>
      EverFiredUnread(s0, before) || FiredUnread(Run(s0, before + [e]).shared)
  {
    var events := before + [e];
    assert events[..|events|] == events;
    if EverFiredUnread(s0, before) {
      var n :| 0 <= n <= |before| && FiredUnread(Run(s0, before[..n]).shared);
      assert events[..n] == before[..n];
    }
    if EverFiredUnread(s0, events) {
      var n :| 0 <= n <= |events| && FiredUnread(Run(s0, events[..n]).shared);
      assert n <= |before| ==> events[..n] == before[..n];
    }
  }

  /** What the history of the timer tells: until it is read whether it has fired, then what was read. */
  predicate TimerTold(sh: Shared, fired: bool) {
    if sh.loaded.None? then sh.timer.Fired? <==> fired else sh.loaded.value <==> fired
  }

  lemma SendTold(sh: Shared, i: nat, t: Thread, c: Choice)
    requires At(sh, i, t, c) && (OnSendPath(t.pc) || t.pc.Send?)
    ensures var b := Do(sh, i, t, c).0; b.timer == sh.timer && b.loaded == sh.loaded
  {
    assert Do(sh, i, t, c) == SendPath(sh, i, t, c);
  }

  lemma CloseTold(sh: Shared, i: nat, t: Thread, c: Choice, fired: bool)
    requires At(sh, i, t, c) && (OnClosePath(t.pc) || t.pc.CloseRecv?) && TimerTold(sh, fired)
    ensures TimerTold(Do(sh, i, t, c).0, fired)
  {
    assert Do(sh, i, t, c) == ClosePath(sh, i, t, c);
  }

  lemma FinishTold(sh: Shared, i: nat, t: Thread, c: Choice)
    requires At(sh, i, t, c) && OnFinishPath(t.pc)
    ensures var b := Do(sh, i, t, c).0; b.timer == sh.timer && b.loaded == sh.loaded
  {
    assert Do(sh, i, t, c) == FinishPath(sh, t, c);
  }

  lemma DoTold(sh: Shared, i: nat, t: Thread, c: Choice, fired: bool)
    requires At(sh, i, t, c) && TimerTold(sh, fired)
    ensures TimerTold(Do(sh, i, t, c).0, fired)
  {
    if OnSendPath(t.pc) || t.pc.Send? {
      SendTold(sh, i, t, c);
    } else if OnClosePath(t.pc) || t.pc.CloseRecv? {
      CloseTold(sh, i, t, c, fired);
    } else if OnFinishPath(t.pc) {
      FinishTold(sh, i, t, c);
    }
  }

  lemma {:induction false} RunTold(s0: State, events: seq<Event>)
    requires Initial(s0)
    ensures Inv(Run(s0, events)) && TimerTold(Run(s0, events).shared, EverFiredUnread(s0, events))
    decreases |events|
  {
    Reachable(s0, events);
    if events == [] {
      assert events[..0] == [];
    } else {
      var before, e := events[..|events| - 1], events[|events| - 1];
      assert events == before + [e];
      RunTold(s0, before);
      RunSnoc(s0, before, e);
      FiredSnoc(s0, before, e);
      var s := Run(s0, before);
      if Enabled(s, e) && e.Act? {
        DoTold(s.shared, e.tid, s.threads[e.tid], e.choice, EverFiredUnread(s0, before));
      }
    }
  }

  /** Over every run: once the winner has read it, its finalization was in time exactly when the timer had not fired
      before. */
  lemma InTimeIff(s0: State, events: seq<Event>)
    requires Initial(s0) && Run(s0, events).shared.loaded.Some?
    ensures InTime(Run(s0, events).shared) <==> !EverFiredUnread(s0, events)
  {
    RunTold(s0, events);
  }

  /** A finalization that timed out stores nothing: no completion carries a WARC id, and the call that was to store
      does not report success. */
  lemma TimeoutNeverStores(s0: State, events: seq<Event>)
    requires Initial(s0) && EverFiredUnread(s0, events)
    ensures var s := Run(s0, events); var sh := s.shared;
      && (sh.commits != [] ==> sh.commits[0].warcId == "")
      && forall j, p :: 0 <= j < |s.threads| && 0 <= p < s.threads[j].Pos() <= |s.threads[j].script| ==>
           s.threads[j].script[p].Finish? && s.threads[j].script[p].req.sendMeta ==>
           s.threads[j].outcomes[p] != Returned(None)
  {
    RunTold(s0, events);
    CommitAgreement(s0, events);
    var s := Run(s0, events);
    forall j, p | 0 <= j < |s.threads| && 0 <= p < s.threads[j].Pos() <= |s.threads[j].script|
      && s.threads[j].script[p].Finish? && s.threads[j].script[p].req.sendMeta
      ensures s.threads[j].outcomes[p] != Returned(None)
    {
      SuccessMeansStored(s0, events, j, p);
    }
  }

  /** The elected goroutine is sending the terminal message, or closing the stream. */
  predicate Terminating(t: Thread) {
    Winning(t) && (t.pc.Send? || t.pc.CloseRecv?)
  }

  /** Over every run: while the terminal message is sent and the stream closed the timer is running or has fired, a
      timer that fired has cancelled the stream, and once terminalDone is closed it cannot fire any more. */
  lemma TimerGuards(s0: State, events: seq<Event>, j: nat)
    requires Initial(s0) && j < |Run(s0, events).threads|
    ensures var s := Run(s0, events);
      && (Terminating(s.threads[j]) ==> s.shared.timer.Armed? || s.shared.timer.Fired?)
      && (s.shared.timer.Fired? ==> CtxCancelled(s.shared))
      && (s.shared.terminalDone ==> !Enabled(s, TimerFires))
  {
    Reachable(s0, events);
    assert ThreadInv(Run(s0, events).shared, j, Run(s0, events).threads[j]);
  }

  // ---- who is elected -------------------------------------------------------------------------------

  /** The goroutine is about to ask for the end of the exchange: with a call of its own, or as the watcher of a client
      that went away. */
  predicate Asks(t: Thread, c: Choice) {
    t.HasCall() && if t.Current().Watch? then t.pc.Watching? && c.gone else t.pc.Ready? && t.Current().Finish?
  }

  /** Over every run: the first to ask is elected for the call it asks with, and nobody ever takes its place. */
  lemma FirstToAskWins(s0: State, events: seq<Event>, i: nat, c: Choice, more: seq<Event>)
    requires Initial(s0) && Enabled(Run(s0, events), Act(i, c)) && Asks(Run(s0, events).threads[i], c)
    ensures var s := Run(s0, events); var t := s.threads[i]; var s' := Step(s, Act(i, c));
      && s'.shared.winner.Some?
      && (if s.shared.winner.Some? then s'.shared.winner == s.shared.winner
          else s'.shared.winner == Some(Win(i, t.Pos(), t.Current().req)))
      && Run(s', more).shared.winner == s'.shared.winner
  {
    Reachable(s0, events);
    var s := Run(s0, events);
    DoWinner(s.shared, i, s.threads[i], c);
    StepKeeps(s, Act(i, c));
    RunKeepsWinner(Step(s, Act(i, c)), more);
  }

  lemma {:induction false} RunKeepsWinner(s: State, events: seq<Event>)
    requires Inv(s) && s.shared.winner.Some?
    ensures Run(s, events).shared.winner == s.shared.winner
    decreases |events|
  {
    if events != [] {
      StepKeeps(s, events[0]);
      if Enabled(s, events[0]) && events[0].Act? {
        WinnerStable(s.shared, events[0].tid, s.threads[events[0].tid], events[0].choice);
      }
      RunKeepsWinner(Step(s, events[0]), events[1..]);
    }
  }

  // ---- why a sender gives up ------------------------------------------------------------------------

  /** A sender that stopped with an error had its last attempt fail, or got no stream: because opening it failed, with
      that error, or because the exchange was over, with the error it ended with or as already completed. */
  lemma SenderGivesUp(s0: State, events: seq<Event>, j: nat)
    requires Initial(s0) && j < |Run(s0, events).threads| && Run(s0, events).threads[j].pc.Stopped?
    ensures var s := Run(s0, events); var t := s.threads[j];
      if t.pc.attempted then
        exists k :: 0 <= k < |Trace(s.shared)| && Trace(s.shared)[k].IsData() && Trace(s.shared)[k].tid == j
          && !Trace(s.shared)[k].ok
      else
        || s.shared.cwcErr == Some(t.pc.err)
        || (s.shared.done && (t.pc.err == ALREADY_COMPLETED || s.shared.terminalErr == Some(t.pc.err)))
  {
    Reachable(s0, events);
    var s := Run(s0, events);
    var t := s.threads[j];
    assert ThreadInv(s.shared, j, t);
    if t.pc.attempted {
      assert SentBy(Trace(s.shared), j) == t.sent;
      var k := SentFrom(Trace(s.shared), j);
    }
  }

  /** The last attempt of a goroutine stands in the trace. */
  lemma {:induction false} SentFrom(tr: seq<Wire>, j: nat) returns (k: nat)
    requires SentBy(tr, j) != []
    ensures k < |tr| && tr[k] == SentBy(tr, j)[|SentBy(tr, j)| - 1] && tr[k].IsData() && tr[k].tid == j
  {
    if tr[|tr| - 1].IsData() && tr[|tr| - 1].tid == j {
      k := |tr| - 1;
    } else {
      k := SentFrom(tr[..|tr| - 1], j);
    }
  }

  // ---- what the winner returns ----------------------------------------------------------------------

  /** The error a terminal call ends with, when the completion was answered with ok. */
  ghost function Verdict(sh: Shared, issued: bool, ok: bool): Option<Error>
    requires sh.winner.Some?
  {
    if sh.winner.value.req.originalErr.Some? then sh.winner.value.req.originalErr
    else if StoringFailed(sh) then Some(Error(-5, "Error writing to content writer"))
    else if CancelFailed(sh) then Some(Error(-5, "Error canceling content writer"))
    else if issued && !ok then Some(Error(-5, "error sending crawl log to browser controller"))
    else None
  }

  /** The elected goroutine has decided on its terminalErr, and keeps it. */
  predicate Keeps(s: State, terr: Option<Error>) {
    && s.shared.winner.Some? && s.shared.winner.value.tid < |s.threads|
    && if s.shared.terminalDone then s.shared.terminalErr == terr
       else match s.threads[s.shared.winner.value.tid].pc
            case Record(e) => e == terr
            case CloseSession | CloseDone => s.shared.terminalErr == terr
            case _ => false
  }

  lemma CompleteDecidesErr(s: State, i: nat, c: Choice)
    requires Inv(s) && Enabled(s, Act(i, c)) && s.threads[i].pc.Complete?
    ensures var s' := Step(s, Act(i, c)); var req := s.threads[i].Current().req;
      && s.shared.winner.Some? && s.shared.winner.value.tid == i && s.shared.winner.value.req == req
      && exists terr :: Keeps(s', terr)
           && (req.originalErr.None? ==> terr == Verdict(s.shared, s'.shared.commits != s.shared.commits, c.ok))
  {
    var t := s.threads[i];
    assert ThreadInv(s.shared, i, t) && Winning(t);
    JudgedByWire(s);
    var (b, u) := Do(s.shared, i, t, c);
    CompleteErr(s.shared, i, t, c);
    assert Keeps(Step(s, Act(i, c)), u.pc.terr);
  }

  lemma CompleteErr(sh: Shared, i: nat, t: Thread, c: Choice)
    requires At(sh, i, t, c) && t.pc.Complete? && sh.winner.Some? && Decided(sh)
    requires sh.winner.value == Win(i, t.Pos(), t.Current().req)
    ensures var (b, u) := Do(sh, i, t, c);
      && b == sh.(commits := b.commits) && u.pc.Record?
      && (t.Current().req.originalErr.None? ==> u.pc.terr == Verdict(sh, b.commits != sh.commits, c.ok))
  {
    CompleteDecides(sh, i, t, c);
  }

  lemma DoKeepsErr(sh: Shared, i: nat, t: Thread, c: Choice)
    requires At(sh, i, t, c) && (sh.terminalDone || (sh.winner.Some? && sh.winner.value.tid != i))
    ensures var b := Do(sh, i, t, c).0;
      b.terminalErr == sh.terminalErr && b.winner == sh.winner && b.terminalDone == sh.terminalDone
  {
    WinnerStable(sh, i, t, c);
    if OnFinishPath(t.pc) || OnClosePath(t.pc) || t.pc.CloseRecv? {
      assert !Winning(t);
    } else if OnSendPath(t.pc) || t.pc.Send? {
      assert Do(sh, i, t, c) == SendPath(sh, i, t, c);
    }
  }

  lemma WinnerKeepsErr(sh: Shared, i: nat, t: Thread, c: Choice)
    requires At(sh, i, t, c) && (t.pc.Record? || t.pc.CloseSession? || t.pc.CloseDone?)
    ensures var (b, u) := Do(sh, i, t, c);
      && b.winner == sh.winner
      && (t.pc.Record? ==> b.terminalErr == t.pc.terr && u.pc.CloseSession? && b.terminalDone == sh.terminalDone)
      && (t.pc.CloseSession? ==>
            b.terminalErr == sh.terminalErr && u.pc.CloseDone? && b.terminalDone == sh.terminalDone)
      && (t.pc.CloseDone? ==> b.terminalErr == sh.terminalErr && b.terminalDone)
  {
    assert Do(sh, i, t, c) == FinishPath(sh, t, c);
  }

  lemma StepKeepsErr(s: State, e: Event, terr: Option<Error>)
    requires Inv(s) && Keeps(s, terr)
    ensures Keeps(Step(s, e), terr)
  {
    if Enabled(s, e) && e.Act? {
      var w := s.shared.winner.value.tid;
      if s.shared.terminalDone || e.tid != w {
        DoKeepsErr(s.shared, e.tid, s.threads[e.tid], e.choice);
      } else {
        WinnerKeepsErr(s.shared, w, s.threads[w], e.choice);
      }
    }
  }

  lemma {:induction false} RunKeepsErr(s: State, events: seq<Event>, terr: Option<Error>)
    requires Inv(s) && Keeps(s, terr)
    ensures Keeps(Run(s, events), terr) && Inv(Run(s, events)) && Run(s, events).shared.winner == s.shared.winner
    decreases |events|
  {
    if events != [] {
      StepKeeps(s, events[0]);
      StepKeepsErr(s, events[0], terr);
      if Enabled(s, events[0]) && events[0].Act? {
        WinnerStable(s.shared, events[0].tid, s.threads[events[0].tid], events[0].choice);
      }
      RunKeepsErr(Step(s, events[0]), events[1..], terr);
    }
  }

  /** What a terminal call returns, exactly: when the elected call has decided on its completion, and the completion
      was issued and answered or skipped, then in every continuation in which the call returns it returns its caller's
      own error, or else a write or cancel error when storing or cancelling failed, or else an error when the
      completion was refused, or else none. */
  lemma OutcomeIsVerdict(s0: State, events: seq<Event>, i: nat, c: Choice, more: seq<Event>)
    requires Initial(s0) && Enabled(Run(s0, events), Act(i, c)) && Run(s0, events).threads[i].pc.Complete?
    requires Run(s0, events).threads[i].Current().Finish?
    ensures var s := Run(s0, events); var s' := Step(s, Act(i, c)); var r := Run(s', more);
      && s.shared.winner == Some(Win(i, s.threads[i].Pos(), s.threads[i].Current().req))
      && i < |r.threads|
      && (r.threads[i].Pos() > s.threads[i].Pos() ==>
            r.threads[i].outcomes[s.threads[i].Pos()] ==
              Returned(Verdict(s.shared, s'.shared.commits != s.shared.commits, c.ok)))
  {
    Reachable(s0, events);
    var s := Run(s0, events);
    var s' := Step(s, Act(i, c));
    CompleteDecidesErr(s, i, c);
    var terr :| Keeps(s', terr) && (s.threads[i].Current().req.originalErr.None? ==>
      terr == Verdict(s.shared, s'.shared.commits != s.shared.commits, c.ok));
    StepKeeps(s, Act(i, c));
    WinnerStable(s.shared, i, s.threads[i], c);
    RunKeepsErr(s', more, terr);
    RunScripts(s', more);
    DoFrame(s.shared, i, s.threads[i], c);
    assert ThreadInv(s.shared, i, s.threads[i]);
    var r := Run(s', more);
    assert CallsInv(r.shared, i, r.threads[i]);
  }
}
