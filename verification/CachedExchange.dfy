/** A response answered from the cache: its stream, if one was opened for the request, is cancelled and closed, and
    nothing of it is stored. */
module CachedExchange {
  import opened Common
  import opened TerminalMachine
  import opened TerminalInvariant
  import opened TerminalRuns
  import opened TerminalTheorems
  import opened RecordBodies
  import opened EndToEnd
  import Server = ContentWriterServer

  predicate NoMetaSent(tr: seq<Wire>) { forall k :: 0 <= k < |tr| && tr[k].Sent? ==> !tr[k].msg.Meta? }

  lemma {:induction false} NoMetaReceived(tr: seq<Wire>, target: Target)
    requires NoMetaSent(tr)
    ensures Server.LastMeta(Delivered(tr, target)).None?
  {
    if tr != [] {
      var init, w := tr[..|tr| - 1], tr[|tr| - 1];
      NoMetaReceived(init, target);
      if w.Sent? && w.ok {
        Server.ContentSnoc(Delivered(init, target), EndToEnd.Received(w, target), 0);
      }
    }
  }

  lemma WinnerSendsNoMeta(sh: Shared)
    requires StreamInv(sh) && PhaseOf(sh) == PhaseAfter(Trace(sh))
    requires sh.winner.Some? ==> !sh.winner.value.req.sendMeta
    ensures NoMetaSent(Trace(sh))
  {
    PhaseGrammar(Trace(sh));
  }

  /** Whatever became of the stream, the writer is not called for it unless the winner sent meta. */
  lemma NothingStored(s: State, target: Target, end: Server.StreamEnd, world: Server.World)
    requires Inv(s) && (s.shared.winner.Some? ==> !s.shared.winner.value.req.sendMeta)
    ensures !Server.Stores(Delivered(Trace(s.shared), target), end, world)
  {
    WinnerSendsNoMeta(s.shared);
    NoMetaReceived(Trace(s.shared), target);
  }

  /** Over every run in which the goroutine of a cached response is elected by the last call of its body: once
      terminalDone is closed, every stream has been closed and its context cancelled, none is opened later, no record
      is committed, and the server stores nothing. */
  lemma CachedLeavesNothing(s0: State, events: seq<Event>, more: seq<Event>, main: nat, log: Option<CrawlLog>,
                            target: Target, end: Server.StreamEnd, world: Server.World)
    requires Initial(s0) && main < |s0.threads| && CancelsUnstored(s0.threads[main].script, log)
    requires var sh := Run(s0, events).shared;
      && sh.terminalDone && sh.winner.Some?
      && sh.winner.value.tid == main && sh.winner.value.pos == |s0.threads[main].script| - 1
    ensures var sh := Run(s0, events).shared;
      && !sh.cwcCreating
      && (sh.cwc.Some? ==> Trace(sh) != [] && Trace(sh)[|Trace(sh)| - 1].Closed? && CtxCancelled(sh))
      && Run(Run(s0, events), more).shared.streams == sh.streams
      && (sh.commits != [] ==> sh.commits[0].warcId == "")
      && !Server.Stores(Delivered(Trace(sh), target), end, world)
  {
    Reachable(s0, events);
    InitialInv(s0);
    RunScripts(s0, events);
    var sh := Run(s0, events).shared;
    assert Elected(Run(s0, events), sh.winner.value);
    assert sh.winner.value.req == s0.threads[main].script[|s0.threads[main].script| - 1].req;
    NoStreamLeak(s0, events, more);
    CommitAgreement(s0, events);
    NothingStored(Run(s0, events), target, end, world);
  }
}
