/** The browser session's operations on its registry, each a change followed by a signal, as methods of the
    session object. */
module SessionOps {
  import opened Common
  import opened RequestRecords
  import opened RequestRegistry
  import opened Completion
  import opened CompletionSignals

  /** What an operation that changes the request it finds reports is the record as the change left it. */
  lemma ReportedIs(s: seq<Record>, op: SessionOp)
    requires !RegistryOp(op).Observe? && !RegistryOp(op).Remove?
    ensures var i, t := Target(s, RegistryOp(op)), Apply(s, RegistryOp(op));
      |t| == |s| && Touched(s, op) == if i < |s| then Some(t[i].info) else None
  {
  }

  class Session {
    const registry: Registry
    var token: bool              // the channel completionActivity, of capacity one
    var done: bool               // the session's context

    ghost predicate Valid()
      reads this, registry, registry.Repr
    {
      registry.Valid() && this !in registry.Repr
    }

    constructor (registry: Registry)
      requires registry.Valid()
      ensures Valid() && this.registry == registry && !token && !done
    {
      this.registry, token, done := registry, false, false;
    }

    /** A pending token is enough: the waiter checks the state itself. Fails once the context is done. */
    method SignalCompletionActivity() returns (ok: bool)
      requires Valid()
      modifies this`token
      ensures Valid()
      ensures ok == !done && token == (old(token) || ok)
    {
      if done {
        return false;
      }
      token := true;
      ok := true;
    }

    /** What an operation on these records reports, and whether it stored a signal. */
    twostate predicate Signalled(before: seq<Record>, op: SessionOp, found: bool, ok: bool)
      reads this
    {
      && found == Touched(before, op).Some?
      && token == (old(token) || (Signals(before, op) && !done))
      && ok == !(Signals(before, op) && done)
    }

    method RegisterResource(id: string) returns (found: bool, ok: bool)
      requires Valid()
      modifies this`token, registry, registry.Repr
      ensures Valid() && registry.records == Apply(old(registry.records), RegistryOp(Register(id)))
      ensures Signalled(old(registry.records), Register(id), found, ok)
      ensures token <==> old(token) || (AwaitedAt(registry.records, id) && !done)
    {
      SignalsMean(registry.records, Register(id));
      ReportedIs(registry.records, Register(id));
      var copy, _ := registry.MarkNew(id);
      if copy == null {
        return false, true;
      }
      found, ok := true, true;
      if copy.info.BlocksPageCompletion() {
        ok := SignalCompletionActivity();
      }
    }

    method RejectResource(id: string) returns (found: bool, ok: bool)
      requires Valid()
      modifies this`token, registry, registry.Repr
      ensures Valid() && registry.records == Apply(old(registry.records), RegistryOp(Reject(id)))
      ensures Signalled(old(registry.records), Reject(id), found, ok)
      ensures found == Has(old(registry.records), id) && token == (old(token) || (found && !done))
    {
      ReportedIs(registry.records, Reject(id));
      var copy, _ := registry.MarkComplete(id);
      if copy == null {
        return false, true;
      }
      found := true;
      ok := SignalCompletionActivity();
    }

    method CompleteOptionsResource(url: string) returns (found: bool, ok: bool)
      requires Valid()
      modifies this`token, registry, registry.Repr
      ensures Valid() && registry.records == Apply(old(registry.records), RegistryOp(CompleteOptions(url)))
      ensures Signalled(old(registry.records), CompleteOptions(url), found, ok)
      ensures token == old(token)
    {
      ReportedIs(registry.records, CompleteOptions(url));
      OptionsNeverSignal(registry.records, url);
      var copy, _ := registry.MarkFirstUnregisteredCompleteByURL(url);
      if copy == null {
        return false, true;
      }
      if copy.info.BlocksPageCompletion() {
        assert false;  // only an unregistered request is found
      }
      found, ok := true, true;
    }

    /** A cached answer for the initial request ends the fetch. */
    method RecordResourceCompletion(id: string, crawlLog: CrawlLog?, cached: bool)
      returns (found: bool, initialCacheHit: bool, ok: bool)
      requires Valid()
      modifies this`token, registry, registry.Repr
      ensures Valid()
      ensures var op := RecordCompletion(id, if crawlLog == null then None else Some(old(crawlLog.View())), cached);
        && registry.records == Apply(old(registry.records), RegistryOp(op))
        && Signalled(old(registry.records), op, found, ok)
      ensures initialCacheHit <==> found && cached && IndexOf(old(registry.records), id) == 0
      ensures token <==> old(token) || (AwaitedAt(registry.records, id) && !done)
    {
      ghost var log := if crawlLog == null then None else Some(crawlLog.View());
      SignalsMean(registry.records, RecordCompletion(id, log, cached));
      ReportedIs(registry.records, RecordCompletion(id, log, cached));
      var copy, initial := registry.Complete(id, crawlLog, cached);
      found, initialCacheHit, ok := copy != null, copy != null && initial && cached, true;
      if copy != null && copy.info.BlocksPageCompletion() {
        ok := SignalCompletionActivity();
      }
    }

    /** Takes back an observation that added its request; the result of the signal is ignored. */
    method RollbackPausedRequest(id: string, added: bool) returns (removed: bool)
      requires Valid()
      modifies this`token, registry
      ensures !added || |id| == 0 ==> !removed && token == old(token) && registry.records == old(registry.records)
      ensures Valid()
      ensures added && |id| > 0 ==>
        && registry.records == Apply(old(registry.records), RegistryOp(Rollback(id)))
        && Signalled(old(registry.records), Rollback(id), removed,
          !(Signals(old(registry.records), Rollback(id)) && done))
      ensures added && |id| > 0 ==>
        (token <==> old(token) || (AwaitedAt(old(registry.records), id) && !done))
    {
      SignalsMean(registry.records, Rollback(id));
      if !added || |id| == 0 {
        return false;
      }
      var copy, _ := registry.Remove(id);
      if copy == null {
        return false;
      }
      if copy.info.BlocksPageCompletion() {
        var _ := SignalCompletionActivity();
      }
      removed := true;
    }
  }
}
