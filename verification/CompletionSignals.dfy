/** The signals of the session's operations: which operations signal, told in terms of the page, that none of their
    signals is lost or made up on the way to the channel, and what a token in the channel means. */
module CompletionSignals {
  import opened Common
  import Records = RequestRecords
  import opened RequestRegistry
  import opened Completion

  // ---- which operations signal --------------------------------------------------------------------------

  /** There is a request with this id, registered and of a type the page waits for. */
  predicate AwaitedAt(s: seq<Records.Record>, id: string) {
    Records.Has(s, id) && MustFinish(s[Records.IndexOf(s, id)].info)
  }

  /** When the operations on a request with an id signal: a registration and a completion when the page waits for the
      request as the operation leaves it, a rollback when the page waited for what it removes. */
  lemma SignalsMean(s: seq<Records.Record>, op: SessionOp)
    requires op.Register? || op.RecordCompletion? || op.Rollback?
    ensures Touched(s, op).Some? <==> Records.Has(s, op.id)
    ensures Signals(s, op) <==> AwaitedAt(if op.Rollback? then s else Records.Apply(s, RegistryOp(op)), op.id)
  {
    var i := Records.IndexOf(s, op.id);
    if i < |s| {
      BlockingMeansMustFinish(s[i].info);
      BlockingMeansMustFinish(Records.Changed(s[i], RegistryOp(op)).info);
      if !op.Rollback? {
        SameIds(s, i, Records.Changed(s[i], RegistryOp(op)), op.id);
      }
    }
  }

  /** A paused request signals, once continued, when the page waits for it as its report leaves it. */
  lemma PausedMeans(s: seq<Records.Record>, op: SessionOp)
    requires op.Paused? && Allowed(op)
    ensures Signals(s, op) <==> AwaitedAt(Records.Apply(s, RegistryOp(op)), op.seen.info.id)
  {
    var i := Records.IndexOf(s, op.seen.info.id);
    BlockingMeansMustFinish(op.seen.info);
    if i < |s| {
      var rec := Records.Changed(s[i], RegistryOp(op));
      BlockingMeansMustFinish(rec.info);
      SameIds(s, i, rec, op.seen.info.id);
    } else {
      AddedLast(s, op.seen);
    }
  }

  /** Marking a preflighted request complete never signals: it finds only requests not yet registered. */
  lemma OptionsNeverSignal(s: seq<Records.Record>, url: string)
    ensures !Signals(s, CompleteOptions(url))
  {
  }

  /** Changing a record but for its id leaves every request where it is. */
  lemma {:induction false} SameIds(s: seq<Records.Record>, i: nat, rec: Records.Record, id: string)
    requires i < |s| && rec.info.id == s[i].info.id
    ensures Records.IndexOf(s[i := rec], id) == Records.IndexOf(s, id)
  {
    var t := s[i := rec];
    var a, b := Records.IndexOf(t, id), Records.IndexOf(s, id);
    assert b < |s| ==> t[b].info.id == id;
    assert a < |s| ==> s[a].info.id == id;
  }

  lemma {:induction false} AddedLast(s: seq<Records.Record>, seen: Records.Record)
    requires Records.IndexOf(s, seen.info.id) == |s|
    ensures Records.IndexOf(s + [seen], seen.info.id) == |s|
  {
    assert (s + [seen])[|s|] == seen;
    assert forall j :: 0 <= j < |s| ==> (s + [seen])[j] == s[j];
  }

  // ---- what becomes of a paused request -----------------------------------------------------------------

  /** Event n paused the request: whether the request was new then, and whether the page waits for it. */
  predicate PausedAt(events: seq<Event>, n: nat, task: Task)
    requires n < |events| && task.Continuing?
  {
    var s, e := Run(events[..n]), events[n];
    && Enabled(s, e) && e.Do? && e.op.Paused? && e.op.seen.info.id == task.id
    && (task.added <==> !Records.Has(s.records, task.id))
    && (task.blocks <==> AwaitedAt(Step(s, e).records, task.id))
  }

  lemma PausedNow(events: seq<Event>, s: State, e: Event)
    requires |events| > 0 && s == Run(events[..|events| - 1]) && e == events[|events| - 1]
    requires Enabled(s, e) && e.Do? && e.op.Paused?
    ensures var task := Step(s, e).tasks[|s.tasks|]; task.Continuing? && PausedAt(events, |events| - 1, task)
  {
    PausedMeans(s.records, e.op);
  }

  /** Where a task comes from: it was there before the step, or the step is a pause and adds it. */
  lemma TaskFrom(s: State, e: Event, t: nat) returns (u: nat)
    requires t < |Step(s, e).tasks| && Step(s, e).tasks[t].Continuing?
    ensures u < |s.tasks| ==> s.tasks[u] == Step(s, e).tasks[t]
    ensures u >= |s.tasks| ==> Enabled(s, e) && e.Do? && e.op.Paused? && t == |s.tasks|
  {
    if Enabled(s, e) && (e.Continued? || e.ContinueFailed? || e.Signal?) {
      u := if t < e.t then t else t + 1;
    } else {
      u := t;
    }
  }

  /** Every paused request that is still to be continued was paused by an event of the run. */
  lemma {:induction false} TasksStem(events: seq<Event>, t: nat)
    requires t < |Run(events).tasks| && Run(events).tasks[t].Continuing?
    ensures exists n :: 0 <= n < |events| && PausedAt(events, n, Run(events).tasks[t])
  {
    if events != [] {
      var before, e := events[..|events| - 1], events[|events| - 1];
      var u := TaskFrom(Run(before), e, t);
      if u < |Run(before).tasks| {
        TasksStem(before, u);
        var n :| 0 <= n < |before| && PausedAt(before, n, Run(before).tasks[u]);
        assert before[..n] == events[..n] && before[n] == events[n];
        assert PausedAt(events, n, Run(events).tasks[t]);
      } else {
        PausedNow(events, Run(before), e);
      }
    }
  }

  /** When a paused request cannot be continued, it is removed exactly if it was new when it was paused: a request
      that was known before stays. */
  lemma RollbackTakesBack(events: seq<Event>, t: nat) returns (n: nat)
    requires Enabled(Run(events), ContinueFailed(t))
    ensures n < |events| && PausedAt(events, n, Run(events).tasks[t])
    ensures var s := Run(events); var id := s.tasks[t].id;
      Step(s, ContinueFailed(t)).records ==
        if Records.Has(Run(events[..n]).records, id) then s.records
        else Records.Apply(s.records, Records.Remove(id))
  {
    TasksStem(events, t);
    n :| 0 <= n < |events| && PausedAt(events, n, Run(events).tasks[t]);
  }

  // ---- no signal is lost or made up -----------------------------------------------------------------------

  /** The event is the one after which its operation has a signal to send. */
  predicate Announces(s: State, e: Event) {
    && Enabled(s, e)
    && match e
       case Do(Register(id)) => AwaitedAt(Step(s, e).records, id)
       case Do(RecordCompletion(id, _, _)) => AwaitedAt(Step(s, e).records, id)
       case Do(Reject(id)) => Records.Has(s.records, id)
       case Continued(t) => s.tasks[t].blocks
       case ContinueFailed(t) => s.tasks[t].added && AwaitedAt(s.records, s.tasks[t].id)
       case _ => false
  }

  /** How many signals are still to be sent. */
  function Pending(tasks: seq<Task>): nat {
    if tasks == [] then 0 else Pending(tasks[..|tasks| - 1]) + if tasks[|tasks| - 1].Signalling? then 1 else 0
  }

  lemma {:induction false} PendingDrop(tasks: seq<Task>, t: nat)
    requires t < |tasks|
    ensures Pending(tasks) == Pending(Drop(tasks, t)) + if tasks[t].Signalling? then 1 else 0
  {
    var init := tasks[..|tasks| - 1];
    if t == |init| {
      assert Drop(tasks, t) == init;
    } else {
      PendingDrop(init, t);
      assert Drop(tasks, t) == Drop(init, t) + [tasks[|init|]];
      assert Drop(tasks, t)[..|init| - 1] == Drop(init, t);
    }
  }

  lemma PendingNext(tasks: seq<Task>, blocks: bool)
    ensures Pending(tasks + Next(blocks)) == Pending(tasks) + if blocks then 1 else 0
  {
    if blocks {
      assert (tasks + Next(blocks))[..|tasks|] == tasks;
    } else {
      assert tasks + Next(blocks) == tasks;
    }
  }

  lemma DoPending(s: State, op: SessionOp)
    requires Enabled(s, Do(op))
    ensures Pending(Step(s, Do(op)).tasks) == Pending(s.tasks) + if Announces(s, Do(op)) then 1 else 0
  {
    if op.Paused? {
      var tasks := Step(s, Do(op)).tasks;
      assert tasks[..|s.tasks|] == s.tasks && !tasks[|s.tasks|].Signalling?;
    } else {
      PendingNext(s.tasks, Signals(s.records, op));
      if op.Register? || op.RecordCompletion? {
        SignalsMean(s.records, op);
      } else if op.CompleteOptions? {
        OptionsNeverSignal(s.records, op.url);
      }
    }
  }

  lemma StepPending(s: State, e: Event)
    requires Enabled(s, e)
    ensures Pending(Step(s, e).tasks) + (if e.Signal? then 1 else 0)
      == Pending(s.tasks) + if Announces(s, e) then 1 else 0
  {
    match e {
      case Do(op) => DoPending(s, op);
      case Continued(t) =>
        PendingDrop(s.tasks, t);
        PendingNext(Drop(s.tasks, t), s.tasks[t].blocks);
      case ContinueFailed(t) =>
        PendingDrop(s.tasks, t);
        SignalsMean(s.records, Rollback(s.tasks[t].id));
        PendingNext(Drop(s.tasks, t), Signals(s.records, Rollback(s.tasks[t].id)));
      case Signal(t) => PendingDrop(s.tasks, t);
      case _ =>
    }
  }

  /** How often the run announced a signal, and how often it sent one. */
  function Announced(events: seq<Event>): nat {
    if events == [] then 0
    else
      var before, e := events[..|events| - 1], events[|events| - 1];
      Announced(before) + if Announces(Run(before), e) then 1 else 0
  }

  function Sent(events: seq<Event>): nat {
    if events == [] then 0
    else
      var before, e := events[..|events| - 1], events[|events| - 1];
      Sent(before) + if e.Signal? && Enabled(Run(before), e) then 1 else 0
  }

  /** Over every run: the signals sent, and those still to be sent, are those announced. */
  lemma {:induction false} SignalsConserved(events: seq<Event>)
    ensures Sent(events) + Pending(Run(events).tasks) == Announced(events)
  {
    if events != [] {
      var before, e := events[..|events| - 1], events[|events| - 1];
      SignalsConserved(before);
      if Enabled(Run(before), e) {
        StepPending(Run(before), e);
      }
    }
  }

  // ---- what a token means ---------------------------------------------------------------------------------

  /** Event n sent a signal while the session lasted. */
  predicate StoredAt(events: seq<Event>, n: nat)
    requires n < |events|
  {
    events[n].Signal? && Enabled(Run(events[..n]), events[n]) && !Run(events[..n]).done
  }

  predicate WokenAt(events: seq<Event>, n: nat)
    requires n < |events|
  {
    events[n].Wake? && Enabled(Run(events[..n]), events[n])
  }

  /** A signal was sent in time, and the waiter has not been woken since. */
  predicate Unheard(events: seq<Event>) {
    exists n :: 0 <= n < |events| && StoredAt(events, n) && forall k :: n < k < |events| ==> !WokenAt(events, k)
  }

  lemma {:induction false} UnheardSnoc(before: seq<Event>, e: Event)
    ensures var events := before + [e];
      Unheard(events) <==> StoredAt(events, |before|) || (Unheard(before) && !WokenAt(events, |before|))
  {
    var events := before + [e];
    assert forall k :: 0 <= k < |before| ==> events[..k] == before[..k] && events[k] == before[k];
    assert forall k :: 0 <= k < |before| ==> (StoredAt(events, k) <==> StoredAt(before, k));
    assert forall k :: 0 <= k < |before| ==> (WokenAt(events, k) <==> WokenAt(before, k));
    if Unheard(before) && !WokenAt(events, |before|) {
      var n :| 0 <= n < |before| && StoredAt(before, n) && forall k :: n < k < |before| ==> !WokenAt(before, k);
      assert StoredAt(events, n);
    }
  }

  /** Over every run: the channel holds a token exactly when a signal was sent before the session was over and the
      waiter has not been woken since. */
  lemma {:induction false} TokenIff(events: seq<Event>)
    ensures Run(events).token <==> Unheard(events)
  {
    if events != [] {
      var before, e := events[..|events| - 1], events[|events| - 1];
      TokenIff(before);
      UnheardSnoc(before, e);
      assert events == before + [e] && events[..|before|] == before;
    }
  }
}
