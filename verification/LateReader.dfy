/** A run of a stored exchange whose request body is read too late: its payload is skipped because the stream is
    already marked done, and its size and digest still reach the meta message. */
module LateReader {
  import opened Common
  import opened TerminalMachine
  import opened TerminalInvariant
  import opened TerminalRuns
  import opened TerminalTheorems
  import opened RecordBodies
  import opened EndToEnd
  import opened RequestContent
  import Server = ContentWriterServer

  // ---- a goroutine on its own ---------------------------------------------------------------------------

  /** The state after goroutine i has become t and the stream ses. */
  function With(s: State, i: nat, t: Thread, ses: Session): State
    requires i < |s.threads|
  {
    State(s.shared.(cwc := Some(ses)), s.threads[i := t])
  }

  predicate MayStep(s: State, i: nat) {
    i < |s.threads| && GateOpen(s, s.threads[i]) && Fits(s.threads[i])
  }

  /** A sender before its first check, with the stream open and nobody in its way. */
  predicate CanSend(s: State, i: nat) {
    && MayStep(s, i) && s.threads[i].pc.CheckCanceled? && s.threads[i].Current().msg.IsData()
    && s.shared.cwc.Some?
    && var ses := s.shared.cwc.value; !ses.done && !ses.canceled && ses.sendMu.None?
  }

  lemma ComesToSend(s0: State, events: seq<Event>, i: nat) returns (longer: seq<Event>)
    requires CanSend(Run(s0, events), i)
    ensures var s := Run(s0, events); var ses := s.shared.cwc.value;
      Run(s0, longer) == With(s, i, s.threads[i].(pc := Send), ses.(sendMu := Some(i), inFlight := ses.inFlight + 1))
  {
    var s := Run(s0, events);
    var t, ses := s.threads[i], s.shared.cwc.value;
    longer := Take(s0, events, s, i);
    assert Run(s0, longer) == With(s, i, t.(pc := LockSend), ses);
    longer := Take(s0, longer, Run(s0, longer), i);
    assert Run(s0, longer) == With(s, i, t.(pc := CheckDone), ses.(sendMu := Some(i)));
    longer := Take(s0, longer, Run(s0, longer), i);
    assert Run(s0, longer) == With(s, i, t.(pc := BeginSend), ses.(sendMu := Some(i)));
    longer := Take(s0, longer, Run(s0, longer), i);
  }

  lemma Attempts(s0: State, events: seq<Event>, i: nat) returns (longer: seq<Event>)
    requires MayStep(Run(s0, events), i) && Run(s0, events).threads[i].pc.Send? && Run(s0, events).shared.cwc.Some?
    ensures var s := Run(s0, events); var t, ses := s.threads[i], s.shared.cwc.value;
      var w := Sent(i, OutMsg(s.shared, t.Current()), true);
      Run(s0, longer) == With(s, i, t.(pc := EndSend(true), sent := if w.IsData() then t.sent + [w] else t.sent),
                              ses.Attempt(w))
  {
    longer := Take(s0, events, Run(s0, events), i);
  }

  /** From the send itself to the release of the lock. */
  lemma PutsOut(s0: State, events: seq<Event>, i: nat) returns (longer: seq<Event>)
    requires MayStep(Run(s0, events), i) && Run(s0, events).threads[i].pc.Send? && Run(s0, events).shared.cwc.Some?
    ensures var s := Run(s0, events); var t, ses := s.threads[i], s.shared.cwc.value;
      var w := Sent(i, OutMsg(s.shared, t.Current()), true);
      Run(s0, longer) == With(s, i, t.(pc := UnlockSend(true), sent := if w.IsData() then t.sent + [w] else t.sent),
                              ses.Attempt(w).(inFlight := ses.inFlight - 1))
  {
    longer := Attempts(s0, events, i);
    longer := Take(s0, longer, Run(s0, longer), i);
  }

  /** It sends, and its call returns. */
  lemma Sends(s0: State, events: seq<Event>, i: nat) returns (longer: seq<Event>)
    requires CanSend(Run(s0, events), i)
    ensures var s := Run(s0, events); var t := s.threads[i];
      var w := Sent(i, t.Current().msg, true);
      Run(s0, longer) == With(s, i, t.(sent := t.sent + [w]).Return(Returned(None)), s.shared.cwc.value.Attempt(w))
  {
    longer := ComesToSend(s0, events, i);
    longer := PutsOut(s0, longer, i);
    longer := Take(s0, longer, Run(s0, longer), i);
  }

  /** A call that publishes a summary. */
  lemma Publishes(s0: State, events: seq<Event>, i: nat) returns (longer: seq<Event>)
    requires var s := Run(s0, events);
      MayStep(s, i) && s.threads[i].pc.Ready? && s.threads[i].HasCall() && s.threads[i].Current().SetMeta?
    ensures var s := Run(s0, events); var t := s.threads[i];
      Run(s0, longer) == State(s.shared.(meta := s.shared.meta[t.Current().rec := t.Current().summary]),
                               s.threads[i := t.Return(Returned(None))])
  {
    longer := Take(s0, events, Run(s0, events), i);
  }

  predicate StartsData(s: State, i: nat) {
    MayStep(s, i) && s.threads[i].pc.Ready? && s.threads[i].HasCall() && s.threads[i].Current().Data?
  }

  /** The first sender opens the stream. */
  lemma Opens(s0: State, events: seq<Event>, i: nat) returns (longer: seq<Event>)
    requires var s := Run(s0, events);
      && StartsData(s, i)
      && s.shared.cwc.None? && s.shared.cwcErr.None? && !s.shared.cwcCreating && !s.shared.done
      && s.shared.creator.None?
    ensures var s := Run(s0, events); var sh := s.shared;
      Run(s0, longer) == With(
        s.(shared := sh.(cwcReady := sh.cwcReady + 1, readyClosed := sh.readyClosed + {sh.cwcReady + 1},
                         streams := sh.streams + 1)),
        i, s.threads[i].(pc := CheckCanceled), NEW_SESSION)
  {
    var s := Run(s0, events);
    var t := s.threads[i];
    longer := Take(s0, events, s, i);
    assert Run(s0, longer) == State(s.shared, s.threads[i := t.(pc := Acquire)]);
    longer := Take(s0, longer, Run(s0, longer), i);
    longer := Take(s0, longer, Run(s0, longer), i);
    longer := Take(s0, longer, Run(s0, longer), i);
  }

  /** Later ones find it. */
  lemma Reuses(s0: State, events: seq<Event>, i: nat) returns (longer: seq<Event>)
    requires StartsData(Run(s0, events), i) && Run(s0, events).shared.cwc.Some?
    ensures var s := Run(s0, events);
      Run(s0, longer) == s.(threads := s.threads[i := s.threads[i].(pc := CheckCanceled)])
  {
    longer := Take(s0, events, Run(s0, events), i);
    longer := Take(s0, longer, Run(s0, longer), i);
  }

  /** And skip their send when it is done. */
  lemma Skips(s0: State, events: seq<Event>, i: nat) returns (longer: seq<Event>)
    requires var s := Run(s0, events); StartsData(s, i) && s.shared.cwc.Some? && s.shared.cwc.value.done
    ensures var s := Run(s0, events);
      Run(s0, longer) == s.(threads := s.threads[i := s.threads[i].Return(Returned(None))])
  {
    longer := Reuses(s0, events, i);
    longer := Take(s0, longer, Run(s0, longer), i);
  }

  /** A stored finalization is elected and marks the stream done. */
  lemma MarksDone(s0: State, events: seq<Event>, i: nat) returns (longer: seq<Event>)
    requires var s := Run(s0, events);
      && MayStep(s, i) && s.threads[i].pc.Ready? && s.threads[i].HasCall()
      && s.threads[i].Current().Finish? && s.threads[i].Current().req.sendMeta
      && s.shared.cwc.Some? && !s.shared.cwc.value.done && !s.shared.done
    ensures var s := Run(s0, events); var t := s.threads[i];
      Run(s0, longer) == With(
        s.(shared := s.shared.(done := true, winner := Some(Win(i, t.Pos(), t.Current().req)), timer := Armed)),
        i, t.(pc := LockSend), s.shared.cwc.value.(done := true, canceled := false))
  {
    longer := Take(s0, events, Run(s0, events), i);
    longer := Take(s0, longer, Run(s0, longer), i);
    longer := Take(s0, longer, Run(s0, longer), i);
  }

  predicate MaySendMeta(s: State, i: nat, pc: Pc) {
    && MayStep(s, i) && s.threads[i].pc == pc && s.threads[i].HasCall()
    && s.threads[i].Current().Finish? && s.threads[i].Current().req.sendMeta && s.shared.cwc.Some?
  }

  lemma LocksForMeta(s0: State, events: seq<Event>, i: nat) returns (longer: seq<Event>)
    requires MaySendMeta(Run(s0, events), i, LockSend) && Run(s0, events).shared.cwc.value.sendMu.None?
    ensures var s := Run(s0, events); var ses := s.shared.cwc.value;
      Run(s0, longer) == With(s, i, s.threads[i].(pc := Send), ses.(sendMu := Some(i), inFlight := ses.inFlight + 1))
  {
    longer := Take(s0, events, Run(s0, events), i);
    longer := Take(s0, longer, Run(s0, longer), i);
  }

  /** It sends the meta message as rc.Meta now stands, and closes the stream. */
  lemma SendsMeta(s0: State, events: seq<Event>, i: nat) returns (longer: seq<Event>)
    requires MaySendMeta(Run(s0, events), i, LockSend) && Run(s0, events).shared.cwc.value.sendMu.None?
    ensures var s := Run(s0, events); var ses := s.shared.cwc.value;
      Run(s0, longer) ==
        With(s, i, s.threads[i].(pc := LockClose(true)), ses.Attempt(Sent(i, Meta(s.shared.meta), true)))
  {
    longer := LocksForMeta(s0, events, i);
    longer := PutsOut(s0, longer, i);
    longer := Take(s0, longer, Run(s0, longer), i);
  }

  lemma LocksForClose(s0: State, events: seq<Event>, i: nat) returns (longer: seq<Event>)
    requires var s := Run(s0, events);
      MayStep(s, i) && s.threads[i].pc.LockClose? && s.shared.cwc.Some? && s.shared.cwc.value.sendMu.None?
    ensures var s := Run(s0, events);
      Run(s0, longer) == With(s, i, s.threads[i].(pc := CloseRecv(s.threads[i].pc.sendOk)),
                              s.shared.cwc.value.(sendMu := Some(i)))
  {
    longer := Take(s0, events, Run(s0, events), i);
  }

  lemma Closes(s0: State, events: seq<Event>, i: nat) returns (longer: seq<Event>)
    requires var s := Run(s0, events);
      MayStep(s, i) && s.threads[i].pc.LockClose? && s.shared.cwc.Some? && s.shared.cwc.value.sendMu.None?
    ensures var s := Run(s0, events);
      Run(s0, longer) == With(s, i, s.threads[i].(pc := UnlockClose(s.threads[i].pc.sendOk, Some(Reply(None)))),
                              s.shared.cwc.value.Attempt(Closed(Some(Reply(None)))).(sendMu := Some(i)))
  {
    longer := LocksForClose(s0, events, i);
    longer := Take(s0, longer, Run(s0, longer), i);
  }

  // ---- the run ------------------------------------------------------------------------------------------------

  /** A request body of one chunk, read by goroutine 1. */
  function OneChunk(data: Bytes): Body { Body(1, [data], true) }

  /** The recorder's goroutine and the reader. */
  function Two(x: Exchange, b: Body): State {
    State(SenderAndTerminal(Request(None, None, "", true, 0, 0, "")).shared,
          [Thread(x.Script(), None, [], Ready, []), Thread(b.Script(x), Some(Gate(0, 2)), [], Ready, [])])
  }

  lemma SmallScripts(x: Exchange, b: Body, data: Bytes)
    requires x.chunks == [] && b == OneChunk(data)
    ensures |x.Script()| == 6
    ensures x.Script()[0].SetMeta? && x.Script()[1] == Call.Data(Header(REQUEST_RECORD, x.prolog0))
    ensures x.Script()[2].SetMeta? && x.Script()[3] == Call.Data(Header(RESPONSE_RECORD, x.prolog1))
    ensures x.Script()[4].SetMeta? && x.Script()[4].rec == RESPONSE_RECORD
    ensures x.Script()[5].Finish? && x.Script()[5].req.sendMeta
    ensures |b.Script(x)| == 2 && b.Script(x)[0] == Call.Data(Payload(REQUEST_RECORD, data))
    ensures b.Script(x)[1] == SetMeta(REQUEST_RECORD, SummaryOf(b.Whole(x), x.sha1))
  {
    ScriptAt(x, 0);
    ScriptAt(x, 1);
    ScriptAt(x, 2);
    ScriptAt(x, 3);
    ScriptAt(x, 4);
    ScriptAt(x, 5);
    PayloadCall(x, b, 0);
    PayloadCall(x, b, 1);
  }

  /** The recorder's goroutine has made some calls and sent some headers; the reader has not begun. */
  predicate Announcing(x: Exchange, b: Body, s: State, calls: nat, headers: nat) {
    && |s.threads| == 2 && s.threads[1] == Two(x, b).threads[1]
    && s.threads[0].script == x.Script() && s.threads[0].gate == None
    && s.threads[0].Pos() == calls && s.threads[0].pc == Ready
    && s.shared.cwc.Some? && s.shared.cwc.value == NEW_SESSION.(trace := s.shared.cwc.value.trace)
    && |s.shared.cwc.value.trace| == headers && !s.shared.done
  }

  lemma FirstHeader(x: Exchange, b: Body, data: Bytes) returns (events: seq<Event>)
    requires x.main == 0 && x.chunks == [] && b == OneChunk(data)
    ensures Announcing(x, b, Run(Two(x, b), events), 2, 1)
  {
    SmallScripts(x, b, data);
    events := Publishes(Two(x, b), [], 0);
    events := Opens(Two(x, b), events, 0);
    events := Sends(Two(x, b), events, 0);
  }

  lemma SecondHeader(x: Exchange, b: Body, data: Bytes) returns (events: seq<Event>)
    requires x.main == 0 && x.chunks == [] && b == OneChunk(data)
    ensures Announcing(x, b, Run(Two(x, b), events), 5, 2)
  {
    SmallScripts(x, b, data);
    events := FirstHeader(x, b, data);
    events := Publishes(Two(x, b), events, 0);
    events := Reuses(Two(x, b), events, 0);
    events := Sends(Two(x, b), events, 0);
    events := Publishes(Two(x, b), events, 0);
  }

  /** The stream is marked done, the reader has skipped its send and published, and the meta is about to be sent. */
  predicate ReadLate(x: Exchange, b: Body, s: State) {
    && |s.threads| == 2 && s.threads[1].sent == []
    && MaySendMeta(s, 0, LockSend)
    && s.shared.cwc.value.sendMu.None? && |s.shared.cwc.value.trace| == 2
    && REQUEST_RECORD in s.shared.meta && s.shared.meta[REQUEST_RECORD] == SummaryOf(b.Whole(x), x.sha1)
  }

  lemma ReadsTooLate(x: Exchange, b: Body, data: Bytes) returns (events: seq<Event>)
    requires x.main == 0 && x.chunks == [] && b == OneChunk(data)
    ensures ReadLate(x, b, Run(Two(x, b), events))
  {
    SmallScripts(x, b, data);
    events := SecondHeader(x, b, data);
    events := MarksDone(Two(x, b), events, 0);
    events := Skips(Two(x, b), events, 1);
    events := Publishes(Two(x, b), events, 1);
  }

  /** The meta message was delivered, with the summary of the whole body, of which nothing was sent. */
  predicate CutOff(x: Exchange, b: Body, s: State) {
    var tr := Trace(s.shared);
    && MetaDelivered(tr) && |s.threads| == 2 && s.threads[1].sent == []
    && REQUEST_RECORD in tr[|tr| - 2].msg.summaries
    && tr[|tr| - 2].msg.summaries[REQUEST_RECORD] == SummaryOf(b.Whole(x), x.sha1)
  }

  lemma StoresCutOff(x: Exchange, b: Body, data: Bytes) returns (events: seq<Event>)
    requires x.main == 0 && x.chunks == [] && b == OneChunk(data)
    ensures CutOff(x, b, Run(Two(x, b), events))
  {
    events := ReadsTooLate(x, b, data);
    events := SendsMeta(Two(x, b), events, 0);
    events := Closes(Two(x, b), events, 0);
  }

  /** The meta message was delivered, record 0 is the header, and its metadata that of the content. */
  predicate StoredAs(x: Exchange, s: State, target: Target, content: Bytes) {
    && MetaDelivered(Trace(s.shared))
    && var msgs := Delivered(Trace(s.shared), target);
    && Server.Content(msgs, REQUEST_RECORD) == x.prolog0
    && Server.LastMeta(msgs).Some? && REQUEST_RECORD in Server.LastMeta(msgs).value.recordMeta
    && MetaOf(msgs) == Describing(content, x.sha1)
  }

  lemma CutOffStored(x: Exchange, b: Body, s: State, target: Target)
    requires BodyInv(x, b, s) && CutOff(x, b, s) && b.reader == 1
    ensures StoredAs(x, s, target, b.Whole(x))
  {
    ZeroStored(x, b, s, target);
    assert x.prolog0 + WireContent([], REQUEST_RECORD) == x.prolog0;
    MetaReceived(Trace(s.shared), target);
  }

  /** For any nonempty chunk of request body there is a run in which record 0 is stored without it, under the size
      and digest of header and body. */
  lemma BodyCanBeCutOff(x: Exchange, data: Bytes, target: Target) returns (events: seq<Event>)
    requires x.main == 0 && x.chunks == [] && x.log.None? && data != []
    ensures var b := OneChunk(data);
      && Initial(Two(x, b)) && Plays(x, Two(x, b)) && Reads(x, b, Two(x, b))
      && StoredAs(x, Run(Two(x, b), events), target, x.prolog0 + data)
    ensures Describing(x.prolog0 + data, x.sha1) != Describing(x.prolog0, x.sha1)
  {
    var b := OneChunk(data);
    TwoStarts(x, b, data);
    events := StoresCutOff(x, b, data);
    CutOffInvariant(x, b, Two(x, b), events);
    CutOffStored(x, b, Run(Two(x, b), events), target);
    WholeIs(x, data);
  }

  lemma CutOffInvariant(x: Exchange, b: Body, s0: State, events: seq<Event>)
    requires Initial(s0) && Plays(x, s0) && Reads(x, b, s0)
    ensures BodyInv(x, b, Run(s0, events))
  {
    InitialBody(x, b, s0);
    RunKeepsBody(x, b, s0, events);
  }

  lemma WholeIs(x: Exchange, data: Bytes)
    ensures OneChunk(data).Whole(x) == x.prolog0 + data
  {
    FlattenSnoc([], data);
    assert [] + [data] == [data];
  }

  lemma TwoStarts(x: Exchange, b: Body, data: Bytes)
    requires x.main == 0 && x.chunks == [] && b == OneChunk(data) && x.log.None?
    ensures Initial(Two(x, b)) && Plays(x, Two(x, b)) && Reads(x, b, Two(x, b))
  {
    SmallScripts(x, b, data);
    ScriptAt(x, 5);
    var s0 := Two(x, b);
    forall i | 0 <= i < 2 ensures InitialThread(s0.threads[i]) {
      forall k | 0 <= k < |s0.threads[i].script| ensures PlausibleCall(s0.threads[i].script[k]) {
        assert i == 0 ==> k in {0, 1, 2, 3, 4, 5};
      }
    }
    assert Bystander(x, s0.threads[1]) by {
      forall k | 0 <= k < |s0.threads[1].script| ensures BystanderCall(s0.threads[1].script[k]) {
        assert k in {0, 1};
      }
    }
  }
}
