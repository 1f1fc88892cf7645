/** When the metadata stored for a request body describes the bytes stored for it, told from the order of steps
    alone: the reader must get its summary into rc.Meta before the meta message is attempted, and its last payload
    past the check for a finished stream before the stream is marked done. */
module RequestTiming {
  import opened Common
  import opened TerminalMachine
  import opened TerminalInvariant
  import opened TerminalSteps
  import opened TerminalRuns
  import opened TerminalTheorems
  import opened RecordBodies
  import opened EndToEnd
  import opened RequestContent
  import Server = ContentWriterServer

  // ---- the two conditions -------------------------------------------------------------------------------

  /** The reader has published while no terminal message was attempted. */
  predicate PublishedInTime(x: Exchange, b: Body, s: State) {
    Reads(x, b, s) && HasPublished(x, b, s) && PhaseOf(s.shared).Flowing?
  }

  /** The goroutine has made its first n calls, or stands in the last of them past the check of cwc.done. */
  predicate PastLastCheck(t: Thread, n: nat) {
    t.Pos() >= n || (t.Pos() + 1 == n && (t.pc.BeginSend? || t.pc.Send? || t.pc.EndSend? || t.pc.UnlockSend?))
  }

  /** The reader's last payload is past its check while the stream is not done. */
  predicate PassedInTime(b: Body, s: State) {
    b.reader < |s.threads| && !StreamDone(s.shared) && PastLastCheck(s.threads[b.reader], |b.chunks|)
  }

  predicate EverPublished(x: Exchange, b: Body, s0: State, events: seq<Event>) {
    exists n :: 0 <= n <= |events| && PublishedInTime(x, b, Run(s0, events[..n]))
  }

  predicate EverPassed(b: Body, s0: State, events: seq<Event>) {
    exists n :: 0 <= n <= |events| && PassedInTime(b, Run(s0, events[..n]))
  }

  lemma {:induction false} PublishedSnoc(x: Exchange, b: Body, s0: State, before: seq<Event>, e: Event)
    ensures EverPublished(x, b, s0, before + [e]) <==>
      EverPublished(x, b, s0, before) || PublishedInTime(x, b, Run(s0, before + [e]))
  {
    var events := before + [e];
    assert events[..|events|] == events;
    if EverPublished(x, b, s0, before) {
      var n :| 0 <= n <= |before| && PublishedInTime(x, b, Run(s0, before[..n]));
      assert events[..n] == before[..n];
    }
    if EverPublished(x, b, s0, events) {
      var n :| 0 <= n <= |events| && PublishedInTime(x, b, Run(s0, events[..n]));
      assert n <= |before| ==> events[..n] == before[..n];
    }
  }

  lemma {:induction false} PassedSnoc(b: Body, s0: State, before: seq<Event>, e: Event)
    ensures EverPassed(b, s0, before + [e]) <==> EverPassed(b, s0, before) || PassedInTime(b, Run(s0, before + [e]))
  {
    var events := before + [e];
    assert events[..|events|] == events;
    if EverPassed(b, s0, before) {
      var n :| 0 <= n <= |before| && PassedInTime(b, Run(s0, before[..n]));
      assert events[..n] == before[..n];
    }
    if EverPassed(b, s0, events) {
      var n :| 0 <= n <= |events| && PassedInTime(b, Run(s0, events[..n]));
      assert n <= |before| ==> events[..n] == before[..n];
    }
  }

  // ---- the metadata -------------------------------------------------------------------------------------

  function SummaryIf(x: Exchange, b: Body, published: bool): Summary {
    if published then SummaryOf(b.Whole(x), x.sha1) else UNSET
  }

  /** While data flows the history tells what rc.Meta holds; from then on, what the meta message carries. */
  predicate MetaTimed(x: Exchange, b: Body, s: State, early: bool)
    requires Reads(x, b, s)
  {
    && (early ==> HasPublished(x, b, s))
    && (PhaseOf(s.shared).Flowing? ==> (early <==> HasPublished(x, b, s)))
    && MetaCarries(PhaseOf(s.shared), SummaryIf(x, b, early))
  }

  /** A step that sends nothing leaves the terminal message alone. */
  lemma OtherKeepsPhase(sh: Shared, i: nat, t: Thread, c: Choice)
    requires At(sh, i, t, c) && !t.pc.Send?
    ensures var p, q := PhaseOf(sh), PhaseOf(Do(sh, i, t, c).0);
      && (p.Flowing? ==> q.Flowing? || q.Broken?) && (q.Flowing? ==> p.Flowing?)
      && forall zero :: MetaCarries(p, zero) ==> MetaCarries(q, zero)
  {
    if t.pc.CloseRecv? {
      WireStep(sh, i, t, c);
    } else {
      QuietStep(sh, i, t, c);
    }
  }

  /** A data send leaves the stream flowing; the meta message takes what rc.Meta holds, and then nothing flows. */
  lemma SendKeepsPhase(sh: Shared, i: nat, t: Thread, c: Choice)
    requires At(sh, i, t, c) && t.pc.Send?
    ensures PhaseOf(sh).Flowing?
    ensures var q := PhaseOf(Do(sh, i, t, c).0);
      || q.Flowing?
      || (q.Ended? && (q.msg.Meta? ==> q.msg == Meta(sh.meta) && !t.Current().Data? && t.Current().req.sendMeta))
  {
    WireStep(sh, i, t, c);
  }

  lemma SendMetaTimed(x: Exchange, b: Body, s: State, i: nat, c: Choice, early: bool)
    requires BodyInv(x, b, s) && MetaTimed(x, b, s, early) && Enabled(s, Act(i, c)) && s.threads[i].pc.Send?
    ensures MetaCarries(PhaseOf(Do(s.shared, i, s.threads[i], c).0), SummaryIf(x, b, early))
  {
    var t := s.threads[i];
    SendKeepsPhase(s.shared, i, t, c);
    if !t.Current().Data? && t.Current().req.sendMeta {
      assert Winning(t);
      StoringWinner(x, s);
    }
  }

  lemma ActKeepsMetaTimed(x: Exchange, b: Body, s: State, i: nat, c: Choice, early: bool)
    requires BodyInv(x, b, s) && MetaTimed(x, b, s, early) && Enabled(s, Act(i, c)) && BodyInv(x, b, Step(s, Act(i, c)))
    ensures MetaTimed(x, b, Step(s, Act(i, c)), early || PublishedInTime(x, b, Step(s, Act(i, c))))
  {
    if HasPublished(x, b, s) {
      PublishedStays(x, b, s, i, c);
    }
    if s.threads[i].pc.Send? {
      SendMetaTimed(x, b, s, i, c, early);
      SendKeepsPhase(s.shared, i, s.threads[i], c);
    } else {
      OtherKeepsPhase(s.shared, i, s.threads[i], c);
    }
  }

  // ---- the bytes ----------------------------------------------------------------------------------------

  /** Every payload is on the stream, or the last one is under way, or failed. */
  predicate AllPast(t: Thread, chunks: seq<Bytes>, j: nat)
    requires t.Pos() <= |t.script|
  {
    || (t.Pos() >= |chunks| && t.sent == Owed(t.script, |t.script|, j))
    || (&& t.Pos() + 1 == |chunks| && t.sent == Owed(t.script, t.Pos(), j) + CurrentSent(t, j)
        && (t.pc.BeginSend? || t.pc.Send? || t.pc.EndSend? || t.pc.UnlockSend? || (t.pc.Stopped? && t.pc.attempted)))
  }

  /** Some payload is missing and will stay missing. */
  predicate Short(t: Thread, n: nat) { |t.sent| < n && (PastCheck(t) ==> |t.sent| + 1 < n) }

  lemma {:induction false} OwedCount(script: seq<Call>, chunks: seq<Bytes>, n: nat, j: nat)
    requires SendsChunks(script, chunks) && n <= |chunks|
    ensures |Owed(script, n, j)| == n
  {
    if n > 0 {
      OwedCount(script, chunks, n - 1, j);
    }
  }

  lemma OwedAll(script: seq<Call>, chunks: seq<Bytes>, j: nat)
    requires SendsChunks(script, chunks)
    ensures |Owed(script, |script|, j)| == |chunks|
  {
    OwedCount(script, chunks, |chunks|, j);
    OwedRest(script, chunks, |chunks|, j);
  }

  /** Past the last check on an unfinished stream, no payload was skipped. */
  lemma PassedMeansAllPast(sh: Shared, j: nat, t: Thread, chunks: seq<Bytes>)
    requires ThreadInv(sh, j, t) && SendsChunks(t.script, chunks) && !StreamDone(sh) && PastLastCheck(t, |chunks|)
    ensures AllPast(t, chunks, j)
  {
    if t.Pos() >= |chunks| {
      OwedRest(t.script, chunks, t.Pos(), j);
      assert CurrentSent(t, j) == [];
    }
  }

  lemma DoKeepsAllPast(sh: Shared, i: nat, t: Thread, c: Choice, chunks: seq<Bytes>)
    requires At(sh, i, t, c) && SendsChunks(t.script, chunks) && AllPast(t, chunks, i)
    ensures var u := Do(sh, i, t, c).1; u.Pos() <= |u.script| && AllPast(u, chunks, i)
  {
    if t.Pos() >= |chunks| {
      NoMoreData(sh, i, t, c);
    } else {
      LastPayloadGoesOn(sh, i, t, c, chunks);
    }
  }

  /** A call without data changes nothing that was sent. */
  lemma NoMoreData(sh: Shared, i: nat, t: Thread, c: Choice)
    requires At(sh, i, t, c) && t.HasCall() && !t.Current().Data?
    ensures var u := Do(sh, i, t, c).1; u.sent == t.sent && u.script == t.script && t.Pos() <= u.Pos() <= |u.script|
  {
    DoFrame(sh, i, t, c);
    DoReturns(sh, i, t, c);
    if t.pc.Send? || t.pc.CloseRecv? {
      WireStep(sh, i, t, c);
      EndIsNoData(sh, i, t, c);
    } else {
      QuietStep(sh, i, t, c);
    }
  }

  lemma LastPayloadGoesOn(sh: Shared, i: nat, t: Thread, c: Choice, chunks: seq<Bytes>)
    requires At(sh, i, t, c) && SendsChunks(t.script, chunks) && t.Pos() + 1 == |chunks|
    requires t.sent == Owed(t.script, t.Pos(), i) + CurrentSent(t, i)
    requires t.pc.BeginSend? || t.pc.Send? || t.pc.EndSend? || t.pc.UnlockSend?
    ensures var u := Do(sh, i, t, c).1; u.Pos() <= |u.script| && AllPast(u, chunks, i)
  {
    DoFrame(sh, i, t, c);
    if t.pc.Send? {
      SendStays(sh, i, t, c);
    } else {
      QuietStep(sh, i, t, c);
      if !t.pc.BeginSend? {
        QuietCurrent(sh, i, t, c);
        OwedRest(t.script, chunks, |chunks|, i);
      }
    }
  }

  lemma ComesFromCheck(sh: Shared, i: nat, t: Thread, c: Choice)
    requires CanAct(sh, t, c) && PastCheck(Do(sh, i, t, c).1) && !PastCheck(t)
    ensures t.pc.CheckDone?
  {
  }

  /** A payload gets past the check only on an unfinished stream, and its send is the next of its goroutine. */
  lemma PassesCheck(sh: Shared, i: nat, t: Thread, c: Choice)
    requires At(sh, i, t, c) && PastCheck(Do(sh, i, t, c).1) && !PastCheck(t)
    ensures var (b, u) := Do(sh, i, t, c);
      !StreamDone(b) && u.Pos() == t.Pos() && t.sent == Owed(t.script, t.Pos(), i)
  {
    ComesFromCheck(sh, i, t, c);
  }

  lemma DoKeepsShort(sh: Shared, i: nat, t: Thread, c: Choice, chunks: seq<Bytes>)
    requires At(sh, i, t, c) && SendsChunks(t.script, chunks) && Short(t, |chunks|)
    requires var (b, u) := Do(sh, i, t, c); StreamDone(b) || !PastLastCheck(u, |chunks|)
    ensures Short(Do(sh, i, t, c).1, |chunks|)
  {
    var u := Do(sh, i, t, c).1;
    if t.pc.Send? && t.Current().Data? {
      SendStays(sh, i, t, c);
    } else {
      if t.pc.Send? || t.pc.CloseRecv? {
        WireStep(sh, i, t, c);
        EndIsNoData(sh, i, t, c);
      } else {
        QuietStep(sh, i, t, c);
      }
      if PastCheck(u) && !PastCheck(t) {
        PassesCheck(sh, i, t, c);
        OwedCount(t.script, chunks, t.Pos(), i);
      }
    }
  }

  /** What the history tells of the reader's payloads. */
  predicate BytesTimed(b: Body, s: State, passed: bool)
    requires b.reader < |s.threads| && s.threads[b.reader].Pos() <= |s.threads[b.reader].script|
  {
    var t := s.threads[b.reader];
    if passed then AllPast(t, b.chunks, b.reader) else Short(t, |b.chunks|)
  }

  lemma StepKeepsBytesTimed(x: Exchange, b: Body, s: State, e: Event, passed: bool)
    requires BodyInv(x, b, s) && BytesTimed(b, s, passed) && BodyInv(x, b, Step(s, e))
    ensures BytesTimed(b, Step(s, e), passed || PassedInTime(b, Step(s, e)))
  {
    var s' := Step(s, e);
    ReaderSendsChunks(x, b);
    assert ThreadInv(s'.shared, b.reader, s'.threads[b.reader]);
    if !passed && PassedInTime(b, s') {
      PassedMeansAllPast(s'.shared, b.reader, s'.threads[b.reader], b.chunks);
    } else if Enabled(s, e) && e.Act? && e.tid == b.reader {
      if passed {
        DoKeepsAllPast(s.shared, e.tid, s.threads[e.tid], e.choice, b.chunks);
      } else {
        DoKeepsShort(s.shared, e.tid, s.threads[e.tid], e.choice, b.chunks);
      }
    }
  }

  // ---- whole runs ---------------------------------------------------------------------------------------

  lemma StartsTimed(x: Exchange, b: Body, s0: State)
    requires Initial(s0) && Plays(x, s0) && Reads(x, b, s0)
    ensures BodyInv(x, b, s0)
    ensures MetaTimed(x, b, s0, PublishedInTime(x, b, s0)) && BytesTimed(b, s0, PassedInTime(b, s0))
  {
    InitialBody(x, b, s0);
    ReaderSendsChunks(x, b);
    var t := s0.threads[b.reader];
    assert InitialThread(t);
    if PassedInTime(b, s0) {
      PassedMeansAllPast(s0.shared, b.reader, t, b.chunks);
    }
  }

  lemma StepKeepsMetaTimed(x: Exchange, b: Body, s: State, e: Event, early: bool)
    requires BodyInv(x, b, s) && MetaTimed(x, b, s, early) && BodyInv(x, b, Step(s, e))
    ensures MetaTimed(x, b, Step(s, e), early || PublishedInTime(x, b, Step(s, e)))
  {
    if Enabled(s, e) && e.Act? {
      ActKeepsMetaTimed(x, b, s, e.tid, e.choice, early);
    }
  }

  /** Over every run, the two histories tell what the reader achieved. */
  lemma {:induction false} RunKeepsTimed(x: Exchange, b: Body, s0: State, events: seq<Event>)
    requires Initial(s0) && Plays(x, s0) && Reads(x, b, s0)
    ensures var s := Run(s0, events);
      && BodyInv(x, b, s)
      && MetaTimed(x, b, s, EverPublished(x, b, s0, events)) && BytesTimed(b, s, EverPassed(b, s0, events))
    decreases |events|
  {
    if events == [] {
      StartsTimed(x, b, s0);
      assert events[..0] == [];
    } else {
      var before, e := events[..|events| - 1], events[|events| - 1];
      assert events == before + [e];
      RunKeepsTimed(x, b, s0, before);
      RunSnoc(s0, before, e);
      StepKeepsBody(x, b, Run(s0, before), e);
      StepKeepsMetaTimed(x, b, Run(s0, before), e, EverPublished(x, b, s0, before));
      StepKeepsBytesTimed(x, b, Run(s0, before), e, EverPassed(b, s0, before));
      PublishedSnoc(x, b, s0, before, e);
      PassedSnoc(b, s0, before, e);
    }
  }

  // ---- theorems -------------------------------------------------------------------------------------------

  predicate NoneFailed(sent: seq<Wire>) { forall k :: 0 <= k < |sent| && sent[k].Sent? ==> sent[k].ok }

  lemma {:induction false} OwedSucceeded(script: seq<Call>, n: nat, j: nat)
    requires n <= |script|
    ensures NoneFailed(Owed(script, n, j))
  {
    if n > 0 {
      OwedSucceeded(script, n - 1, j);
    }
  }

  /** A payload under way when the stream is closed was sent, or failed. */
  lemma UnderWay(sh: Shared, j: nat, t: Thread, chunks: seq<Bytes>)
    requires ThreadInv(sh, j, t) && SendsChunks(t.script, chunks) && PhaseOf(sh).Received?
    requires t.Pos() < |chunks| && AllPast(t, chunks, j) && NoneFailed(t.sent)
    ensures t.sent == Owed(t.script, |t.script|, j)
  {
    var w := CurrentSent(t, j)[0];
    assert t.sent[|t.sent| - 1] == w;
    OwedStep(t.script, t.Pos(), j);
    OwedRest(t.script, chunks, |chunks|, j);
  }

  /** In a stored exchange every payload is on the stream exactly when the last one was past its check before the
      stream was marked done and the network took them all. */
  lemma AllSentIff(x: Exchange, b: Body, s0: State, events: seq<Event>)
    requires Initial(s0) && Plays(x, s0) && Reads(x, b, s0) && MetaDelivered(Trace(Run(s0, events).shared))
    ensures b.reader < |Run(s0, events).threads|
    ensures SentAll(x, b, Run(s0, events)) <==>
      EverPassed(b, s0, events) && NoneFailed(Run(s0, events).threads[b.reader].sent)
  {
    RunKeepsTimed(x, b, s0, events);
    AllSentAt(x, b, Run(s0, events), EverPassed(b, s0, events));
  }

  lemma AllSentAt(x: Exchange, b: Body, s: State, passed: bool)
    requires BodyInv(x, b, s) && BytesTimed(b, s, passed) && MetaDelivered(Trace(s.shared))
    ensures SentAll(x, b, s) <==> passed && NoneFailed(s.threads[b.reader].sent)
  {
    var t := s.threads[b.reader];
    ReaderSendsChunks(x, b);
    OwedAll(t.script, b.chunks, b.reader);
    OwedSucceeded(t.script, |t.script|, b.reader);
    EndsInMeta(s);
    if passed && NoneFailed(t.sent) && t.Pos() < |b.chunks| {
      UnderWay(s.shared, b.reader, t, b.chunks);
    }
  }

  /** In a stored exchange the metadata of record 0 is set exactly when the reader published before the terminal
      message was attempted. */
  lemma MetaSetIff(x: Exchange, b: Body, s0: State, events: seq<Event>, target: Target)
    requires Initial(s0) && Plays(x, s0) && Reads(x, b, s0) && MetaDelivered(Trace(Run(s0, events).shared))
    requires x.prolog0 != []
    ensures var msgs := Delivered(Trace(Run(s0, events).shared), target);
      && Server.LastMeta(msgs).Some? && REQUEST_RECORD in Server.LastMeta(msgs).value.recordMeta
      && (MetaOf(msgs) != Server.RecordMeta(0, "") <==> EverPublished(x, b, s0, events))
  {
    RunKeepsTimed(x, b, s0, events);
    MetaStored(x, b, Run(s0, events), target);
  }

  /** Who published had made all its calls, so none of its sends failed. */
  lemma PublishedSentAll(x: Exchange, b: Body, s0: State, events: seq<Event>)
    requires Initial(s0) && Plays(x, s0) && Reads(x, b, s0)
    requires EverPublished(x, b, s0, events) && EverPassed(b, s0, events)
    ensures b.reader < |Run(s0, events).threads| && SentAll(x, b, Run(s0, events))
  {
    RunKeepsTimed(x, b, s0, events);
    ReaderSendsChunks(x, b);
  }

  /** Exactly which runs of a stored exchange store a request body under metadata that describes it: those in which
      the reader published before the terminal message was attempted, and had its last payload past the check of
      cwc.done before the stream was marked done. A request header is never empty, and reads without bytes are not
      sent. */
  lemma RequestRecordDescribedIff(x: Exchange, b: Body, s0: State, events: seq<Event>, target: Target)
    requires Initial(s0) && Plays(x, s0) && Reads(x, b, s0) && MetaDelivered(Trace(Run(s0, events).shared))
    requires x.prolog0 != [] && forall k :: 0 <= k < |b.chunks| ==> b.chunks[k] != []
    ensures var msgs := Delivered(Trace(Run(s0, events).shared), target);
      && Server.LastMeta(msgs).Some? && REQUEST_RECORD in Server.LastMeta(msgs).value.recordMeta
      && (MetaOf(msgs) == Describing(Server.Content(msgs, REQUEST_RECORD), x.sha1) <==>
            EverPublished(x, b, s0, events) && EverPassed(b, s0, events))
  {
    DescribedWhenComplete(x, b, s0, events, target);
    MetaSetIff(x, b, s0, events, target);
    AllSentIff(x, b, s0, events);
    if EverPublished(x, b, s0, events) && EverPassed(b, s0, events) {
      PublishedSentAll(x, b, s0, events);
    }
  }
}
