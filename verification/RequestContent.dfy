/** Record 0 of a stored exchange: how much of the request body the WARC writer gets, and when the size and
    digest announced for it are those of what it gets. */
module RequestContent {
  import opened Common
  import opened TerminalMachine
  import opened TerminalInvariant
  import opened TerminalSteps
  import opened TerminalRuns
  import opened TerminalTheorems
  import opened RecordBodies
  import opened EndToEnd
  import Server = ContentWriterServer

  /** The goroutine that reads the request body, what Read returned to it, and whether it came to EOF. */
  datatype Body = Body(reader: nat, chunks: seq<Bytes>, eof: bool) {
    function Whole(x: Exchange): Bytes { x.prolog0 + Flatten(chunks) }

    /** What a request body asks of its RecordContext after the announcement. */
    function Script(x: Exchange): seq<Call> { RequestScript(x.prolog0, chunks, eof, x.sha1) }
  }

  const UNSET := Summary(0, "")

  /** One goroutine reads the request body, once the request header was sent; nobody else but the
      recorder's goroutine sends data or announces records. */
  predicate Reads(x: Exchange, b: Body, s: State) {
    && b.reader < |s.threads| && b.reader != x.main
    && s.threads[b.reader].script == b.Script(x) && s.threads[b.reader].gate == Some(Gate(x.main, 2))
    && forall j :: 0 <= j < |s.threads| && j != x.main && j != b.reader ==> OnlyTerminal(s.threads[j].script)
  }

  predicate OnlyTerminal(script: seq<Call>) { forall k :: 0 <= k < |script| ==> IsTerminal(script[k]) }

  /** The reader came to EOF and has published size and digest. */
  predicate HasPublished(x: Exchange, b: Body, s: State)
    requires Reads(x, b, s)
  {
    b.eof && s.threads[b.reader].Pos() == |s.threads[b.reader].script|
  }

  // ---- what the reader has sent -----------------------------------------------------------------------

  /** Its attempts are those of its calls up to some point: sends after the stream is done are skipped. */
  predicate SentUpTo(t: Thread, j: nat)
    requires t.Pos() <= |t.script|
  {
    || t.sent == Owed(t.script, t.Pos(), j) + CurrentSent(t, j)
    || exists n :: 0 <= n <= t.Pos() && t.sent == Owed(t.script, n, j)
  }

  /** A step without an attempt turns the attempt of the current call into one of a finished call. */
  lemma QuietCurrent(sh: Shared, i: nat, t: Thread, c: Choice)
    requires At(sh, i, t, c) && (t.pc.EndSend? || t.pc.UnlockSend?) && t.Current().Data?
    ensures var u := Do(sh, i, t, c).1;
      Owed(t.script, u.Pos(), i) + CurrentSent(u, i) == Owed(t.script, t.Pos(), i) + CurrentSent(t, i)
  {
    OwedStep(t.script, t.Pos(), i);
  }

  lemma DoKeepsSent(sh: Shared, i: nat, t: Thread, c: Choice)
    requires At(sh, i, t, c) && SentUpTo(t, i)
    ensures var u := Do(sh, i, t, c).1; u.Pos() <= |u.script| && SentUpTo(u, i)
  {
    var (b, u) := Do(sh, i, t, c);
    DoKeepsOwn(sh, i, t, c);
    DoFrame(sh, i, t, c);
    if t.pc.Send? && t.Current().Data? {
      assert PastCheck(t) && OwnTrace(b, i, u) && PastCheck(t);
      WireStep(sh, i, t, c);
      SendStays(sh, i, t, c);
    } else if t.pc.Send? || t.pc.CloseRecv? {
      WireStep(sh, i, t, c);
      EndIsNoData(sh, i, t, c);
      assert u.sent == t.sent;
    } else {
      QuietStep(sh, i, t, c);
      if (t.pc.EndSend? || t.pc.UnlockSend?) && t.Current().Data? {
        QuietCurrent(sh, i, t, c);
      }
    }
  }

  lemma SendStays(sh: Shared, i: nat, t: Thread, c: Choice)
    requires At(sh, i, t, c) && t.pc.Send? && t.Current().Data?
    ensures var u := Do(sh, i, t, c).1;
      u.Pos() == t.Pos() && CurrentSent(u, i) == [Sent(i, t.Current().msg, c.ok)] && CurrentSent(t, i) == []
      && u.sent == t.sent + CurrentSent(u, i)
  {
    assert PlausibleCall(t.script[t.Pos()]);
  }

  lemma EndIsNoData(sh: Shared, i: nat, t: Thread, c: Choice)
    requires At(sh, i, t, c) && ((t.pc.Send? && !t.Current().Data?) || t.pc.CloseRecv?)
    ensures !Attempt(sh, i, t, c).value.IsData() && CurrentSent(t, i) == []
  {
  }

  // ---- the invariant ------------------------------------------------------------------------------------

  /** rc.Meta holds no size for record 0 until the reader has published. */
  predicate MetaZero(x: Exchange, b: Body, s: State)
    requires Reads(x, b, s) && x.main < |s.threads|
  {
    s.threads[x.main].Pos() >= 1 ==>
      && REQUEST_RECORD in s.shared.meta
      && s.shared.meta[REQUEST_RECORD] == (if HasPublished(x, b, s) then SummaryOf(b.Whole(x), x.sha1) else UNSET)
  }

  /** The meta message on the wire carries what rc.Meta held when it was sent. */
  predicate WireZero(x: Exchange, b: Body, sh: Shared, published: bool) {
    var p := PhaseOf(sh);
    !p.Flowing? && !p.Broken? && p.msg.Meta? ==>
      && REQUEST_RECORD in p.msg.summaries
      && (p.msg.summaries[REQUEST_RECORD] == UNSET
          || (published && p.msg.summaries[REQUEST_RECORD] == SummaryOf(b.Whole(x), x.sha1)))
  }

  predicate BodyInv(x: Exchange, b: Body, s: State) {
    && ExchangeInv(x, s) && Reads(x, b, s)
    && s.threads[b.reader].Pos() <= |s.threads[b.reader].script| && SentUpTo(s.threads[b.reader], b.reader)
    && MetaZero(x, b, s) && WireZero(x, b, s.shared, HasPublished(x, b, s))
  }

  lemma PayloadCall(x: Exchange, b: Body, k: nat)
    requires k < |b.Script(x)|
    ensures b.Script(x)[k] ==
      if k < |b.chunks| then Call.Data(Payload(REQUEST_RECORD, b.chunks[k]))
      else SetMeta(REQUEST_RECORD, SummaryOf(b.Whole(x), x.sha1))
    ensures k >= |b.chunks| ==> b.eof && k == |b.Script(x)| - 1
  {
    if k < |b.chunks| {
      PayloadAt(REQUEST_RECORD, b.chunks, k);
    }
  }

  lemma InitialBody(x: Exchange, b: Body, s: State)
    requires Initial(s) && Plays(x, s) && Reads(x, b, s)
    ensures BodyInv(x, b, s)
  {
    InitialExchange(x, s);
    assert InitialThread(s.threads[b.reader]);
    assert InitialThread(s.threads[x.main]);
  }

  lemma StepKeepsReads(x: Exchange, b: Body, s: State, i: nat, c: Choice)
    requires BodyInv(x, b, s) && Enabled(s, Act(i, c))
    ensures Reads(x, b, Step(s, Act(i, c)))
  {
    DoFrame(s.shared, i, s.threads[i], c);
    var s' := Step(s, Act(i, c));
    forall j | 0 <= j < |s.threads| && j != x.main && j != b.reader ensures OnlyTerminal(s'.threads[j].script) {
      assert OnlyTerminal(s.threads[j].script);
      assert s'.threads[j].script == s.threads[j].script;
    }
  }

  /** The reader begins after both parts of the request's announcement. */
  lemma ReaderBegan(x: Exchange, b: Body, s: State)
    requires BodyInv(x, b, s) && (s.threads[b.reader].Begun() || GateOpen(s, s.threads[b.reader]))
    ensures s.threads[x.main].Pos() >= 2
  {
    assert GateRespected(s, b.reader);
  }

  lemma StartKeepsMetaZero(x: Exchange, b: Body, s: State, i: nat, c: Choice)
    requires BodyInv(x, b, s) && Enabled(s, Act(i, c)) && s.threads[i].pc.Ready? && Reads(x, b, Step(s, Act(i, c)))
    ensures MetaZero(x, b, Step(s, Act(i, c)))
  {
    var t := s.threads[i];
    StartMeta(s.shared, i, t, c);
    if i == x.main {
      MainKeepsMetaZero(x, b, s, c);
    } else if i == b.reader {
      PayloadCall(x, b, t.Pos());
      ReaderBegan(x, b, s);
    } else {
      assert OnlyTerminal(t.script) && IsTerminal(t.script[t.Pos()]);
    }
  }

  lemma MainKeepsMetaZero(x: Exchange, b: Body, s: State, c: Choice)
    requires BodyInv(x, b, s) && Enabled(s, Act(x.main, c)) && s.threads[x.main].pc.Ready?
    requires Reads(x, b, Step(s, Act(x.main, c)))
    ensures MetaZero(x, b, Step(s, Act(x.main, c)))
  {
    var t := s.threads[x.main];
    StartMeta(s.shared, x.main, t, c);
    ScriptAt(x, t.Pos());
    if t.Pos() == 0 && s.threads[b.reader].Begun() {
      ReaderBegan(x, b, s);
    }
  }

  lemma StepKeepsMetaZero(x: Exchange, b: Body, s: State, i: nat, c: Choice)
    requires BodyInv(x, b, s) && Enabled(s, Act(i, c)) && Reads(x, b, Step(s, Act(i, c)))
    ensures MetaZero(x, b, Step(s, Act(i, c)))
  {
    var t := s.threads[i];
    if t.pc.Ready? {
      StartKeepsMetaZero(x, b, s, i, c);
    } else {
      MetaStable(s.shared, i, t, c);
      DoReturns(s.shared, i, t, c);
      assert !t.Current().SetMeta?;
      if i == x.main {
        ScriptAt(x, t.Pos());
      } else if i == b.reader {
        PayloadCall(x, b, t.Pos());
      }
    }
  }

  /** A reader that has published has made its last call. */
  lemma PublishedStays(x: Exchange, b: Body, s: State, i: nat, c: Choice)
    requires BodyInv(x, b, s) && Enabled(s, Act(i, c)) && Reads(x, b, Step(s, Act(i, c))) && HasPublished(x, b, s)
    ensures i != b.reader && HasPublished(x, b, Step(s, Act(i, c)))
  {
  }

  lemma MetaSend(x: Exchange, b: Body, s: State, i: nat, c: Choice)
    requires BodyInv(x, b, s) && Enabled(s, Act(i, c)) && s.threads[i].pc.Send?
    ensures WireZero(x, b, Do(s.shared, i, s.threads[i], c).0, HasPublished(x, b, s))
  {
    var t := s.threads[i];
    WireStep(s.shared, i, t, c);
    if !t.Current().Data? && t.Current().req.sendMeta {
      assert Winning(t);
      StoringWinner(x, s);
    }
  }

  lemma OtherWire(x: Exchange, b: Body, sh: Shared, published: bool, i: nat, t: Thread, c: Choice)
    requires At(sh, i, t, c) && !t.pc.Send? && WireZero(x, b, sh, published)
    ensures WireZero(x, b, Do(sh, i, t, c).0, published)
  {
    if t.pc.CloseRecv? {
      WireStep(sh, i, t, c);
    } else {
      QuietStep(sh, i, t, c);
    }
  }

  lemma StepKeepsWireZero(x: Exchange, b: Body, s: State, i: nat, c: Choice)
    requires BodyInv(x, b, s) && Enabled(s, Act(i, c)) && Reads(x, b, Step(s, Act(i, c)))
    ensures WireZero(x, b, Step(s, Act(i, c)).shared, HasPublished(x, b, Step(s, Act(i, c))))
  {
    if HasPublished(x, b, s) {
      PublishedStays(x, b, s, i, c);
    }
    if s.threads[i].pc.Send? {
      MetaSend(x, b, s, i, c);
    } else {
      OtherWire(x, b, s.shared, HasPublished(x, b, s), i, s.threads[i], c);
    }
  }

  lemma StepKeepsBody(x: Exchange, b: Body, s: State, e: Event)
    requires BodyInv(x, b, s)
    ensures BodyInv(x, b, Step(s, e))
  {
    StepKeepsExchange(x, s, e);
    if Enabled(s, e) && e.Act? {
      StepKeepsReads(x, b, s, e.tid, e.choice);
      StepKeepsMetaZero(x, b, s, e.tid, e.choice);
      StepKeepsWireZero(x, b, s, e.tid, e.choice);
      if e.tid == b.reader {
        DoKeepsSent(s.shared, e.tid, s.threads[e.tid], e.choice);
      }
    }
  }

  lemma {:induction false} RunKeepsBody(x: Exchange, b: Body, s: State, events: seq<Event>)
    requires BodyInv(x, b, s)
    ensures BodyInv(x, b, Run(s, events))
    decreases |events|
  {
    if events != [] {
      StepKeepsBody(x, b, s, events[0]);
      RunKeepsBody(x, b, Step(s, events[0]), events[1..]);
    }
  }

  // ---- the bytes of record 0 ----------------------------------------------------------------------------

  /** A script that sends the chunks, and no other data. */
  predicate SendsChunks(script: seq<Call>, chunks: seq<Bytes>) {
    && |chunks| <= |script|
    && (forall k :: 0 <= k < |chunks| ==> script[k] == Call.Data(Payload(REQUEST_RECORD, chunks[k])))
    && (forall k :: |chunks| <= k < |script| ==> !script[k].Data?)
  }

  lemma ReaderSendsChunks(x: Exchange, b: Body)
    ensures SendsChunks(b.Script(x), b.chunks)
  {
    forall k | 0 <= k < |b.Script(x)|
      ensures k < |b.chunks| ==> b.Script(x)[k] == Call.Data(Payload(REQUEST_RECORD, b.chunks[k]))
      ensures k >= |b.chunks| ==> !b.Script(x)[k].Data?
    {
      PayloadCall(x, b, k);
    }
  }

  /** How many of the chunks the first n calls send. */
  function Chunks(chunks: seq<Bytes>, n: nat): nat { if n <= |chunks| then n else |chunks| }

  lemma {:induction false} OwedContent(script: seq<Call>, chunks: seq<Bytes>, n: nat, j: nat)
    requires SendsChunks(script, chunks) && n <= |script|
    ensures WireContent(Owed(script, n, j), REQUEST_RECORD) == Flatten(chunks[..Chunks(chunks, n)])
  {
    if n > 0 {
      OwedContent(script, chunks, n - 1, j);
      if n <= |chunks| {
        WireContentSnoc(Owed(script, n - 1, j), Sent(j, Payload(REQUEST_RECORD, chunks[n - 1]), true), REQUEST_RECORD);
        assert chunks[..n][..n - 1] == chunks[..n - 1];
      } else {
        assert Owed(script, n, j) == Owed(script, n - 1, j);
      }
    }
  }

  /** Past the chunks nothing more is owed. */
  lemma {:induction false} OwedRest(script: seq<Call>, chunks: seq<Bytes>, n: nat, j: nat)
    requires SendsChunks(script, chunks) && |chunks| <= n <= |script|
    ensures Owed(script, n, j) == Owed(script, |script|, j)
    decreases |script| - n
  {
    if n < |script| {
      OwedRest(script, chunks, n + 1, j);
    }
  }

  /** With the attempt of the current call, the same or one chunk more. */
  lemma CurrentContent(t: Thread, chunks: seq<Bytes>, j: nat) returns (n: nat)
    requires Fits(t) && SendsChunks(t.script, chunks) && CurrentSent(t, j) != []
    ensures n <= |chunks|
      && WireContent(Owed(t.script, t.Pos(), j) + CurrentSent(t, j), REQUEST_RECORD) == Flatten(chunks[..n])
    ensures n == |chunks| ==> Owed(t.script, t.Pos(), j) + CurrentSent(t, j) == Owed(t.script, |t.script|, j)
  {
    var w := CurrentSent(t, j)[0];
    OwedContent(t.script, chunks, t.Pos(), j);
    WireContentSnoc(Owed(t.script, t.Pos(), j), w, REQUEST_RECORD);
    n := if w.ok then t.Pos() + 1 else t.Pos();
    if w.ok {
      FlattenSnoc(chunks[..t.Pos()], chunks[t.Pos()]);
      assert chunks[..n] == chunks[..t.Pos()] + [chunks[t.Pos()]];
    }
    if n == |chunks| {
      OwedRest(t.script, chunks, n, j);
    }
  }

  /** What the reader has sent successfully is the beginning of what it read. */
  lemma SentContent(t: Thread, chunks: seq<Bytes>, j: nat) returns (n: nat)
    requires Fits(t) && SendsChunks(t.script, chunks) && SentUpTo(t, j)
    ensures n <= |chunks| && WireContent(t.sent, REQUEST_RECORD) == Flatten(chunks[..n])
    ensures t.sent == Owed(t.script, |t.script|, j) <==> n == |chunks|
  {
    if t.sent == Owed(t.script, |t.script|, j) {
      OwedContent(t.script, chunks, |t.script|, j);
      n := |chunks|;
    } else if exists k :: 0 <= k <= t.Pos() && t.sent == Owed(t.script, k, j) {
      var k :| 0 <= k <= t.Pos() && t.sent == Owed(t.script, k, j);
      OwedContent(t.script, chunks, k, j);
      n := Chunks(chunks, k);
      if k >= |chunks| {
        OwedRest(t.script, chunks, k, j);
      }
    } else {
      n := CurrentContent(t, chunks, j);
    }
  }

  /** Record 0 is the request header, then what the reader sent. */
  lemma {:induction false} ZeroContent(x: Exchange, b: Body, data: seq<Wire>, k: nat)
    requires GoodData(x, data) && 1 <= k <= |data| && b.reader != x.main
    requires forall i :: 0 <= i < |data| ==> data[i].tid == x.main || data[i].tid == b.reader
    ensures WireContent(data[..k], REQUEST_RECORD)
      == x.prolog0 + WireContent(SentBy(data[..k], b.reader), REQUEST_RECORD)
  {
    if k == 1 {
      FirstIsHeader(x, b, data);
    } else {
      ZeroContent(x, b, data, k - 1);
      assert data[k - 1].tid == x.main || data[k - 1].tid == b.reader;
      OneMoreZero(x, b, data, k - 1);
      assert data[..k] == data[..k - 1] + [data[k - 1]];
    }
  }

  /** The first attempt is the request header. */
  lemma FirstIsHeader(x: Exchange, b: Body, data: seq<Wire>)
    requires GoodData(x, data) && b.reader != x.main
    ensures WireContent(data[..1], REQUEST_RECORD)
      == x.prolog0 + WireContent(SentBy(data[..1], b.reader), REQUEST_RECORD)
  {
    NextWire(x, data, 0);
    assert data[..0] == [] && data[..1] == [] + [data[0]];
    WireContentSnoc([], data[0], REQUEST_RECORD);
    WireSnoc([], data[0]);
  }

  /** After the first attempt the recorder's goroutine adds nothing to record 0. */
  lemma {:induction false} OneMoreZero(x: Exchange, b: Body, data: seq<Wire>, k: nat)
    requires GoodData(x, data) && 1 <= k < |data| && (data[k].tid == x.main || data[k].tid == b.reader)
      && b.reader != x.main
    requires WireContent(data[..k], REQUEST_RECORD)
      == x.prolog0 + WireContent(SentBy(data[..k], b.reader), REQUEST_RECORD)
    ensures var longer := data[..k] + [data[k]];
      WireContent(longer, REQUEST_RECORD) == x.prolog0 + WireContent(SentBy(longer, b.reader), REQUEST_RECORD)
  {
    var w := data[k];
    WireContentSnoc(data[..k], w, REQUEST_RECORD);
    WireSnoc(data[..k], w);
    if w.tid == x.main {
      NextWire(x, data, k);
      FirstSent(x, data, k);
      assert w.msg.rec == RESPONSE_RECORD;
      assert SentBy(data[..k] + [w], b.reader) == SentBy(data[..k], b.reader);
    } else {
      var sent := SentBy(data[..k], b.reader);
      WireContentSnoc(sent, w, REQUEST_RECORD);
      assert SentBy(data[..k] + [w], b.reader) == sent + [w];
      var more := if w.ok then w.msg.data else [];
      assert (x.prolog0 + WireContent(sent, REQUEST_RECORD)) + more
        == x.prolog0 + (WireContent(sent, REQUEST_RECORD) + more);
    }
  }

  lemma OnlyTwoSend(x: Exchange, b: Body, s: State)
    requires Reads(x, b, s) && TraceInv(s)
    ensures forall k :: 0 <= k < |Trace(s.shared)| && Trace(s.shared)[k].IsData() ==>
      Trace(s.shared)[k].tid == x.main || Trace(s.shared)[k].tid == b.reader
  {
    var tr := Trace(s.shared);
    forall k | 0 <= k < |tr| && tr[k].IsData() ensures tr[k].tid == x.main || tr[k].tid == b.reader {
      var script := s.threads[tr[k].tid].script;
      var c :| 0 <= c < |script| && script[c] == Call.Data(tr[k].msg);
      assert !IsTerminal(script[c]);
    }
  }

  /** The metadata the server holds last is that of the terminal message. */
  lemma MetaReceived(tr: seq<Wire>, target: Target)
    requires MetaDelivered(tr)
    ensures Server.LastMeta(Delivered(tr, target)) == Some(EndToEnd.Received(tr[|tr| - 2], target).meta)
  {
    var head := tr[..|tr| - 1];
    assert head[..|tr| - 2] == tr[..|tr| - 2] && head[|tr| - 2] == tr[|tr| - 2];
    Server.ContentSnoc(Delivered(tr[..|tr| - 2], target), EndToEnd.Received(tr[|tr| - 2], target), REQUEST_RECORD);
  }

  lemma {:induction false} EndAddsNothing(tr: seq<Wire>, rec: int)
    requires MetaDelivered(tr)
    ensures WireContent(tr, rec) == WireContent(tr[..|tr| - 2], rec)
  {
    var data := tr[..|tr| - 2];
    assert tr == data + [tr[|tr| - 2]] + [tr[|tr| - 1]];
    WireContentSnoc(data, tr[|tr| - 2], rec);
    WireContentSnoc(data + [tr[|tr| - 2]], tr[|tr| - 1], rec);
  }

  lemma {:induction false} DataOfTwo(x: Exchange, b: Body, tr: seq<Wire>, data: seq<Wire>)
    requires GoodData(x, data) && data <= tr
    requires forall k :: 0 <= k < |tr| && tr[k].IsData() ==> tr[k].tid == x.main || tr[k].tid == b.reader
    ensures forall k :: 0 <= k < |data| ==> data[k].tid == x.main || data[k].tid == b.reader
  {
    forall k | 0 <= k < |data| ensures data[k].tid == x.main || data[k].tid == b.reader {
      assert data[k] == tr[k] && tr[k].IsData();
    }
  }

  lemma ZeroStored(x: Exchange, b: Body, s: State, target: Target)
    requires BodyInv(x, b, s) && MetaDelivered(Trace(s.shared))
    ensures Server.Content(Delivered(Trace(s.shared), target), REQUEST_RECORD)
      == x.prolog0 + WireContent(s.threads[b.reader].sent, REQUEST_RECORD)
  {
    var tr := Trace(s.shared);
    var data := tr[..|tr| - 2];
    StoredStream(x, s);
    OnlyTwoSend(x, b, s);
    DataOfTwo(x, b, tr, data);
    ZeroContent(x, b, data, |data|);
    assert data[..|data|] == data;
    SentByDataPart(tr, b.reader);
    DeliveredContent(tr, target, REQUEST_RECORD);
    EndAddsNothing(tr, REQUEST_RECORD);
  }

  // ---- theorems ----------------------------------------------------------------------------------------------

  /** The metadata stored for record 0, and its bytes. */
  function MetaOf(msgs: seq<Server.WriteRequest>): Server.RecordMeta
    requires Server.LastMeta(msgs).Some? && REQUEST_RECORD in Server.LastMeta(msgs).value.recordMeta
  {
    Server.LastMeta(msgs).value.recordMeta[REQUEST_RECORD]
  }

  function Describing(content: Bytes, sha1: Bytes -> string): Server.RecordMeta {
    Server.RecordMeta(|content|, sha1(content))
  }

  /** Record 0 holds the request header and the first n chunks, and its metadata is that of the header and the
      whole body, or unset. */
  predicate StoredUpTo(x: Exchange, b: Body, msgs: seq<Server.WriteRequest>, n: nat) {
    && n <= |b.chunks|
    && Server.Content(msgs, REQUEST_RECORD) == x.prolog0 + Flatten(b.chunks[..n])
    && Server.LastMeta(msgs).Some? && REQUEST_RECORD in Server.LastMeta(msgs).value.recordMeta
    && (MetaOf(msgs) == Server.RecordMeta(0, "") || (b.eof && MetaOf(msgs) == Describing(b.Whole(x), x.sha1)))
  }

  /** Every payload call of the reader put its payload on the stream. */
  predicate SentAll(x: Exchange, b: Body, s: State)
    requires b.reader < |s.threads|
  {
    s.threads[b.reader].sent == Owed(b.Script(x), |b.Script(x)|, b.reader)
  }

  lemma BodyStored(x: Exchange, b: Body, s: State, target: Target) returns (n: nat)
    requires BodyInv(x, b, s) && MetaDelivered(Trace(s.shared))
    ensures StoredUpTo(x, b, Delivered(Trace(s.shared), target), n)
    ensures SentAll(x, b, s) <==> n == |b.chunks|
  {
    ZeroStored(x, b, s, target);
    ReaderSendsChunks(x, b);
    n := SentContent(s.threads[b.reader], b.chunks, b.reader);
    MetaStored(x, b, s, target);
  }

  /** The metadata of record 0 as the server holds it is the summary in the meta message. */
  lemma MetaStored(x: Exchange, b: Body, s: State, target: Target)
    requires BodyInv(x, b, s) && MetaDelivered(Trace(s.shared))
    ensures var msgs := Delivered(Trace(s.shared), target);
      && PhaseOf(s.shared).Received? && PhaseOf(s.shared).msg.Meta?
      && REQUEST_RECORD in PhaseOf(s.shared).msg.summaries
      && Server.LastMeta(msgs).Some? && REQUEST_RECORD in Server.LastMeta(msgs).value.recordMeta
      && var m := PhaseOf(s.shared).msg.summaries[REQUEST_RECORD];
         MetaOf(msgs) == Server.RecordMeta(m.size, m.blockDigest)
  {
    EndsInMeta(s);
    MetaReceived(Trace(s.shared), target);
  }

  lemma EndsInMeta(s: State)
    requires Inv(s) && MetaDelivered(Trace(s.shared))
    ensures PhaseOf(s.shared).Received? && PhaseOf(s.shared).msg == Trace(s.shared)[|Trace(s.shared)| - 2].msg
  {
    PhaseGrammar(Trace(s.shared));
  }

  /** Over every run of a stored exchange: the bytes are always the beginning of what was read. */
  lemma RequestRecordStored(x: Exchange, b: Body, s0: State, events: seq<Event>, target: Target) returns (n: nat)
    requires Initial(s0) && Plays(x, s0) && Reads(x, b, s0) && MetaDelivered(Trace(Run(s0, events).shared))
    ensures StoredUpTo(x, b, Delivered(Trace(Run(s0, events).shared), target), n)
    ensures b.reader < |Run(s0, events).threads| && (SentAll(x, b, Run(s0, events)) <==> n == |b.chunks|)
  {
    InitialBody(x, b, s0);
    RunKeepsBody(x, b, s0, events);
    n := BodyStored(x, b, Run(s0, events), target);
  }

  lemma {:induction false} FlattenSplit(chunks: seq<Bytes>, n: nat)
    requires n <= |chunks|
    ensures |Flatten(chunks[..n])| <= |Flatten(chunks)|
    ensures (forall k :: 0 <= k < |chunks| ==> chunks[k] != []) && n < |chunks| ==>
      |Flatten(chunks[..n])| < |Flatten(chunks)|
    decreases |chunks|
  {
    if n == |chunks| {
      assert chunks[..n] == chunks;
    } else {
      var init := chunks[..|chunks| - 1];
      assert init[..n] == chunks[..n];
      FlattenSplit(init, n);
    }
  }

  /** The stored metadata of record 0 describes its stored bytes when both are complete: the reader's size and
      digest made it into the meta message, and every payload onto the stream. */
  lemma DescribedWhenComplete(x: Exchange, b: Body, s0: State, events: seq<Event>, target: Target)
    requires Initial(s0) && Plays(x, s0) && Reads(x, b, s0) && MetaDelivered(Trace(Run(s0, events).shared))
    requires x.prolog0 != [] && forall k :: 0 <= k < |b.chunks| ==> b.chunks[k] != []
    ensures var msgs := Delivered(Trace(Run(s0, events).shared), target);
      var content := Server.Content(msgs, REQUEST_RECORD);
      && b.reader < |Run(s0, events).threads|
      && Server.LastMeta(msgs).Some? && REQUEST_RECORD in Server.LastMeta(msgs).value.recordMeta
      && (MetaOf(msgs) == Describing(content, x.sha1) <==>
            MetaOf(msgs) != Server.RecordMeta(0, "") && SentAll(x, b, Run(s0, events)))
  {
    var n := RequestRecordStored(x, b, s0, events, target);
    FlattenSplit(b.chunks, n);
    assert n == |b.chunks| ==> b.chunks[..n] == b.chunks;
  }

  /** All the reader's payloads are on the stream, and its summary is in rc.Meta, and in the meta message. */
  predicate Finished(x: Exchange, b: Body, s: State) {
    && BodyInv(x, b, s) && HasPublished(x, b, s) && s.threads[x.main].Pos() >= 2
    && SentAll(x, b, s) && MetaCarries(PhaseOf(s.shared), SummaryOf(b.Whole(x), x.sha1))
  }

  predicate MetaCarries(p: Phase, zero: Summary) {
    !p.Flowing? && !p.Broken? && p.msg.Meta? ==>
      REQUEST_RECORD in p.msg.summaries && p.msg.summaries[REQUEST_RECORD] == zero
  }

  lemma StepKeepsFinished(x: Exchange, b: Body, s: State, e: Event)
    requires Finished(x, b, s)
    ensures Finished(x, b, Step(s, e))
  {
    StepKeepsBody(x, b, s, e);
    if Enabled(s, e) && e.Act? {
      PublishedStays(x, b, s, e.tid, e.choice);
      DoFrame(s.shared, e.tid, s.threads[e.tid], e.choice);
      MetaTakes(s.shared, e.tid, s.threads[e.tid], e.choice, SummaryOf(b.Whole(x), x.sha1));
    }
  }

  /** The meta message takes what rc.Meta holds. */
  lemma MetaTakes(sh: Shared, i: nat, t: Thread, c: Choice, zero: Summary)
    requires At(sh, i, t, c) && MetaCarries(PhaseOf(sh), zero)
    requires REQUEST_RECORD in sh.meta && sh.meta[REQUEST_RECORD] == zero
    ensures MetaCarries(PhaseOf(Do(sh, i, t, c).0), zero)
  {
    if t.pc.Send? {
      SendTakes(sh, i, t, c);
    } else if t.pc.CloseRecv? {
      WireStep(sh, i, t, c);
    } else {
      QuietStep(sh, i, t, c);
    }
  }

  lemma SendTakes(sh: Shared, i: nat, t: Thread, c: Choice)
    requires At(sh, i, t, c) && t.pc.Send?
    ensures var p := PhaseOf(Do(sh, i, t, c).0);
      p.Flowing? || p.Broken? || (p.Ended? && (p.msg.Meta? ==> p.msg == Meta(sh.meta)))
  {
    WireStep(sh, i, t, c);
  }

  lemma {:induction false} RunKeepsFinished(x: Exchange, b: Body, s: State, events: seq<Event>)
    requires Finished(x, b, s)
    ensures Finished(x, b, Run(s, events))
    decreases |events|
  {
    if events != [] {
      StepKeepsFinished(x, b, s, events[0]);
      RunKeepsFinished(x, b, Step(s, events[0]), events[1..]);
    }
  }

  lemma FinishedEarly(x: Exchange, b: Body, s: State)
    requires BodyInv(x, b, s) && HasPublished(x, b, s) && !StreamDone(s.shared)
    ensures Finished(x, b, s)
  {
    ReaderBegan(x, b, s);
  }

  lemma FinishedStored(x: Exchange, b: Body, s: State, target: Target)
    requires Finished(x, b, s) && MetaDelivered(Trace(s.shared))
    ensures StoredWhole(x, b, Delivered(Trace(s.shared), target))
  {
    var n := BodyStored(x, b, s, target);
    assert b.chunks[..n] == b.chunks;
    MetaStored(x, b, s, target);
  }

  /** Record 0 is the request header and the whole body, with its size and digest. */
  predicate StoredWhole(x: Exchange, b: Body, msgs: seq<Server.WriteRequest>) {
    && Server.Content(msgs, REQUEST_RECORD) == b.Whole(x)
    && Server.LastMeta(msgs).Some? && REQUEST_RECORD in Server.LastMeta(msgs).value.recordMeta
    && MetaOf(msgs) == Describing(b.Whole(x), x.sha1)
  }

  /** If the reader came to EOF and published before anybody began to terminate the writer, record 0 is the
      request header and the whole body, with its size and digest. */
  lemma ReaderInTime(x: Exchange, b: Body, s0: State, events: seq<Event>, more: seq<Event>, target: Target)
    requires Initial(s0) && Plays(x, s0) && Reads(x, b, s0)
    requires Reads(x, b, Run(s0, events)) && HasPublished(x, b, Run(s0, events)) && !StreamDone(Run(s0, events).shared)
    requires MetaDelivered(Trace(Run(Run(s0, events), more).shared))
    ensures StoredWhole(x, b, Delivered(Trace(Run(Run(s0, events), more).shared), target))
  {
    InitialBody(x, b, s0);
    RunKeepsBody(x, b, s0, events);
    FinishedEarly(x, b, Run(s0, events));
    RunKeepsFinished(x, b, Run(s0, events), more);
    FinishedStored(x, b, Run(Run(s0, events), more), target);
  }
}
