/** From the bytes a response body read to the bytes the WARC writer gets: the body wrappers' calls
    played through the terminal protocol, and the resulting stream received by the ContentWriter. */
module EndToEnd {
  import opened Common
  import opened TerminalMachine
  import opened TerminalInvariant
  import opened TerminalSteps
  import opened TerminalRuns
  import opened TerminalTheorems
  import opened RecordBodies
  import Server = ContentWriterServer

  // ---- one recorded exchange ----------------------------------------------------------------------

  /** prolog0 and prolog1 are the request's and the response's protocol headers, chunks what Read
      returned for the response body. */
  datatype Exchange = Exchange(main: nat, prolog0: Bytes, prolog1: Bytes, chunks: seq<Bytes>,
                               sha1: Bytes -> string, log: Option<CrawlLog>)
  {
    function Content(): Bytes { prolog1 + Flatten(chunks) }

    /** The goroutine serving the exchange: announce the request, then record the response. */
    function Script(): seq<Call> { Announce(REQUEST_RECORD, prolog0) + ResponseScript(prolog1, chunks, sha1, log) }

    /** The position of its FinalizeStoredResponse call. */
    function Last(): nat { |chunks| + 5 }
  }

  /** Everyone else: request body readers, which exist only once the request header was sent, watchers,
      closers, error handlers. Nobody else stores. */
  predicate Bystander(x: Exchange, t: Thread) {
    && (forall k :: 0 <= k < |t.script| ==> BystanderCall(t.script[k]))
    && ((exists k :: 0 <= k < |t.script| && t.script[k].Data?) ==> t.gate == Some(Gate(x.main, 2)))
  }

  predicate BystanderCall(c: Call) {
    match c
    case Data(msg) => msg.Payload? && msg.rec == REQUEST_RECORD
    case SetMeta(rec, _) => rec == REQUEST_RECORD
    case Finish(req) => !req.sendMeta
    case Watch(req) => !req.sendMeta
  }

  predicate Plays(x: Exchange, s: State) {
    && x.main < |s.threads|
    && s.threads[x.main].script == x.Script()
    && forall j :: 0 <= j < |s.threads| && j != x.main ==> Bystander(x, s.threads[j])
  }

  // ---- what the recorder's goroutine owes -----------------------------------------------------------

  function PayloadWires(j: nat, chunks: seq<Bytes>): (wires: seq<Wire>)
    ensures |wires| == |chunks|
    ensures forall k :: 0 <= k < |wires| ==> wires[k] == Sent(j, Payload(RESPONSE_RECORD, chunks[k]), true)
  {
    seq(|chunks|, k requires 0 <= k < |chunks| => Sent(j, Payload(RESPONSE_RECORD, chunks[k]), true))
  }

  /** Both headers, then the payloads. */
  function Wires(x: Exchange): seq<Wire> {
    [Sent(x.main, Header(REQUEST_RECORD, x.prolog0), true), Sent(x.main, Header(RESPONSE_RECORD, x.prolog1), true)]
    + PayloadWires(x.main, x.chunks)
  }

  lemma PayloadAt(rec: int, chunks: seq<Bytes>, k: nat)
    requires k < |chunks|
    ensures Payloads(rec, chunks)[k] == Call.Data(Payload(rec, chunks[k]))
  {
  }

  lemma ScriptAt(x: Exchange, k: nat)
    requires k < |x.Script()|
    ensures |x.Script()| == x.Last() + 1
    ensures x.Script()[k] ==
      if k == 0 then SetMeta(REQUEST_RECORD, Summary(0, ""))
      else if k == 1 then Call.Data(Header(REQUEST_RECORD, x.prolog0))
      else if k == 2 then SetMeta(RESPONSE_RECORD, Summary(0, ""))
      else if k == 3 then Call.Data(Header(RESPONSE_RECORD, x.prolog1))
      else if k < |x.chunks| + 4 then Call.Data(Payload(RESPONSE_RECORD, x.chunks[k - 4]))
      else if k == |x.chunks| + 4 then SetMeta(RESPONSE_RECORD, SummaryOf(x.Content(), x.sha1))
      else Finish(StoredRequest(x.Content(), x.sha1, x.log))
  {
    if 4 <= k < |x.chunks| + 4 {
      PayloadAt(RESPONSE_RECORD, x.chunks, k - 4);
    }
  }

  lemma {:induction false} OwedWires(x: Exchange, pos: nat)
    requires 4 <= pos <= |x.chunks| + 5
    ensures |x.Script()| == x.Last() + 1
    ensures Owed(x.Script(), pos, x.main) == Wires(x)[..if pos < |x.chunks| + 4 then pos - 2 else |x.chunks| + 2]
  {
    ScriptAt(x, 0);
    ScriptAt(x, pos - 1);
    if pos == 4 {
      ScriptAt(x, 1);
      ScriptAt(x, 2);
      assert Owed(x.Script(), 1, x.main) == [];
      assert Owed(x.Script(), 2, x.main) == [Wires(x)[0]];
      assert Owed(x.Script(), 3, x.main) == [Wires(x)[0]];
      assert Owed(x.Script(), 4, x.main) == [Wires(x)[0], Wires(x)[1]];
    } else {
      OwedWires(x, pos - 1);
    }
  }

  lemma {:induction false} OwedGrows(script: seq<Call>, p: nat, q: nat, j: nat)
    requires p <= q <= |script|
    ensures Owed(script, p, j) <= Owed(script, q, j)
  {
    if p < q {
      OwedGrows(script, p, q - 1, j);
    }
  }

  // ---- the invariant of an exchange -----------------------------------------------------------------

  /** rc.Meta follows the response body: both records announced, then size and digest. */
  predicate MetaFollows(x: Exchange, meta: map<int, Summary>, pos: nat) {
    && (pos >= 1 ==> REQUEST_RECORD in meta)
    && (pos >= x.Last() ==> RESPONSE_RECORD in meta && meta[RESPONSE_RECORD] == SummaryOf(x.Content(), x.sha1))
  }

  /** The first attempt on the stream is the request header; a bystander past the check knows it is there. */
  predicate HeaderFirst(x: Exchange, s: State)
    requires x.main < |s.threads|
  {
    var tr := Trace(s.shared);
    && (tr != [] && tr[0].IsData() ==> tr[0].tid == x.main)
    && (forall j :: 0 <= j < |s.threads| && j != x.main && PastCheck(s.threads[j]) ==> tr != [])
  }

  predicate MetaOnWire(x: Exchange, sh: Shared) {
    var p := PhaseOf(sh);
    !p.Flowing? && !p.Broken? && p.msg.Meta? ==> MetaFollows(x, p.msg.summaries, x.Last())
  }

  predicate ExchangeInv(x: Exchange, s: State) {
    && Inv(s) && Plays(x, s) && s.threads[x.main].Pos() <= |x.Script()|
    && MetaFollows(x, s.shared.meta, s.threads[x.main].Pos())
    && MetaOnWire(x, s.shared) && HeaderFirst(x, s)
  }

  /** Meta is elected only by the exchange's last call. */
  lemma StoringWinner(x: Exchange, s: State)
    requires Inv(s) && Plays(x, s) && s.shared.winner.Some? && s.shared.winner.value.req.sendMeta
    ensures s.shared.winner.value == Win(x.main, x.Last(), StoredRequest(x.Content(), x.sha1, x.log))
  {
    var w := s.shared.winner.value;
    assert Elected(s, w);
    assert w.tid != x.main ==> BystanderCall(s.threads[w.tid].script[w.pos]);
    ScriptAt(x, w.pos);
  }

  /** rc.Meta changes when a goroutine executes a SetMeta call, and in no other step. */
  lemma StartMeta(sh: Shared, i: nat, t: Thread, c: Choice)
    requires CanAct(sh, t, c) && t.pc.Ready?
    ensures var (b, u) := Do(sh, i, t, c);
      if t.Current().SetMeta? then b.meta == sh.meta[t.Current().rec := t.Current().summary] && u.Pos() == t.Pos() + 1
      else b.meta == sh.meta && u.Pos() == t.Pos()
  {
  }

  lemma SendMetaStable(sh: Shared, i: nat, t: Thread, c: Choice)
    requires CanAct(sh, t, c) && (OnSendPath(t.pc) || t.pc.Send?)
    ensures Do(sh, i, t, c).0.meta == sh.meta
  {
    assert Do(sh, i, t, c) == SendPath(sh, i, t, c);
  }

  lemma CloseMetaStable(sh: Shared, i: nat, t: Thread, c: Choice)
    requires CanAct(sh, t, c) && (OnClosePath(t.pc) || t.pc.CloseRecv?)
    ensures Do(sh, i, t, c).0.meta == sh.meta
  {
    assert Do(sh, i, t, c) == ClosePath(sh, i, t, c);
  }

  lemma CompleteMetaStable(sh: Shared, i: nat, t: Thread, c: Choice)
    requires CanAct(sh, t, c) && (t.pc.Complete? || t.pc.Record?)
    ensures Do(sh, i, t, c).0.meta == sh.meta
  {
  }

  lemma FinishMetaStable(sh: Shared, i: nat, t: Thread, c: Choice)
    requires CanAct(sh, t, c) && OnFinishPath(t.pc)
    ensures Do(sh, i, t, c).0.meta == sh.meta
  {
    if t.pc.Complete? || t.pc.Record? {
      CompleteMetaStable(sh, i, t, c);
    }
  }

  lemma MetaStable(sh: Shared, i: nat, t: Thread, c: Choice)
    requires CanAct(sh, t, c) && !t.pc.Ready?
    ensures Do(sh, i, t, c).0.meta == sh.meta
  {
    if OnSendPath(t.pc) || t.pc.Send? {
      SendMetaStable(sh, i, t, c);
    } else if OnClosePath(t.pc) || t.pc.CloseRecv? {
      CloseMetaStable(sh, i, t, c);
    } else if OnFinishPath(t.pc) {
      FinishMetaStable(sh, i, t, c);
    }
  }

  lemma StepKeepsMeta(x: Exchange, s: State, i: nat, c: Choice)
    requires ExchangeInv(x, s) && Enabled(s, Act(i, c))
    ensures var s' := Step(s, Act(i, c)); MetaFollows(x, s'.shared.meta, s'.threads[x.main].Pos())
  {
    var t := s.threads[i];
    if t.pc.Ready? {
      StartKeepsMeta(x, s, i, c);
    } else {
      MetaStable(s.shared, i, t, c);
      DoReturns(s.shared, i, t, c);
      assert !t.Current().SetMeta?;
      if i == x.main {
        ScriptAt(x, t.Pos());
      }
    }
  }

  lemma StartKeepsMeta(x: Exchange, s: State, i: nat, c: Choice)
    requires ExchangeInv(x, s) && Enabled(s, Act(i, c)) && s.threads[i].pc.Ready?
    ensures var s' := Step(s, Act(i, c)); MetaFollows(x, s'.shared.meta, s'.threads[x.main].Pos())
  {
    var t := s.threads[i];
    StartMeta(s.shared, i, t, c);
    if i == x.main {
      ScriptAt(x, t.Pos());
    } else {
      assert BystanderCall(t.script[t.Pos()]);
    }
  }

  lemma SendKeepsMetaOnWire(x: Exchange, s: State, i: nat, c: Choice)
    requires ExchangeInv(x, s) && Enabled(s, Act(i, c)) && s.threads[i].pc.Send?
    ensures MetaOnWire(x, Step(s, Act(i, c)).shared)
  {
    var t := s.threads[i];
    WireStep(s.shared, i, t, c);
    if !t.Current().Data? && t.Current().req.sendMeta {
      assert Winning(t);
      StoringWinner(x, s);
    }
  }

  lemma StepKeepsMetaOnWire(x: Exchange, s: State, i: nat, c: Choice)
    requires ExchangeInv(x, s) && Enabled(s, Act(i, c))
    ensures MetaOnWire(x, Step(s, Act(i, c)).shared)
  {
    var t := s.threads[i];
    if t.pc.Send? {
      SendKeepsMetaOnWire(x, s, i, c);
    } else if t.pc.CloseRecv? {
      RecvKeepsMetaOnWire(x, s, i, c);
    } else {
      QuietStep(s.shared, i, t, c);
    }
  }

  lemma RecvKeepsMetaOnWire(x: Exchange, s: State, i: nat, c: Choice)
    requires ExchangeInv(x, s) && Enabled(s, Act(i, c)) && s.threads[i].pc.CloseRecv?
    ensures MetaOnWire(x, Step(s, Act(i, c)).shared)
  {
    RecvKeepsPhase(x, s.shared, i, s.threads[i], c);
  }

  lemma RecvKeepsPhase(x: Exchange, sh: Shared, i: nat, t: Thread, c: Choice)
    requires At(sh, i, t, c) && t.pc.CloseRecv? && MetaOnWire(x, sh)
    ensures MetaOnWire(x, Do(sh, i, t, c).0)
  {
    WireStep(sh, i, t, c);
  }

  /** A sender gets past the check only while the stream is not done. */
  lemma CheckPassed(sh: Shared, i: nat, t: Thread, c: Choice)
    requires CanAct(sh, t, c) && PastCheck(Do(sh, i, t, c).1)
    ensures PastCheck(t) || (sh.cwc.Some? && !StreamDone(sh))
    ensures t.Begun() && t.HasCall() && t.Current().Data?
  {
  }

  /** While the stream is not done, a request body reader has begun only after its header was sent. */
  lemma HeaderWasSent(x: Exchange, s: State, j: nat)
    requires ExchangeInv(x, s) && j < |s.threads| && j != x.main && !StreamDone(s.shared)
    requires s.threads[j].Begun() && s.threads[j].HasCall() && s.threads[j].Current().Data?
    ensures Trace(s.shared) != []
  {
    var t := s.threads[j];
    var m := s.threads[x.main];
    assert t.script[t.Pos()].Data?;
    assert GateRespected(s, j);
    assert OwnTrace(s.shared, x.main, m);
    ScriptAt(x, 1);
    OwedGrows(m.script, 2, m.Pos(), x.main);
    assert Owed(m.script, 2, x.main) != [];
    assert SentBy(Trace(s.shared), x.main) == m.sent;
  }

  lemma StepKeepsHeaderFirst(x: Exchange, s: State, i: nat, c: Choice)
    requires ExchangeInv(x, s) && Enabled(s, Act(i, c))
    ensures HeaderFirst(x, Step(s, Act(i, c)))
  {
    var t := s.threads[i];
    var (b, u) := Do(s.shared, i, t, c);
    if t.pc.Send? || t.pc.CloseRecv? {
      WireStep(s.shared, i, t, c);
    } else {
      QuietStep(s.shared, i, t, c);
    }
    if i != x.main && PastCheck(u) {
      CheckPassed(s.shared, i, t, c);
      if !PastCheck(t) {
        HeaderWasSent(x, s, i);
      }
    }
  }

  lemma StepKeepsExchange(x: Exchange, s: State, e: Event)
    requires ExchangeInv(x, s)
    ensures ExchangeInv(x, Step(s, e))
  {
    StepKeeps(s, e);
    if Enabled(s, e) && e.Act? {
      StepKeepsPlays(x, s, e.tid, e.choice);
      StepKeepsMeta(x, s, e.tid, e.choice);
      StepKeepsMetaOnWire(x, s, e.tid, e.choice);
      StepKeepsHeaderFirst(x, s, e.tid, e.choice);
    }
  }

  lemma StepKeepsPlays(x: Exchange, s: State, i: nat, c: Choice)
    requires ExchangeInv(x, s) && Enabled(s, Act(i, c))
    ensures Plays(x, Step(s, Act(i, c)))
  {
    DoFrame(s.shared, i, s.threads[i], c);
    var s' := Step(s, Act(i, c));
    forall j | 0 <= j < |s.threads| && j != x.main ensures Bystander(x, s'.threads[j]) {
      assert Bystander(x, s.threads[j]);
      assert s'.threads[j].script == s.threads[j].script && s'.threads[j].gate == s.threads[j].gate;
    }
  }

  lemma {:induction false} RunKeepsExchange(x: Exchange, s: State, events: seq<Event>)
    requires ExchangeInv(x, s)
    ensures ExchangeInv(x, Run(s, events))
    decreases |events|
  {
    if events != [] {
      StepKeepsExchange(x, s, events[0]);
      RunKeepsExchange(x, Step(s, events[0]), events[1..]);
    }
  }

  // ---- the stream as the server receives it ---------------------------------------------------------

  /** What the recorder puts around its summaries. */
  datatype Target = Target(collection: Option<string>, ipAddress: string, uri: string)

  function Received(w: Wire, target: Target): Server.WriteRequest
    requires w.Sent?
  {
    match w.msg
    case Header(rec, data) => Server.ProtocolHeader(rec, data, true)
    case Payload(rec, data) => Server.Payload(rec, data, true)
    case Cancel(text) => Server.Cancel(text)
    case Meta(summaries) =>
      Server.SetMeta(Server.WriteMeta(target.collection, target.ipAddress, target.uri,
        map r | r in summaries :: Server.RecordMeta(summaries[r].size, summaries[r].blockDigest)))
  }

  /** The successful sends, in order; the server's builders accept all bytes. */
  function Delivered(tr: seq<Wire>, target: Target): seq<Server.WriteRequest> {
    if tr == [] then []
    else
      var w := tr[|tr| - 1];
      var before := Delivered(tr[..|tr| - 1], target);
      if w.Sent? && w.ok then before + [Received(w, target)] else before
  }

  /** The bytes of rec among successful data sends. */
  function WireContent(tr: seq<Wire>, rec: int): Bytes {
    if tr == [] then []
    else
      var w := tr[|tr| - 1];
      var before := WireContent(tr[..|tr| - 1], rec);
      if w.IsData() && w.ok && w.msg.rec == rec then before + w.msg.data else before
  }

  lemma WireContentSnoc(tr: seq<Wire>, w: Wire, rec: int)
    ensures WireContent(tr + [w], rec) ==
      WireContent(tr, rec) + if w.IsData() && w.ok && w.msg.rec == rec then w.msg.data else []
  {
    assert (tr + [w])[..|tr|] == tr;
  }

  lemma {:induction false} DeliveredContent(tr: seq<Wire>, target: Target, rec: int)
    ensures Server.Content(Delivered(tr, target), rec) == WireContent(tr, rec)
  {
    if tr != [] {
      var init := tr[..|tr| - 1];
      DeliveredContent(init, target, rec);
      var w := tr[|tr| - 1];
      if w.Sent? && w.ok {
        Server.ContentSnoc(Delivered(init, target), Received(w, target), rec);
        assert Received(w, target).IsData() <==> w.IsData();
      }
    }
  }

  /** A record only one goroutine writes has the content that goroutine sent. */
  lemma {:induction false} ContentOfWriter(tr: seq<Wire>, rec: int, j: nat)
    requires forall k :: 0 <= k < |tr| && tr[k].IsData() && tr[k].msg.rec == rec ==> tr[k].tid == j
    ensures WireContent(tr, rec) == WireContent(SentBy(tr, j), rec)
  {
    if tr != [] {
      var init := tr[..|tr| - 1];
      ContentOfWriter(init, rec, j);
      var w := tr[|tr| - 1];
      WireContentSnoc(init, w, rec);
      assert tr == init + [w];
      WireSnoc(init, w);
      if w.IsData() && w.tid == j {
        WireContentSnoc(SentBy(init, j), w, rec);
      } else {
        assert SentBy(tr, j) == SentBy(init, j);
      }
    }
  }

  lemma {:induction false} SentByGrows(tr: seq<Wire>, k: nat, j: nat)
    requires k <= |tr|
    ensures SentBy(tr[..k], j) <= SentBy(tr, j)
    decreases |tr|
  {
    if k < |tr| {
      var init := tr[..|tr| - 1];
      assert init[..k] == tr[..k];
      SentByGrows(init, k, j);
    } else {
      assert tr[..k] == tr;
    }
  }

  /** Response bytes on the wire are the prolog and the chunks. */
  lemma {:induction false} WiresContent(x: Exchange, n: nat)
    requires n <= |x.chunks|
    ensures WireContent(Wires(x)[..n + 2], RESPONSE_RECORD) == x.prolog1 + Flatten(x.chunks[..n])
  {
    var w := Wires(x)[..n + 2];
    assert w[..|w| - 1] == Wires(x)[..n + 1];
    if n == 0 {
      assert w[..1] == [Wires(x)[0]] && w[..0] == [];
      assert w[..1][..0] == [];
      assert WireContent(w[..1], RESPONSE_RECORD) == [];
    } else {
      WiresContent(x, n - 1);
      assert x.chunks[..n][..n - 1] == x.chunks[..n - 1];
    }
  }

  /** The data part of a stored exchange's stream. */
  predicate GoodData(x: Exchange, tr: seq<Wire>) {
    && DataOnly(tr)
    && SentBy(tr, x.main) == Wires(x)
    && tr != [] && tr[0].tid == x.main
    && forall k :: 0 <= k < |tr| && tr[k].tid != x.main ==> tr[k].msg.Payload? && tr[k].msg.rec == REQUEST_RECORD
  }

  /** Attempt k of the recorder's goroutine is its next wire. */
  lemma NextWire(x: Exchange, tr: seq<Wire>, k: nat)
    requires GoodData(x, tr) && k < |tr| && tr[k].tid == x.main
    ensures var n := |SentBy(tr[..k], x.main)|;
      n < |Wires(x)| && tr[k] == Wires(x)[n] && SentBy(tr[..k], x.main) == Wires(x)[..n]
  {
    SentByGrows(tr, k + 1, x.main);
    assert tr[..k + 1][..k] == tr[..k];
    assert tr[..k + 1][k] == tr[k];
  }

  /** No header arrives for a record that already has bytes. */
  lemma NothingBeforeHeader(x: Exchange, tr: seq<Wire>, k: nat)
    requires GoodData(x, tr) && k < |tr| && tr[k].msg.Header?
    ensures WireContent(tr[..k], tr[k].msg.rec) == []
  {
    NextWire(x, tr, k);
    if k == 0 {
      assert tr[..0] == [];
    } else {
      FirstSent(x, tr, k);
      assert SentBy(tr[..k], x.main) == Wires(x)[..1];
      OnlyRequestHeader(x);
      ResponseWriter(x, tr, k);
    }
  }

  /** Attempt h is the header of its record: nothing is attempted for the record before, and no header after. */
  predicate HeaderOf(tr: seq<Wire>, h: nat, rec: int)
    requires DataOnly(tr) && h < |tr|
  {
    && tr[h].msg.Header? && tr[h].msg.rec == rec
    && (forall i :: 0 <= i < h ==> tr[i].msg.rec != rec)
    && (forall i :: h < i < |tr| && tr[i].msg.Header? ==> tr[i].msg.rec != rec)
  }

  /** Every record in the stream begins with its header, and that is its only one. */
  lemma HeadersComeFirst(x: Exchange, tr: seq<Wire>, k: nat) returns (h: nat)
    requires GoodData(x, tr) && k < |tr|
    ensures h <= k && HeaderOf(tr, h, tr[k].msg.rec)
  {
    if tr[k].msg.rec == REQUEST_RECORD {
      h := 0;
      RequestHeaderFirst(x, tr);
    } else {
      NextWire(x, tr, k);
      h := ResponseHeaderAt(x, tr, k);
      ResponseHeaderOnce(x, tr, h);
    }
  }

  lemma RequestHeaderFirst(x: Exchange, tr: seq<Wire>)
    requires GoodData(x, tr)
    ensures HeaderOf(tr, 0, REQUEST_RECORD)
  {
    NextWire(x, tr, 0);
    assert tr[..0] == [];
    forall i | 0 < i < |tr| && tr[i].msg.Header? ensures tr[i].msg.rec != REQUEST_RECORD {
      NextWire(x, tr, i);
      FirstSent(x, tr, i);
    }
  }

  /** An attempt for the response comes at or after the second attempt of the recorder's goroutine. */
  lemma ResponseHeaderAt(x: Exchange, tr: seq<Wire>, k: nat) returns (h: nat)
    requires GoodData(x, tr) && k < |tr| && tr[k].tid == x.main && tr[k].msg.rec == RESPONSE_RECORD
    ensures h <= k && tr[h].tid == x.main && |SentBy(tr[..h], x.main)| == 1
  {
    NextWire(x, tr, k);
    if |SentBy(tr[..k], x.main)| == 1 {
      h := k;
    } else {
      h := SecondAttempt(x, tr, k);
    }
  }

  lemma {:induction false} SecondAttempt(x: Exchange, tr: seq<Wire>, k: nat) returns (h: nat)
    requires GoodData(x, tr) && k <= |tr| && |SentBy(tr[..k], x.main)| >= 2
    ensures h < k && tr[h].tid == x.main && |SentBy(tr[..h], x.main)| == 1
  {
    assert tr[..k][..k - 1] == tr[..k - 1] && tr[..k][k - 1] == tr[k - 1];
    if |SentBy(tr[..k - 1], x.main)| >= 2 {
      h := SecondAttempt(x, tr, k - 1);
    } else {
      h := k - 1;
    }
  }

  lemma SentByOrdered(x: Exchange, tr: seq<Wire>, i: nat, k: nat)
    requires i < k <= |tr| && tr[i].IsData() && tr[i].tid == x.main
    ensures |SentBy(tr[..i], x.main)| < |SentBy(tr[..k], x.main)|
  {
    assert tr[..i + 1][..i] == tr[..i] && tr[..i + 1][i] == tr[i];
    assert tr[..k][..i + 1] == tr[..i + 1];
    SentByGrows(tr[..k], i + 1, x.main);
  }

  lemma ResponseHeaderOnce(x: Exchange, tr: seq<Wire>, h: nat)
    requires GoodData(x, tr) && h < |tr| && tr[h].tid == x.main && |SentBy(tr[..h], x.main)| == 1
    ensures HeaderOf(tr, h, RESPONSE_RECORD)
  {
    NextWire(x, tr, h);
    forall i | 0 <= i < h ensures tr[i].msg.rec != RESPONSE_RECORD {
      if tr[i].tid == x.main {
        NextWire(x, tr, i);
        SentByOrdered(x, tr, i, h);
      }
    }
    forall i | h < i < |tr| && tr[i].tid == x.main ensures tr[i].msg.Payload? {
      NextWire(x, tr, i);
      SentByOrdered(x, tr, h, i);
    }
  }

  lemma OnlyRequestHeader(x: Exchange)
    ensures WireContent(Wires(x)[..1], RESPONSE_RECORD) == []
  {
    assert Wires(x)[..1][..0] == [];
  }

  lemma ResponseWriter(x: Exchange, tr: seq<Wire>, k: nat)
    requires GoodData(x, tr) && k <= |tr|
    ensures WireContent(tr[..k], RESPONSE_RECORD) == WireContent(SentBy(tr[..k], x.main), RESPONSE_RECORD)
  {
    ContentOfWriter(tr[..k], RESPONSE_RECORD, x.main);
  }

  lemma FirstSent(x: Exchange, tr: seq<Wire>, k: nat)
    requires GoodData(x, tr) && 0 < k <= |tr|
    ensures SentBy(tr[..k], x.main) != []
  {
    SentByGrows(tr[..k], 1, x.main);
    assert tr[..k][..1] == [tr[0]] && [tr[0]][..0] == [];
    assert SentBy([tr[0]], x.main) == [tr[0]];
  }

  /** The server takes in one more delivered attempt. */
  lemma NextAccepted(x: Exchange, tr: seq<Wire>, k: nat, target: Target)
    requires GoodData(x, tr) && k < |tr| && tr[k].ok
    ensures var before := Delivered(tr[..k], target);
      Server.Acceptable(before + [Received(tr[k], target)], |before|)
  {
    var w := tr[k];
    var before := Delivered(tr[..k], target);
    assert (before + [Received(w, target)])[..|before|] == before;
    if w.msg.Header? {
      NothingBeforeHeader(x, tr, k);
      DeliveredContent(tr[..k], target, w.msg.rec);
    }
  }

  lemma RecordsZeroAndOne(x: Exchange, tr: seq<Wire>, k: nat)
    requires GoodData(x, tr) && k < |tr|
    ensures tr[k].msg.rec in {REQUEST_RECORD, RESPONSE_RECORD}
  {
    if tr[k].tid == x.main {
      NextWire(x, tr, k);
    }
  }

  lemma {:induction false} DataAccepted(x: Exchange, tr: seq<Wire>, k: nat, target: Target)
    requires GoodData(x, tr) && k <= |tr|
    ensures Server.AllAcceptable(Delivered(tr[..k], target))
    ensures Server.Touched(Delivered(tr[..k], target)) <= {REQUEST_RECORD, RESPONSE_RECORD}
  {
    if k > 0 {
      var w := tr[k - 1];
      assert tr[..k][..k - 1] == tr[..k - 1] && tr[..k][k - 1] == w;
      DataAccepted(x, tr, k - 1, target);
      if w.ok {
        var before := Delivered(tr[..k - 1], target);
        var m := Received(w, target);
        NextAccepted(x, tr, k - 1, target);
        RecordsZeroAndOne(x, tr, k - 1);
        Server.AcceptableSnoc(before, m);
        Server.ContentSnoc(before, m, 0);
      }
    }
  }

  lemma {:induction false} DeliveredTouches(tr: seq<Wire>, k: nat, target: Target)
    requires k < |tr| && tr[k].IsData() && tr[k].ok
    ensures tr[k].msg.rec in Server.Touched(Delivered(tr, target))
    decreases |tr|
  {
    var init := tr[..|tr| - 1];
    var w := tr[|tr| - 1];
    if w.Sent? && w.ok {
      Server.ContentSnoc(Delivered(init, target), Received(w, target), 0);
    }
    if k < |tr| - 1 {
      assert init[k] == tr[k];
      DeliveredTouches(init, k, target);
    }
  }

  // ---- the theorem --------------------------------------------------------------------------------------

  lemma InitialExchange(x: Exchange, s: State)
    requires Initial(s) && Plays(x, s)
    ensures ExchangeInv(x, s)
  {
    InitialInv(s);
    ScriptAt(x, 0);
    forall j | 0 <= j < |s.threads| ensures !PastCheck(s.threads[j]) {
      assert InitialThread(s.threads[j]);
    }
    assert InitialThread(s.threads[x.main]);
  }

  /** The stream ended in meta that reached the writer, which closed it without error. */
  predicate MetaDelivered(tr: seq<Wire>) {
    |tr| >= 2 && tr[|tr| - 2].Sent? && tr[|tr| - 2].msg.Meta? && tr[|tr| - 2].ok && tr[|tr| - 1].Closed?
  }

  lemma SentByDataPart(tr: seq<Wire>, j: nat)
    requires MetaDelivered(tr)
    ensures SentBy(tr[..|tr| - 2], j) == SentBy(tr, j)
  {
    var data := tr[..|tr| - 2];
    assert tr == data + [tr[|tr| - 2]] + [tr[|tr| - 1]];
    WireSnoc(data, tr[|tr| - 2]);
    WireSnoc(data + [tr[|tr| - 2]], tr[|tr| - 1]);
  }

  /** A stored stream consists of good data, meta and close; its meta describes the response exactly. */
  lemma StoredStream(x: Exchange, s: State)
    requires ExchangeInv(x, s) && MetaDelivered(Trace(s.shared))
    ensures var tr := Trace(s.shared);
      && GoodData(x, tr[..|tr| - 2])
      && MetaFollows(x, tr[|tr| - 2].msg.summaries, x.Last())
  {
    var tr := Trace(s.shared);
    var data := tr[..|tr| - 2];
    PhaseGrammar(tr);
    StoringWinner(x, s);
    OwedWires(x, x.Last());
    assert Wires(x)[..|x.chunks| + 2] == Wires(x);
    SentByDataPart(tr, x.main);
    assert tr[0] == data[0];
    forall k | 0 <= k < |data| && data[k].tid != x.main
      ensures data[k].msg.Payload? && data[k].msg.rec == REQUEST_RECORD
    {
      assert data[k] == tr[k];
      var script := s.threads[tr[k].tid].script;
      var c :| 0 <= c < |script| && script[c] == Call.Data(tr[k].msg);
      assert BystanderCall(script[c]);
    }
  }

  function WrittenMeta(x: Exchange, meta: Server.WriteMeta): bool {
    && REQUEST_RECORD in meta.recordMeta && RESPONSE_RECORD in meta.recordMeta
    && meta.recordMeta[RESPONSE_RECORD] == Server.RecordMeta(|x.Content()|, x.sha1(x.Content()))
  }

  /** The server accepts the whole stream; record 1 is exactly the response prolog followed by every byte Read
      returned, in order, with its length and digest in the metadata; record 0 starts with the request header;
      there is no other record, so the slice for the writer has no hole. */
  predicate HoldsExchange(x: Exchange, msgs: seq<Server.WriteRequest>) {
    && Server.AllAcceptable(msgs)
    && Server.Touched(msgs) == {REQUEST_RECORD, RESPONSE_RECORD}
    && Server.Content(msgs, RESPONSE_RECORD) == x.prolog1 + Flatten(x.chunks)
    && x.prolog0 <= Server.Content(msgs, REQUEST_RECORD)
    && Server.LastMeta(msgs).Some? && WrittenMeta(x, Server.LastMeta(msgs).value)
    && Server.Slots(msgs) == [Some(Server.Content(msgs, REQUEST_RECORD)), Some(x.Content())]
  }

  lemma ServerHolds(x: Exchange, s: State, target: Target)
    requires ExchangeInv(x, s) && MetaDelivered(Trace(s.shared))
    ensures HoldsExchange(x, Delivered(Trace(s.shared), target))
  {
    var tr := Trace(s.shared);
    var data := tr[..|tr| - 2];
    StoredStream(x, s);
    DataAccepted(x, data, |data|, target);
    assert data[..|data|] == data;
    StreamOfData(x, tr, target);
  }

  /** End to end, over every run of an exchange: if a stored finalization's meta was delivered, the server holds
      the exchange. */
  lemma StoredExchange(x: Exchange, s0: State, events: seq<Event>, target: Target)
    requires Initial(s0) && Plays(x, s0) && MetaDelivered(Trace(Run(s0, events).shared))
    ensures HoldsExchange(x, Delivered(Trace(Run(s0, events).shared), target))
  {
    InitialExchange(x, s0);
    RunKeepsExchange(x, s0, events);
    ServerHolds(x, Run(s0, events), target);
  }

  /** The completion tells the truth about what was stored: if the browser controller is told of a record with a
      WARC id, the server held the whole exchange, and the crawl log gives the length and digest of exactly the
      response prolog and the bytes Read returned. */
  lemma CommittedIsStored(x: Exchange, s0: State, events: seq<Event>, target: Target)
    requires Initial(s0) && Plays(x, s0)
    requires Run(s0, events).shared.commits != [] && Run(s0, events).shared.commits[0].warcId != ""
    ensures var sh := Run(s0, events).shared;
      && MetaDelivered(Trace(sh)) && HoldsExchange(x, Delivered(Trace(sh), target))
      && sh.commits[0].size == |x.Content()| && sh.commits[0].blockDigest == x.sha1(x.Content())
      && exists m :: StoredOnWire(Trace(sh), 1, m) && sh.commits[0].warcId == m.warcId
  {
    InitialExchange(x, s0);
    RunKeepsExchange(x, s0, events);
    CommitAgreement(s0, events);
    StoringWinner(x, Run(s0, events));
    StoredExchange(x, s0, events, target);
  }

  /** The data of a stored stream carries both records, the response in full. */
  lemma DataContent(x: Exchange, data: seq<Wire>, target: Target)
    requires GoodData(x, data)
    ensures var msgs := Delivered(data, target);
      && Server.Content(msgs, RESPONSE_RECORD) == x.Content()
      && x.prolog0 <= Server.Content(msgs, REQUEST_RECORD)
      && {REQUEST_RECORD, RESPONSE_RECORD} <= Server.Touched(msgs)
  {
    assert data[..|data|] == data;
    DeliveredContent(data, target, RESPONSE_RECORD);
    ResponseWriter(x, data, |data|);
    WiresContent(x, |x.chunks|);
    assert Wires(x)[..|x.chunks| + 2] == Wires(x) && x.chunks[..|x.chunks|] == x.chunks;
    NextWire(x, data, 0);
    assert data[..0] == [];
    DeliveredContent(data, target, REQUEST_RECORD);
    ContentGrows(data, 1, REQUEST_RECORD);
    assert data[..1][..0] == [];
    DeliveredTouches(data, 0, target);
    var k := SecondAttempt(x, data, |data|);
    NextWire(x, data, k);
    DeliveredTouches(data, k, target);
  }

  lemma {:induction false} ContentGrows(tr: seq<Wire>, k: nat, rec: int)
    requires k <= |tr|
    ensures WireContent(tr[..k], rec) <= WireContent(tr, rec)
    decreases |tr|
  {
    if k < |tr| {
      var init := tr[..|tr| - 1];
      assert init[..k] == tr[..k];
      ContentGrows(init, k, rec);
    } else {
      assert tr[..k] == tr;
    }
  }

  /** Meta and close add the last metadata and no bytes. */
  lemma StreamOfData(x: Exchange, tr: seq<Wire>, target: Target)
    requires MetaDelivered(tr) && GoodData(x, tr[..|tr| - 2]) && MetaFollows(x, tr[|tr| - 2].msg.summaries, x.Last())
    requires Server.AllAcceptable(Delivered(tr[..|tr| - 2], target))
    requires Server.Touched(Delivered(tr[..|tr| - 2], target)) <= {REQUEST_RECORD, RESPONSE_RECORD}
    ensures HoldsExchange(x, Delivered(tr, target))
  {
    var data := tr[..|tr| - 2];
    var before := Delivered(data, target);
    var m := Received(tr[|tr| - 2], target);
    DataContent(x, data, target);
    assert tr[..|tr| - 1][..|tr| - 2] == data && tr[..|tr| - 1][|tr| - 2] == tr[|tr| - 2];
    assert Delivered(tr, target) == before + [m];
    Server.AcceptableSnoc(before, m);
    Server.ContentSnoc(before, m, REQUEST_RECORD);
    Server.ContentSnoc(before, m, RESPONSE_RECORD);
    var touched := {REQUEST_RECORD, RESPONSE_RECORD};
    assert Server.Touched(before) == touched;
    assert |touched| == 2;
  }

  /** The writer is called for a stored exchange exactly when the server's own checks pass. */
  lemma StoredExchangeIsWritten(x: Exchange, s0: State, events: seq<Event>, target: Target, world: Server.World)
    requires Initial(s0) && Plays(x, s0) && MetaDelivered(Trace(Run(s0, events).shared))
    ensures var msgs := Delivered(Trace(Run(s0, events).shared), target);
      Server.Stores(msgs, Server.Eof, world) <==>
        && target.collection.Some? && target.ipAddress != "" && target.uri != "" && world.configured
        && Server.LastMeta(msgs).Some? && REQUEST_RECORD in Server.LastMeta(msgs).value.recordMeta
        && world.valid(REQUEST_RECORD, Server.Content(msgs, REQUEST_RECORD),
                       Server.LastMeta(msgs).value.recordMeta[REQUEST_RECORD])
        && world.valid(RESPONSE_RECORD, x.Content(), Server.RecordMeta(|x.Content()|, x.sha1(x.Content())))
  {
    StoredExchange(x, s0, events, target);
  }
}
