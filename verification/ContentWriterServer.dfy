/** The ContentWriter service: one Write stream collects record bytes and, if it ends properly, hands
    all records to the WARC writer in one call. */
module ContentWriterServer {
  import opened Common

  datatype RecordMeta = RecordMeta(size: nat, blockDigest: string)

  datatype WriteMeta = WriteMeta(
    collectionRef: Option<string>, ipAddress: string, targetUri: string, recordMeta: map<int, RecordMeta>)

  /** One received WriteRequest; stored is false when the record builder cannot take the bytes. */
  datatype WriteRequest =
    | SetMeta(meta: WriteMeta)
    | ProtocolHeader(rec: int, data: Bytes, stored: bool)
    | Payload(rec: int, data: Bytes, stored: bool)
    | Cancel(text: string)
    | Unknown
  {
    predicate IsData() { ProtocolHeader? || Payload? }
  }

  datatype StreamEnd = Eof | Broken

  /** The answers of the config database, of the record builders and of the WARC writer. */
  datatype World = World(configured: bool, valid: (int, Bytes, RecordMeta) -> bool, writerOk: bool)

  datatype WriterCall = WriterCall(meta: WriteMeta, records: seq<Option<Bytes>>)

  datatype Failure =
    | ReceiveFailed | DoubleHeader | BuilderFailed | InvalidRequest
    | MissingMeta | MissingCollection | MissingIp | MissingUri | NoConfig | MissingRecordMeta | InvalidRecord
    | WriterFailed

  datatype Outcome = Replied | Cancelled | Failed(why: Failure)

  // ---- reference: what a message sequence means ---------------------------------------------------

  /** The bytes the messages carry for rec, in order. */
  function Content(msgs: seq<WriteRequest>, rec: int): Bytes {
    if msgs == [] then []
    else
      var m := msgs[|msgs| - 1];
      Content(msgs[..|msgs| - 1], rec) + if m.IsData() && m.rec == rec then m.data else []
  }

  /** The records some message carries data for. */
  function Touched(msgs: seq<WriteRequest>): set<int> {
    if msgs == [] then {}
    else
      var m := msgs[|msgs| - 1];
      Touched(msgs[..|msgs| - 1]) + if m.IsData() then {m.rec} else {}
  }

  /** The metadata sent last. */
  function LastMeta(msgs: seq<WriteRequest>): Option<WriteMeta> {
    if msgs == [] then None
    else if msgs[|msgs| - 1].SetMeta? then Some(msgs[|msgs| - 1].meta)
    else LastMeta(msgs[..|msgs| - 1])
  }

  /** Message i is taken in: not a cancel, not malformed, and no header for a record that has bytes. */
  predicate Acceptable(msgs: seq<WriteRequest>, i: nat)
    requires i < |msgs|
  {
    var m := msgs[i];
    && !m.Cancel? && !m.Unknown?
    && (m.IsData() ==> m.stored)
    && (m.ProtocolHeader? ==> Content(msgs[..i], m.rec) == [])
  }

  predicate AllAcceptable(msgs: seq<WriteRequest>) { forall i :: 0 <= i < |msgs| ==> Acceptable(msgs, i) }

  predicate CompleteMeta(meta: WriteMeta) {
    meta.collectionRef.Some? && meta.ipAddress != "" && meta.targetUri != ""
  }

  /** validateSession succeeds: complete metadata, a known collection, a valid record for every builder. */
  predicate Validates(msgs: seq<WriteRequest>, world: World) {
    && LastMeta(msgs).Some? && CompleteMeta(LastMeta(msgs).value) && world.configured
    && forall r :: r in Touched(msgs) ==>
         r in LastMeta(msgs).value.recordMeta && world.valid(r, Content(msgs, r), LastMeta(msgs).value.recordMeta[r])
  }

  /** The writer is called for this stream. */
  predicate Stores(msgs: seq<WriteRequest>, end: StreamEnd, world: World) {
    end.Eof? && AllAcceptable(msgs) && Validates(msgs, world)
  }

  /** As many slots as there are records; slot i holds record i, or nothing. */
  function Slots(msgs: seq<WriteRequest>): (slots: seq<Option<Bytes>>)
    ensures |slots| == |Touched(msgs)|
  {
    seq(|Touched(msgs)|, i => if i in Touched(msgs) then Some(Content(msgs, i)) else None)
  }

  lemma ContentSnoc(msgs: seq<WriteRequest>, m: WriteRequest, rec: int)
    ensures Content(msgs + [m], rec) == Content(msgs, rec) + if m.IsData() && m.rec == rec then m.data else []
    ensures LastMeta(msgs + [m]) == if m.SetMeta? then Some(m.meta) else LastMeta(msgs)
    ensures Touched(msgs + [m]) == Touched(msgs) + if m.IsData() then {m.rec} else {}
  {
    assert (msgs + [m])[..|msgs|] == msgs;
  }

  lemma AcceptableSnoc(msgs: seq<WriteRequest>, m: WriteRequest)
    ensures AllAcceptable(msgs + [m]) <==> AllAcceptable(msgs) && Acceptable(msgs + [m], |msgs|)
  {
    var longer := msgs + [m];
    forall i | 0 <= i < |msgs| ensures Acceptable(longer, i) <==> Acceptable(msgs, i) {
      assert longer[..i] == msgs[..i];
    }
  }

  /** An early failure or cancel is never repaired by later messages. */
  lemma PrefixRejected(msgs: seq<WriteRequest>, i: nat)
    requires i <= |msgs| && !AllAcceptable(msgs[..i])
    ensures !AllAcceptable(msgs)
  {
    var k :| 0 <= k < i && !Acceptable(msgs[..i], k);
    assert msgs[..i][..k] == msgs[..k];
    assert !Acceptable(msgs, k);
  }

  // ---- writeSessionContext ---------------------------------------------------------------------------

  class WriteSession {
    var meta: Option<WriteMeta>
    var recordBuilders: map<int, Bytes>
    var records: map<int, Bytes>

    /** The session after the messages so far. */
    ghost predicate Holds(msgs: seq<WriteRequest>)
      reads this
    {
      && meta == LastMeta(msgs)
      && recordBuilders.Keys == Touched(msgs)
      && (forall r :: r in recordBuilders ==> recordBuilders[r] == Content(msgs, r))
      && records == map[]
    }

    constructor ()
      ensures Holds([])
    {
      meta, recordBuilders, records := None, map[], map[];
    }

    method SetWriteRequestMeta(w: WriteMeta, ghost msgs: seq<WriteRequest>)
      requires Holds(msgs)
      modifies this`meta
      ensures Holds(msgs + [SetMeta(w)])
    {
      meta := Some(w);
      forall r: int ensures Content(msgs + [SetMeta(w)], r) == Content(msgs, r) {
        ContentSnoc(msgs, SetMeta(w), r);
      }
      ContentSnoc(msgs, SetMeta(w), 0);
    }

    /** getRecordBuilder: an empty builder is created on first use. */
    method GetRecordBuilder(rec: int) returns (content: Bytes)
      modifies this`recordBuilders
      ensures rec in recordBuilders && recordBuilders[rec] == content
      ensures recordBuilders ==
        if rec in old(recordBuilders) then old(recordBuilders) else old(recordBuilders)[rec := []]
    {
      if rec !in recordBuilders {
        recordBuilders := recordBuilders[rec := []];
      }
      content := recordBuilders[rec];
    }

    lemma {:induction false} ContentUntouched(msgs: seq<WriteRequest>, rec: int)
      requires rec !in Touched(msgs)
      ensures Content(msgs, rec) == []
    {
      if msgs != [] {
        var init := msgs[..|msgs| - 1];
        assert msgs == init + [msgs[|msgs| - 1]];
        ContentSnoc(init, msgs[|msgs| - 1], rec);
        ContentUntouched(init, rec);
      }
    }

    /** writeProtocolHeader and writePayload. */
    method WriteData(m: WriteRequest, ghost msgs: seq<WriteRequest>) returns (failure: Option<Failure>)
      requires Holds(msgs) && m.IsData()
      modifies this`recordBuilders
      ensures failure.None? <==> m.stored && (m.ProtocolHeader? ==> Content(msgs, m.rec) == [])
      ensures failure.Some? ==>
        failure.value == if m.ProtocolHeader? && Content(msgs, m.rec) != [] then DoubleHeader else BuilderFailed
      ensures failure.None? ==> Holds(msgs + [m])
    {
      if m.rec !in Touched(msgs) {
        ContentUntouched(msgs, m.rec);
      }
      var content := GetRecordBuilder(m.rec);
      assert content == Content(msgs, m.rec);
      if m.ProtocolHeader? && |content| != 0 {
        return Some(DoubleHeader);
      }
      if !m.stored {
        return Some(BuilderFailed);
      }
      recordBuilders := recordBuilders[m.rec := content + m.data];
      forall r: int ensures Content(msgs + [m], r) == Content(msgs, r) + if r == m.rec then m.data else [] {
        ContentSnoc(msgs, m, r);
      }
      ContentSnoc(msgs, m, 0);
      return None;
    }

    /** One round of the receive loop; Some says how the stream ends here. */
    method Receive(m: WriteRequest, ghost msgs: seq<WriteRequest>) returns (stop: Option<Outcome>)
      requires Holds(msgs)
      modifies this`meta, this`recordBuilders
      ensures stop.None? <==> Acceptable(msgs + [m], |msgs|)
      ensures stop.None? ==> Holds(msgs + [m])
      ensures stop.Some? ==> stop.value != Replied && (stop.value.Cancelled? <==> m.Cancel?)
    {
      assert (msgs + [m])[..|msgs|] == msgs && (msgs + [m])[|msgs|] == m;
      match m
      case SetMeta(w) =>
        SetWriteRequestMeta(w, msgs);
        return None;
      case Cancel(_) => return Some(Cancelled);
      case Unknown => return Some(Failed(InvalidRequest));
      case _ =>
        var failure := WriteData(m, msgs);
        return if failure.Some? then Some(Failed(failure.value)) else None;
    }

    /** Every builder has become a record with its bytes. */
    predicate Built()
      reads this
    {
      records.Keys == recordBuilders.Keys && forall r | r in recordBuilders :: records[r] == recordBuilders[r]
    }

    /** There is metadata for the record, and the builder accepts it. */
    predicate Builds(r: int, world: World)
      reads this
      requires r in recordBuilders && meta.Some?
    {
      r in meta.value.recordMeta && world.valid(r, recordBuilders[r], meta.value.recordMeta[r])
    }

    /** The loop of validateSession: one record per builder, in any order. */
    method BuildRecords(world: World) returns (failure: Option<Failure>)
      requires meta.Some? && records == map[]
      modifies this`records
      ensures failure.None? <==> forall r | r in recordBuilders :: Builds(r, world)
      ensures failure.None? ==> Built()
      ensures failure.Some? ==> failure.value.InvalidRecord? || failure.value.MissingRecordMeta?
      ensures failure == Some(MissingRecordMeta) ==> exists r :: r in recordBuilders && r !in meta.value.recordMeta
      ensures failure == Some(InvalidRecord) ==> exists r ::
        && r in recordBuilders && r in meta.value.recordMeta
        && !world.valid(r, recordBuilders[r], meta.value.recordMeta[r])
    {
      var pending := recordBuilders.Keys;
      while pending != {}
        invariant pending <= recordBuilders.Keys
        invariant records.Keys == recordBuilders.Keys - pending
        invariant forall r | r in records :: r in recordBuilders && records[r] == recordBuilders[r] && Builds(r, world)
        decreases |pending|
      {
        var k := AnyOf(pending);
        if !Builds(k, world) {
          return Some(if k in meta.value.recordMeta then InvalidRecord else MissingRecordMeta);
        }
        records := records[k := recordBuilders[k]];
        pending := pending - {k};
      }
      return None;
    }

    method ValidateSession(world: World, ghost msgs: seq<WriteRequest>) returns (failure: Option<Failure>)
      requires Holds(msgs)
      modifies this`records
      ensures failure.None? <==> Validates(msgs, world)
      ensures failure.None? ==> Built()
      ensures failure == Some(MissingMeta) <==> meta.None?
      ensures failure == Some(MissingCollection) <==> meta.Some? && meta.value.collectionRef.None?
      ensures failure == Some(MissingIp) <==>
        meta.Some? && meta.value.collectionRef.Some? && meta.value.ipAddress == ""
      ensures failure == Some(MissingUri) <==>
        meta.Some? && meta.value.collectionRef.Some? && meta.value.ipAddress != "" && meta.value.targetUri == ""
      ensures failure == Some(NoConfig) <==> meta.Some? && CompleteMeta(meta.value) && !world.configured
    {
      if meta.None? { return Some(MissingMeta); }
      if meta.value.collectionRef.None? { return Some(MissingCollection); }
      if meta.value.ipAddress == "" { return Some(MissingIp); }
      if meta.value.targetUri == "" { return Some(MissingUri); }
      if !world.configured { return Some(NoConfig); }
      failure := BuildRecords(world);
    }
  }

  /** The loop that fills the record slice. */
  method Collect(records: map<int, Bytes>) returns (slots: seq<Option<Bytes>>)
    ensures |slots| == |records|
    ensures forall k :: 0 <= k < |slots| ==> slots[k] == if k in records then Some(records[k]) else None
  {
    slots := [];
    for i := 0 to |records|
      invariant |slots| == i
      invariant forall k :: 0 <= k < i ==> slots[k] == if k in records then Some(records[k]) else None
    {
      slots := slots + [if i in records then Some(records[i]) else None];
    }
  }

  lemma SlotsOf(records: map<int, Bytes>, msgs: seq<WriteRequest>, slots: seq<Option<Bytes>>)
    requires records.Keys == Touched(msgs) && forall r | r in records :: records[r] == Content(msgs, r)
    requires |slots| == |records|
    requires forall k :: 0 <= k < |slots| ==> slots[k] == if k in records then Some(records[k]) else None
    ensures slots == Slots(msgs)
  {
    assert |records| == |records.Keys|;
  }

  // ---- ContentWriterService.Write -------------------------------------------------------------------------

  class ContentWriterService {
    /** The calls made on the WARC writer. */
    var written: seq<WriterCall>

    /** The message loop. Over every message sequence: the writer is called at most once, exactly for
        the streams that end with EOF after acceptable messages and complete metadata, with the last
        metadata and, for each record, the in-order concatenation of its messages. */
    method Write(msgs: seq<WriteRequest>, end: StreamEnd, world: World) returns (outcome: Outcome)
      modifies this`written
      ensures Stores(msgs, end, world) ==>
        && written == old(written) + [WriterCall(LastMeta(msgs).value, Slots(msgs))]
        && outcome == if world.writerOk then Replied else Failed(WriterFailed)
      ensures !Stores(msgs, end, world) ==> written == old(written) && outcome != Replied
      ensures outcome.Cancelled? <==> exists i :: 0 <= i < |msgs| && msgs[i].Cancel? && AllAcceptable(msgs[..i])
    {
      var session := new WriteSession();
      assert msgs[..0] == [];
      for i := 0 to |msgs|
        invariant session.Holds(msgs[..i])
        invariant AllAcceptable(msgs[..i])
        invariant written == old(written)
        invariant fresh(session)
      {
        var m := msgs[i];
        assert msgs[..i + 1] == msgs[..i] + [m];
        AcceptableSnoc(msgs[..i], m);
        var stop := session.Receive(m, msgs[..i]);
        if stop.Some? {
          RejectedAt(msgs, i);
          return stop.value;
        }
      }
      assert msgs[..|msgs|] == msgs;
      NoCancel(msgs);
      if end.Broken? {
        return Failed(ReceiveFailed);
      }
      var failure := session.ValidateSession(world, msgs);
      if failure.Some? {
        return Failed(failure.value);
      }
      var slots := Collect(session.records);
      SlotsOf(session.records, msgs, slots);
      written := written + [WriterCall(session.meta.value, slots)];
      outcome := if world.writerOk then Replied else Failed(WriterFailed);
    }
  }

  lemma NoCancel(msgs: seq<WriteRequest>)
    requires AllAcceptable(msgs)
    ensures forall k :: 0 <= k < |msgs| ==> !msgs[k].Cancel?
  {
    forall k | 0 <= k < |msgs| ensures !msgs[k].Cancel? {
      assert Acceptable(msgs, k);
    }
  }

  /** A stream rejected at message i stays rejected, and was cancelled only if i is a cancel. */
  lemma RejectedAt(msgs: seq<WriteRequest>, i: nat)
    requires i < |msgs| && AllAcceptable(msgs[..i]) && !Acceptable(msgs[..i + 1], i)
    ensures !AllAcceptable(msgs)
    ensures (exists k :: 0 <= k < |msgs| && msgs[k].Cancel? && AllAcceptable(msgs[..k])) <==> msgs[i].Cancel?
  {
    assert !AllAcceptable(msgs[..i + 1]);
    PrefixRejected(msgs, i + 1);
    NoCancel(msgs[..i]);
    forall k | 0 <= k < i ensures !msgs[k].Cancel? {
      assert msgs[k] == msgs[..i][k];
    }
    forall k | i < k < |msgs| ensures !AllAcceptable(msgs[..k]) {
      assert msgs[..k][..i + 1] == msgs[..i + 1];
      PrefixRejected(msgs[..k], i + 1);
    }
  }

  /** Message k is the last metadata. */
  predicate LastMetaAt(msgs: seq<WriteRequest>, k: nat)
    requires k < |msgs|
  {
    msgs[k].SetMeta? && forall j :: k < j < |msgs| ==> !msgs[j].SetMeta?
  }

  /** A message that cannot be taken in: a cancel, one of unknown kind, bytes no builder takes, or a header for a
      record some earlier message gave bytes for. */
  predicate Refused(msgs: seq<WriteRequest>, i: nat)
    requires i < |msgs|
  {
    var m := msgs[i];
    || m.Cancel? || m.Unknown?
    || ((m.Payload? || m.ProtocolHeader?) && !m.stored)
    || (m.ProtocolHeader? && exists j :: 0 <= j < i && BytesFor(msgs[j], m.rec))
  }

  predicate BytesFor(m: WriteRequest, rec: int) { (m.Payload? || m.ProtocolHeader?) && m.rec == rec && m.data != [] }

  /** Exactly which streams reach the writer: those that end in EOF, of which no message is refused, and whose last
      metadata names a collection that exists, an address, a URI, and for every record a summary that its bytes
      match. */
  lemma StoredExactly(msgs: seq<WriteRequest>, end: StreamEnd, world: World)
    ensures Stores(msgs, end, world) <==>
      && end.Eof? && world.configured
      && (forall i :: 0 <= i < |msgs| ==> !Refused(msgs, i))
      && exists k :: 0 <= k < |msgs| && LastMetaAt(msgs, k) && MetaCovers(msgs, msgs[k].meta, world)
  {
    forall i | 0 <= i < |msgs| ensures Acceptable(msgs, i) <==> !Refused(msgs, i) {
      if msgs[i].IsData() {
        EmptyContentIff(msgs[..i], msgs[i].rec);
        assert forall j :: 0 <= j < i ==> msgs[..i][j] == msgs[j];
      }
    }
    LastMetaIs(msgs);
    TouchedIs(msgs);
  }

  /** The metadata is complete, and each record with data has a summary that its bytes match. */
  predicate MetaCovers(msgs: seq<WriteRequest>, meta: WriteMeta, world: World) {
    && meta.collectionRef.Some? && meta.ipAddress != "" && meta.targetUri != ""
    && forall i :: 0 <= i < |msgs| && (msgs[i].Payload? || msgs[i].ProtocolHeader?) ==>
         && msgs[i].rec in meta.recordMeta
         && world.valid(msgs[i].rec, Content(msgs, msgs[i].rec), meta.recordMeta[msgs[i].rec])
  }

  lemma {:induction false} EmptyContentIff(msgs: seq<WriteRequest>, rec: int)
    ensures Content(msgs, rec) == [] <==> forall j :: 0 <= j < |msgs| ==> !BytesFor(msgs[j], rec)
  {
    if msgs != [] {
      var init := msgs[..|msgs| - 1];
      EmptyContentIff(init, rec);
      assert forall j :: 0 <= j < |init| ==> init[j] == msgs[j];
    }
  }

  lemma {:induction false} LastMetaIs(msgs: seq<WriteRequest>)
    ensures forall meta :: LastMeta(msgs) == Some(meta) <==>
      exists k :: 0 <= k < |msgs| && LastMetaAt(msgs, k) && msgs[k].meta == meta
    ensures LastMeta(msgs).None? <==> forall k :: 0 <= k < |msgs| ==> !msgs[k].SetMeta?
  {
    if msgs != [] {
      var init, n := msgs[..|msgs| - 1], |msgs| - 1;
      LastMetaIs(init);
      if msgs[n].SetMeta? {
        assert LastMetaAt(msgs, n);
      } else {
        assert forall k :: 0 <= k < n ==> (LastMetaAt(msgs, k) <==> LastMetaAt(init, k)) && msgs[k] == init[k];
      }
    }
  }

  lemma {:induction false} TouchedIs(msgs: seq<WriteRequest>)
    ensures forall r :: r in Touched(msgs) <==> exists i :: 0 <= i < |msgs| && msgs[i].IsData() && msgs[i].rec == r
  {
    if msgs != [] {
      var init, n := msgs[..|msgs| - 1], |msgs| - 1;
      TouchedIs(init);
      forall r ensures r in Touched(msgs) <==> exists i :: 0 <= i < |msgs| && msgs[i].IsData() && msgs[i].rec == r {
        if r in Touched(init) {
          var i :| 0 <= i < |init| && init[i].IsData() && init[i].rec == r;
          assert msgs[i].IsData() && msgs[i].rec == r;
        }
      }
    }
  }

  function Range(n: nat): (range: set<int>)
    ensures forall i :: i in range <==> 0 <= i < n
  {
    if n == 0 then {} else Range(n - 1) + {n - 1}
  }

  /** The slice handed to the writer has no hole exactly when the records are numbered 0, 1, ..., n-1. */
  lemma NoHoleIff(msgs: seq<WriteRequest>)
    ensures (forall i :: 0 <= i < |Slots(msgs)| ==> Slots(msgs)[i].Some?)
       <==> Touched(msgs) == Range(|Touched(msgs)|)
  {
    var n := |Touched(msgs)|;
    if forall i :: 0 <= i < n ==> Slots(msgs)[i].Some? {
      forall r | r in Range(n) ensures r in Touched(msgs) {
        assert Slots(msgs)[r].Some?;
      }
      RangeSize(n);
      SubsetOfSameSize(Range(n), Touched(msgs));
    }
  }

  lemma {:induction false} RangeSize(n: nat)
    ensures |Range(n)| == n
  {
    if n > 0 {
      RangeSize(n - 1);
    }
  }

  lemma SubsetOfSameSize(a: set<int>, b: set<int>)
    requires a <= b && |a| == |b|
    ensures a == b
  {
    assert a == b - (b - a);
    assert |b - a| == 0;
  }
}
