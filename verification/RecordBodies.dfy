/** The body wrappers of the recorder proxy. A wrapper passes the bytes it reads on to its caller and,
    as the goroutine that reads it, makes calls on the RecordContext: announcing the record, sending
    header and payloads, publishing size and digest, finalizing. The history variable calls collects
    them; it is the script that goroutine plays in the terminal protocol. */
module RecordBodies {
  import opened Common
  import opened TerminalMachine

  const REQUEST_RECORD := 0
  const RESPONSE_RECORD := 1

  datatype ReadError = NoError | Eof | OtherError
  /** What reader() hands out. */
  datatype Access = Granted | AfterClose | PreviousFailure | AtEof
  datatype ReadResult = Data(error: ReadError) | Refused(access: Access) | RecordingFailed

  // ---- the calls a body makes ---------------------------------------------------------------------

  function Payloads(rec: int, chunks: seq<Bytes>): (calls: seq<Call>)
    ensures |calls| == |chunks|
  {
    if chunks == [] then []
    else Payloads(rec, chunks[..|chunks| - 1]) + [Call.Data(Payload(rec, chunks[|chunks| - 1]))]
  }

  lemma PayloadsSnoc(rec: int, chunks: seq<Bytes>, chunk: Bytes)
    ensures Payloads(rec, chunks + [chunk]) == Payloads(rec, chunks) + [Call.Data(Payload(rec, chunk))]
  {
    assert (chunks + [chunk])[..|chunks|] == chunks;
  }

  /** WrapRequestBody and WrapResponseBody: record metadata first, then the protocol header. */
  function Announce(rec: int, prolog: Bytes): seq<Call> {
    [SetMeta(rec, Summary(0, "")), Call.Data(Header(rec, prolog))]
  }

  function SummaryOf(content: Bytes, sha1: Bytes -> string): Summary { Summary(|content|, sha1(content)) }

  function StoredRequest(content: Bytes, sha1: Bytes -> string, log: Option<CrawlLog>): Request {
    Request(log, None, "", true, RESPONSE_RECORD, |content|, sha1(content))
  }

  /** What a request body asks after its announcement: a payload for each read, and its summary at EOF. */
  function RequestScript(prolog: Bytes, chunks: seq<Bytes>, eof: bool, sha1: Bytes -> string): seq<Call> {
    Payloads(REQUEST_RECORD, chunks)
    + (if eof then [SetMeta(REQUEST_RECORD, SummaryOf(prolog + Flatten(chunks), sha1))] else [])
  }

  /** Everything a stored response body asks of its RecordContext when it is read to EOF. */
  function ResponseScript(prolog: Bytes, chunks: seq<Bytes>, sha1: Bytes -> string, log: Option<CrawlLog>): seq<Call> {
    var content := prolog + Flatten(chunks);
    Announce(RESPONSE_RECORD, prolog) + Payloads(RESPONSE_RECORD, chunks)
    + [SetMeta(RESPONSE_RECORD, SummaryOf(content, sha1)), Finish(StoredRequest(content, sha1, log))]
  }

  lemma OneMoreChunk(prolog: Bytes, chunks: seq<Bytes>, data: Bytes)
    requires data != []
    ensures prolog + Flatten(chunks + [data]) == prolog + Flatten(chunks) + data
    ensures Announce(RESPONSE_RECORD, prolog) + Payloads(RESPONSE_RECORD, chunks + [data])
      == Announce(RESPONSE_RECORD, prolog) + Payloads(RESPONSE_RECORD, chunks)
        + [Call.Data(Payload(RESPONSE_RECORD, data))]
  {
    FlattenSnoc(chunks, data);
    PayloadsSnoc(RESPONSE_RECORD, chunks, data);
    assert prolog + (Flatten(chunks) + data) == prolog + Flatten(chunks) + data;
  }

  /** The last call cancels the unused stream, with a message, and completes the request with its log. */
  predicate CancelsUnstored(calls: seq<Call>, log: Option<CrawlLog>) {
    && calls != [] && calls[|calls| - 1].Finish?
    && var req := calls[|calls| - 1].req;
    && !req.sendMeta && req.cancelMessage == "OK: Loaded from cache" && req.originalErr.None? && req.crawlLog == log
  }

  /** The last two calls publish length and digest of the content and ask for it to be stored as this record. */
  predicate StoresContent(calls: seq<Call>, rec: int, content: Bytes, sha1: Bytes -> string, log: Option<CrawlLog>) {
    && |calls| >= 2 && calls[|calls| - 1].Finish?
    && calls[|calls| - 2] == SetMeta(rec, Summary(|content|, sha1(content)))
    && var req := calls[|calls| - 1].req;
    && req.sendMeta && req.recNum == rec && req.size == |content| && req.blockDigest == sha1(content)
    && req.originalErr.None? && req.crawlLog == log
  }

  /** The data sent by these calls, in order. */
  function DataOf(calls: seq<Call>): seq<Msg> {
    if calls == [] then []
    else DataOf(calls[..|calls| - 1]) + if calls[|calls| - 1].Data? then [calls[|calls| - 1].msg] else []
  }

  lemma DataSnoc(calls: seq<Call>, c: Call)
    ensures DataOf(calls + [c]) == DataOf(calls) + if c.Data? then [c.msg] else []
  {
    assert (calls + [c])[..|calls|] == calls;
  }

  /** A header and then one payload for each chunk. */
  predicate SendsAll(sent: seq<Msg>, rec: int, prolog: Bytes, chunks: seq<Bytes>) {
    && |sent| == |chunks| + 1 && sent[0] == Header(rec, prolog)
    && forall k :: 0 <= k < |chunks| ==> sent[k + 1] == Payload(rec, chunks[k])
  }

  lemma HeaderData(rec: int, prolog: Bytes)
    ensures DataOf(Announce(rec, prolog)) == [Header(rec, prolog)]
  {
    var first := SetMeta(rec, Summary(0, ""));
    DataSnoc([], first);
    DataSnoc([] + [first], Call.Data(Header(rec, prolog)));
    assert Announce(rec, prolog) == [] + [first] + [Call.Data(Header(rec, prolog))];
  }

  lemma {:induction false} AnnouncedData(rec: int, prolog: Bytes, chunks: seq<Bytes>)
    ensures SendsAll(DataOf(Announce(rec, prolog) + Payloads(rec, chunks)), rec, prolog, chunks)
  {
    if chunks == [] {
      HeaderData(rec, prolog);
      assert Announce(rec, prolog) + [] == Announce(rec, prolog);
    } else {
      var init, last := chunks[..|chunks| - 1], chunks[|chunks| - 1];
      AnnouncedData(rec, prolog, init);
      var before := Announce(rec, prolog) + Payloads(rec, init);
      assert Announce(rec, prolog) + Payloads(rec, chunks) == before + [Call.Data(Payload(rec, last))];
      DataSnoc(before, Call.Data(Payload(rec, last)));
    }
  }

  // ---- wrappedResponseBody ----------------------------------------------------------------------------

  class ResponseBody {
    const sha1: Bytes -> string
    const cached: bool
    const log: Option<CrawlLog>
    var size: nat
    var hashed: Bytes
    var eof: bool
    var closed: bool
    var finalized: bool
    var failed: bool

    ghost const prolog: Bytes
    ghost var chunks: seq<Bytes>
    ghost var calls: seq<Call>
    /** The last payload send failed. */
    ghost var broken: bool
    /** Close reported a lost client. */
    ghost var aborted: bool

    ghost function Content(): Bytes reads this { prolog + Flatten(chunks) }

    ghost predicate Valid()
      reads this
    {
      && size == |Content()|
      && hashed == (if cached then prolog else Content())
      && (finalized ==> !broken)
      && eof == (finalized || aborted)
      && (aborted ==> closed)
      && (closed && !aborted ==> eof || finalized)
      && calls == Expected()
    }

    /** Size, digest, order and completeness of what was recorded, in one equation. */
    ghost function Expected(): seq<Call>
      reads this
    {
      if cached then
        if finalized then
          [SetMeta(RESPONSE_RECORD, Summary(0, "")),
           Finish(Request(log, None, "OK: Loaded from cache", false, 0, 0, ""))]
        else [SetMeta(RESPONSE_RECORD, Summary(0, ""))]
      else if finalized then ResponseScript(prolog, chunks, sha1, log)
      else Announce(RESPONSE_RECORD, prolog) + Payloads(RESPONSE_RECORD, chunks)
    }

    /** WrapResponseBody, when the protocol header was sent; otherwise the caller gets an error and no body. */
    constructor (sha1: Bytes -> string, cached: bool, log: Option<CrawlLog>, prolog: Bytes)
      ensures Valid() && !eof && !closed && !finalized && !failed && !broken && !aborted
      ensures this.sha1 == sha1 && this.cached == cached && this.log == log && this.prolog == prolog && chunks == []
    {
      this.sha1, this.cached, this.log := sha1, cached, log;
      size, hashed := |prolog|, prolog;
      eof, closed, finalized, failed := false, false, false, false;
      this.prolog, chunks, broken, aborted := prolog, [], false, false;
      calls := if cached then [SetMeta(RESPONSE_RECORD, Summary(0, ""))] else Announce(RESPONSE_RECORD, prolog);
      new;
      assert Payloads(RESPONSE_RECORD, []) == [];
    }

    /** reader(): access is granted exactly while the record is open, EOF is repeated only for a record that was
        finalized, and the first reason to refuse is the one given. */
    method Reader() returns (access: Access)
      requires Valid()
      ensures access.Granted? <==> !closed && !failed && !finalized
      ensures access.AtEof? <==> !closed && !failed && finalized
      ensures access.PreviousFailure? <==> failed && !closed
    {
      access := if closed then AfterClose else if failed then PreviousFailure else if eof then AtEof else Granted;
    }

    /** recordPayload(): counting and hashing under the lock, then the send. */
    method RecordPayload(data: Bytes, sendOk: bool) returns (ok: bool)
      requires Valid() && !finalized && !broken && data != []
      modifies this`size, this`hashed, this`chunks, this`calls, this`broken
      ensures Valid() && chunks == old(chunks) + [data]
      ensures ok == (cached || sendOk) && broken == !ok
    {
      OneMoreChunk(prolog, chunks, data);
      size := size + |data|;
      chunks := chunks + [data];
      assert Content() == old(Content()) + data;
      if cached {
        return true;
      }
      hashed := hashed + data;
      calls := calls + [Call.Data(Payload(RESPONSE_RECORD, data))];
      ok := sendOk;
      broken := !ok;
    }

    /** finishRecord(): at most once, and never after a failed send. */
    method FinishRecord(finishOk: bool) returns (ok: bool)
      requires Valid() && !broken
      modifies this`eof, this`finalized, this`calls
      ensures Valid() && eof && finalized
      ensures ok == (old(finalized) || finishOk)
      ensures old(finalized) ==> calls == old(calls)
    {
      eof := true;
      if finalized {
        return true;
      }
      finalized := true;
      if cached {
        calls := calls + [Finish(Request(log, None, "OK: Loaded from cache", false, 0, 0, ""))];
      } else {
        calls := calls + [SetMeta(RESPONSE_RECORD, Summary(size, sha1(hashed))),
                          Finish(Request(log, None, "", true, RESPONSE_RECORD, size, sha1(hashed)))];
      }
      ok := finishOk;
    }

    /** The part of Read() after reader() granted access: data and readErr are what it returned. */
    method RecordRead(data: Bytes, readErr: ReadError, sendOk: bool, finishOk: bool) returns (result: ReadResult)
      requires Valid() && !broken && !finalized
      modifies this`size, this`hashed, this`chunks, this`calls, this`broken, this`eof, this`finalized
      ensures Valid() && (broken ==> result.RecordingFailed?)
      ensures eof == (old(eof) || finalized)
      ensures chunks == old(chunks) + (if data == [] then [] else [data])
      ensures finalized == (readErr.Eof? && (data == [] || cached || sendOk))
      ensures result.RecordingFailed? <==> (data != [] && !cached && !sendOk) || (finalized && !finishOk)
      ensures !result.RecordingFailed? ==> result == ReadResult.Data(readErr)
    {
      if data != [] {
        var sent := RecordPayload(data, sendOk);
        if !sent {
          return RecordingFailed;
        }
      }
      if readErr.Eof? {
        var finished := FinishRecord(finishOk);
        if !finished {
          return RecordingFailed;
        }
      }
      return ReadResult.Data(readErr);
    }

    /** Read(): a closed, failed or finished body records nothing; a failed send or finalization is
        remembered, and only a read that ends in EOF after successful sends finalizes. */
    method Read(data: Bytes, readErr: ReadError, sendOk: bool, finishOk: bool) returns (result: ReadResult)
      requires Valid() && (broken ==> failed)
      modifies this`size, this`hashed, this`chunks, this`calls, this`broken, this`eof, this`finalized, this`failed
      ensures Valid() && (broken ==> failed)
      ensures old(closed || failed || eof) ==>
        result.Refused? && chunks == old(chunks) && calls == old(calls) && finalized == old(finalized)
      ensures !old(closed || failed || eof) ==>
        && chunks == old(chunks) + (if data == [] then [] else [data])
        && eof == finalized == (readErr.Eof? && (data == [] || cached || sendOk))
        && (result.RecordingFailed? <==> (data != [] && !cached && !sendOk) || (finalized && !finishOk))
        && (!result.RecordingFailed? ==> result == ReadResult.Data(readErr))
        && failed == result.RecordingFailed?
    {
      var access := Reader();
      if access != Granted {
        return Refused(access);
      }
      result := RecordRead(data, readErr, sendOk, finishOk);
      if result.RecordingFailed? {
        failed := true;
      }
    }

    /** closeState(): idempotent; premature when the body was neither read to EOF nor finalized. */
    method Close() returns (premature: bool)
      requires Valid()
      modifies this`closed, this`eof, this`aborted
      ensures Valid() && closed
      ensures premature == (!old(closed) && !old(eof) && !old(finalized))
      ensures aborted == (old(aborted) || premature)
      ensures old(closed) ==> eof == old(eof)
    {
      if closed {
        return false;
      }
      closed := true;
      premature := !eof && !finalized;
      if premature {
        eof := true;
        aborted := true;
      }
    }
  }

  /** What a response body has asked for, at any time: a cached one sends nothing and ends by cancelling the unused
      stream; any other sends its header and everything read, and ends by storing exactly that as record 1. */
  lemma ResponseAsks(body: ResponseBody)
    requires body.Valid()
    ensures body.calls != [] && body.calls[0] == SetMeta(1, Summary(0, ""))
    ensures body.cached ==> DataOf(body.calls) == []
    ensures !body.cached ==> SendsAll(DataOf(body.calls), 1, body.prolog, body.chunks)
    ensures body.finalized ==>
      if body.cached then CancelsUnstored(body.calls, body.log)
      else StoresContent(body.calls, 1, body.Content(), body.sha1, body.log)
  {
    AnnouncedData(RESPONSE_RECORD, body.prolog, body.chunks);
    var data := Announce(RESPONSE_RECORD, body.prolog) + Payloads(RESPONSE_RECORD, body.chunks);
    if body.finalized {
      var n := |body.calls|;
      assert !body.cached ==> body.calls[..n - 1] == data + [body.calls[n - 2]];
      DataSnoc(body.calls[..n - 1], body.calls[n - 1]);
      assert body.calls == body.calls[..n - 1] + [body.calls[n - 1]];
      DataSnoc(if body.cached then [] else data, body.calls[n - 2]);
      assert body.cached ==> body.calls[..n - 1] == [] + [body.calls[n - 2]];
    } else if body.cached {
      DataSnoc([], body.calls[0]);
      assert body.calls == [] + [body.calls[0]];
    }
  }

  /** The reads that returned bytes. */
  function NonEmpty(input: seq<Bytes>): seq<Bytes> {
    if input == [] then []
    else
      var before, last := NonEmpty(input[..|input| - 1]), input[|input| - 1];
      if last == [] then before else before + [last]
  }

  lemma NonEmptySnoc(input: seq<Bytes>, data: Bytes)
    ensures NonEmpty(input + [data]) == if data == [] then NonEmpty(input) else NonEmpty(input) + [data]
    ensures Flatten(input + [data]) == Flatten(input) + data
  {
    assert (input + [data])[..|input|] == input;
    FlattenSnoc(input, data);
  }

  lemma NonEmptyNext(input: seq<Bytes>, i: nat)
    requires i < |input|
    ensures NonEmpty(input[..i + 1]) == NonEmpty(input[..i]) + if input[i] == [] then [] else [input[i]]
  {
    assert input[..i + 1] == input[..i] + [input[i]];
    NonEmptySnoc(input[..i], input[i]);
  }

  /** Empty reads leave no trace in the content. */
  lemma {:induction false} FlattenNonEmpty(input: seq<Bytes>)
    ensures Flatten(NonEmpty(input)) == Flatten(input)
  {
    if input != [] {
      var before, last := input[..|input| - 1], input[|input| - 1];
      assert input == before + [last];
      FlattenNonEmpty(before);
      NonEmptySnoc(before, last);
      FlattenSnoc(NonEmpty(before), last);
    }
  }

  /** A stored body from which everything read so far was recorded, and more can be. */
  ghost predicate Recording(body: ResponseBody)
    reads body
  {
    && body.Valid() && !body.eof && !body.closed && !body.failed && !body.finalized && !body.broken && !body.cached
  }

  /** Reads that return the input, chunk by chunk, without EOF. */
  method ReadAll(body: ResponseBody, input: seq<Bytes>)
    requires Recording(body) && body.chunks == []
    modifies body
    ensures Recording(body) && body.chunks == NonEmpty(input)
  {
    for i := 0 to |input|
      invariant Recording(body) && body.chunks == NonEmpty(input[..i])
    {
      NonEmptyNext(input, i);
      var partial := body.Read(input[i], NoError, true, true);
    }
    assert input[..|input|] == input;
  }

  /** Reading a whole body: the inner reader delivers the input and then EOF, every send succeeds.
      The wrapper then has asked for exactly the response script of those bytes. */
  method ReadToEnd(body: ResponseBody, input: seq<Bytes>) returns (result: ReadResult)
    requires Recording(body) && body.chunks == []
    modifies body
    ensures body.chunks == NonEmpty(input) && Flatten(body.chunks) == Flatten(input)
    ensures body.Valid() && body.finalized && result == ReadResult.Data(Eof)
    ensures body.calls == ResponseScript(body.prolog, NonEmpty(input), body.sha1, body.log)
    ensures body.size == |body.prolog + Flatten(input)|
  {
    ReadAll(body, input);
    FlattenNonEmpty(input);
    result := body.Read([], Eof, true, true);
  }

  lemma OneMoreRequestChunk(prolog: Bytes, chunks: seq<Bytes>, data: Bytes, sha1: Bytes -> string)
    ensures prolog + Flatten(chunks + [data]) == prolog + Flatten(chunks) + data
    ensures Announce(REQUEST_RECORD, prolog) + RequestScript(prolog, chunks + [data], false, sha1) ==
      Announce(REQUEST_RECORD, prolog) + RequestScript(prolog, chunks, false, sha1)
      + [Call.Data(Payload(REQUEST_RECORD, data))]
  {
    FlattenSnoc(chunks, data);
    PayloadsSnoc(REQUEST_RECORD, chunks, data);
    assert prolog + (Flatten(chunks) + data) == prolog + Flatten(chunks) + data;
  }

  lemma RequestAtEof(prolog: Bytes, chunks: seq<Bytes>, sha1: Bytes -> string)
    ensures Announce(REQUEST_RECORD, prolog) + RequestScript(prolog, chunks, true, sha1) ==
      Announce(REQUEST_RECORD, prolog) + RequestScript(prolog, chunks, false, sha1)
      + [SetMeta(REQUEST_RECORD, SummaryOf(prolog + Flatten(chunks), sha1))]
  {
  }

  // ---- wrappedRequestBody ------------------------------------------------------------------------------

  class RequestBody {
    const sha1: Bytes -> string
    var size: nat
    var hashed: Bytes
    var eof: bool
    var closed: bool
    var failed: bool

    ghost const prolog: Bytes
    ghost var chunks: seq<Bytes>
    ghost var calls: seq<Call>
    ghost var broken: bool

    ghost predicate Valid()
      reads this
    {
      && hashed == prolog + Flatten(chunks) && size == |hashed|
      && (eof ==> !broken)
      && calls == Announce(REQUEST_RECORD, prolog) + RequestScript(prolog, chunks, eof, sha1)
    }

    constructor (sha1: Bytes -> string, prolog: Bytes)
      ensures Valid() && !eof && !closed && !failed && !broken && chunks == [] && this.sha1 == sha1
        && this.prolog == prolog
    {
      this.sha1 := sha1;
      size, hashed, eof, closed, failed := |prolog|, prolog, false, false, false;
      this.prolog, chunks, broken := prolog, [], false;
      calls := Announce(REQUEST_RECORD, prolog);
      new;
      assert RequestScript(prolog, [], false, sha1) == [];
    }

    method RecordPayload(data: Bytes, sendOk: bool)
      requires Valid() && !eof && !broken
      modifies this`size, this`hashed, this`chunks, this`calls, this`broken
      ensures Valid() && chunks == old(chunks) + [data] && broken == !sendOk
    {
      OneMoreRequestChunk(prolog, chunks, data, sha1);
      size, hashed, chunks := size + |data|, hashed + data, chunks + [data];
      calls := calls + [Call.Data(Payload(REQUEST_RECORD, data))];
      broken := !sendOk;
    }

    /** Read(): the request record's size and digest are published once, at EOF, and cover every byte. */
    method Read(data: Bytes, readErr: ReadError, sendOk: bool) returns (result: ReadResult)
      requires Valid() && (broken ==> failed)
      modifies this`size, this`hashed, this`chunks, this`calls, this`broken, this`eof, this`failed
      ensures Valid() && (broken ==> failed)
      ensures old(closed || failed || eof) ==>
        result.Refused? && calls == old(calls) && chunks == old(chunks) && eof == old(eof)
      ensures !old(closed || failed || eof) ==>
        && chunks == old(chunks) + (if data == [] then [] else [data])
        && failed == result.RecordingFailed? && (result.RecordingFailed? <==> data != [] && !sendOk)
        && eof == (readErr.Eof? && !failed)
        && (!failed ==> result == ReadResult.Data(readErr))
    {
      if closed || failed || eof {
        return Refused(if closed then AfterClose else if failed then PreviousFailure else AtEof);
      }
      if data != [] {
        RecordPayload(data, sendOk);
        if !sendOk {
          failed := true;
          return RecordingFailed;
        }
      }
      if readErr.Eof? {
        RequestAtEof(prolog, chunks, sha1);
        eof := true;
        calls := calls + [SetMeta(REQUEST_RECORD, Summary(size, sha1(hashed)))];
      }
      return ReadResult.Data(readErr);
    }

    /** closeState(): the inner reader is handed out to be closed by the first call only. */
    method Close() returns (closesInner: bool)
      requires Valid()
      modifies this`closed
      ensures Valid() && closed && closesInner == !old(closed)
    {
      closesInner := !closed;
      closed := true;
    }
  }

  /** What a request body has asked for, at any time: its header and everything read sent as record 0, and at EOF the
      length and digest of exactly that published. */
  lemma RequestAsks(body: RequestBody)
    requires body.Valid()
    ensures body.calls != [] && body.calls[0] == SetMeta(0, Summary(0, ""))
    ensures SendsAll(DataOf(body.calls), 0, body.prolog, body.chunks)
    ensures var content := body.prolog + Flatten(body.chunks);
      body.eof ==> body.calls[|body.calls| - 1] == SetMeta(0, Summary(|content|, body.sha1(content)))
    ensures !body.eof ==> forall k :: 0 < k < |body.calls| ==> body.calls[k].Data?
  {
    AnnouncedData(REQUEST_RECORD, body.prolog, body.chunks);
    var data := Announce(REQUEST_RECORD, body.prolog) + Payloads(REQUEST_RECORD, body.chunks);
    PayloadsAreData(REQUEST_RECORD, body.chunks);
    if body.eof {
      assert body.calls == data + [body.calls[|body.calls| - 1]];
      DataSnoc(data, body.calls[|body.calls| - 1]);
    } else {
      assert body.calls == data;
    }
  }

  lemma {:induction false} PayloadsAreData(rec: int, chunks: seq<Bytes>)
    ensures forall k :: 0 <= k < |chunks| ==> Payloads(rec, chunks)[k] == Call.Data(Payload(rec, chunks[k]))
  {
    if chunks != [] {
      PayloadsAreData(rec, chunks[..|chunks| - 1]);
    }
  }
}
