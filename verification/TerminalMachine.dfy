/** The recorder proxy's RecordContext as a step machine: any number of goroutines share
    one lazily opened ContentWriter stream and one BrowserController completion.
    One step is one critical section or one RPC. */
module TerminalMachine {
  import opened Common

  // ---- values carried by the protocol -------------------------------------------------

  datatype Error = Error(code: int, message: string)

  const RUNTIME_EXCEPTION := -5
  const CANCELED_BY_BROWSER := -5011

  const ALREADY_COMPLETED := Error(RUNTIME_EXCEPTION, "already completed")
  const CONNECT_ERROR := Error(RUNTIME_EXCEPTION, "Error connecting to ContentWriter")
  const SEND_ERROR := Error(RUNTIME_EXCEPTION, "error from the ContentWriter stream")
  const WRITE_ERROR := Error(RUNTIME_EXCEPTION, "Error writing to content writer")
  const CANCEL_ERROR := Error(RUNTIME_EXCEPTION, "Error canceling content writer")
  const COMPLETE_ERROR := Error(RUNTIME_EXCEPTION, "error sending crawl log to browser controller")

  /** Size and block digest of one record, as the recorder announces them in its meta message. */
  datatype Summary = Summary(size: nat, blockDigest: string)

  /** What the content writer reports for one stored record. */
  datatype RecordMeta = RecordMeta(
    warcId: string, collectionFinalName: string, storageRef: string,
    refersTo: string, recordType: string, payloadDigest: string)

  datatype Reply = Reply(meta: Option<map<int, RecordMeta>>)

  datatype CrawlLog = CrawlLog(
    statusCode: int, contentType: string, recordType: string, error: Option<Error>,
    warcId: string, collectionFinalName: string, storageRef: string, refersTo: string,
    size: int, blockDigest: string, payloadDigest: string)

  const EMPTY_LOG := CrawlLog(0, "", "", None, "", "", "", "", 0, "", "")

  datatype Msg =
    | Header(rec: int, data: Bytes)
    | Payload(rec: int, data: Bytes)
    | Meta(summaries: map<int, Summary>)
    | Cancel(text: string)
  {
    predicate IsData() { Header? || Payload? }
  }

  /** One attempted operation on the stream: a Send, or the CloseAndRecv that ends it. */
  datatype Wire = Sent(tid: nat, msg: Msg, ok: bool) | Closed(reply: Option<Reply>) {
    predicate IsData() { Sent? && msg.IsData() }
    predicate IsEnd() { Sent? && !msg.IsData() }
  }

  /** How far the stream has come: only data; the terminal message attempted; CloseAndRecv returned.
      Broken is any other order of attempts. */
  datatype Phase =
    | Flowing
    | Ended(tid: nat, msg: Msg, ok: bool)
    | Received(tid: nat, msg: Msg, ok: bool, reply: Option<Reply>)
    | Broken
  {
    function Advance(w: Wire): Phase {
      if Flowing? && w.IsData() then Flowing
      else if Flowing? && w.IsEnd() then Ended(w.tid, w.msg, w.ok)
      else if Ended? && w.Closed? then Received(tid, msg, ok, w.reply)
      else Broken
    }
  }

  /** The argument of coordinateTerminal. */
  datatype Request = Request(
    crawlLog: Option<CrawlLog>, originalErr: Option<Error>, cancelMessage: string,
    sendMeta: bool, recNum: int, size: nat, blockDigest: string)
  {
    /** Whether this request reaches terminateContentWriter at all. */
    predicate Terminates() { sendMeta || cancelMessage != "" }

    function Message(summaries: map<int, Summary>): Msg {
      if sendMeta then Meta(summaries) else Cancel(cancelMessage)
    }
  }

  // ---- goroutines ---------------------------------------------------------------------

  datatype Call =
    | Data(msg: Msg)                          // SendProtocolHeader, SendPayload
    | SetMeta(rec: int, summary: Summary)     // a body publishes its size and digest in rc.Meta
    | Finish(req: Request)                    // coordinateTerminal
    | Watch(req: Request)                     // the goroutine started by Init

  /** What terminateContentWriter returned; Skipped when it was not called. */
  datatype Terminated = Skipped | Terminated(reply: Option<Reply>, err: Option<Error>)

  /** Where a goroutine stands inside its current call. */
  datatype Pc =
    | Ready
    | Stopped(attempted: bool, err: Error)
    | Acquire | AwaitReady(ch: nat) | Open | Publish(ok: bool)
    | CheckCanceled
    | LockSend | CheckDone | SkipSend | BeginSend | Send | EndSend(ok: bool) | UnlockSend(ok: bool)
    | Watching | AwaitTerminal
    | PeekSession | AwaitPeek(ch: nat) | MarkDone
    | LockClose(sendOk: bool) | CloseRecv(sendOk: bool)
    | UnlockClose(sendOk: bool, reply: Option<Reply>) | LoadTimeout(sendOk: bool, reply: Option<Reply>)
    | StopTimer(res: Terminated)
    | Complete(res: Terminated) | Record(terr: Option<Error>) | CloseSession | CloseDone

  datatype Outcome = Returned(err: Option<Error>)

  /** A goroutine makes the calls of its script in order and stops at the first failing send.
      A gated goroutine may not begin before another one has finished some of its calls.
      The history variable sent collects its data attempts. */
  datatype Gate = Gate(tid: nat, pos: nat)
  datatype Thread = Thread(script: seq<Call>, gate: Option<Gate>, outcomes: seq<Outcome>, pc: Pc, sent: seq<Wire>) {
    function Pos(): nat { |outcomes| }
    predicate HasCall() { Pos() < |script| }
    function Current(): Call requires HasCall() { script[Pos()] }
    predicate Begun() { outcomes != [] || pc != Ready }
    predicate Settled() { pc.Stopped? || (pc.Ready? && !HasCall()) }
    function Return(o: Outcome): Thread { this.(outcomes := outcomes + [o], pc := Ready) }
  }

  // ---- shared state -------------------------------------------------------------------

  /** CwcSession; trace is the history of its attempts and phase how far they have come. */
  datatype Session = Session(
    done: bool, canceled: bool, sendMu: Option<nat>, inFlight: int, ctxCancelled: bool,
    trace: seq<Wire>, phase: Phase)
  {
    function Attempt(w: Wire): Session { this.(trace := trace + [w], phase := phase.Advance(w)) }
  }

  const NEW_SESSION := Session(false, false, None, 0, false, [], Flowing)

  datatype Timer = Off | Armed | Fired | Disarmed

  /** Fields of RecordContext no call changes. */
  datatype Env = Env(proxyId: int, requestId: string, crawlLog: Option<CrawlLog>)

  datatype Win = Win(tid: nat, pos: nat, req: Request)

  /** RecordContext, followed by the history the theorems speak of. */
  datatype Shared = Shared(
    env: Env,
    done: bool, terminalDone: bool, terminalErr: Option<Error>, closed: bool, lifecycleCancelled: bool,
    cwc: Option<Session>, cwcErr: Option<Error>, cwcCreating: bool, cwcReady: nat, readyClosed: set<nat>,
    meta: map<int, Summary>,
    timer: Timer,
    winner: Option<Win>, creator: Option<nat>, streams: nat, loaded: Option<bool>,
    commits: seq<CrawlLog>, closeCalls: nat)

  datatype State = State(shared: Shared, threads: seq<Thread>)

  /** How the environment answers: did the RPC succeed, with which reply, did the client go away. */
  datatype Choice = Choice(ok: bool, reply: Reply, gone: bool)

  datatype Event = Act(tid: nat, choice: Choice) | TimerFires

  // ---- pure decisions of coordinateTerminal ---------------------------------------------

  function ApplyReply(cl: CrawlLog, reply: Option<Reply>, req: Request): Option<CrawlLog> {
    if reply.None? || reply.value.meta.None? then None
    else if req.recNum !in reply.value.meta.value then None
    else
      var m := reply.value.meta.value[req.recNum];
      Some(cl.(collectionFinalName := m.collectionFinalName, warcId := m.warcId, storageRef := m.storageRef,
               refersTo := m.refersTo, size := req.size, recordType := m.recordType,
               blockDigest := req.blockDigest, payloadDigest := m.payloadDigest))
  }

  function BaseLog(env: Env, req: Request): CrawlLog {
    if req.crawlLog.Some? then req.crawlLog.value
    else if env.crawlLog.Some? then env.crawlLog.value
    else EMPTY_LOG
  }

  /** The crawl log and terminalErr after the writer has been terminated, before completion. */
  function Judge(env: Env, req: Request, res: Terminated): (CrawlLog, Option<Error>) {
    var base := BaseLog(env, req);
    if req.sendMeta then
      var applied := if res.Terminated? && res.err.None? then ApplyReply(base, res.reply, req) else None;
      if applied.Some? then (applied.value, None) else (base, Some(WRITE_ERROR))
    else if req.cancelMessage != "" && res.Terminated? && res.err.Some? && req.originalErr.None? then
      (base, Some(CANCEL_ERROR))
    else (base, None)
  }

  function CommitLog(env: Env, req: Request, res: Terminated): CrawlLog {
    var (cl, terr) := Judge(env, req, res);
    var authoritative := if req.originalErr.Some? then req.originalErr else terr;
    if authoritative.Some? then
      cl.(statusCode := authoritative.value.code, recordType := "response", contentType := "", error := authoritative)
    else cl
  }

  predicate SkipsComplete(env: Env, cl: CrawlLog) {
    env.proxyId != 0 && env.requestId == "" && cl.statusCode == CANCELED_BY_BROWSER
  }

  // ---- steps -----------------------------------------------------------------------------

  predicate IsTerminal(c: Call) { c.Finish? || c.Watch? }

  /** getCwcSessionForTerminal returned a session. */
  function GotSession(t: Thread): Thread requires t.HasCall() {
    t.(pc := if t.Current().Data? then CheckCanceled else MarkDone)
  }

  /** getCwcSessionForTerminal returned an error. */
  function NoSession(t: Thread, err: Error): Thread requires t.HasCall() {
    t.(pc := if t.Current().Data? then Stopped(false, err) else Complete(Terminated(None, Some(err))))
  }

  function Claim(sh: Shared, i: nat, t: Thread): (Shared, Thread)
    requires t.HasCall() && IsTerminal(t.Current())
  {
    var req := t.Current().req;
    if sh.done then (sh, t.(pc := AwaitTerminal))
    else
      (sh.(done := true, winner := Some(Win(i, t.Pos(), req))),
       t.(pc := if req.sendMeta then Acquire else if req.cancelMessage != "" then PeekSession else Complete(Skipped)))
  }

  function AcquireSection(sh: Shared, i: nat, t: Thread): (Shared, Thread)
    requires t.HasCall()
  {
    if sh.cwc.Some? then (sh, GotSession(t))
    else if sh.cwcErr.Some? then (sh, NoSession(t, sh.cwcErr.value))
    else if sh.cwcCreating then (sh, t.(pc := AwaitReady(sh.cwcReady)))
    else if sh.done && t.Current().Data? then
      (sh, t.(pc := Stopped(false, if sh.terminalErr.Some? then sh.terminalErr.value else ALREADY_COMPLETED)))
    else (sh.(cwcCreating := true, cwcReady := sh.cwcReady + 1, creator := Some(i)), t.(pc := Open))
  }

  function PublishSection(sh: Shared, t: Thread, ok: bool): (Shared, Thread)
    requires t.HasCall()
  {
    (sh.(cwc := if ok then Some(NEW_SESSION) else None, cwcErr := if ok then None else Some(CONNECT_ERROR),
         cwcCreating := false, readyClosed := sh.readyClosed + {sh.cwcReady}, creator := None),
     if ok then GotSession(t) else NoSession(t, CONNECT_ERROR))
  }

  function PeekSection(sh: Shared, t: Thread): Thread {
    if sh.cwcCreating then t.(pc := AwaitPeek(sh.cwcReady))
    else if sh.cwc.None? then t.(pc := Complete(Terminated(None, sh.cwcErr)))
    else t.(pc := MarkDone)
  }

  function MarkDoneSection(sh: Shared, t: Thread): (Shared, Thread)
    requires t.HasCall() && IsTerminal(t.Current()) && sh.cwc.Some?
  {
    var ses := sh.cwc.value;
    if ses.done then (sh, t.(pc := Complete(Terminated(None, None))))
    else (sh.(cwc := Some(ses.(done := true, canceled := !t.Current().req.sendMeta)), timer := Armed),
          t.(pc := LockSend))
  }

  function CompleteStep(sh: Shared, t: Thread, res: Terminated, ok: bool): (Shared, Thread)
    requires t.HasCall() && IsTerminal(t.Current())
  {
    var req := t.Current().req;
    var cl := CommitLog(sh.env, req, res);
    var terr := Judge(sh.env, req, res).1;
    if SkipsComplete(sh.env, cl) then (sh, t.(pc := Record(terr)))
    else (sh.(commits := sh.commits + [cl]),
          t.(pc := Record(if !ok && terr.None? then Some(COMPLETE_ERROR) else terr)))
  }

  /** The result handed to the caller by the winner. */
  function WinnerOutcome(req: Request, terr: Option<Error>): Outcome {
    Returned(if req.originalErr.Some? then req.originalErr else terr)
  }

  /** The message the current call puts on the wire. */
  function OutMsg(sh: Shared, c: Call): Msg
    requires c.Data? || IsTerminal(c)
  {
    if c.Data? then c.msg else c.req.Message(sh.meta)
  }

  /** The pc belongs to the kind of the current call. */
  predicate Fits(t: Thread) {
    && t.Pos() <= |t.script|
    && (match t.pc
        case Ready => true
        case Stopped(_, _) => t.HasCall() && t.Current().Data?
        case CheckCanceled | CheckDone | SkipSend => t.HasCall() && t.Current().Data?
        case Watching => t.HasCall() && t.Current().Watch?
        case AwaitTerminal => t.HasCall() && IsTerminal(t.Current())
        case Acquire | AwaitReady(_) | Open | Publish(_) =>
          t.HasCall() && (t.Current().Data? || (IsTerminal(t.Current()) && t.Current().req.sendMeta))
        case LockSend | BeginSend | Send | EndSend(_) | UnlockSend(_) =>
          t.HasCall() && (t.Current().Data? || (IsTerminal(t.Current()) && t.Current().req.Terminates()))
        case PeekSession | AwaitPeek(_) =>
          t.HasCall() && IsTerminal(t.Current()) && !t.Current().req.sendMeta && t.Current().req.Terminates()
        case Complete(_) | Record(_) | CloseSession | CloseDone => t.HasCall() && IsTerminal(t.Current())
        case _ => t.HasCall() && IsTerminal(t.Current()) && t.Current().req.Terminates())
  }

  /** Steps that dereference the session happen only when there is one. */
  predicate UsesSession(pc: Pc) {
    match pc
    case CheckCanceled | LockSend | CheckDone | SkipSend | BeginSend | Send | EndSend(_) | UnlockSend(_) => true
    case MarkDone | LockClose(_) | CloseRecv(_) | UnlockClose(_, _) | LoadTimeout(_, _) | StopTimer(_) => true
    case _ => false
  }

  predicate CanAct(sh: Shared, t: Thread, c: Choice) {
    && Fits(t)
    && (UsesSession(t.pc) ==> sh.cwc.Some?)
    && (match t.pc
        case Ready => t.HasCall()
        case Stopped(_, _) => false
        case AwaitReady(ch) => ch in sh.readyClosed
        case AwaitPeek(ch) => ch in sh.readyClosed
        case LockSend => sh.cwc.value.sendMu.None?
        case LockClose(_) => sh.cwc.value.sendMu.None?
        case Watching => c.gone || sh.lifecycleCancelled
        case AwaitTerminal => sh.terminalDone
        case _ => true)
  }

  function Start(sh: Shared, i: nat, t: Thread): (Shared, Thread)
    requires t.HasCall()
  {
    match t.Current()
    case SetMeta(rec, summary) => (sh.(meta := sh.meta[rec := summary]), t.Return(Returned(None)))
    case Data(_) => (sh, t.(pc := Acquire))
    case Watch(_) => (sh, t.(pc := Watching))
    case Finish(_) => Claim(sh, i, t)
  }

  /** The send path: sendWriteRequest and the check that precedes it. */
  function SendPath(sh: Shared, i: nat, t: Thread, c: Choice): (Shared, Thread)
    requires Fits(t) && sh.cwc.Some? && t.HasCall()
    requires t.pc.CheckCanceled? || t.pc.LockSend? || t.pc.CheckDone? || t.pc.SkipSend? || t.pc.BeginSend?
          || t.pc.Send? || t.pc.EndSend? || t.pc.UnlockSend?
  {
    var ses := sh.cwc.value;
    match t.pc
    case CheckCanceled => (sh, if ses.canceled || ses.done then t.Return(Returned(None)) else t.(pc := LockSend))
    case LockSend =>
      (sh.(cwc := Some(ses.(sendMu := Some(i)))), t.(pc := if t.Current().Data? then CheckDone else BeginSend))
    case CheckDone => (sh, t.(pc := if ses.done then SkipSend else BeginSend))
    case SkipSend => (sh.(cwc := Some(ses.(sendMu := None))), t.Return(Returned(None)))
    case BeginSend => (sh.(cwc := Some(ses.(inFlight := ses.inFlight + 1))), t.(pc := Send))
    case Send =>
      var w := Sent(i, OutMsg(sh, t.Current()), c.ok);
      (sh.(cwc := Some(ses.Attempt(w))), t.(pc := EndSend(c.ok), sent := if w.IsData() then t.sent + [w] else t.sent))
    case EndSend(ok) => (sh.(cwc := Some(ses.(inFlight := ses.inFlight - 1))), t.(pc := UnlockSend(ok)))
    case UnlockSend(ok) =>
      (sh.(cwc := Some(ses.(sendMu := None))),
       if !t.Current().Data? then t.(pc := LockClose(ok))
       else if ok then t.Return(Returned(None)) else t.(pc := Stopped(true, SEND_ERROR)))
  }

  /** CloseAndRecv, the timeout check and the deferred context cancellation. */
  function ClosePath(sh: Shared, i: nat, t: Thread, c: Choice): (Shared, Thread)
    requires sh.cwc.Some?
    requires t.pc.LockClose? || t.pc.CloseRecv? || t.pc.UnlockClose? || t.pc.LoadTimeout? || t.pc.StopTimer?
  {
    var ses := sh.cwc.value;
    match t.pc
    case LockClose(sendOk) => (sh.(cwc := Some(ses.(sendMu := Some(i)))), t.(pc := CloseRecv(sendOk)))
    case CloseRecv(sendOk) =>
      var reply := if c.ok then Some(c.reply) else None;
      (sh.(cwc := Some(ses.Attempt(Closed(reply)))), t.(pc := UnlockClose(sendOk, reply)))
    case UnlockClose(sendOk, reply) => (sh.(cwc := Some(ses.(sendMu := None))), t.(pc := LoadTimeout(sendOk, reply)))
    case LoadTimeout(sendOk, reply) =>
      var timedOut := sh.timer.Fired?;
      (sh.(loaded := Some(timedOut)),
       t.(pc := StopTimer(Terminated(reply, if timedOut || !sendOk || reply.None? then Some(SEND_ERROR) else None))))
    case StopTimer(res) =>
      (sh.(timer := if sh.timer.Armed? then Disarmed else sh.timer, cwc := Some(ses.(ctxCancelled := true))),
       t.(pc := Complete(res)))
  }

  /** The last part of coordinateTerminal, including its deferred function. */
  function FinishPath(sh: Shared, t: Thread, c: Choice): (Shared, Thread)
    requires t.HasCall() && IsTerminal(t.Current())
    requires t.pc.Complete? || t.pc.Record? || t.pc.CloseSession? || t.pc.CloseDone?
  {
    match t.pc
    case Complete(res) => CompleteStep(sh, t, res, c.ok)
    case Record(terr) => (sh.(terminalErr := terr), t.(pc := CloseSession))
    case CloseSession =>
      (if sh.closed then sh else sh.(closed := true, closeCalls := sh.closeCalls + 1, lifecycleCancelled := true),
       t.(pc := CloseDone))
    case CloseDone => (sh.(terminalDone := true), t.Return(WinnerOutcome(t.Current().req, sh.terminalErr)))
  }

  function Do(sh: Shared, i: nat, t: Thread, c: Choice): (Shared, Thread)
    requires CanAct(sh, t, c)
  {
    match t.pc
    case Ready => Start(sh, i, t)
    case Watching => if c.gone then Claim(sh, i, t) else (sh, t.Return(Returned(None)))
    case AwaitTerminal => (sh, t.Return(Returned(Some(ALREADY_COMPLETED))))
    case Acquire => AcquireSection(sh, i, t)
    case AwaitReady(_) => (sh, t.(pc := Acquire))
    case Open => (if c.ok then sh.(streams := sh.streams + 1) else sh, t.(pc := Publish(c.ok)))
    case Publish(ok) => PublishSection(sh, t, ok)
    case PeekSession => (sh, PeekSection(sh, t))
    case AwaitPeek(_) => (sh, t.(pc := PeekSession))
    case MarkDone => MarkDoneSection(sh, t)
    case CheckCanceled | LockSend | CheckDone | SkipSend | BeginSend | Send | EndSend(_) | UnlockSend(_) =>
      SendPath(sh, i, t, c)
    case LockClose(_) | CloseRecv(_) | UnlockClose(_, _) | LoadTimeout(_, _) | StopTimer(_) => ClosePath(sh, i, t, c)
    case Complete(_) | Record(_) | CloseSession | CloseDone => FinishPath(sh, t, c)
  }

  /** The timer callback of terminateContentWriter. */
  function Fire(sh: Shared): Shared {
    sh.(timer := Fired, cwc := if sh.cwc.Some? then Some(sh.cwc.value.(ctxCancelled := true)) else None)
  }

  predicate GateOpen(s: State, t: Thread) {
    t.Begun() || t.gate.None?
      || (t.gate.value.tid < |s.threads| && t.gate.value.pos <= s.threads[t.gate.value.tid].Pos())
  }

  predicate Enabled(s: State, e: Event) {
    match e
    case TimerFires => s.shared.timer.Armed?
    case Act(i, c) => i < |s.threads| && GateOpen(s, s.threads[i]) && CanAct(s.shared, s.threads[i], c)
  }

  function Step(s: State, e: Event): State {
    if !Enabled(s, e) then s
    else match e
      case TimerFires => s.(shared := Fire(s.shared))
      case Act(i, c) =>
        var (sh, t) := Do(s.shared, i, s.threads[i], c);
        State(sh, s.threads[i := t])
  }

  function Run(s: State, events: seq<Event>): State
    decreases |events|
  {
    if events == [] then s else Run(Step(s, events[0]), events[1..])
  }

  /** A fresh RecordContext; only applyContentWriterReply ever puts a WARC id in a crawl log. */
  predicate Initial(s: State) {
    && s.shared == Shared(s.shared.env, false, false, None, false, false, None, None, false, 0, {}, s.shared.meta,
                          Off, None, None, 0, None, [], 0)
    && (s.shared.env.crawlLog.Some? ==> s.shared.env.crawlLog.value.warcId == "")
    && forall i :: 0 <= i < |s.threads| ==> InitialThread(s.threads[i])
  }

  predicate InitialThread(t: Thread) {
    t.outcomes == [] && t.pc == Ready && t.sent == [] && forall k :: 0 <= k < |t.script| ==> PlausibleCall(t.script[k])
  }

  predicate PlausibleCall(c: Call) {
    match c
    case Data(msg) => msg.IsData()
    case SetMeta(_, _) => true
    case Finish(req) => req.crawlLog.Some? ==> req.crawlLog.value.warcId == ""
    case Watch(req) => req.crawlLog.Some? ==> req.crawlLog.value.warcId == ""
  }
}
