/** What every step of the terminal protocol keeps. The proof is by ownership: each goroutine
    states what it knows (ThreadInv), every step of another goroutine respects it (Rely). */
module TerminalInvariant {
  import opened Common
  import opened TerminalMachine

  // ---- views of the shared state ---------------------------------------------------------

  function Trace(sh: Shared): seq<Wire> { if sh.cwc.Some? then sh.cwc.value.trace else [] }
  function PhaseOf(sh: Shared): Phase { if sh.cwc.Some? then sh.cwc.value.phase else Flowing }
  function SendOwner(sh: Shared): Option<nat> { if sh.cwc.Some? then sh.cwc.value.sendMu else None }
  function InFlight(sh: Shared): int { if sh.cwc.Some? then sh.cwc.value.inFlight else 0 }
  predicate StreamDone(sh: Shared) { sh.cwc.Some? && sh.cwc.value.done }
  predicate CtxCancelled(sh: Shared) { sh.cwc.Some? && sh.cwc.value.ctxCancelled }
  predicate Published(sh: Shared) { sh.cwc.Some? || sh.cwcErr.Some? }

  /** timedOut.Load() read false. */
  predicate InTime(sh: Shared) { sh.loaded.Some? && !sh.loaded.value }

  /** Goroutine j won the election and has not yet closed terminalDone. */
  predicate Leads(sh: Shared, j: nat) { sh.winner.Some? && sh.winner.value.tid == j && !sh.terminalDone }

  /** The record metadata a finished stream yields for req: its meta message was sent, the close
      returned metadata for the record, and the timeout had not fired when it was read. */
  function StoredMeta(sh: Shared, req: Request): Option<RecordMeta> {
    var p := PhaseOf(sh);
    if req.sendMeta && p.Received? && p.ok && InTime(sh)
      && p.reply.Some? && p.reply.value.meta.Some? && req.recNum in p.reply.value.meta.value
    then Some(p.reply.value.meta.value[req.recNum])
    else None
  }

  // ---- pc classes -------------------------------------------------------------------------

  predicate HoldsSendMu(pc: Pc) {
    pc.CheckDone? || pc.SkipSend? || pc.BeginSend? || pc.Send? || pc.EndSend? || pc.UnlockSend? || pc.CloseRecv?
      || pc.UnlockClose?
  }
  predicate Sending(pc: Pc) { pc.Send? || pc.EndSend? }
  predicate Creating(pc: Pc) { pc.Open? || pc.Publish? }
  predicate Winning(t: Thread) {
    && !(t.pc.Ready? || t.pc.Stopped? || t.pc.Watching? || t.pc.AwaitTerminal?)
    && t.HasCall() && IsTerminal(t.Current())
  }

  // ---- the invariants ---------------------------------------------------------------------

  /** What terminateContentWriter returned to the winner, read off the shared state. */
  function Result(sh: Shared, req: Request): Terminated {
    var p := PhaseOf(sh);
    if !req.Terminates() then Skipped
    else if sh.cwc.None? then Terminated(None, sh.cwcErr)
    else if p.Received? then
      Terminated(p.reply, if !InTime(sh) || !p.ok || p.reply.None? then Some(SEND_ERROR) else None)
    else Skipped
  }

  /** The winner has nothing left to do on the stream, and nobody can open one. */
  predicate Cleared(sh: Shared) {
    sh.winner.Some? && (sh.winner.value.req.Terminates() ==>
      && !sh.cwcCreating
      && (sh.cwc.None? && sh.winner.value.req.sendMeta ==> sh.cwcErr.Some?)
      && (sh.cwc.Some? ==> PhaseOf(sh).Received? && CtxCancelled(sh) && sh.loaded.Some?))
  }

  predicate CreationInv(sh: Shared) {
    && sh.cwcReady <= 1 && sh.streams <= 1
    && !(sh.cwc.Some? && sh.cwcErr.Some?)
    && (sh.cwcReady == 0 ==> !sh.cwcCreating && !Published(sh) && sh.readyClosed == {})
    && (sh.cwcReady == 1 ==> sh.cwcCreating != Published(sh) && sh.readyClosed == if Published(sh) then {1} else {})
    && (sh.creator.Some? <==> sh.cwcCreating)
    && (!sh.cwcCreating ==> sh.streams == if sh.cwc.Some? then 1 else 0)
  }

  predicate ElectionInv(sh: Shared) {
    && (sh.done <==> sh.winner.Some?)
    && (sh.closed ==> sh.done)
    && (sh.env.crawlLog.Some? ==> sh.env.crawlLog.value.warcId == "")
    && (sh.terminalDone ==> sh.closed && Cleared(sh) && CommitDecided(sh, sh.winner.value.req))
    && (sh.lifecycleCancelled <==> sh.closed)
    && (sh.winner.None? ==> sh.terminalErr.None?)
    && (sh.terminalDone ==> !sh.timer.Armed?)
    && sh.closeCalls == (if sh.closed then 1 else 0)
    && (sh.commits != [] ==>
          Cleared(sh) && sh.commits == [CommitLog(sh.env, sh.winner.value.req, Result(sh, sh.winner.value.req))])
  }

  predicate StreamInv(sh: Shared) {
    var p := PhaseOf(sh);
    && !p.Broken?
    && (!p.Flowing? ==> StreamDone(sh) && EndOf(sh, p.tid, p.msg))
    && (StreamDone(sh) ==> sh.winner.Some? && sh.winner.value.req.Terminates())
    && (sh.cwc.Some? && sh.cwc.value.canceled ==> StreamDone(sh))
    && (InFlight(sh) == 0 || (InFlight(sh) == 1 && SendOwner(sh).Some?))
    && (sh.timer != Off ==> StreamDone(sh))
    && (sh.timer.Fired? ==> CtxCancelled(sh))
    && (sh.loaded.Some? ==> p.Received?)
  }

  /** The terminal message is that of the elected request, sent by the winner. */
  predicate EndOf(sh: Shared, tid: nat, msg: Msg) {
    && sh.winner.Some? && tid == sh.winner.value.tid
    && (if sh.winner.value.req.sendMeta then msg.Meta? else msg == Cancel(sh.winner.value.req.cancelMessage))
  }

  predicate SharedInv(sh: Shared) { CreationInv(sh) && ElectionInv(sh) && StreamInv(sh) }

  /** The successful sends a goroutine owes for the calls it has completed. */
  function Owed(script: seq<Call>, pos: nat, j: nat): seq<Wire>
    requires pos <= |script|
  {
    if pos == 0 then []
    else
      var c := script[pos - 1];
      Owed(script, pos - 1, j) + if c.Data? then [Sent(j, c.msg, true)] else []
  }

  /** The attempt of the current call that is already on the wire. */
  function CurrentSent(t: Thread, j: nat): seq<Wire> {
    if !(t.HasCall() && t.Current().Data?) then []
    else match t.pc
      case EndSend(ok) => [Sent(j, t.Current().msg, ok)]
      case UnlockSend(ok) => [Sent(j, t.Current().msg, ok)]
      case Stopped(attempted, _) => if attempted then [Sent(j, t.Current().msg, false)] else []
      case _ => []
  }

  /** Past the last check of cwc.done, on the way to the wire. */
  predicate PastCheck(t: Thread) { (t.pc.BeginSend? || t.pc.Send?) && t.HasCall() && t.Current().Data? }

  /** While the stream is not done, past the check for a sender, and up to its election for the winner,
      no send was skipped. */
  predicate OwnTrace(sh: Shared, j: nat, t: Thread)
    requires t.Pos() <= |t.script|
  {
    (!StreamDone(sh) || Winning(t) || PastCheck(t)) ==> t.sent == Owed(t.script, t.Pos(), j) + CurrentSent(t, j)
  }

  /** What the winner knows at each of its steps. */
  predicate LeaderInv(sh: Shared, t: Thread)
    requires Winning(t)
  {
    var p := PhaseOf(sh);
    var req := t.Current().req;
    match t.pc
    case Acquire | AwaitReady(_) | Open | Publish(_) | PeekSession | AwaitPeek(_) | MarkDone =>
      !StreamDone(sh) && sh.loaded.None? && sh.commits == []
    case LockSend | BeginSend | Send => StreamDone(sh) && p.Flowing? && sh.loaded.None? && sh.commits == []
    case EndSend(ok) => p.Ended? && p.ok == ok && sh.loaded.None? && sh.commits == []
    case UnlockSend(ok) => p.Ended? && p.ok == ok && sh.loaded.None? && sh.commits == []
    case LockClose(ok) => p.Ended? && p.ok == ok && sh.loaded.None? && sh.commits == []
    case CloseRecv(ok) => p.Ended? && p.ok == ok && sh.loaded.None? && sh.commits == []
    case UnlockClose(ok, r) => p.Received? && p.ok == ok && p.reply == r && sh.loaded.None? && sh.commits == []
    case LoadTimeout(ok, r) => p.Received? && p.ok == ok && p.reply == r && sh.loaded.None? && sh.commits == []
    case StopTimer(res) => p.Received? && sh.loaded.Some? && res == Result(sh, req) && sh.commits == []
    case Complete(res) => Cleared(sh) && res == Result(sh, req) && sh.commits == []
    case Record(terr) => Cleared(sh) && CommitDecided(sh, req) && (terr.None? ==> Settled(sh, req))
    case CloseSession => Cleared(sh) && CommitDecided(sh, req) && (sh.terminalErr.None? ==> Settled(sh, req))
    case CloseDone => Cleared(sh) && CommitDecided(sh, req) && (sh.terminalErr.None? ==> Settled(sh, req)) && sh.closed
    case _ => true
  }

  predicate CommitDecided(sh: Shared, req: Request) {
    sh.commits == [] <==> SkipsComplete(sh.env, CommitLog(sh.env, req, Result(sh, req)))
  }

  /** Terminating the writer gave no error that the caller must hear of. */
  predicate Settled(sh: Shared, req: Request) { Judge(sh.env, req, Result(sh, req)).1.None? }

  /** Why a sender gave up: its attempt failed, or the stream could not be opened, or it came after the end. */
  predicate StoppedFor(sh: Shared, t: Thread)
    requires t.pc.Stopped?
  {
    if t.pc.attempted then
      t.pc.err == SEND_ERROR && t.sent != [] && t.sent[|t.sent| - 1].Sent? && !t.sent[|t.sent| - 1].ok
    else
      || sh.cwcErr == Some(t.pc.err)
      || (sh.done && (t.pc.err == ALREADY_COMPLETED || sh.terminalErr == Some(t.pc.err)))
  }

  /** The finalization timer guards the winner's stay in terminateContentWriter, and no longer. */
  predicate TimerFits(sh: Shared, pc: Pc) {
    match pc
    case LockSend | BeginSend | Send | EndSend(_) | UnlockSend(_) => sh.timer.Armed? || sh.timer.Fired?
    case LockClose(_) | CloseRecv(_) | UnlockClose(_, _) | LoadTimeout(_, _) | StopTimer(_) =>
      sh.timer.Armed? || sh.timer.Fired?
    case Complete(_) | Record(_) | CloseSession | CloseDone => !sh.timer.Armed?
    case _ => sh.timer == Off
  }

  predicate Plausible(script: seq<Call>) { forall k :: 0 <= k < |script| ==> PlausibleCall(script[k]) }

  predicate ThreadInv(sh: Shared, j: nat, t: Thread) {
    && Fits(t) && Plausible(t.script)
    && (UsesSession(t.pc) ==> sh.cwc.Some?)
    && (HoldsSendMu(t.pc) <==> SendOwner(sh) == Some(j))
    && (HoldsSendMu(t.pc) ==> InFlight(sh) == if Sending(t.pc) then 1 else 0)
    && (Creating(t.pc) <==> sh.creator == Some(j))
    && (t.pc.Open? ==> sh.streams == 0)
    && (t.pc.Publish? ==> sh.streams == if t.pc.ok then 1 else 0)
    && (t.pc.AwaitReady? ==> t.pc.ch == 1 && sh.cwcReady == 1)
    && (t.pc.AwaitPeek? ==> t.pc.ch == 1 && sh.cwcReady == 1)
    && (t.pc.AwaitTerminal? ==> sh.done)
    && (t.pc.SkipSend? ==> StreamDone(sh))
    && ((t.pc.BeginSend? || t.pc.Send?) ==> PhaseOf(sh).Flowing?)
    && (Winning(t) <==> Leads(sh, j))
    && (!Winning(t) && sh.winner.Some? && sh.winner.value.tid == j ==> sh.winner.value.pos < t.Pos())
    && (Winning(t) ==> sh.winner == Some(Win(j, t.Pos(), t.Current().req)) && LeaderInv(sh, t))
    && OwnTrace(sh, j, t)
    && ((t.pc.EndSend? || t.pc.UnlockSend?) && t.Current().Data? ==>
          t.sent != [] && t.sent[|t.sent| - 1] == Sent(j, t.Current().msg, t.pc.ok))
    && (t.pc.Stopped? ==> StoppedFor(sh, t))
    && (Winning(t) ==> TimerFits(sh, t.pc))
    && (Winning(t) && !t.pc.CloseSession? && !t.pc.CloseDone? ==> sh.terminalErr.None?)
  }

  /** What goroutine j may rely on when another goroutine (or the timer) takes a step from a to b. */
  predicate Rely(a: Shared, b: Shared, j: nat) {
    && b.env == a.env
    && (a.cwc.Some? ==> b.cwc.Some?)
    && (a.cwcReady == 1 ==> b.cwcReady == 1)
    && (a.done ==> b.done)
    && (a.cwcErr.Some? ==> b.cwcErr == a.cwcErr) && (a.terminalErr.Some? ==> b.terminalErr == a.terminalErr)
    && (SendOwner(b) == Some(j) <==> SendOwner(a) == Some(j))
    && (SendOwner(a) == Some(j) ==> PhaseOf(b) == PhaseOf(a) && InFlight(b) == InFlight(a))
    && (b.creator == Some(j) <==> a.creator == Some(j))
    && (a.creator == Some(j) ==> b.streams == a.streams)
    && (StreamDone(a) ==> StreamDone(b))
    && (Leads(b, j) <==> Leads(a, j))
    && (b.winner.Some? && b.winner.value.tid == j ==> b.winner == a.winner)
    && (Leads(a, j) ==> LeaderRely(a, b))
  }

  predicate LeaderRely(a: Shared, b: Shared) {
    && b.winner == a.winner
    && (StreamDone(b) <==> StreamDone(a))
    && (a.cwc.Some? ==> PhaseOf(b) == PhaseOf(a))
    && (CtxCancelled(a) ==> CtxCancelled(b))
    && (b.timer == a.timer || (a.timer.Armed? && b.timer.Fired?))
    && b.loaded == a.loaded && b.commits == a.commits && b.closed == a.closed && b.terminalErr == a.terminalErr
    && (!a.cwcCreating && a.cwc.None? ==> !b.cwcCreating && b.cwc.None? && b.cwcErr == a.cwcErr)
    && (!a.cwcCreating ==> !b.cwcCreating)
  }

  lemma RelyKeepsThread(a: Shared, b: Shared, j: nat, t: Thread)
    requires SharedInv(a) && SharedInv(b) && ThreadInv(a, j, t) && Rely(a, b, j)
    ensures ThreadInv(b, j, t)
  {
  }
}
