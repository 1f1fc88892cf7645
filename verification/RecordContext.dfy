/** RecordContext and CwcSession as the objects they are: one method per critical section, each proved
    to be the step of the terminal protocol that its goroutine takes. */
module RecordContext {
  import opened Common
  import opened TerminalMachine

  class CwcSession {
    var done: bool
    var canceled: bool
    var sendMu: Option<nat>
    var sendInFlight: int
    var ctxCancelled: bool
    ghost var trace: seq<Wire>
    ghost var phase: Phase

    ghost function View(): Session
      reads this
    {
      Session(done, canceled, sendMu, sendInFlight, ctxCancelled, trace, phase)
    }

    constructor ()
      ensures View() == NEW_SESSION
    {
      done, canceled, sendMu, sendInFlight, ctxCancelled := false, false, None, 0, false;
      trace, phase := [], Flowing;
    }
  }

  /** What getCwcSessionForTerminal decides under rc.mutex. */
  datatype Decision = UseSession | Fail(err: Error) | Wait(ch: nat) | Create

  function AfterDecision(t: Thread, d: Decision): Thread
    requires t.HasCall()
  {
    match d
    case UseSession => GotSession(t)
    case Fail(err) => NoSession(t, err)
    case Wait(ch) => t.(pc := AwaitReady(ch))
    case Create => t.(pc := Open)
  }

  class RecordContext {
    var done: bool
    var terminalDone: bool
    var terminalErr: Option<Error>
    var closed: bool
    var lifecycleCancelled: bool
    var cwc: CwcSession?
    var cwcErr: Option<Error>
    var cwcCreating: bool
    var cwcReady: nat
    var readyClosed: set<nat>
    /** Fields these sections do not touch, and the history of the protocol. */
    ghost var rest: Shared

    ghost function View(): Shared
      reads this, cwc
    {
      rest.(done := done, terminalDone := terminalDone, terminalErr := terminalErr, closed := closed,
            lifecycleCancelled := lifecycleCancelled, cwc := if cwc == null then None else Some(cwc.View()),
            cwcErr := cwcErr, cwcCreating := cwcCreating, cwcReady := cwcReady, readyClosed := readyClosed)
    }

    /** NewRecordContext and Init. */
    constructor (env: Env)
      ensures View() == Shared(env, false, false, None, false, false, None, None, false, 0, {}, map[],
                               Off, None, None, 0, None, [], 0)
      ensures cwc == null
    {
      done, terminalDone, terminalErr, closed, lifecycleCancelled := false, false, None, false, false;
      cwc, cwcErr, cwcCreating, cwcReady, readyClosed := null, None, false, 0, {};
      rest := Shared(env, false, false, None, false, false, None, None, false, 0, {}, map[],
                     Off, None, None, 0, None, [], 0);
    }

    /** The critical section at the head of getCwcSessionForTerminal's loop. */
    method Acquire(terminal: bool, i: nat, ghost t: Thread, ghost c: Choice) returns (d: Decision)
      requires CanAct(View(), t, c) && t.pc.Acquire? && terminal == !t.Current().Data?
      modifies this
      ensures Do(old(View()), i, t, c) == (View(), AfterDecision(t, d))
      ensures d.UseSession? <==> cwc != null
      ensures d.Fail? <==> cwc == null && (cwcErr.Some? || (!old(cwcCreating) && done && !terminal))
      ensures d.Fail? ==>
        d.err == if cwcErr.Some? then cwcErr.value
                 else if terminalErr.Some? then terminalErr.value
                 else ALREADY_COMPLETED
      ensures d.Wait? ==> old(cwcCreating) && d.ch == cwcReady
      ensures d.Create? ==> cwcCreating && cwcReady == old(cwcReady) + 1
    {
      if cwc != null {
        return UseSession;
      }
      if cwcErr.Some? {
        return Fail(cwcErr.value);
      }
      if cwcCreating {
        return Wait(cwcReady);
      }
      if done && !terminal {
        return Fail(if terminalErr.Some? then terminalErr.value else ALREADY_COMPLETED);
      }
      cwcCreating := true;
      cwcReady := cwcReady + 1;
      rest := rest.(creator := Some(i));
      return Create;
    }

    /** The section that publishes the opened session, or the error. */
    method Publish(ok: bool, i: nat, ghost t: Thread, ghost c: Choice) returns (d: Decision)
      requires CanAct(View(), t, c) && t.pc == Pc.Publish(ok)
      modifies this
      ensures Do(old(View()), i, t, c) == (View(), AfterDecision(t, d))
      ensures if ok then fresh(cwc) && cwcErr.None? else cwc == null && cwcErr == Some(CONNECT_ERROR)
      ensures !cwcCreating && cwcReady in readyClosed
    {
      if ok {
        cwc := new CwcSession();
        cwcErr := None;
        d := UseSession;
      } else {
        cwc := null;
        cwcErr := Some(CONNECT_ERROR);
        d := Fail(CONNECT_ERROR);
      }
      cwcCreating := false;
      readyClosed := readyClosed + {cwcReady};
      rest := rest.(creator := None);
    }

    /** coordinateTerminal elects the first caller, be it a call of its own or the watcher of a client that
        went away. */
    method Elect(req: Request, i: nat, ghost t: Thread, ghost c: Choice) returns (won: bool)
      requires CanAct(View(), t, c)
      requires (t.pc.Ready? && t.Current() == Finish(req)) || (t.pc.Watching? && c.gone && t.Current() == Watch(req))
      modifies this
      ensures var (b, u) := Do(old(View()), i, t, c); View() == b && (won <==> !u.pc.AwaitTerminal?)
      ensures won <==> !old(done)
    {
      if done {
        return false;
      }
      done := true;
      rest := rest.(winner := Some(Win(i, t.Pos(), req)));
      return true;
    }

    /** terminateContentWriter marks the session; only the first caller goes on. */
    method MarkDone(sendMeta: bool, i: nat, ghost t: Thread, ghost c: Choice) returns (first: bool)
      requires CanAct(View(), t, c) && t.pc.MarkDone? && t.Current().req.sendMeta == sendMeta
      modifies this, cwc
      ensures var (b, u) := Do(old(View()), i, t, c); View() == b && (first <==> u.pc.LockSend?)
      ensures first == !old(cwc.done) && cwc.done && (first ==> cwc.canceled == !sendMeta)
    {
      if cwc.done {
        return false;
      }
      cwc.done := true;
      cwc.canceled := !sendMeta;
      rest := rest.(timer := Armed);
      return true;
    }

    /** The check a sender makes while it holds sendMu. */
    method IsTerminal(i: nat, ghost t: Thread, ghost c: Choice) returns (terminal: bool)
      requires CanAct(View(), t, c) && t.pc.CheckDone?
      ensures Do(View(), i, t, c) == (View(), t.(pc := if terminal then SkipSend else BeginSend))
      ensures terminal == cwc.done
    {
      terminal := cwc.done;
    }

    /** closeSession: the session counter moves once, and the disconnect watcher is released. */
    method CloseSession(i: nat, ghost t: Thread, ghost c: Choice)
      requires CanAct(View(), t, c) && t.pc.CloseSession?
      modifies this
      ensures Do(old(View()), i, t, c) == (View(), t.(pc := CloseDone))
      ensures closed && (!old(closed) ==> lifecycleCancelled)
    {
      if closed {
        return;
      }
      closed := true;
      lifecycleCancelled := true;
      rest := rest.(closeCalls := rest.closeCalls + 1);
    }

    /** close(rc.terminalDone) releases the losers. */
    method CloseTerminalDone(i: nat, ghost t: Thread, ghost c: Choice)
      requires CanAct(View(), t, c) && t.pc.CloseDone?
      modifies this
      ensures Do(old(View()), i, t, c).0 == View() && terminalDone
    {
      terminalDone := true;
    }
  }
}
