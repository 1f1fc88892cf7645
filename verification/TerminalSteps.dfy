/** One step of one goroutine keeps the shared invariant (Shared), keeps what that goroutine
    knows (Own), and respects what every other goroutine relies on (Others): one lemma per part
    of the code for each of the three. */
module TerminalSteps {
  import opened Common
  import opened TerminalMachine
  import opened TerminalInvariant

  predicate At(sh: Shared, i: nat, t: Thread, c: Choice) {
    SharedInv(sh) && ThreadInv(sh, i, t) && CanAct(sh, t, c)
  }

  lemma OwedStep(script: seq<Call>, pos: nat, j: nat)
    requires pos < |script|
    ensures Owed(script, pos + 1, j)
      == Owed(script, pos, j) + if script[pos].Data? then [Sent(j, script[pos].msg, true)] else []
  {
  }

  lemma CompleteDecides(sh: Shared, i: nat, t: Thread, c: Choice)
    requires At(sh, i, t, c) && t.pc.Complete?
    ensures var (b, u) := Do(sh, i, t, c);
      && b == sh.(commits := b.commits) && u.pc.Record? && u == t.(pc := u.pc)
      && Cleared(b) && CommitDecided(b, u.Current().req) && (u.pc.terr.None? ==> Settled(b, u.Current().req))
  {
  }

  lemma RecordKnows(sh: Shared, b: Shared, i: nat, t: Thread, u: Thread)
    requires ThreadInv(sh, i, t) && t.pc.Complete? && b == sh.(commits := b.commits) && u.pc.Record?
      && u == t.(pc := u.pc)
    requires Cleared(b) && CommitDecided(b, u.Current().req) && (u.pc.terr.None? ==> Settled(b, u.Current().req))
    ensures ThreadInv(b, i, u)
  {
  }

  // ---- the shared invariant --------------------------------------------------

  lemma StartShared(sh: Shared, i: nat, t: Thread, c: Choice)
    requires At(sh, i, t, c)
    requires t.pc.Ready?
    ensures SharedInv(Do(sh, i, t, c).0)
  {
  }

  lemma WatchShared(sh: Shared, i: nat, t: Thread, c: Choice)
    requires At(sh, i, t, c)
    requires t.pc.Watching? || t.pc.AwaitTerminal?
    ensures SharedInv(Do(sh, i, t, c).0)
  {
  }

  lemma SessionShared(sh: Shared, i: nat, t: Thread, c: Choice)
    requires At(sh, i, t, c)
    requires t.pc.Acquire? || t.pc.AwaitReady? || t.pc.Open? || t.pc.Publish? || t.pc.PeekSession? || t.pc.AwaitPeek?
      || t.pc.MarkDone?
    ensures SharedInv(Do(sh, i, t, c).0)
  {
  }

  lemma LockShared(sh: Shared, i: nat, t: Thread, c: Choice)
    requires At(sh, i, t, c)
    requires t.pc.CheckCanceled? || t.pc.LockSend? || t.pc.CheckDone? || t.pc.BeginSend?
    ensures SharedInv(Do(sh, i, t, c).0)
  {
  }

  lemma SkipShared(sh: Shared, i: nat, t: Thread, c: Choice)
    requires At(sh, i, t, c)
    requires t.pc.SkipSend?
    ensures SharedInv(Do(sh, i, t, c).0)
  {
  }

  lemma SendShared(sh: Shared, i: nat, t: Thread, c: Choice)
    requires At(sh, i, t, c)
    requires t.pc.Send?
    ensures SharedInv(Do(sh, i, t, c).0)
  {
    assert PlausibleCall(t.script[t.Pos()]);
  }

  lemma EndSendShared(sh: Shared, i: nat, t: Thread, c: Choice)
    requires At(sh, i, t, c)
    requires t.pc.EndSend?
    ensures SharedInv(Do(sh, i, t, c).0)
  {
  }

  lemma UnlockShared(sh: Shared, i: nat, t: Thread, c: Choice)
    requires At(sh, i, t, c)
    requires t.pc.UnlockSend?
    ensures SharedInv(Do(sh, i, t, c).0)
  {
  }

  lemma LockCloseShared(sh: Shared, i: nat, t: Thread, c: Choice)
    requires At(sh, i, t, c)
    requires t.pc.LockClose? || t.pc.UnlockClose?
    ensures SharedInv(Do(sh, i, t, c).0)
  {
  }

  lemma CloseRecvShared(sh: Shared, i: nat, t: Thread, c: Choice)
    requires At(sh, i, t, c)
    requires t.pc.CloseRecv?
    ensures SharedInv(Do(sh, i, t, c).0)
  {
  }

  lemma TimeoutShared(sh: Shared, i: nat, t: Thread, c: Choice)
    requires At(sh, i, t, c)
    requires t.pc.LoadTimeout? || t.pc.StopTimer?
    ensures SharedInv(Do(sh, i, t, c).0)
  {
  }

  lemma CompleteShared(sh: Shared, i: nat, t: Thread, c: Choice)
    requires At(sh, i, t, c)
    requires t.pc.Complete?
    ensures SharedInv(Do(sh, i, t, c).0)
  {
  }

  lemma RecordShared(sh: Shared, i: nat, t: Thread, c: Choice)
    requires At(sh, i, t, c)
    requires t.pc.Record?
    ensures SharedInv(Do(sh, i, t, c).0)
  {
  }

  lemma CloseSessionShared(sh: Shared, i: nat, t: Thread, c: Choice)
    requires At(sh, i, t, c)
    requires t.pc.CloseSession?
    ensures SharedInv(Do(sh, i, t, c).0)
  {
  }

  lemma CloseDoneShared(sh: Shared, i: nat, t: Thread, c: Choice)
    requires At(sh, i, t, c)
    requires t.pc.CloseDone?
    ensures SharedInv(Do(sh, i, t, c).0)
  {
  }

  // ---- the acting goroutine --------------------------------------------------

  lemma SetMetaOwn(sh: Shared, i: nat, t: Thread, c: Choice)
    requires At(sh, i, t, c)
    requires t.pc.Ready? && t.HasCall() && t.Current().SetMeta?
    ensures var (b, u) := Do(sh, i, t, c); ThreadInv(b, i, u)
  {
    OwedStep(t.script, t.Pos(), i);
    assert CurrentSent(t, i) == [] && CurrentSent(Do(sh, i, t, c).1, i) == [];
  }

  lemma StartOwn(sh: Shared, i: nat, t: Thread, c: Choice)
    requires At(sh, i, t, c)
    requires t.pc.Ready? && t.HasCall() && !t.Current().SetMeta?
    ensures var (b, u) := Do(sh, i, t, c); ThreadInv(b, i, u)
  {
    assert CurrentSent(t, i) == [] && CurrentSent(Do(sh, i, t, c).1, i) == [];
  }

  lemma WatchOwn(sh: Shared, i: nat, t: Thread, c: Choice)
    requires At(sh, i, t, c)
    requires t.pc.Watching?
    ensures var (b, u) := Do(sh, i, t, c); ThreadInv(b, i, u)
  {
    OwedStep(t.script, t.Pos(), i);
  }

  lemma LoserOwn(sh: Shared, i: nat, t: Thread, c: Choice)
    requires At(sh, i, t, c)
    requires t.pc.AwaitTerminal?
    ensures var (b, u) := Do(sh, i, t, c); ThreadInv(b, i, u)
  {
    OwedStep(t.script, t.Pos(), i);
  }

  lemma AcquireDataOwn(sh: Shared, i: nat, t: Thread, c: Choice)
    requires At(sh, i, t, c)
    requires t.pc.Acquire? && t.Current().Data?
    ensures var (b, u) := Do(sh, i, t, c); ThreadInv(b, i, u)
  {
  }

  lemma AcquireEndOwn(sh: Shared, i: nat, t: Thread, c: Choice)
    requires At(sh, i, t, c)
    requires t.pc.Acquire? && !t.Current().Data?
    ensures var (b, u) := Do(sh, i, t, c); ThreadInv(b, i, u)
  {
  }

  lemma OpenOwn(sh: Shared, i: nat, t: Thread, c: Choice)
    requires At(sh, i, t, c)
    requires t.pc.AwaitReady? || t.pc.Open?
    ensures var (b, u) := Do(sh, i, t, c); ThreadInv(b, i, u)
  {
  }

  lemma PublishOwn(sh: Shared, i: nat, t: Thread, c: Choice)
    requires At(sh, i, t, c)
    requires t.pc.Publish?
    ensures var (b, u) := Do(sh, i, t, c); ThreadInv(b, i, u)
  {
  }

  lemma PeekOwn(sh: Shared, i: nat, t: Thread, c: Choice)
    requires At(sh, i, t, c)
    requires t.pc.PeekSession?
    ensures var (b, u) := Do(sh, i, t, c); ThreadInv(b, i, u)
  {
  }

  lemma AwaitPeekOwn(sh: Shared, i: nat, t: Thread, c: Choice)
    requires At(sh, i, t, c)
    requires t.pc.AwaitPeek?
    ensures var (b, u) := Do(sh, i, t, c); ThreadInv(b, i, u)
  {
  }

  lemma MarkDoneOwn(sh: Shared, i: nat, t: Thread, c: Choice)
    requires At(sh, i, t, c)
    requires t.pc.MarkDone?
    ensures var (b, u) := Do(sh, i, t, c); ThreadInv(b, i, u)
  {
  }

  lemma CheckOwn(sh: Shared, i: nat, t: Thread, c: Choice)
    requires At(sh, i, t, c)
    requires t.pc.CheckCanceled? || t.pc.CheckDone? || t.pc.SkipSend?
    ensures var (b, u) := Do(sh, i, t, c); ThreadInv(b, i, u)
  {
    OwedStep(t.script, t.Pos(), i);
  }

  lemma LockOwn(sh: Shared, i: nat, t: Thread, c: Choice)
    requires At(sh, i, t, c)
    requires t.pc.LockSend? || t.pc.BeginSend?
    ensures var (b, u) := Do(sh, i, t, c); ThreadInv(b, i, u)
  {
  }

  lemma SendDataOwn(sh: Shared, i: nat, t: Thread, c: Choice)
    requires At(sh, i, t, c)
    requires t.pc.Send? && t.Current().Data?
    ensures var (b, u) := Do(sh, i, t, c); ThreadInv(b, i, u)
  {
    assert PlausibleCall(t.script[t.Pos()]);
  }

  lemma SendEndOwn(sh: Shared, i: nat, t: Thread, c: Choice)
    requires At(sh, i, t, c)
    requires t.pc.Send? && !t.Current().Data?
    ensures var (b, u) := Do(sh, i, t, c); ThreadInv(b, i, u)
  {
    assert PlausibleCall(t.script[t.Pos()]);
  }

  lemma EndSendOwn(sh: Shared, i: nat, t: Thread, c: Choice)
    requires At(sh, i, t, c)
    requires t.pc.EndSend?
    ensures var (b, u) := Do(sh, i, t, c); ThreadInv(b, i, u)
  {
  }

  lemma UnlockEndOwn(sh: Shared, i: nat, t: Thread, c: Choice)
    requires At(sh, i, t, c)
    requires t.pc.UnlockSend? && !t.Current().Data?
    ensures var (b, u) := Do(sh, i, t, c); ThreadInv(b, i, u)
  {
  }

  lemma UnlockDataOwn(sh: Shared, i: nat, t: Thread, c: Choice)
    requires At(sh, i, t, c)
    requires t.pc.UnlockSend? && t.Current().Data?
    ensures var (b, u) := Do(sh, i, t, c); ThreadInv(b, i, u)
  {
    OwedStep(t.script, t.Pos(), i);
  }

  lemma LockCloseOwn(sh: Shared, i: nat, t: Thread, c: Choice)
    requires At(sh, i, t, c)
    requires t.pc.LockClose?
    ensures var (b, u) := Do(sh, i, t, c); ThreadInv(b, i, u)
  {
  }

  lemma UnlockCloseOwn(sh: Shared, i: nat, t: Thread, c: Choice)
    requires At(sh, i, t, c)
    requires t.pc.UnlockClose?
    ensures var (b, u) := Do(sh, i, t, c); ThreadInv(b, i, u)
  {
  }

  lemma CloseRecvOwn(sh: Shared, i: nat, t: Thread, c: Choice)
    requires At(sh, i, t, c)
    requires t.pc.CloseRecv?
    ensures var (b, u) := Do(sh, i, t, c); ThreadInv(b, i, u)
  {
  }

  lemma LoadTimeoutOwn(sh: Shared, i: nat, t: Thread, c: Choice)
    requires At(sh, i, t, c)
    requires t.pc.LoadTimeout?
    ensures var (b, u) := Do(sh, i, t, c); ThreadInv(b, i, u)
  {
  }

  lemma StopTimerOwn(sh: Shared, i: nat, t: Thread, c: Choice)
    requires At(sh, i, t, c)
    requires t.pc.StopTimer?
    ensures var (b, u) := Do(sh, i, t, c); ThreadInv(b, i, u)
  {
  }

  lemma CompleteOwn(sh: Shared, i: nat, t: Thread, c: Choice)
    requires At(sh, i, t, c)
    requires t.pc.Complete?
    ensures var (b, u) := Do(sh, i, t, c); ThreadInv(b, i, u)
  {
    CompleteDecides(sh, i, t, c);
    var (b, u) := Do(sh, i, t, c);
    RecordKnows(sh, b, i, t, u);
  }

  lemma RecordOwn(sh: Shared, i: nat, t: Thread, c: Choice)
    requires At(sh, i, t, c)
    requires t.pc.Record?
    ensures var (b, u) := Do(sh, i, t, c); ThreadInv(b, i, u)
  {
    RecordStep(sh, i, t, c);
    CloseSessionKnows(sh, Do(sh, i, t, c).0, i, t, Do(sh, i, t, c).1);
  }

  lemma RecordStep(sh: Shared, i: nat, t: Thread, c: Choice)
    requires CanAct(sh, t, c) && t.pc.Record?
    ensures Do(sh, i, t, c) == (sh.(terminalErr := t.pc.terr), t.(pc := CloseSession))
  {
  }

  lemma CloseSessionKnows(sh: Shared, b: Shared, i: nat, t: Thread, u: Thread)
    requires ThreadInv(sh, i, t) && t.pc.Record? && b == sh.(terminalErr := t.pc.terr) && u == t.(pc := CloseSession)
    ensures ThreadInv(b, i, u)
  {
  }

  lemma CloseSessionOwn(sh: Shared, i: nat, t: Thread, c: Choice)
    requires At(sh, i, t, c)
    requires t.pc.CloseSession?
    ensures var (b, u) := Do(sh, i, t, c); ThreadInv(b, i, u)
  {
    CloseSessionStep(sh, i, t, c);
    CloseDoneKnows(sh, Do(sh, i, t, c).0, i, t, Do(sh, i, t, c).1);
  }

  lemma CloseSessionStep(sh: Shared, i: nat, t: Thread, c: Choice)
    requires CanAct(sh, t, c) && t.pc.CloseSession?
    ensures var (b, u) := Do(sh, i, t, c);
      && b == sh.(closed := true, closeCalls := b.closeCalls, lifecycleCancelled := b.lifecycleCancelled)
      && u == t.(pc := CloseDone)
  {
  }

  lemma CloseDoneKnows(sh: Shared, b: Shared, i: nat, t: Thread, u: Thread)
    requires ThreadInv(sh, i, t) && t.pc.CloseSession? && u == t.(pc := CloseDone)
    requires b == sh.(closed := true, closeCalls := b.closeCalls, lifecycleCancelled := b.lifecycleCancelled)
    ensures ThreadInv(b, i, u)
  {
  }

  lemma CloseDoneOwn(sh: Shared, i: nat, t: Thread, c: Choice)
    requires At(sh, i, t, c)
    requires t.pc.CloseDone?
    ensures var (b, u) := Do(sh, i, t, c); ThreadInv(b, i, u)
  {
    OwedStep(t.script, t.Pos(), i);
  }

  // ---- the other goroutines --------------------------------------------------

  lemma StartOthers(sh: Shared, i: nat, t: Thread, c: Choice, j: nat)
    requires At(sh, i, t, c) && j != i
    requires t.pc.Ready?
    ensures Rely(sh, Do(sh, i, t, c).0, j)
  {
  }

  lemma SessionOthers(sh: Shared, i: nat, t: Thread, c: Choice, j: nat)
    requires At(sh, i, t, c) && j != i
    requires t.pc.Watching? || t.pc.AwaitTerminal? || t.pc.Acquire? || t.pc.AwaitReady? || t.pc.Open?
      || t.pc.PeekSession? || t.pc.AwaitPeek?
    ensures Rely(sh, Do(sh, i, t, c).0, j)
  {
  }

  lemma PublishOthers(sh: Shared, i: nat, t: Thread, c: Choice, j: nat)
    requires At(sh, i, t, c) && j != i
    requires t.pc.Publish? || t.pc.MarkDone?
    ensures Rely(sh, Do(sh, i, t, c).0, j)
  {
  }

  lemma LockOthers(sh: Shared, i: nat, t: Thread, c: Choice, j: nat)
    requires At(sh, i, t, c) && j != i
    requires t.pc.CheckCanceled? || t.pc.LockSend? || t.pc.CheckDone? || t.pc.SkipSend? || t.pc.BeginSend?
    ensures Rely(sh, Do(sh, i, t, c).0, j)
  {
  }

  lemma SendOthers(sh: Shared, i: nat, t: Thread, c: Choice, j: nat)
    requires At(sh, i, t, c) && j != i
    requires t.pc.Send?
    ensures Rely(sh, Do(sh, i, t, c).0, j)
  {
    assert PlausibleCall(t.script[t.Pos()]);
  }

  lemma UnlockOthers(sh: Shared, i: nat, t: Thread, c: Choice, j: nat)
    requires At(sh, i, t, c) && j != i
    requires t.pc.EndSend? || t.pc.UnlockSend?
    ensures Rely(sh, Do(sh, i, t, c).0, j)
  {
  }

  lemma CloseRecvOthers(sh: Shared, i: nat, t: Thread, c: Choice, j: nat)
    requires At(sh, i, t, c) && j != i
    requires t.pc.CloseRecv?
    ensures Rely(sh, Do(sh, i, t, c).0, j)
  {
  }

  lemma CloseOthers(sh: Shared, i: nat, t: Thread, c: Choice, j: nat)
    requires At(sh, i, t, c) && j != i
    requires t.pc.LockClose? || t.pc.UnlockClose? || t.pc.LoadTimeout? || t.pc.StopTimer?
    ensures Rely(sh, Do(sh, i, t, c).0, j)
  {
  }

  lemma CompleteOthers(sh: Shared, i: nat, t: Thread, c: Choice, j: nat)
    requires At(sh, i, t, c) && j != i
    requires t.pc.Complete?
    ensures Rely(sh, Do(sh, i, t, c).0, j)
  {
  }

  lemma FinishOthers(sh: Shared, i: nat, t: Thread, c: Choice, j: nat)
    requires At(sh, i, t, c) && j != i
    requires t.pc.Record? || t.pc.CloseSession? || t.pc.CloseDone?
    ensures Rely(sh, Do(sh, i, t, c).0, j)
  {
  }

  // ---- all steps --------------------------------------------------------------------------

  lemma DoKeepsShared(sh: Shared, i: nat, t: Thread, c: Choice)
    requires At(sh, i, t, c)
    ensures SharedInv(Do(sh, i, t, c).0)
  {
    match t.pc
    case Ready => StartShared(sh, i, t, c);
    case Watching | AwaitTerminal => WatchShared(sh, i, t, c);
    case Acquire | AwaitReady(_) | Open | Publish(_) | PeekSession | AwaitPeek(_) | MarkDone =>
      SessionShared(sh, i, t, c);
    case CheckCanceled | LockSend | CheckDone | BeginSend => LockShared(sh, i, t, c);
    case SkipSend => SkipShared(sh, i, t, c);
    case Send => SendShared(sh, i, t, c);
    case EndSend(_) => EndSendShared(sh, i, t, c);
    case UnlockSend(_) => UnlockShared(sh, i, t, c);
    case LockClose(_) | UnlockClose(_, _) => LockCloseShared(sh, i, t, c);
    case CloseRecv(_) => CloseRecvShared(sh, i, t, c);
    case LoadTimeout(_, _) | StopTimer(_) => TimeoutShared(sh, i, t, c);
    case Complete(_) => CompleteShared(sh, i, t, c);
    case Record(_) => RecordShared(sh, i, t, c);
    case CloseSession => CloseSessionShared(sh, i, t, c);
    case CloseDone => CloseDoneShared(sh, i, t, c);
    case Stopped(_, _) =>
  }

  lemma DoKeepsOwn(sh: Shared, i: nat, t: Thread, c: Choice)
    requires At(sh, i, t, c)
    ensures var (b, u) := Do(sh, i, t, c); ThreadInv(b, i, u)
  {
    match t.pc
    case Ready => if t.Current().SetMeta? { SetMetaOwn(sh, i, t, c); } else { StartOwn(sh, i, t, c); }
    case Watching => WatchOwn(sh, i, t, c);
    case AwaitTerminal => LoserOwn(sh, i, t, c);
    case Acquire => if t.Current().Data? { AcquireDataOwn(sh, i, t, c); } else { AcquireEndOwn(sh, i, t, c); }
    case AwaitReady(_) | Open => OpenOwn(sh, i, t, c);
    case Publish(_) => PublishOwn(sh, i, t, c);
    case PeekSession => PeekOwn(sh, i, t, c);
    case AwaitPeek(_) => AwaitPeekOwn(sh, i, t, c);
    case MarkDone => MarkDoneOwn(sh, i, t, c);
    case CheckCanceled | CheckDone | SkipSend => CheckOwn(sh, i, t, c);
    case LockSend | BeginSend => LockOwn(sh, i, t, c);
    case Send => if t.Current().Data? { SendDataOwn(sh, i, t, c); } else { SendEndOwn(sh, i, t, c); }
    case EndSend(_) => EndSendOwn(sh, i, t, c);
    case UnlockSend(_) => if t.Current().Data? { UnlockDataOwn(sh, i, t, c); } else { UnlockEndOwn(sh, i, t, c); }
    case LockClose(_) => LockCloseOwn(sh, i, t, c);
    case UnlockClose(_, _) => UnlockCloseOwn(sh, i, t, c);
    case CloseRecv(_) => CloseRecvOwn(sh, i, t, c);
    case LoadTimeout(_, _) => LoadTimeoutOwn(sh, i, t, c);
    case StopTimer(_) => StopTimerOwn(sh, i, t, c);
    case Complete(_) => CompleteOwn(sh, i, t, c);
    case Record(_) => RecordOwn(sh, i, t, c);
    case CloseSession => CloseSessionOwn(sh, i, t, c);
    case CloseDone => CloseDoneOwn(sh, i, t, c);
    case Stopped(_, _) =>
  }

  lemma DoKeepsOthers(sh: Shared, i: nat, t: Thread, c: Choice, j: nat)
    requires At(sh, i, t, c) && j != i
    ensures Rely(sh, Do(sh, i, t, c).0, j)
  {
    match t.pc
    case Ready => StartOthers(sh, i, t, c, j);
    case Watching | AwaitTerminal | Acquire | AwaitReady(_) | Open | PeekSession | AwaitPeek(_) =>
      SessionOthers(sh, i, t, c, j);
    case Publish(_) | MarkDone => PublishOthers(sh, i, t, c, j);
    case CheckCanceled | LockSend | CheckDone | SkipSend | BeginSend => LockOthers(sh, i, t, c, j);
    case Send => SendOthers(sh, i, t, c, j);
    case EndSend(_) | UnlockSend(_) => UnlockOthers(sh, i, t, c, j);
    case CloseRecv(_) => CloseRecvOthers(sh, i, t, c, j);
    case LockClose(_) | UnlockClose(_, _) | LoadTimeout(_, _) | StopTimer(_) => CloseOthers(sh, i, t, c, j);
    case Complete(_) => CompleteOthers(sh, i, t, c, j);
    case Record(_) | CloseSession | CloseDone => FinishOthers(sh, i, t, c, j);
    case Stopped(_, _) =>
  }

  lemma FireKeeps(sh: Shared, j: nat)
    requires SharedInv(sh) && sh.timer.Armed?
    ensures SharedInv(Fire(sh)) && Rely(sh, Fire(sh), j)
  {
  }

  lemma DoFrame(sh: Shared, i: nat, t: Thread, c: Choice)
    requires CanAct(sh, t, c)
    ensures var u := Do(sh, i, t, c).1;
      u.script == t.script && u.gate == t.gate && t.Pos() <= u.Pos() && (t.Begun() ==> u.Begun())
  {
    if OnSendPath(t.pc) || t.pc.Send? {
      SendFrame(sh, i, t, c);
    } else if OnFinishPath(t.pc) {
      FinishFrame(sh, i, t, c);
    }
  }

  lemma SendFrame(sh: Shared, i: nat, t: Thread, c: Choice)
    requires CanAct(sh, t, c) && (OnSendPath(t.pc) || t.pc.Send?)
    ensures var u := Do(sh, i, t, c).1;
      u.script == t.script && u.gate == t.gate && t.Pos() <= u.Pos() && u.Begun()
  {
  }

  lemma FinishFrame(sh: Shared, i: nat, t: Thread, c: Choice)
    requires CanAct(sh, t, c) && OnFinishPath(t.pc)
    ensures var u := Do(sh, i, t, c).1;
      u.script == t.script && u.gate == t.gate && t.Pos() <= u.Pos() && u.Begun()
  {
  }

  /** The attempt this step puts on the wire, if any. */
  function Attempt(sh: Shared, i: nat, t: Thread, c: Choice): Option<Wire>
    requires CanAct(sh, t, c)
  {
    match t.pc
    case Send => Some(Sent(i, OutMsg(sh, t.Current()), c.ok))
    case CloseRecv(_) => Some(Closed(if c.ok then Some(c.reply) else None))
    case _ => None
  }

  predicate OnSendPath(pc: Pc) {
    pc.CheckCanceled? || pc.LockSend? || pc.CheckDone? || pc.SkipSend? || pc.BeginSend? || pc.EndSend? || pc.UnlockSend?
  }

  predicate OnFinishPath(pc: Pc) { pc.Complete? || pc.Record? || pc.CloseSession? || pc.CloseDone? }

  predicate OnClosePath(pc: Pc) {
    pc.LockClose? || pc.UnlockClose? || pc.LoadTimeout? || pc.StopTimer?
  }

  lemma QuietSend(sh: Shared, i: nat, t: Thread, c: Choice)
    requires At(sh, i, t, c) && OnSendPath(t.pc)
    ensures var (b, u) := Do(sh, i, t, c); Trace(b) == Trace(sh) && PhaseOf(b) == PhaseOf(sh) && u.sent == t.sent
  {
  }

  lemma QuietClose(sh: Shared, i: nat, t: Thread, c: Choice)
    requires At(sh, i, t, c) && OnClosePath(t.pc)
    ensures var (b, u) := Do(sh, i, t, c); Trace(b) == Trace(sh) && PhaseOf(b) == PhaseOf(sh) && u.sent == t.sent
  {
  }

  lemma QuietFinish(sh: Shared, i: nat, t: Thread, c: Choice)
    requires At(sh, i, t, c) && OnFinishPath(t.pc)
    ensures var (b, u) := Do(sh, i, t, c); Trace(b) == Trace(sh) && PhaseOf(b) == PhaseOf(sh) && u.sent == t.sent
  {
  }

  lemma QuietStep(sh: Shared, i: nat, t: Thread, c: Choice)
    requires At(sh, i, t, c) && !t.pc.Send? && !t.pc.CloseRecv?
    ensures var (b, u) := Do(sh, i, t, c); Trace(b) == Trace(sh) && PhaseOf(b) == PhaseOf(sh) && u.sent == t.sent
  {
    if OnSendPath(t.pc) {
      QuietSend(sh, i, t, c);
    } else if OnClosePath(t.pc) {
      QuietClose(sh, i, t, c);
    } else if OnFinishPath(t.pc) {
      QuietFinish(sh, i, t, c);
    }
  }

  lemma WireStep(sh: Shared, i: nat, t: Thread, c: Choice)
    requires At(sh, i, t, c) && (t.pc.Send? || t.pc.CloseRecv?)
    ensures var (b, u) := Do(sh, i, t, c);
      var w := Attempt(sh, i, t, c).value;
      && Trace(b) == Trace(sh) + [w] && PhaseOf(b) == PhaseOf(sh).Advance(w)
      && u.sent == t.sent + (if w.IsData() then [w] else [])
      && (w.IsData() ==> w.tid == i && t.HasCall() && t.Current() == Data(w.msg) && PhaseOf(sh).Flowing?)
  {
    assert PlausibleCall(t.script[t.Pos()]);
  }
}
