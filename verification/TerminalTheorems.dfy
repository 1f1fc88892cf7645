/** The promises of the terminal protocol, over every run of any number of goroutines. */
module TerminalTheorems {
  import opened Common
  import opened TerminalMachine
  import opened TerminalInvariant
  import opened TerminalSteps
  import opened TerminalRuns

  // ---- the wire grammar -----------------------------------------------------------------------

  predicate DataOnly(tr: seq<Wire>) { forall k :: 0 <= k < |tr| ==> tr[k].IsData() }

  /** Data*, Data* Terminal, or Data* Terminal Close. */
  predicate WireGrammar(tr: seq<Wire>) {
    || DataOnly(tr)
    || (|tr| >= 1 && DataOnly(tr[..|tr| - 1]) && tr[|tr| - 1].IsEnd())
    || (|tr| >= 2 && DataOnly(tr[..|tr| - 2]) && tr[|tr| - 2].IsEnd() && tr[|tr| - 1].Closed?)
  }

  /** The phase reads the grammar: which of the three forms, and what stands at the end. */
  lemma {:induction false} PhaseGrammar(tr: seq<Wire>)
    ensures PhaseAfter(tr).Flowing? <==> DataOnly(tr)
    ensures forall tid, msg, ok :: PhaseAfter(tr) == Ended(tid, msg, ok) <==>
      (|tr| >= 1 && DataOnly(tr[..|tr| - 1]) && tr[|tr| - 1].IsEnd() && tr[|tr| - 1] == Sent(tid, msg, ok))
    ensures forall tid, msg, ok, reply :: PhaseAfter(tr) == Received(tid, msg, ok, reply) <==>
      (|tr| >= 2 && DataOnly(tr[..|tr| - 2]) && tr[|tr| - 2].IsEnd() && tr[|tr| - 2] == Sent(tid, msg, ok)
       && tr[|tr| - 1] == Closed(reply))
    ensures WireGrammar(tr) <==> !PhaseAfter(tr).Broken?
  {
    if tr != [] {
      var init := tr[..|tr| - 1];
      PhaseGrammar(init);
      assert |tr| >= 2 ==> init[..|init| - 1] == tr[..|tr| - 2];
      assert tr == init + [tr[|tr| - 1]];
    }
  }

  /** Over every run: at most one stream is opened, what is attempted on it follows the grammar, and
      never are two sends in flight. */
  lemma OneOrderedStream(s0: State, events: seq<Event>)
    requires Initial(s0)
    ensures var s := Run(s0, events);
      && s.shared.streams <= 1
      && WireGrammar(Trace(s.shared))
      && 0 <= InFlight(s.shared) <= 1
      && (forall j, k | 0 <= j < |s.threads| && 0 <= k < |s.threads| ::
            HoldsSendMu(s.threads[j].pc) && HoldsSendMu(s.threads[k].pc) ==> j == k)
  {
    Reachable(s0, events);
    PhaseGrammar(Trace(Run(s0, events).shared));
  }

  // ---- the commit ------------------------------------------------------------------------------

  /** The stream ended in meta, sent and closed without error, and the reply holds metadata for rec. */
  predicate StoredOnWire(tr: seq<Wire>, rec: int, meta: RecordMeta) {
    && |tr| >= 2
    && tr[|tr| - 2].Sent? && tr[|tr| - 2].msg.Meta? && tr[|tr| - 2].ok
    && tr[|tr| - 1].Closed? && tr[|tr| - 1].reply.Some?
    && tr[|tr| - 1].reply.value.meta.Some?
    && rec in tr[|tr| - 1].reply.value.meta.value
    && tr[|tr| - 1].reply.value.meta.value[rec] == meta
  }

  /** The crawl log carries exactly this stored record; an error of the caller's own makes it a response. */
  predicate Carries(cl: CrawlLog, meta: RecordMeta, req: Request) {
    && cl.warcId == meta.warcId && cl.collectionFinalName == meta.collectionFinalName
    && cl.storageRef == meta.storageRef && cl.refersTo == meta.refersTo && cl.payloadDigest == meta.payloadDigest
    && cl.size == req.size && cl.blockDigest == req.blockDigest
    && cl.recordType == (if req.originalErr.Some? then "response" else meta.recordType)
  }

  lemma StoredMetaOnWire(s: State, req: Request, meta: RecordMeta)
    requires Inv(s) && s.shared.winner.Some? && s.shared.winner.value.req == req
    ensures StoredMeta(s.shared, req) == Some(meta) <==>
      req.sendMeta && InTime(s.shared) && StoredOnWire(Trace(s.shared), req.recNum, meta)
  {
    PhaseGrammar(Trace(s.shared));
  }

  lemma CommitCarries(env: Env, req: Request, sh: Shared)
    requires env == sh.env
    requires PhaseOf(sh).Received? || sh.cwc.None? || !req.Terminates()
    requires sh.loaded.Some? || sh.cwc.None? || !req.Terminates()
    requires sh.cwc.None? && req.sendMeta ==> sh.cwcErr.Some?
    requires BaseLog(env, req).warcId == ""
    ensures var cl := CommitLog(env, req, Result(sh, req));
      match StoredMeta(sh, req)
      case Some(m) => Carries(cl, m, req)
      case None => cl.warcId == ""
  {
    var res := Result(sh, req);
    if req.sendMeta && sh.cwc.Some? {
      assert res.err.None? <==> PhaseOf(sh).ok && InTime(sh) && res.reply.Some?;
    } else {
      assert StoredMeta(sh, req).None?;
    }
  }

  /** Commit agreement, over every run: CompleteResource is issued at most once, for the elected
      request, and its crawl log carries a record exactly when the stream's terminal was meta, sent
      and closed without error or timeout, and the reply held that record's metadata. Any other
      outcome leaves the WARC id empty. */
  lemma CommitAgreement(s0: State, events: seq<Event>)
    requires Initial(s0)
    ensures var sh := Run(s0, events).shared;
      && |sh.commits| <= 1
      && (sh.commits != [] ==>
            sh.winner.Some? && Elected(Run(s0, events), sh.winner.value) && CommitMatchesWire(sh, sh.commits[0]))
  {
    Reachable(s0, events);
    var s := Run(s0, events);
    var sh := s.shared;
    if sh.commits != [] {
      var w := sh.winner.value;
      assert PlausibleCall(s.threads[w.tid].script[w.pos]);
      assert BaseLog(sh.env, w.req).warcId == "";
      CommitCarries(sh.env, w.req, sh);
      forall m | StoredMeta(sh, w.req) == Some(m)
        ensures w.req.sendMeta && InTime(sh) && StoredOnWire(Trace(sh), w.req.recNum, m)
      {
        StoredMetaOnWire(s, w.req, m);
      }
      if StoredMeta(sh, w.req).None? {
        forall m ensures !(w.req.sendMeta && InTime(sh) && StoredOnWire(Trace(sh), w.req.recNum, m)) {
          StoredMetaOnWire(s, w.req, m);
        }
      }
    }
  }

  ghost predicate CommitMatchesWire(sh: Shared, cl: CrawlLog)
    requires sh.winner.Some?
  {
    var req := sh.winner.value.req;
    || (exists m ::
          req.sendMeta && InTime(sh) && StoredOnWire(Trace(sh), req.recNum, m) && Carries(cl, m, req))
    || (cl.warcId == "" &&
        forall m :: !(req.sendMeta && InTime(sh) && StoredOnWire(Trace(sh), req.recNum, m)))
  }

  /** One caller wins. Every other finished terminal call returned AlreadyCompleted, and none returned
      before the winner had attempted all its terminal operations and closed the session. */
  lemma LosersWait(s0: State, events: seq<Event>, j: nat, p: nat)
    requires Initial(s0)
    requires var s := Run(s0, events); j < |s.threads| && p < s.threads[j].Pos() <= |s.threads[j].script|
    requires Run(s0, events).threads[j].script[p].Finish?
    ensures var s := Run(s0, events); var sh := s.shared;
      && sh.winner.Some? && sh.terminalDone && sh.closeCalls == 1
      && (sh.winner.value.req.Terminates() && sh.cwc.Some? ==> PhaseOf(sh).Received? && CtxCancelled(sh))
      && (sh.commits == [] <==> sh.env.proxyId != 0 && sh.env.requestId == "" && ReportedStatus(sh) == -5011)
      && ((sh.winner.value.tid == j && sh.winner.value.pos == p)
          || s.threads[j].outcomes[p] == Returned(Some(ALREADY_COMPLETED)))
  {
    Reachable(s0, events);
    assert CallsInv(Run(s0, events).shared, j, Run(s0, events).threads[j]);
    CompletedExactly(s0, events);
  }

  /** What a finished terminal call tells its caller. If it brought an error of its own, that error or
      AlreadyCompleted; and no error at all only if it won and, when it was to store, the record is
      stored on the wire. */
  lemma SuccessMeansStored(s0: State, events: seq<Event>, j: nat, p: nat)
    requires Initial(s0)
    requires var s := Run(s0, events); j < |s.threads| && p < s.threads[j].Pos() <= |s.threads[j].script|
    requires Run(s0, events).threads[j].script[p].Finish?
    ensures var s := Run(s0, events); var sh := s.shared; var req := s.threads[j].script[p].req;
      && (req.originalErr.Some? ==>
            s.threads[j].outcomes[p] in {Returned(req.originalErr), Returned(Some(ALREADY_COMPLETED))})
      && (s.threads[j].outcomes[p] == Returned(None) ==>
            && req.originalErr.None? && sh.winner == Some(Win(j, p, req))
            && (req.sendMeta ==> exists m :: InTime(sh) && StoredOnWire(Trace(sh), req.recNum, m)))
  {
    Reachable(s0, events);
    var s := Run(s0, events);
    var sh := s.shared;
    assert CallsInv(sh, j, s.threads[j]);
    var w := sh.winner.value;
    if w.tid == j && w.pos == p && w.req.sendMeta && w.req.originalErr.None?
      && s.threads[j].outcomes[p] == Returned(None) {
      SettledIsStored(sh, w.req);
      StoredMetaOnWire(s, w.req, StoredMeta(sh, w.req).value);
    }
  }

  lemma SettledIsStored(sh: Shared, req: Request)
    requires Settled(sh, req) && req.sendMeta
    ensures StoredMeta(sh, req).Some?
  {
    assert Result(sh, req).Terminated? && Result(sh, req).err.None?;
  }

  // ---- what the browser controller is told ----------------------------------------------------------

  /** The crawl log a terminal call starts from: its own, else the context's, else an empty one. */
  function Original(sh: Shared): CrawlLog
    requires sh.winner.Some?
  {
    match (sh.winner.value.req.crawlLog, sh.env.crawlLog)
    case (Some(cl), _) => cl
    case (None, Some(cl)) => cl
    case (None, None) => EMPTY_LOG
  }

  /** The elected call was to store, and no record for it is stored on the wire. */
  ghost predicate StoringFailed(sh: Shared)
    requires sh.winner.Some?
  {
    var req := sh.winner.value.req;
    req.sendMeta && forall m :: !(InTime(sh) && StoredOnWire(Trace(sh), req.recNum, m))
  }

  /** The elected call was to cancel, and the stream could not be opened, or its cancellation was not sent, not
      answered or too late. */
  predicate CancelFailed(sh: Shared)
    requires sh.winner.Some?
  {
    var req, tr := sh.winner.value.req, Trace(sh);
    && !req.sendMeta && req.cancelMessage != ""
    && (if sh.cwc.None? then sh.cwcErr.Some?
        else !(&& InTime(sh) && |tr| >= 2 && tr[|tr| - 2].Sent? && tr[|tr| - 2].ok
               && tr[|tr| - 1].Closed? && tr[|tr| - 1].reply.Some?))
  }

  /** The status the completion would report: the caller's own error first, then a runtime exception when storing or
      cancelling failed, else the status of the crawl log. */
  ghost function ReportedStatus(sh: Shared): int
    requires sh.winner.Some?
  {
    if sh.winner.value.req.originalErr.Some? then sh.winner.value.req.originalErr.value.code
    else if StoringFailed(sh) || CancelFailed(sh) then -5
    else Original(sh).statusCode
  }

  /** The crawl log tells of an error, as of a response without content type. */
  predicate Tells(cl: CrawlLog, err: Error) {
    cl.error == Some(err) && cl.statusCode == err.code && cl.recordType == "response" && cl.contentType == ""
  }

  /** What the winner's Judge step decides, in terms of the wire. */
  ghost predicate Decided(sh: Shared)
    requires sh.winner.Some?
  {
    var req := sh.winner.value.req;
    var (cl, terr) := Judge(sh.env, req, Result(sh, req));
    && BaseLog(sh.env, req) == Original(sh)
    && cl.error == Original(sh).error && cl.statusCode == Original(sh).statusCode
    && cl.contentType == Original(sh).contentType && (!req.sendMeta ==> cl == Original(sh))
    && terr == (if StoringFailed(sh) then Some(WRITE_ERROR)
                else if CancelFailed(sh) && req.originalErr.None? then Some(CANCEL_ERROR)
                else None)
  }

  lemma JudgedByWire(s: State)
    requires Inv(s) && s.shared.winner.Some? && Cleared(s.shared)
    ensures Decided(s.shared)
  {
    if s.shared.winner.value.req.sendMeta {
      StoringByWire(s);
    } else {
      CancelByWire(s);
    }
  }

  lemma StoringByWire(s: State)
    requires Inv(s) && s.shared.winner.Some? && Cleared(s.shared) && s.shared.winner.value.req.sendMeta
    ensures Decided(s.shared)
  {
    var sh := s.shared;
    var req := sh.winner.value.req;
    JudgeStores(sh, req);
    if StoredMeta(sh, req).Some? {
      StoredMetaOnWire(s, req, StoredMeta(sh, req).value);
    } else {
      forall m ensures !(InTime(sh) && StoredOnWire(Trace(sh), req.recNum, m)) {
        StoredMetaOnWire(s, req, m);
      }
    }
  }

  lemma CancelByWire(s: State)
    requires Inv(s) && s.shared.winner.Some? && Cleared(s.shared) && !s.shared.winner.value.req.sendMeta
    ensures Decided(s.shared)
  {
    PhaseGrammar(Trace(s.shared));
  }

  /** The completion tells the browser controller of a failure exactly when there is one: a caller's own error goes
      first, then a failed storing or cancelling; without any, the crawl log keeps its own error and status. */
  lemma FailureIsReported(s0: State, events: seq<Event>)
    requires Initial(s0) && Run(s0, events).shared.commits != []
    ensures Run(s0, events).shared.winner.Some?
    ensures var sh := Run(s0, events).shared; var cl := sh.commits[0]; var req := sh.winner.value.req;
      if req.originalErr.Some? then Tells(cl, req.originalErr.value)
      else if StoringFailed(sh) then Tells(cl, Error(-5, "Error writing to content writer"))
      else if CancelFailed(sh) then Tells(cl, Error(-5, "Error canceling content writer"))
      else && cl.error == Original(sh).error && cl.statusCode == Original(sh).statusCode
           && cl.contentType == Original(sh).contentType && (!req.sendMeta ==> cl == Original(sh))
  {
    Reachable(s0, events);
    JudgedByWire(Run(s0, events));
  }

  /** When CompleteResource is issued: once, unless the request was never registered with the browser controller and
      the client went away, or the crawl log says so. */
  lemma CompletedExactly(s0: State, events: seq<Event>)
    requires Initial(s0) && Run(s0, events).shared.terminalDone
    ensures var sh := Run(s0, events).shared;
      && sh.winner.Some?
      && |sh.commits| == if sh.env.proxyId != 0 && sh.env.requestId == "" && ReportedStatus(sh) == -5011 then 0 else 1
  {
    Reachable(s0, events);
    JudgedByWire(Run(s0, events));
  }

  /** So a registered request is always completed. */
  lemma RegisteredIsCompleted(s0: State, events: seq<Event>)
    requires Initial(s0) && Run(s0, events).shared.terminalDone
    requires Run(s0, events).shared.env.proxyId == 0 || Run(s0, events).shared.env.requestId != ""
    ensures |Run(s0, events).shared.commits| == 1
  {
    CompletedExactly(s0, events);
  }

  lemma JudgeStores(sh: Shared, req: Request)
    requires req.sendMeta && Cleared(sh) && sh.winner.value.req == req
    ensures var (cl, terr) := Judge(sh.env, req, Result(sh, req));
      if StoredMeta(sh, req).Some? then
        terr.None? && cl.error == BaseLog(sh.env, req).error && cl.statusCode == BaseLog(sh.env, req).statusCode
        && cl.contentType == BaseLog(sh.env, req).contentType
      else cl == BaseLog(sh.env, req) && terr == Some(WRITE_ERROR)
  {
    var res := Result(sh, req);
    if sh.cwc.Some? {
      assert res.err.None? <==> PhaseOf(sh).ok && InTime(sh) && res.reply.Some?;
    }
  }

  // ---- no stream leak ----------------------------------------------------------------------------

  /** The winner is done, and its request was one that terminates the writer. */
  predicate Sealed(s: State) {
    Inv(s) && s.shared.terminalDone && s.shared.winner.value.req.Terminates()
  }

  /** Once sealed, no step opens a stream. */
  lemma DoOpensNothing(sh: Shared, i: nat, t: Thread, c: Choice)
    requires At(sh, i, t, c) && sh.terminalDone && sh.winner.value.req.Terminates()
    ensures var b := Do(sh, i, t, c).0; b.streams == sh.streams && b.terminalDone
  {
  }

  lemma StepKeepsSealed(s: State, e: Event)
    requires Sealed(s)
    ensures Sealed(Step(s, e)) && Step(s, e).shared.streams == s.shared.streams
  {
    StepKeeps(s, e);
    if Enabled(s, e) && e.Act? {
      DoOpensNothing(s.shared, e.tid, s.threads[e.tid], e.choice);
      WinnerStable(s.shared, e.tid, s.threads[e.tid], e.choice);
    }
  }

  lemma {:induction false} RunKeepsSealed(s: State, events: seq<Event>)
    requires Sealed(s)
    ensures Sealed(Run(s, events)) && Run(s, events).shared.streams == s.shared.streams
    decreases |events|
  {
    if events != [] {
      StepKeepsSealed(s, events[0]);
      RunKeepsSealed(Step(s, events[0]), events[1..]);
    }
  }

  /** When the winner sends meta or has a nonempty cancel message: once terminalDone is closed, every
      stream ever opened has been closed by CloseAndRecv and its context cancelled, none is being
      opened, and none is opened in any continuation of the run. */
  lemma NoStreamLeak(s0: State, events: seq<Event>, more: seq<Event>)
    requires Initial(s0)
    requires var sh := Run(s0, events).shared; sh.terminalDone && sh.winner.Some? && sh.winner.value.req.Terminates()
    ensures var sh := Run(s0, events).shared;
      && sh.streams == (if sh.cwc.Some? then 1 else 0)
      && !sh.cwcCreating
      && (sh.cwc.Some? ==> Trace(sh) != [] && Trace(sh)[|Trace(sh)| - 1].Closed? && CtxCancelled(sh))
      && Run(Run(s0, events), more).shared.streams == sh.streams
  {
    Reachable(s0, events);
    PhaseGrammar(Trace(Run(s0, events).shared));
    RunKeepsSealed(Run(s0, events), more);
  }

  /** A stream is open, its context is not cancelled, and everyone who could close it has finished. */
  predicate Leaks(s: State) {
    && s.shared.terminalDone && s.shared.cwc.Some? && !CtxCancelled(s.shared)
    && (forall j :: 0 <= j < |s.threads| ==> s.threads[j].Settled())
  }

  /** One sender and one terminal call. */
  function SenderAndTerminal(req: Request): State {
    State(Shared(Env(0, "", None), false, false, None, false, false, None, None, false, 0, {}, map[],
                 Off, None, None, 0, None, [], 0),
          [Thread([Data(Header(0, []))], None, [], Ready, []), Thread([Finish(req)], None, [], Ready, [])])
  }

  const YES := Choice(true, Reply(None), false)

  lemma {:induction false} RunSnoc(s: State, events: seq<Event>, e: Event)
    ensures Run(s, events + [e]) == Step(Run(s, events), e)
    decreases |events|
  {
    if events == [] {
      assert Run(s, [e]) == Run(Step(s, e), []);
    } else {
      assert (events + [e])[1..] == events[1..] + [e];
      RunSnoc(Step(s, events[0]), events[1..], e);
    }
  }

  /** Extend a run by one step of goroutine i. */
  lemma Take(s0: State, events: seq<Event>, s: State, i: nat) returns (longer: seq<Event>)
    requires Run(s0, events) == s
    ensures Run(s0, longer) == Step(s, Act(i, YES))
  {
    longer := events + [Act(i, YES)];
    RunSnoc(s0, events, Act(i, YES));
  }

  lemma SenderOpens(req: Request) returns (events: seq<Event>, s: State)
    ensures Run(SenderAndTerminal(req), events) == s
    ensures var s0 := SenderAndTerminal(req);
      s == s0.(shared := s.shared, threads := s0.threads[0 := s0.threads[0].(pc := CheckCanceled)])
    ensures s.shared.cwc == Some(NEW_SESSION) && !s.shared.done && !s.shared.closed
  {
    var s0 := SenderAndTerminal(req);
    events := [];
    s := s0;
    events := Take(s0, events, s, 0); s := Run(s0, events); assert s.threads[0].pc == Acquire;
    events := Take(s0, events, s, 0); s := Run(s0, events); assert s.threads[0].pc == Open;
    events := Take(s0, events, s, 0); s := Run(s0, events); assert s.threads[0].pc == Publish(true);
    events := Take(s0, events, s, 0); s := Run(s0, events);
  }

  /** The send path of an undisturbed sender. */
  lemma SendStep(s: State, t: Thread, next: Pc)
    requires |s.threads| == 2 && s.threads[0] == t && t.gate.None? && t.HasCall() && t.Current().Data?
    requires s.shared.cwc.Some? && !s.shared.cwc.value.done && !s.shared.cwc.value.canceled
    requires t.pc.LockSend? ==> s.shared.cwc.value.sendMu.None?
    requires (t.pc, next) in {(CheckCanceled, LockSend), (LockSend, CheckDone), (CheckDone, BeginSend),
                              (BeginSend, Send), (Send, EndSend(true)), (EndSend(true), UnlockSend(true)),
                              (UnlockSend(true), Ready)}
    ensures var r := Step(s, Act(0, YES)); var u := r.threads[0];
      && |r.threads| == 2 && r.threads[1] == s.threads[1] && u.pc == next && u.script == t.script && u.gate == t.gate
      && u.Pos() == (if next.Ready? then t.Pos() + 1 else t.Pos())
      && r.shared == s.shared.(cwc := r.shared.cwc) && r.shared.cwc.Some?
      && r.shared.cwc.value.done == s.shared.cwc.value.done
      && r.shared.cwc.value.canceled == s.shared.cwc.value.canceled
      && CtxCancelled(r.shared) == CtxCancelled(s.shared)
      && (t.pc.CheckCanceled? ==> r.shared.cwc == s.shared.cwc)
  {
    assert Fits(t);
  }

  lemma SenderFinishes(req: Request) returns (events: seq<Event>, s: State)
    ensures Run(SenderAndTerminal(req), events) == s
    ensures |s.threads| == 2 && s.threads[1] == SenderAndTerminal(req).threads[1] && s.threads[0].Settled()
    ensures s.shared.cwc.Some? && !CtxCancelled(s.shared) && !s.shared.done
  {
    var s0 := SenderAndTerminal(req);
    events, s := SenderOpens(req);
    SendStep(s, s.threads[0], LockSend); events := Take(s0, events, s, 0); s := Run(s0, events);
    SendStep(s, s.threads[0], CheckDone); events := Take(s0, events, s, 0); s := Run(s0, events);
    SendStep(s, s.threads[0], BeginSend); events := Take(s0, events, s, 0); s := Run(s0, events);
    SendStep(s, s.threads[0], Send); events := Take(s0, events, s, 0); s := Run(s0, events);
    SendStep(s, s.threads[0], EndSend(true)); events := Take(s0, events, s, 0); s := Run(s0, events);
    SendStep(s, s.threads[0], UnlockSend(true)); events := Take(s0, events, s, 0); s := Run(s0, events);
    SendStep(s, s.threads[0], Ready); events := Take(s0, events, s, 0); s := Run(s0, events);
  }

  lemma ClaimStep(s: State, req: Request)
    requires |s.threads| == 2 && s.threads[1] == SenderAndTerminal(req).threads[1] && !req.Terminates()
      && !s.shared.done
    ensures var r := Step(s, Act(1, YES));
      && |r.threads| == 2 && r.threads[0] == s.threads[0] && r.threads[1] == s.threads[1].(pc := Complete(Skipped))
      && r.shared.cwc == s.shared.cwc
  {
  }

  /** The tail of coordinateTerminal leaves the stream alone. */
  lemma FinishStep(s: State, t: Thread)
    requires |s.threads| == 2 && s.threads[1] == t && t.gate.None? && t.HasCall() && t.Current().Finish?
    requires t.pc.Complete? || t.pc.Record? || t.pc.CloseSession? || t.pc.CloseDone?
    ensures var r := Step(s, Act(1, YES));
      && r.shared.cwc == s.shared.cwc && |r.threads| == 2 && r.threads[0] == s.threads[0]
      && (if t.pc.CloseDone? then r.threads[1].Pos() == t.Pos() + 1 && r.threads[1].pc == Ready
                                  && r.threads[1].script == t.script && r.shared.terminalDone
          else r.threads[1] == t.(pc := r.threads[1].pc)
               && (match t.pc
                   case Complete(_) => r.threads[1].pc.Record?
                   case Record(_) => r.threads[1].pc.CloseSession?
                   case _ => r.threads[1].pc.CloseDone?))
  {
    assert Fits(t);
  }

  /** The terminal call up to the point where it has left the stream behind. */
  lemma TerminalPassesStream(req: Request) returns (events: seq<Event>, s: State)
    requires !req.Terminates()
    ensures Run(SenderAndTerminal(req), events) == s
    ensures |s.threads| == 2 && s.threads[0].Settled() && s.shared.cwc.Some? && !CtxCancelled(s.shared)
    ensures s.threads[1] == SenderAndTerminal(req).threads[1].(pc := s.threads[1].pc) && s.threads[1].pc.CloseSession?
  {
    var s0 := SenderAndTerminal(req);
    events, s := SenderFinishes(req);
    ClaimStep(s, req); events := Take(s0, events, s, 1); s := Run(s0, events);
    FinishStep(s, s.threads[1]); events := Take(s0, events, s, 1); s := Run(s0, events);
    FinishStep(s, s.threads[1]); events := Take(s0, events, s, 1); s := Run(s0, events);
  }

  /** A sender opens the stream, then a terminal call without cancel message finishes: nobody is left
      to close the stream. */
  lemma EmptyMessageLeaks(req: Request)
    requires !req.Terminates() && PlausibleCall(Finish(req))
    ensures exists events :: Initial(SenderAndTerminal(req)) && Leaks(Run(SenderAndTerminal(req), events))
  {
    var s0 := SenderAndTerminal(req);
    var events, s := TerminalPassesStream(req);
    FinishStep(s, s.threads[1]); events := Take(s0, events, s, 1); s := Run(s0, events);
    FinishStep(s, s.threads[1]); events := Take(s0, events, s, 1); s := Run(s0, events);
    assert InitialThread(s0.threads[0]) && InitialThread(s0.threads[1]);
    assert Leaks(Run(s0, events));
  }

  /** Every terminal call carries req. */
  predicate OnlyRequest(s: State, req: Request) {
    forall j, k | 0 <= j < |s.threads| && 0 <= k < |s.threads[j].script| ::
      IsTerminal(s.threads[j].script[k]) ==> s.threads[j].script[k].req == req
  }

  lemma LeakNeedsAnother(s0: State, events: seq<Event>, req: Request)
    requires Initial(s0) && Leaks(Run(s0, events)) && req.Terminates()
    ensures !OnlyRequest(s0, req)
  {
    Reachable(s0, events);
    InitialInv(s0);
    RunScripts(s0, events);
    var s := Run(s0, events);
    var w := s.shared.winner.value;
    assert Elected(s, w) && !w.req.Terminates();
    assert s.threads[w.tid].script == s0.threads[w.tid].script;
  }

  /** The hypothesis of NoStreamLeak is exact: a terminal request can leave a stream behind if and only
      if it neither sends meta nor has a cancel message. */
  lemma LeakIff(req: Request)
    requires PlausibleCall(Finish(req))
    ensures !req.Terminates() <==>
      exists s0, events ::
        && Initial(s0)
        && Leaks(Run(s0, events))
        && OnlyRequest(s0, req)
  {
    if !req.Terminates() {
      EmptyMessageLeaks(req);
      var s0 := SenderAndTerminal(req);
      assert OnlyRequest(s0, req);
    } else {
      forall s0, events | Initial(s0) && Leaks(Run(s0, events)) ensures !OnlyRequest(s0, req) {
        LeakNeedsAnother(s0, events, req);
      }
    }
  }

  lemma {:induction false} RunScripts(s: State, events: seq<Event>)
    requires Inv(s)
    ensures var r := Run(s, events);
      |r.threads| == |s.threads| && forall j :: 0 <= j < |s.threads| ==> r.threads[j].script == s.threads[j].script
    decreases |events|
  {
    if events != [] {
      StepKeeps(s, events[0]);
      if Enabled(s, events[0]) && events[0].Act? {
        DoFrame(s.shared, events[0].tid, s.threads[events[0].tid], events[0].choice);
      }
      RunScripts(Step(s, events[0]), events[1..]);
    }
  }
}


