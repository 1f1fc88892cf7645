/** The one-shot tracker of the initial page load: waiting ends when no frame is loading, when a waiter's
    context ends, or by cancellation, whichever comes first, and that outcome is everybody's. */
module FrameLoad {
  import opened Common

  /** The error a Wait returns; Nil is Go's nil. */
  datatype Outcome = Nil | Error(code: nat)

  const CANCELED := Error(0)

  /** done is closed when finished is set; closings counts how often. */
  datatype Tracker = Tracker(loading: set<string>, waiting: bool, finished: bool, result: Outcome, closings: nat) {
    function FinishWith(outcome: Outcome): Tracker {
      if finished then this else this.(finished := true, result := outcome, closings := closings + 1)
    }

    predicate Accepts(frame: string) { |frame| > 0 && !finished }

    function Start(frame: string): Tracker {
      if Accepts(frame) then this.(loading := loading + {frame}) else this
    }

    function Finish(frame: string): Tracker {
      if Accepts(frame) && frame in loading then
        var t := this.(loading := loading - {frame});
        if waiting && t.loading == {} then t.FinishWith(Nil) else t
      else this
    }

    /** The locked part of Wait; contextError is the context's error at that moment. */
    function BeginWait(contextError: Option<Outcome>): Tracker {
      if finished then this
      else if contextError.Some? then FinishWith(contextError.value)
      else if loading == {} then this.(waiting := true).FinishWith(Nil)
      else this.(waiting := true)
    }

    function Cancel(outcome: Outcome): Tracker { FinishWith(if outcome.Nil? then CANCELED else outcome) }
  }

  const NEW_TRACKER := Tracker({}, false, false, Nil, 0)

  class FrameLoadTracker {
    var loading: set<string>
    var waiting: bool
    var finished: bool
    var result: Outcome
    ghost var closings: nat

    ghost function View(): Tracker reads this { Tracker(loading, waiting, finished, result, closings) }

    constructor ()
      ensures View() == NEW_TRACKER
    {
      loading, waiting, finished, result, closings := {}, false, false, Nil, 0;
    }

    method Start(frame: string) returns (tracked: bool)
      modifies this`loading
      ensures View() == old(View()).Start(frame)
      ensures tracked <==> |frame| > 0 && !finished && frame !in old(loading)
      ensures loading == old(loading) + if |frame| > 0 && !finished then {frame} else {}
    {
      if |frame| == 0 || finished || frame in loading {
        assert frame in loading ==> loading + {frame} == loading;
        return false;
      }
      loading := loading + {frame};
      tracked := true;
    }

    method Finish(frame: string) returns (tracked: bool)
      modifies this
      ensures View() == old(View()).Finish(frame)
      ensures tracked <==> |frame| > 0 && !old(finished) && frame in old(loading)
      ensures loading == old(loading) - if tracked then {frame} else {}
      ensures finished <==> old(finished) || (tracked && waiting && loading == {})
      ensures result == if finished && !old(finished) then Nil else old(result)
    {
      if |frame| == 0 || finished || frame !in loading {
        return false;
      }
      loading := loading - {frame};
      if waiting && |loading| == 0 {
        var _ := FinishLocked(Nil);
      }
      tracked := true;
    }

    method FinishLocked(outcome: Outcome) returns (first: Outcome)
      modifies this`finished, this`result, this`closings
      ensures View() == old(View()).FinishWith(outcome)
      ensures finished && first == result == if old(finished) then old(result) else outcome
    {
      if finished {
        return result;
      }
      finished, result := true, outcome;
      closings := closings + 1;
      first := outcome;
    }

    /** Wait up to its select: the outcome, or None when it must block. */
    method BeginWait(contextError: Option<Outcome>) returns (outcome: Option<Outcome>)
      modifies this
      ensures View() == old(View()).BeginWait(contextError)
      ensures outcome == if finished then Some(result) else None
      ensures finished <==> old(finished) || contextError.Some? || loading == {}
      ensures finished && !old(finished) ==> result == if contextError.Some? then contextError.value else Nil
      ensures old(finished) ==> result == old(result)
      ensures waiting <==> old(waiting) || !(old(finished) || contextError.Some?)
    {
      if finished {
        return Some(result);
      }
      var first;
      if contextError.Some? {
        first := FinishLocked(contextError.value);
        return Some(first);
      }
      waiting := true;
      if |loading| == 0 {
        first := FinishLocked(Nil);
        return Some(first);
      }
      outcome := None;
    }

    method Cancel(outcome: Outcome)
      modifies this`finished, this`result, this`closings
      ensures View() == old(View()).Cancel(outcome)
      ensures finished && result == if old(finished) then old(result) else if outcome.Nil? then CANCELED else outcome
    {
      var _ := FinishLocked(if outcome.Nil? then CANCELED else outcome);
    }
  }

  // ---- any number of waiters -------------------------------------------------------------------------

  /** A Wait call: blocked in its select; done fired, the result not yet read; its context fired, with an
      error not yet reported; returned. */
  datatype Waiter = Blocked | DoneSeen | ContextEnded(contextError: Outcome) | Returned(outcome: Outcome)

  datatype State = State(tracker: Tracker, waiters: seq<Waiter>)

  datatype Event =
    | Start(frame: string)
    | Finish(frame: string)
    | Cancel(outcome: Outcome)
    | Wait(ended: Option<Outcome>)      // a new call, and the error of its context
    | DoneFires(w: nat)
    | ContextFires(w: nat, contextError: Outcome)
    | Report(w: nat)

  predicate Enabled(s: State, e: Event) {
    match e
    case Start(_) => true
    case Finish(_) => true
    case Cancel(_) => true
    case Wait(err) => err.Some? ==> err.value.Error?
    case DoneFires(w) => w < |s.waiters| && s.waiters[w].Blocked? && s.tracker.finished
    case ContextFires(w, err) => w < |s.waiters| && s.waiters[w].Blocked? && err.Error?
    case Report(w) => w < |s.waiters| && (s.waiters[w].DoneSeen? || s.waiters[w].ContextEnded?)
  }

  function Step(s: State, e: Event): State {
    if !Enabled(s, e) then s
    else match e
      case Start(frame) => s.(tracker := s.tracker.Start(frame))
      case Finish(frame) => s.(tracker := s.tracker.Finish(frame))
      case Cancel(outcome) => s.(tracker := s.tracker.Cancel(outcome))
      case Wait(err) =>
        var t := s.tracker.BeginWait(err);
        State(t, s.waiters + [if t.finished then Returned(t.result) else Blocked])
      case DoneFires(w) => s.(waiters := s.waiters[w := DoneSeen])
      case ContextFires(w, err) => s.(waiters := s.waiters[w := ContextEnded(err)])
      case Report(w) =>
        if s.waiters[w].DoneSeen? then s.(waiters := s.waiters[w := Returned(s.tracker.result)])
        else
          var t := s.tracker.FinishWith(s.waiters[w].contextError);
          State(t, s.waiters[w := Returned(t.result)])
  }

  function Run(s: State, events: seq<Event>): State
    decreases |events|
  {
    if events == [] then s else Run(Step(s, events[0]), events[1..])
  }

  const START := State(NEW_TRACKER, [])

  ghost predicate WaiterInv(t: Tracker, w: Waiter) {
    match w
    case Blocked => t.waiting
    case DoneSeen => t.finished
    case ContextEnded(err) => err.Error?
    case Returned(outcome) => t.finished && outcome == t.result
  }

  ghost predicate TrackerInv(t: Tracker) {
    && (t.waiting && !t.finished ==> t.loading != {})
    && t.closings == (if t.finished then 1 else 0)
    && (t.finished && t.result.Nil? ==> t.waiting && t.loading == {})
  }

  ghost predicate Inv(s: State) {
    TrackerInv(s.tracker) && forall w :: 0 <= w < |s.waiters| ==> WaiterInv(s.tracker, s.waiters[w])
  }

  /** The tracker only moves forward, and not at all once it is finished. */
  lemma TrackerStep(s: State, e: Event)
    requires Inv(s)
    ensures TrackerInv(Step(s, e).tracker)
    ensures s.tracker.waiting ==> Step(s, e).tracker.waiting
    ensures s.tracker.finished ==> Step(s, e).tracker == s.tracker
  {
    if e.Start? && s.tracker.Accepts(e.frame) {
      assert e.frame in Step(s, e).tracker.loading;
    }
  }

  lemma StepKeeps(s: State, e: Event)
    requires Inv(s)
    ensures Inv(Step(s, e))
  {
    TrackerStep(s, e);
  }

  lemma {:induction false} RunKeeps(s: State, events: seq<Event>)
    requires Inv(s)
    ensures Inv(Run(s, events))
    ensures s.tracker.finished ==> Run(s, events).tracker == s.tracker
    decreases |events|
  {
    if events != [] {
      TrackerStep(s, events[0]);
      StepKeeps(s, events[0]);
      RunKeeps(Step(s, events[0]), events[1..]);
    }
  }

  /** While somebody waits and nothing is decided, some frame is loading; done is closed once, by the
      decision; and a nil decision means that waiting had begun and no frame was loading, as it then stays. */
  lemma WaitingMeansLoading(events: seq<Event>)
    ensures var t := Run(START, events).tracker;
      && (t.waiting && !t.finished ==> t.loading != {})
      && t.closings == (if t.finished then 1 else 0)
      && (t.finished && t.result.Nil? ==> t.waiting && t.loading == {})
  {
    RunKeeps(START, events);
  }

  /** No waiter is left behind: one still blocked after the decision can be woken. */
  lemma BlockedCanWake(events: seq<Event>, w: nat)
    requires w < |Run(START, events).waiters| && Run(START, events).waiters[w].Blocked?
    ensures var s := Run(START, events); s.tracker.loading == {} ==> Enabled(s, DoneFires(w))
  {
    RunKeeps(START, events);
    assert WaiterInv(Run(START, events).tracker, Run(START, events).waiters[w]);
  }

  /** A waiter whose context ends first returns: with that error, unless the outcome was decided before it reports. */
  lemma ContextEndsWait(s: State, w: nat, err: Outcome)
    requires Enabled(s, ContextFires(w, err))
    ensures var r := Step(Step(s, ContextFires(w, err)), Report(w));
      && w < |r.waiters| && r.waiters[w] == Returned(r.tracker.result) && r.tracker.finished
      && (!s.tracker.finished ==> r.tracker.result == err) && (s.tracker.finished ==> r.tracker == s.tracker)
  {
  }

  lemma {:induction false} RunAppends(s: State, events: seq<Event>, more: seq<Event>)
    ensures Run(s, events + more) == Run(Run(s, events), more)
    decreases |events|
  {
    if events == [] {
      assert events + more == more;
    } else {
      assert (events + more)[1..] == events[1..] + more;
      RunAppends(Step(s, events[0]), events[1..], more);
    }
  }

  /** One shot: after a Wait has returned, every other Wait, whenever it returns, returns the same outcome,
      and no later event changes the tracker. */
  lemma OneOutcome(events: seq<Event>, more: seq<Event>, v: nat, w: nat)
    requires v < |Run(START, events).waiters| && Run(START, events).waiters[v].Returned?
    requires w < |Run(START, events + more).waiters| && Run(START, events + more).waiters[w].Returned?
    ensures Run(START, events + more).waiters[w].outcome == Run(START, events).waiters[v].outcome
    ensures Run(START, events + more).tracker == Run(START, events).tracker
  {
    RunKeeps(START, events);
    RunAppends(START, events, more);
    RunKeeps(Run(START, events), more);
    assert WaiterInv(Run(START, events).tracker, Run(START, events).waiters[v]);
    assert WaiterInv(Run(START, events + more).tracker, Run(START, events + more).waiters[w]);
  }

  /** The first decision: some event turned the tracker from undecided to its outcome, and an outcome of nil
      was decided by a Wait that found no frame, or by the end of the last frame. */
  lemma {:induction false} NilNeedsQuiet(events: seq<Event>)
    requires Run(START, events).tracker.finished
    ensures exists n :: 0 <= n < |events| && Decides(events, n, Run(START, events).tracker.result)
  {
    var init, e := events[..|events| - 1], events[|events| - 1];
    assert events == init + [e];
    RunAppends(START, init, [e]);
    RunKeeps(START, init);
    if Run(START, init).tracker.finished {
      TrackerStep(Run(START, init), e);
      NilNeedsQuiet(init);
      var n :| 0 <= n < |init| && Decides(init, n, Run(START, init).tracker.result);
      assert init[..n] == events[..n] && init[n] == events[n];
      assert Decides(events, n, Run(START, events).tracker.result);
    } else {
      assert events[..|events| - 1] == init;
      assert Decides(events, |events| - 1, Run(START, events).tracker.result);
    }
  }

  ghost predicate Decides(events: seq<Event>, n: nat, outcome: Outcome)
    requires n < |events|
  {
    var s, e := Run(START, events[..n]), events[n];
    && !s.tracker.finished && Step(s, e).tracker.finished && Step(s, e).tracker.result == outcome
    && (outcome.Nil? <==>
          || (e.Wait? && e.ended.None? && s.tracker.loading == {})
          || (e.Finish? && s.tracker.waiting && s.tracker.loading == {e.frame}))
  }
}
