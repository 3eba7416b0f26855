/** The parts of the invariant about one queue epoch and about reply routing. */
module PipelineEpoch {
  import opened AuthTypes
  import Q = DispatchQueue
  import QI = DispatchQueueInvariant
  import P = AuthPam
  import X = AuthProxy
  import opened Pipeline
  import opened PipelineInvariant
  import opened PipelineSteps
  import opened PipelineFlight

  // ----- one epoch of the queue

  lemma {:induction false} PamPartOfOthers(es: seq<Entry>)
    requires forall e :: e in es ==> !e.src.PamEventOf?
    ensures PamPart(es) == []
    decreases |es|
  {
    if es != [] {
      PamPartOfOthers(es[..|es| - 1]);
    }
  }

  lemma PamPartOfForwarded(e: PamEvent, run: nat)
    ensures PamPart(Tagged(ForwardedOne(e), PamEventOf(run))) == ForwardedOne(e)
  {
    var es := Tagged(ForwardedOne(e), PamEventOf(run));
    assert es == [] || es[..0] == [];
  }

  lemma ForwardedSingle(e: PamEvent)
    ensures Forwarded([e]) == ForwardedOne(e)
  {
    assert [e][..0] == [];
  }

  /** The events one activation takes out of the pipe. */
  function Taken(s: Sys): seq<PamEvent> {
    s.toParent[..if s.toParent == [] then 0 else 1]
  }

  lemma NewPamPart(s: Sys)
    ensures PamPart(NewEntries(s)) == Forwarded(Taken(s))
  {
    if s.toParent == [] {
      PamPartOfOthers(NewEntries(s));
    } else {
      ForwardedSingle(s.toParent[0]);
      assert Taken(s) == [s.toParent[0]];
      if s.toParent[0].Complete? {
        PamPartOfOthers(NewEntries(s));
      } else {
        PamPartOfForwarded(s.toParent[0], s.h.run);
      }
    }
  }

  lemma {:induction false} FifoStep(epoch: seq<Entry>, more: seq<Entry>, received: seq<PamEvent>, taken: seq<PamEvent>)
    requires PamPart(epoch) == Forwarded(received) && PamPart(more) == Forwarded(taken)
    ensures PamPart(epoch + more) == Forwarded(received + taken)
  {
    PamPartConcat(epoch, more);
    ForwardedConcat(received, taken);
  }

  lemma FifoKeptByTaking(s: Sys, s': Sys)
    requires Takes(s, s') && Epoch(s') == Epoch(s) + NewEntries(s)
    requires PamPart(Epoch(s)) == Forwarded(s.h.received)
    ensures PamPart(Epoch(s')) == Forwarded(s'.h.received)
  {
    NewPamPart(s);
    FifoStep(Epoch(s), NewEntries(s), s.h.received, Taken(s));
  }

  lemma ClosedByPlain(es: seq<Entry>, more: seq<Entry>, run: nat, done: bool)
    requires ClosedBy(es, run, done)
    requires forall e :: e in more ==> !e.msg.Completion?
    requires (exists e :: e in es && e.msg.Completion?) ==> forall e :: e in more ==> e.src == ServiceSession("")
    ensures ClosedBy(es + more, run, done)
  {
  }

  lemma ClosedByClosing(es: seq<Entry>, run: nat, authRes: bool)
    requires ClosedBy(es, run, false)
    ensures ClosedBy(es + Closing(run, authRes), run, true)
  {
  }

  lemma NothingTaken(s: Sys)
    requires s.pam.inAuthenticating && ControlInv(s) && RunInv(s) && CountInv(s) && s.h.completions == 1
    ensures s.toParent == [] && !Completes(s) && NewEntries(s) == []
  {
    NothingAfterCompletion(s);
  }

  lemma ClosingTaken(s: Sys) returns (authRes: bool)
    requires Completes(s)
    ensures NewEntries(s) == Closing(s.h.run, authRes)
  {
    authRes := if s.toParent != [] then s.toParent[0].authResult else s.pam.isAuthenticated;
  }

  lemma PlainTaken(s: Sys)
    requires !Completes(s)
    ensures forall e :: e in NewEntries(s) ==> !e.msg.Completion?
  {
  }

  lemma ClosedKeptByTaking(s: Sys, s': Sys)
    requires Takes(s, s') && Epoch(s') == Epoch(s) + NewEntries(s)
    requires s.pam.inAuthenticating && ControlInv(s) && RunInv(s) && CountInv(s) && EpochInv(s)
    ensures ClosedBy(Epoch(s'), s'.h.run, s'.h.live && s'.h.completions == 1)
    ensures s'.h.completions == 1 ==> s'.proxy.sessionId == ""
  {
    if s.h.completions == 1 {
      NothingTaken(s);
      assert Epoch(s) + [] == Epoch(s);
    } else if Completes(s) {
      var authRes := ClosingTaken(s);
      ClosedByClosing(Epoch(s), s.h.run, authRes);
    } else {
      PlainTaken(s);
      ClosedByPlain(Epoch(s), NewEntries(s), s.h.run, false);
    }
  }

  lemma EpochKeptByActivated(s: Sys, answer: Option<X.Session>)
    requires Enabled(s, PipeActivated(answer))
    requires ControlInv(s) && RunInv(s) && CountInv(s) && EpochInv(s)
    ensures EpochInv(Activated(s, answer))
  {
    ActivatedAppends(s, answer);
    ActivatedFacts(s, answer);
    FifoKeptByTaking(s, Activated(s, answer));
    ClosedKeptByTaking(s, Activated(s, answer));
  }

  lemma EpochKeptByQueue(s: Sys, ql: Q.Label)
    requires Enabled(s, QueueStep(ql)) && ControlInv(s) && EpochInv(s)
    ensures EpochInv(Queued(s, ql))
  {
    var s' := Queued(s, ql);
    if EndsStop(s.q, ql) {
      assert Epoch(s') == [];
    } else {
      assert s'.q.appended == s.q.appended;
      assert Epoch(s') == Epoch(s);
    }
  }

  lemma EpochFrame(s: Sys, s': Sys)
    requires EpochInv(s) && Epoch(s') == Epoch(s)
    requires s'.h.run == s.h.run && s'.h.received == s.h.received && s'.h.completions == s.h.completions
    requires s'.h.live == s.h.live && (s'.pam.inAuthenticating ==> s.pam.inAuthenticating)
    requires s'.proxy.sessionId == s.proxy.sessionId || s'.proxy.sessionId == ""
    ensures EpochInv(s')
  {
  }

  lemma EpochKeptByAppend(s: Sys, outcome: P.ForkOutcome)
    requires Enabled(s, Proceed(outcome)) && s.task.Appending? && EpochInv(s)
    ensures EpochInv(Proceeded(s, outcome))
  {
    var es := s.task.es;
    assert es == [es[0]] + es[1..];
    assert Pending(Proceeded(s, outcome).task) == es[1..];
    assert Epoch(Proceeded(s, outcome)) == Epoch(s);
    EpochFrame(s, Proceeded(s, outcome));
  }

  lemma EpochKeptByFork(s: Sys, outcome: P.ForkOutcome)
    requires Enabled(s, Proceed(outcome)) && s.task.Fork? && ControlInv(s) && EpochInv(s)
    ensures EpochInv(Forked(s, s.task.user, outcome))
  {
    assert Epoch(Forked(s, s.task.user, outcome)) == [] == Epoch(s);
    if !outcome.Forked? {
      EpochFrame(s, Forked(s, s.task.user, outcome));
    }
  }

  lemma EpochKeptByQueueing(s: Sys, outcome: P.ForkOutcome)
    requires Enabled(s, Proceed(outcome)) && EpochInv(s)
    requires !s.task.Appending? && !s.task.Fork? && !s.task.CancelPam?
    ensures EpochInv(Proceeded(s, outcome))
  {
    var s' := Proceeded(s, outcome);
    assert s'.q.appended == s.q.appended && s'.h == s.h && s'.pam == s.pam;
    EpochFrame(s, s');
  }

  lemma EpochKeptByProceed(s: Sys, outcome: P.ForkOutcome)
    requires Enabled(s, Proceed(outcome)) && ControlInv(s) && EpochInv(s)
    ensures EpochInv(Proceeded(s, outcome))
  {
    if s.task.Appending? {
      EpochKeptByAppend(s, outcome);
    } else if s.task.Fork? {
      EpochKeptByFork(s, outcome);
    } else if s.task.CancelPam? {
      ProxyCancels(s);
      EpochFrame(s, Proceeded(s, outcome));
    } else {
      EpochKeptByQueueing(s, outcome);
    }
  }

  lemma {:induction false} EpochExtended(s: Sys, es: seq<Entry>, sid: string)
    requires EpochInv(s) && sid == s.proxy.sessionId
    requires forall e :: e in es ==> e.src == ServiceSession(sid) && !e.msg.Completion?
    ensures s.h.live ==> PamPart(Epoch(s) + es) == Forwarded(s.h.received)
    ensures ClosedBy(Epoch(s) + es, s.h.run, s.h.live && s.h.completions == 1)
  {
    PamPartConcat(Epoch(s), es);
    PamPartOfOthers(es);
    assert PamPart(Epoch(s)) + [] == PamPart(Epoch(s));
    ClosedByPlain(Epoch(s), es, s.h.run, s.h.live && s.h.completions == 1);
  }

  /** What a service message adds: nothing, or entries of the current session. */
  lemma ServiceAppends(s: Sys, text: string, kind: X.ServiceKind, sid: string) returns (es: seq<Entry>)
    requires AtLoop(s)
    ensures
      var s' := Apply(s, ServiceMessage(text, kind, sid));
      && Epoch(s') == Epoch(s) + es && Flight(s') == Flight(s) + es
      && s'.h == s.h && s'.pam == s.pam && s'.proxy == s.proxy
    ensures |es| == if sid == s.proxy.sessionId && !kind.OtherKind? then 1 else 0
    ensures forall e :: e in es ==>
      e.src == ServiceSession(sid) && X.FaithfulToService(e.msg, text, kind) && Routed(e)
  {
    var result := X.OnServiceMessage(s.proxy, text, kind, sid);
    es := Tagged(X.Enqueued(result.1), ServiceSession(sid));
    X.EnqueuedByServiceMessage(s.proxy, text, kind, sid);
    HandledAppends(s, result, ServiceSession(sid));
  }

  lemma EpochKeptByService(s: Sys, text: string, kind: X.ServiceKind, sid: string)
    requires AtLoop(s) && EpochInv(s)
    ensures EpochInv(Apply(s, ServiceMessage(text, kind, sid)))
  {
    var es := ServiceAppends(s, text, kind, sid);
    if es == [] {
      assert Epoch(s) + [] == Epoch(s);
    } else {
      EpochExtended(s, es, sid);
    }
  }

  predicate LeavesEpoch(l: Label) {
    l.Deliver? || LeavesFlight(l)
  }

  lemma RestIsSameEpoch(s: Sys, l: Label)
    requires Enabled(s, l) && LeavesEpoch(l)
    ensures
      var s' := Apply(s, l);
      && s'.h.run == s.h.run && s'.h.received == s.h.received && s'.h.completions == s.h.completions
      && s'.h.live == s.h.live && s'.pam == s.pam && s'.q == s.q
      && (s'.proxy.sessionId == s.proxy.sessionId || s'.proxy.sessionId == "")
      && Pending(s'.task) == Pending(s.task)
  {
    if l.Deliver? {
      assert Pending(Delivered(s).task) == [];
    } else if l.UserReply? || l.ReAuthClicked? {
      assert Pending(Clicked(s).task) == [];
    }
  }

  lemma EpochKeptByRest(s: Sys, l: Label)
    requires Enabled(s, l) && EpochInv(s) && LeavesEpoch(l)
    ensures EpochInv(Apply(s, l))
  {
    RestIsSameEpoch(s, l);
    EpochFrame(s, Apply(s, l));
  }

  lemma EpochKept(s: Sys, l: Label)
    requires Enabled(s, l) && Inv(s)
    ensures EpochInv(Apply(s, l))
  {
    match l
    case QueueStep(ql) => EpochKeptByQueue(s, ql);
    case Proceed(outcome) => EpochKeptByProceed(s, outcome);
    case PipeActivated(answer) => EpochKeptByActivated(s, answer);
    case ServiceMessage(text, kind, sid) => EpochKeptByService(s, text, kind, sid);
    case _ => EpochKeptByRest(s, l);
  }

  // ----- routing

  predicate AllRouted(g: seq<Entry>) {
    forall i :: 0 <= i < |g| ==> Routed(g[i])
  }

  lemma AllRoutedWithout(a: seq<Entry>, b: seq<Entry>, c: seq<Entry>)
    requires AllRouted(a + b + c)
    ensures AllRouted(a + c)
  {
    forall i | 0 <= i < |a + c|
      ensures Routed((a + c)[i])
    {
      assert (a + c)[i] == (a + b + c)[if i < |a| then i else i + |b|];
    }
  }

  lemma NewEntriesRouted(s: Sys)
    ensures AllRouted(NewEntries(s))
  {
  }

  lemma AllRoutedConcat(a: seq<Entry>, b: seq<Entry>)
    requires AllRouted(a) && AllRouted(b)
    ensures AllRouted(a + b)
  {
  }

  lemma RouteKeptByActivated(s: Sys, answer: Option<X.Session>)
    requires Enabled(s, PipeActivated(answer)) && ControlInv(s) && RouteInv(s)
    ensures RouteInv(Activated(s, answer))
  {
    ActivatedAppends(s, answer);
    ActivatedFacts(s, answer);
    NewEntriesRouted(s);
    AllRoutedConcat(Flight(s), NewEntries(s));
  }

  lemma RouteKeptByQueue(s: Sys, ql: Q.Label)
    requires Enabled(s, QueueStep(ql)) && QI.ThreadInv(s.q) && RouteInv(s)
    ensures RouteInv(Queued(s, ql))
  {
    var a, b, c := QueuedFlight(s, ql);
    AllRoutedWithout(a, b, c);
  }

  lemma RouteKeptByService(s: Sys, text: string, kind: X.ServiceKind, sid: string)
    requires AtLoop(s) && RouteInv(s)
    ensures RouteInv(Apply(s, ServiceMessage(text, kind, sid)))
  {
    var es := ServiceAppends(s, text, kind, sid);
    assert AllRouted(Flight(s)) && AllRouted(es);
  }

  lemma RouteKeptByDeliver(s: Sys)
    requires Enabled(s, Deliver) && RouteInv(s)
    ensures RouteInv(Delivered(s))
  {
    DeliveredFlight(s);
    assert Flight(s)[0] == s.posted[0] && Flight(s)[1..] == Flight(Delivered(s));
  }

  lemma RouteKeptByRest(s: Sys, l: Label)
    requires Enabled(s, l) && RouteInv(s) && LeavesFlight(l)
    ensures RouteInv(Apply(s, l))
  {
    RestIsSameFlight(s, l);
    assert Apply(s, l).proxy == s.proxy;
  }

  lemma RouteFrame(s: Sys, s': Sys)
    requires RouteInv(s) && Flight(s') == Flight(s)
    requires s'.proxy.promptFrom == s.proxy.promptFrom && s'.h.shown == s.h.shown && s'.h.replies == s.h.replies
    ensures RouteInv(s')
  {
  }

  lemma RouteKeptByProceed(s: Sys, outcome: P.ForkOutcome)
    requires Enabled(s, Proceed(outcome)) && RouteInv(s)
    ensures RouteInv(Proceeded(s, outcome))
  {
    FlightSameByProceed(s, outcome);
    var s' := Proceeded(s, outcome);
    if s.task.Fork? || s.task.CancelPam? {
      assert s'.proxy == s.proxy;
    } else {
      assert s'.h == s.h && s'.proxy.promptFrom == s.proxy.promptFrom;
    }
    RouteFrame(s, s');
  }

  lemma RouteKept(s: Sys, l: Label)
    requires Enabled(s, l) && Inv(s)
    ensures RouteInv(Apply(s, l))
  {
    match l
    case QueueStep(ql) => RouteKeptByQueue(s, ql);
    case Proceed(outcome) => RouteKeptByProceed(s, outcome);
    case PipeActivated(answer) => RouteKeptByActivated(s, answer);
    case ServiceMessage(text, kind, sid) => RouteKeptByService(s, text, kind, sid);
    case Deliver => RouteKeptByDeliver(s);
    case _ => RouteKeptByRest(s, l);
  }
}
