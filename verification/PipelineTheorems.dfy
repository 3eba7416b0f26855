/** What holds of the whole pipeline in every run, with crashes, cancels,
    restarts and every interleaving of the threads and processes. */
module PipelineTheorems {
  import opened AuthTypes
  import Q = DispatchQueue
  import QI = DispatchQueueInvariant
  import P = AuthPam
  import X = AuthProxy
  import opened Pipeline
  import opened PipelineInvariant
  import opened PipelineSteps
  import opened PipelineFlight
  import opened PipelineEpoch

  lemma MessagesInitially(interval: int, clock: nat)
    ensures
      var s := Init(interval, clock);
      FlightInv(s) && EpochInv(s) && RouteInv(s)
  {
    var s := Init(interval, clock);
    assert Flight(s) == [] && Epoch(s) == [];
  }

  lemma ControlInitially(interval: int, clock: nat)
    ensures
      var s := Init(interval, clock);
      ControlInv(s) && RunInv(s) && CountInv(s)
  {
  }

  lemma InvHoldsInitially(interval: int, clock: nat)
    ensures Inv(Init(interval, clock))
  {
    QI.InvInit(interval, clock);
    ControlInitially(interval, clock);
    MessagesInitially(interval, clock);
  }

  lemma MachineryKept(s: Sys, l: Label)
    requires Inv(s) && Enabled(s, l)
    ensures ControlInv(Apply(s, l)) && QI.Inv(Apply(s, l).q)
  {
    match l
    case QueueStep(ql) => ControlKeptByQueue(s, ql);
    case Proceed(outcome) => QueueKeptByProceed(s, outcome); ControlKeptByProceed(s, outcome);
    case PipeActivated(answer) =>
      ControlKeptByActivated(s, answer);
      ActivatedFacts(s, answer);
    case ServiceMessage(text, kind, sid) =>
      ControlKeptByHandled(s, X.OnServiceMessage(s.proxy, text, kind, sid), ServiceSession(sid));
    case _ => ControlKeptByRest(s, l);
  }

  lemma RunPartKept(s: Sys, l: Label)
    requires Inv(s) && Enabled(s, l)
    ensures RunInv(Apply(s, l)) && CountInv(Apply(s, l))
  {
    if l.PipeActivated? {
      RunKeptByActivated(s, l.answer);
      CountKeptByActivated(s, l.answer);
    } else if l.Proceed? {
      RunKeptByProceed(s, l.outcome);
      CountKeptByProceed(s, l.outcome);
    } else {
      if LeavesRun(l) {
        CountKeptByRest(s, l);
        RunKeptByRest(s, l);
      } else {
        CountKeptByChild(s, l);
        RunKeptByChild(s, l);
      }
    }
  }

  lemma InvKept(s: Sys, l: Label)
    requires Inv(s) && Enabled(s, l)
    ensures Inv(Apply(s, l))
  {
    MachineryKept(s, l);
    RunPartKept(s, l);
    FlightKept(s, l);
    EpochKept(s, l);
    RouteKept(s, l);
  }

  lemma {:induction false} InvAfter(s: Sys, ls: seq<Label>)
    requires Inv(s) && Runs(s, ls)
    ensures Inv(After(s, ls))
    decreases |ls|
  {
    if ls != [] {
      InvKept(s, ls[0]);
      InvAfter(Apply(s, ls[0]), ls[1..]);
    }
  }

  lemma ReachableInv(s: Sys)
    requires Reachable(s)
    ensures Inv(s)
  {
    var interval: int, clock: nat, ls :| Runs(Init(interval, clock), ls) && After(Init(interval, clock), ls) == s;
    InvHoldsInitially(interval, clock);
    InvAfter(Init(interval, clock), ls);
  }

  // ----- unlocking

  /** Every unlock stems from its own run of the checkpass child, in the order of
      the runs; that run's pam_authenticate succeeded and its successful Complete
      event was received. */
  lemma UnlockSoundness(s: Sys)
    requires Reachable(s)
    ensures Increasing(s.h.unlocked)
    ensures forall i :: 0 <= i < |s.h.unlocked| ==>
      var run := s.h.unlocked[i];
      && run in s.h.completes && s.h.completes[run]
      && run in s.h.verdicts && s.h.verdicts[run]
  {
    ReachableInv(s);
  }

  /** The parent never counts as authenticated without having reported a completion
      since the last cancel. */
  lemma AuthenticatedMeansCompleted(s: Sys)
    requires Reachable(s) && s.pam.isAuthenticated
    ensures s.pam.hasSendCompleteSignal && s.h.completeSinceCancel
  {
    ReachableInv(s);
  }

  /** Whoever is being authenticated is the user of the locked session. */
  lemma OnlyTheUserIsAuthenticated(s: Sys)
    requires Reachable(s) && s.pam.inAuthenticating
    ensures s.pam.user == USER
  {
    ReachableInv(s);
  }

  /** The completion made up for a child that died early is never a success. */
  lemma DeadChildNeverSucceeds(s: Sys, answer: Option<X.Session>)
    requires Reachable(s) && Enabled(s, PipeActivated(answer)) && s.toParent == []
    ensures Epoch(Activated(s, answer)) == Epoch(s) + NewEntries(s)
    ensures forall e :: e in NewEntries(s) ==> e.msg != Completion(true)
  {
    ReachableInv(s);
    ExitAppends(s, answer);
  }

  // ----- order

  lemma {:induction false} PamPartMonotone(a: seq<Entry>, b: seq<Entry>)
    requires a <= b
    ensures PamPart(a) <= PamPart(b)
  {
    assert b == a + b[|a|..];
    PamPartConcat(a, b[|a|..]);
  }

  lemma {:induction false} ForwardedMonotone(a: seq<PamEvent>, b: seq<PamEvent>)
    requires a <= b
    ensures Forwarded(a) <= Forwarded(b)
  {
    assert b == a + b[|a|..];
    ForwardedConcat(a, b[|a|..]);
  }

  /** The PAM prompts and messages the dispatcher has emitted for a run are a
      prefix of what the child sent, less the prompts the proxy answers itself:
      nothing is lost, repeated or reordered by the two channels. */
  lemma FifoRefinement(s: Sys)
    requires Reachable(s) && s.h.live
    ensures PamPart(s.q.emitted) <= Forwarded(s.h.received) <= Forwarded(s.h.sent)
  {
    ReachableInv(s);
    assert s.q.emitted <= s.q.emitted + Q.InHand(s.q.worker) <= s.q.appended <= Epoch(s);
    PamPartMonotone(s.q.emitted, Epoch(s));
    ForwardedMonotone(s.h.received, s.h.sent);
  }

  /** A run the parent is listening to is always one of the current queue epoch,
      and what it received so far is all in the queue or past it. */
  lemma NothingWithheld(s: Sys)
    requires Reachable(s) && s.pam.inAuthenticating
    ensures s.h.live
    ensures PamPart(Epoch(s)) == Forwarded(s.h.received)
    ensures s.h.sent == s.h.received + s.toParent
  {
    ReachableInv(s);
  }

  // ----- completions

  /** AuthPam signals completion at most once per run.  When the child's exit has
      been handled it has done so exactly once, if and only if a Complete event
      arrived or the run began with m_hasSendCompleteSignal false. */
  lemma CompletionCount(s: Sys)
    requires Reachable(s)
    ensures s.h.completions <= 1
    ensures s.h.exited ==> (s.h.completions == 1 <==> s.h.run in s.h.completes || !s.h.flagAtFork)
    ensures !s.h.exited ==> (s.h.completions == 1 <==> s.h.run in s.h.completes)
  {
    ReachableInv(s);
  }

  /** A run begins with a child of its own, empty pipes, nothing received and nothing
      of its own in the queue; the flag it begins with tells whether a Complete event
      was received since the last cancel. */
  lemma FlagAtFork(s: Sys)
    requires Reachable(s) && s.task.Fork? && s.q.main.Idle?
    ensures
      var s' := Forked(s, s.task.user, P.Forked);
      && s'.h.run == s.h.run + 1 && s'.h.flagAtFork == s.h.completeSinceCancel
      && s'.child.Thinking? && s'.toParent == [] && s'.toChild == [] && s'.h.received == [] == s'.h.sent
      && s'.pam.inAuthenticating && s'.pam.user == USER && s'.q.appended == [] && s'.task.Free?
  {
    ReachableInv(s);
  }

  /** After the completion entry of a run nothing follows in its epoch but service
      messages that carry an empty session id, and a failed one directly follows
      the error notice of the same run. */
  lemma CompletionClosesRun(s: Sys, i: nat)
    requires Reachable(s) && i < |s.q.appended| && s.q.appended[i].msg.Completion?
    ensures s.q.appended[i].src == EndOfRun(s.h.run)
    ensures forall j :: i < j < |s.q.appended| ==> s.q.appended[j].src == ServiceSession("")
    ensures !s.q.appended[i].msg.authRes ==> i > 0 && s.q.appended[i - 1] == FailureNotice(s.h.run)
  {
    ReachableInv(s);
    var es := Epoch(s);
    assert forall j :: 0 <= j < |s.q.appended| ==> es[j] == s.q.appended[j];
    assert es[i].msg.Completion?;
  }

  /** That exception is real, for every kind of message: once a run has completed
      there is no session, and a service message of a known kind enters its queue if
      and only if its session id is empty. */
  lemma EmptySessionMessageFollows(s: Sys, text: string, kind: X.ServiceKind, sid: string) returns (es: seq<Entry>)
    requires Reachable(s) && AtLoop(s) && s.h.completions == 1
    ensures Epoch(Apply(s, ServiceMessage(text, kind, sid))) == Epoch(s) + es
    ensures |es| == if sid == "" && !kind.OtherKind? then 1 else 0
    ensures forall e :: e in es ==> e.src == ServiceSession("") && X.FaithfulToService(e.msg, text, kind)
  {
    ReachableInv(s);
    es := ServiceAppends(s, text, kind, sid);
  }

  // ----- commands

  /** The proxy's commands that a task still has before it. */
  function Ahead(t: Task): seq<X.Call> {
    var cancelling, beginning := X.CommandedAt(X.Cancel), X.CommandedAt(X.Begin(USER));
    match t
    case CancelPam => cancelling + beginning
    case StopOld => cancelling[1..] + beginning
    case DropSession => beginning
    case Reset => beginning
    case Relaunch => beginning[1..]
    case Fork(user) => [X.PamAuthenticate(user)]
    case _ => []
  }

  /** The step from `s` to `s'` carries out `c`. */
  predicate Does(s: Sys, c: X.Call, outcome: P.ForkOutcome, s': Sys) {
    match c
    case PamCancel => s'.pam == P.Cancelled(s.pam) && s'.child.NoChild?
    case StopDispatcher => Q.Enabled(s.q, Q.Stop) && s'.q == Q.Apply(s.q, Q.Stop)
    case StartDispatcher => Q.Enabled(s.q, Q.Start) && s'.q == Q.Apply(s.q, Q.Start)
    case PamAuthenticate(user) => s'.pam == P.Begun(s.pam, user, outcome)
    case _ => false
  }

  /** Carrying out the first of the commands ahead of `t` leaves those ahead of `t'`. */
  predicate Advances(t: Task, c: X.Call, t': Task) {
    Ahead(t) == [c] + Ahead(t')
  }

  lemma AheadOfEach()
    ensures Advances(CancelPam, X.PamCancel, StopOld) && Advances(StopOld, X.StopDispatcher, DropSession)
    ensures Ahead(DropSession) == Ahead(Reset)
    ensures Advances(Reset, X.StopDispatcher, Relaunch) && Advances(Relaunch, X.StartDispatcher, Fork(USER))
    ensures Advances(Fork(USER), X.PamAuthenticate(USER), Free)
  {
  }

  lemma CancelCarriedOut(s: Sys, outcome: P.ForkOutcome)
    requires Enabled(s, Proceed(outcome)) && s.task.CancelPam?
    ensures Proceeded(s, outcome).task.StopOld? && Does(s, X.PamCancel, outcome, Proceeded(s, outcome))
  {
    ProxyCancels(s);
  }

  lemma StopCarriedOut(s: Sys, outcome: P.ForkOutcome)
    requires Enabled(s, Proceed(outcome)) && (s.task.StopOld? || s.task.Reset?)
    ensures Proceeded(s, outcome).task == (if s.task.StopOld? then DropSession else Relaunch)
    ensures Does(s, X.StopDispatcher, outcome, Proceeded(s, outcome))
  {
  }

  lemma StartCarriedOut(s: Sys, outcome: P.ForkOutcome)
    requires Enabled(s, Proceed(outcome)) && s.task.Relaunch?
    ensures Proceeded(s, outcome).task == Fork(USER) && Does(s, X.StartDispatcher, outcome, Proceeded(s, outcome))
  {
    ProxyAsksForUser(s.proxy);
  }

  lemma ForkCarriedOut(s: Sys, outcome: P.ForkOutcome)
    requires Enabled(s, Proceed(outcome)) && s.task.Fork?
    ensures Proceeded(s, outcome).task.Free?
    ensures Does(s, X.PamAuthenticate(s.task.user), outcome, Proceeded(s, outcome))
  {
  }

  /** On its way through cancelling and authenticating the main thread carries out the
      proxy's commands one by one, in the proxy's order, leaving none out; only the
      session is dropped in between. */
  lemma CommandsCarriedOut(s: Sys, outcome: P.ForkOutcome)
    requires Reachable(s) && Enabled(s, Proceed(outcome)) && !s.task.Appending? && !s.task.Boot?
    ensures
      var s' := Proceeded(s, outcome);
      if s.task.DropSession? then Ahead(s'.task) == Ahead(s.task) && s'.proxy.sessionId == ""
      else exists c :: Advances(s.task, c, s'.task) && Does(s, c, outcome, s')
  {
    AheadOfEach();
    var s' := Proceeded(s, outcome);
    if s.task.CancelPam? {
      CancelCarriedOut(s, outcome);
      assert Advances(s.task, X.PamCancel, s'.task);
    } else if s.task.StopOld? || s.task.Reset? {
      StopCarriedOut(s, outcome);
      assert Advances(s.task, X.StopDispatcher, s'.task);
    } else if s.task.Relaunch? {
      StartCarriedOut(s, outcome);
      assert Advances(s.task, X.StartDispatcher, s'.task);
    } else if s.task.Fork? {
      ReachableInv(s);
      ForkCarriedOut(s, outcome);
      assert Advances(s.task, X.PamAuthenticate(USER), s'.task);
    } else {
      TasksFollowProxy(s, outcome);
    }
  }

  // ----- replies

  /** A reply of the user goes to whoever asked the prompt shown last: to the child
      if that was PAM, or if none was shown, and to the service otherwise.  The child
      gets the very text, behind what it has not read yet. */
  lemma ReplyRouting(s: Sys, text: string)
    requires Reachable(s) && Enabled(s, UserReply(text))
    ensures
      var toService := s.h.shown.Some? && s.h.shown.value.ServiceSession?;
      && X.OnRespond(s.proxy, text).1
         == [if toService then X.ServiceRespond(text, s.proxy.publicKey, s.proxy.sessionId) else X.PamRespond(text)]
      && Replied(s, text).toChild
         == s.toChild + if !toService && s.pam.inAuthenticating then [PromptReply(true, text)] else []
  {
    ReachableInv(s);
  }

  lemma HandledAnswers(s: Sys, result: (X.Proxy, seq<X.Call>), src: Source, answers: seq<string>)
    requires s.pam.inAuthenticating && X.Answers(result.1) == answers && |answers| <= 1
    ensures Handled(s, result, src).toChild == s.toChild + if answers == [] then [] else [PromptReply(true, answers[0])]
  {
    assert Positive(answers) == if answers == [] then [] else [PromptReply(true, answers[0])];
  }

  lemma PromptAnswers(s: Sys, text: string, promptType: PromptType, answer: Option<X.Session>)
    requires s.pam.inAuthenticating
    ensures OnSignal(s, P.ShowPrompt(text, promptType), answer).toChild
         == s.toChild + if X.Intercepted(text) then [PromptReply(true, X.ProperAnswer(text, answer))] else []
  {
    X.AnsweredOrForwarded(s.proxy, text, promptType, answer);
    HandledAnswers(s, X.OnPamPrompt(s.proxy, text, promptType, answer), PamEventOf(s.h.run),
                   if X.Intercepted(text) then [X.ProperAnswer(text, answer)] else []);
  }

  lemma OthersAnswerNothing(s: Sys, signal: P.Signal, answer: Option<X.Session>)
    requires s.pam.inAuthenticating && !signal.ShowPrompt?
    ensures OnSignal(s, signal, answer).toChild == s.toChild + []
  {
    match signal {
      case ShowMessage(text, messageType) =>
        X.EnqueuedByPamMessage(s.proxy, text, messageType);
        HandledAnswers(s, X.OnPamMessage(s.proxy, text, messageType), PamEventOf(s.h.run), []);
      case AuthenticationComplete =>
        X.EnqueuedByPamComplete(s.proxy, s.pam.isAuthenticated);
    }
  }

  /** A prompt of the child that is meant for the proxy is answered at once and
      properly; no other event of the child is answered. */
  lemma ChildIsAnswered(s: Sys, answer: Option<X.Session>)
    requires Enabled(s, PipeActivated(answer)) && s.toParent != []
    ensures
      var e := s.toParent[0];
      Activated(s, answer).toChild
      == s.toChild + if e.PromptRequest? && X.Intercepted(e.text)
                     then [PromptReply(true, X.ProperAnswer(e.text, answer))] else []
  {
    var e, r := s.toParent[0], Received(s);
    var signals := P.OnEvent(s.pam, e).1;
    if e.PromptRequest? {
      PromptAnswers(r, e.text, if e.secret then Secret else Question, answer);
    } else if signals != [] {
      OthersAnswerNothing(r, signals[0], answer);
    }
  }

  // ----- an unlock does happen

  lemma {:induction false} RunsSnoc(s: Sys, ls: seq<Label>, l: Label)
    requires Runs(s, ls) && Enabled(After(s, ls), l)
    ensures Runs(s, ls + [l]) && After(s, ls + [l]) == Apply(After(s, ls), l)
    decreases |ls|
  {
    if ls == [] {
      assert ls + [l] == [l] && [l][1..] == [];
    } else {
      assert (ls + [l])[0] == ls[0] && (ls + [l])[1..] == ls[1..] + [l];
      RunsSnoc(Apply(s, ls[0]), ls[1..], l);
    }
  }

  lemma ReachStep(s: Sys, l: Label)
    requires Reachable(s) && Enabled(s, l)
    ensures Reachable(Apply(s, l))
  {
    var interval: int, clock: nat, ls :| Runs(Init(interval, clock), ls) && After(Init(interval, clock), ls) == s;
    RunsSnoc(Init(interval, clock), ls, l);
  }
}
