/** What is in flight stays in order: the parts of the invariant about messages. */
module PipelineFlight {
  import opened AuthTypes
  import Q = DispatchQueue
  import QI = DispatchQueueInvariant
  import P = AuthPam
  import X = AuthProxy
  import D = ScreenSaverDialog
  import opened Pipeline
  import opened PipelineInvariant
  import opened PipelineSteps

  // ----- what the handlers append

  function Closing(run: nat, authRes: bool): seq<Entry> {
    (if authRes then [] else [FailureNotice(run)]) + [Entry(Completion(authRes), EndOfRun(run))]
  }

  predicate Completes(s: Sys) {
    if s.toParent != [] then s.toParent[0].Complete? else !s.pam.hasSendCompleteSignal
  }

  /** What one activation of the pipe notifier appends. */
  function NewEntries(s: Sys): seq<Entry> {
    if s.toParent == [] then
      if s.pam.hasSendCompleteSignal then [] else Closing(s.h.run, s.pam.isAuthenticated)
    else if s.toParent[0].Complete? then Closing(s.h.run, s.toParent[0].authResult)
    else Tagged(ForwardedOne(s.toParent[0]), PamEventOf(s.h.run))
  }

  lemma HandledAppends(s: Sys, result: (X.Proxy, seq<X.Call>), src: Source)
    requires AtLoop(s)
    ensures
      var s' := Handled(s, result, src);
      var es := Tagged(X.Enqueued(result.1), src);
      Pending(s'.task) == es && Flight(s') == Flight(s) + es && Epoch(s') == Epoch(s) + es
  {
    var s' := Handled(s, result, src);
    assert Pending(s.task) == [];
    assert Flight(s) == s.posted + Q.InHand(s.q.worker) + s.q.queue;
  }

  lemma ClosingIsTagged(p: X.Proxy, run: nat, authRes: bool)
    requires !p.haveErrorMsg
    ensures Tagged(X.Enqueued(X.OnPamComplete(p, authRes).1), EndOfRun(run)) == Closing(run, authRes)
  {
    X.EnqueuedByPamComplete(p, authRes);
  }

  function SignalEntries(s: Sys, signal: P.Signal): seq<Entry> {
    match signal
    case ShowPrompt(text, promptType) =>
      if X.Intercepted(text) then []
      else [Entry(Prompt(text, promptType, FromPamModule), PamEventOf(s.h.run))]
    case ShowMessage(text, messageType) => [Entry(Message(text, messageType), PamEventOf(s.h.run))]
    case AuthenticationComplete => Closing(s.h.run, s.pam.isAuthenticated)
  }

  lemma CompletionAppends(s: Sys, answer: Option<X.Session>)
    requires AtLoop(s) && !s.proxy.haveErrorMsg
    ensures
      var s', es := OnSignal(s, P.AuthenticationComplete, answer), Closing(s.h.run, s.pam.isAuthenticated);
      Flight(s') == Flight(s) + es && Epoch(s') == Epoch(s) + es
  {
    var counted := s.(h := s.h.(completions := s.h.completions + 1));
    ClosingIsTagged(s.proxy, s.h.run, s.pam.isAuthenticated);
    HandledAppends(counted, X.OnPamComplete(s.proxy, s.pam.isAuthenticated), EndOfRun(s.h.run));
    assert Flight(counted) == Flight(s) && Epoch(counted) == Epoch(s);
  }

  lemma PromptAppends(s: Sys, text: string, promptType: PromptType, answer: Option<X.Session>)
    requires AtLoop(s)
    ensures
      var s', es := OnSignal(s, P.ShowPrompt(text, promptType), answer), SignalEntries(s, P.ShowPrompt(text, promptType));
      Flight(s') == Flight(s) + es && Epoch(s') == Epoch(s) + es
  {
    X.AnsweredOrForwarded(s.proxy, text, promptType, answer);
    HandledAppends(s, X.OnPamPrompt(s.proxy, text, promptType, answer), PamEventOf(s.h.run));
  }

  lemma MessageAppends(s: Sys, text: string, messageType: MessageType, answer: Option<X.Session>)
    requires AtLoop(s)
    ensures
      var s', es := OnSignal(s, P.ShowMessage(text, messageType), answer), SignalEntries(s, P.ShowMessage(text, messageType));
      Flight(s') == Flight(s) + es && Epoch(s') == Epoch(s) + es
  {
    X.EnqueuedByPamMessage(s.proxy, text, messageType);
    HandledAppends(s, X.OnPamMessage(s.proxy, text, messageType), PamEventOf(s.h.run));
  }

  lemma SignalAppends(s: Sys, signal: P.Signal, answer: Option<X.Session>)
    requires AtLoop(s) && !s.proxy.haveErrorMsg
    ensures
      var s', es := OnSignal(s, signal, answer), SignalEntries(s, signal);
      Flight(s') == Flight(s) + es && Epoch(s') == Epoch(s) + es
  {
    match signal
    case ShowPrompt(text, promptType) => PromptAppends(s, text, promptType, answer);
    case ShowMessage(text, messageType) => MessageAppends(s, text, messageType, answer);
    case AuthenticationComplete => CompletionAppends(s, answer);
  }

  lemma ReceivedAppends(s: Sys, answer: Option<X.Session>)
    requires Enabled(s, PipeActivated(answer)) && !s.proxy.haveErrorMsg && s.toParent != []
    ensures
      var s' := Activated(s, answer);
      Flight(s') == Flight(s) + NewEntries(s) && Epoch(s') == Epoch(s) + NewEntries(s)
  {
    var r, signals := Received(s), P.OnEvent(s.pam, s.toParent[0]).1;
    assert Flight(r) == Flight(s) && Epoch(r) == Epoch(s);
    if signals == [] {
      assert Activated(s, answer) == r && NewEntries(s) == [];
    } else {
      SignalAppends(r, signals[0], answer);
      assert SignalEntries(r, signals[0]) == NewEntries(s);
    }
  }

  lemma ExitAppends(s: Sys, answer: Option<X.Session>)
    requires Enabled(s, PipeActivated(answer)) && !s.proxy.haveErrorMsg && s.toParent == []
    ensures
      var s' := Activated(s, answer);
      Flight(s') == Flight(s) + NewEntries(s) && Epoch(s') == Epoch(s) + NewEntries(s)
  {
    var r := ChildGone(s);
    assert Flight(r) == Flight(s) && Epoch(r) == Epoch(s);
    if s.pam.hasSendCompleteSignal {
      assert Activated(s, answer) == r && NewEntries(s) == [];
    } else {
      CompletionAppends(r, answer);
    }
  }

  lemma ActivatedAppends(s: Sys, answer: Option<X.Session>)
    requires Enabled(s, PipeActivated(answer)) && ControlInv(s)
    ensures
      var s' := Activated(s, answer);
      Flight(s') == Flight(s) + NewEntries(s) && Epoch(s') == Epoch(s) + NewEntries(s)
  {
    if s.toParent != [] {
      ReceivedAppends(s, answer);
    } else {
      ExitAppends(s, answer);
    }
  }

  /** What one activation does, as far as messages in flight are concerned. */
  predicate Takes(s: Sys, s': Sys) {
    && s'.h.completions == s.h.completions + (if Completes(s) then 1 else 0)
    && s'.h == s.h.(completions := s'.h.completions, received := s'.h.received,
                    completes := s'.h.completes, exited := s'.h.exited,
                    completeSinceCancel := s'.h.completeSinceCancel)
    && s'.h.received == s.h.received + s.toParent[..if s.toParent == [] then 0 else 1]
    && s'.h.completes == (if s.toParent != [] && s.toParent[0].Complete?
                          then s.h.completes[s.h.run := s.toParent[0].authResult] else s.h.completes)
    && s'.q == s.q && s'.posted == s.posted && s'.dialog == s.dialog
    && (s'.pam.inAuthenticating ==> s.pam.inAuthenticating)
    && s'.proxy.promptFrom == s.proxy.promptFrom
    && (Completes(s) ==> s'.proxy.sessionId == "")
    && (s.toParent == [] && !Completes(s) ==> s'.proxy == s.proxy)
  }

  /** What the proxy's handling of one signal changes. */
  lemma SignalFacts(s: Sys, signal: P.Signal, answer: Option<X.Session>)
    ensures
      var s' := OnSignal(s, signal, answer);
      && s'.h == s.h.(completions := s.h.completions + (if signal.AuthenticationComplete? then 1 else 0))
      && s'.pam == s.pam && s'.q == s.q && s'.posted == s.posted && s'.dialog == s.dialog
      && s'.proxy.promptFrom == s.proxy.promptFrom
      && (signal.AuthenticationComplete? ==> s'.proxy.sessionId == "")
  {
  }

  lemma ReceivedFacts(s: Sys, answer: Option<X.Session>)
    requires Enabled(s, PipeActivated(answer)) && s.toParent != []
    ensures Takes(s, Activated(s, answer))
  {
    var signals := P.OnEvent(s.pam, s.toParent[0]).1;
    if signals != [] {
      SignalFacts(Received(s), signals[0], answer);
    }
    assert s.toParent[..1] == [s.toParent[0]];
  }

  lemma ExitFacts(s: Sys, answer: Option<X.Session>)
    requires Enabled(s, PipeActivated(answer)) && s.toParent == []
    ensures Takes(s, Activated(s, answer))
  {
    if !s.pam.hasSendCompleteSignal {
      SignalFacts(ChildGone(s), P.AuthenticationComplete, answer);
    }
    assert s.toParent[..0] == [] && s.h.received + [] == s.h.received;
  }

  lemma ActivatedFacts(s: Sys, answer: Option<X.Session>)
    requires Enabled(s, PipeActivated(answer))
    ensures Takes(s, Activated(s, answer))
  {
    if s.toParent != [] {
      ReceivedFacts(s, answer);
    } else {
      ExitFacts(s, answer);
    }
  }

  // ----- order of completions

  lemma FlightOkPlain(g: seq<Entry>, es: seq<Entry>, run: nat, completions: nat,
                      completes: map<nat, bool>, delivered: seq<nat>)
    requires FlightOk(g, run, completions, completes, delivered)
    requires forall e :: e in es ==> !e.msg.Completion?
    ensures FlightOk(g + es, run, completions, completes, delivered)
  {
  }

  /** A run's one completion goes behind those of all earlier runs. */
  lemma FlightOkClosing(g: seq<Entry>, run: nat, authRes: bool, completes: map<nat, bool>, completes': map<nat, bool>,
                        delivered: seq<nat>)
    requires FlightOk(g, run, 0, completes, delivered)
    requires delivered != [] ==> delivered[|delivered| - 1] < run
    requires forall r :: r in completes && r < run ==> r in completes' && completes'[r] == completes[r]
    requires authRes ==> run in completes' && completes'[run]
    ensures FlightOk(g + Closing(run, authRes), run, 1, completes', delivered)
  {
    var last := Entry(Completion(authRes), EndOfRun(run));
    var notice := if authRes then [] else [FailureNotice(run)];
    assert FlightOk(g, run, 1, completes', delivered);
    FlightOkPlain(g, notice, run, 1, completes', delivered);
    assert g + Closing(run, authRes) == (g + notice) + [last];
    var g' := g + notice;
    assert forall i :: 0 <= i < |g'| && g'[i].msg.Completion? ==> i < |g| && g[i].src.run < run;
  }

  lemma FlightKeptByTaking(s: Sys, s': Sys)
    requires Takes(s, s') && Flight(s') == Flight(s) + NewEntries(s)
    requires s.pam.inAuthenticating && ControlInv(s) && RunInv(s) && CountInv(s) && FlightInv(s)
    ensures FlightInv(s')
  {
    if s.h.completions == 1 {
      NothingAfterCompletion(s);
    }
    if Completes(s) {
      var authRes := if s.toParent != [] then s.toParent[0].authResult else s.pam.isAuthenticated;
      assert NewEntries(s) == Closing(s.h.run, authRes);
      FlightOkClosing(Flight(s), s.h.run, authRes, s.h.completes, s'.h.completes, s.h.delivered);
    } else {
      FlightOkPlain(Flight(s), NewEntries(s), s.h.run, s.h.completions, s.h.completes, s.h.delivered);
    }
  }

  lemma FlightKeptByActivated(s: Sys, answer: Option<X.Session>)
    requires Enabled(s, PipeActivated(answer))
    requires ControlInv(s) && RunInv(s) && CountInv(s) && FlightInv(s)
    ensures FlightInv(Activated(s, answer))
  {
    ActivatedAppends(s, answer);
    ActivatedFacts(s, answer);
    FlightKeptByTaking(s, Activated(s, answer));
  }

  /** A step of the queue keeps what is in flight, but for a stretch that a stop
      throws away. */
  lemma QueuedFlight(s: Sys, ql: Q.Label) returns (a: seq<Entry>, b: seq<Entry>, c: seq<Entry>)
    requires Enabled(s, QueueStep(ql)) && QI.ThreadInv(s.q)
    ensures Flight(s) == a + b + c && Flight(Queued(s, ql)) == a + c
  {
    var q, q' := s.q, Q.Apply(s.q, ql);
    var before, pending := Q.InHand(q.worker), Pending(s.task);
    var posted := s.posted + Emission(q, ql);
    QueueFlight(q, ql, s.posted);
    assert Flight(Queued(s, ql)) == posted + Q.InHand(q'.worker) + q'.queue + pending;
    if posted + Q.InHand(q'.worker) + q'.queue == s.posted + before + q.queue {
      a, b, c := Flight(s), [], [];
    } else if q.main.Clearing? {
      a, b, c := s.posted + before, q.queue, pending;
      assert posted == s.posted;
      assert posted + before + [] + pending == a + c;
    } else {
      a, b, c := s.posted, before, q.queue + pending;
      assert posted == s.posted;
      assert posted + [] + q.queue + pending == a + c;
      assert s.posted + before + q.queue + pending == a + b + c;
    }
  }

  predicate SameDeliveries(h: History, h': History) {
    && h'.run == h.run && h'.completions == h.completions && h'.completes == h.completes
    && h'.delivered == h.delivered && h'.unlocked == h.unlocked
  }

  lemma FlightInvFrame(h: History, s': Sys)
    requires FlightOk(Flight(s'), h.run, h.completions, h.completes, h.delivered)
    requires DeliveredOk(h.run, h.completions, h.completes, h.delivered, h.unlocked)
    requires SameDeliveries(h, s'.h)
    ensures FlightInv(s')
  {
  }

  lemma FlightKeptByQueue(s: Sys, ql: Q.Label)
    requires Enabled(s, QueueStep(ql)) && QI.ThreadInv(s.q) && FlightInv(s)
    ensures FlightInv(Queued(s, ql))
  {
    var a, b, c := QueuedFlight(s, ql);
    FlightOkWithout(a, b, c, s.h.run, s.h.completions, s.h.completes, s.h.delivered);
    FlightInvFrame(s.h, Queued(s, ql));
  }

  lemma FlightSameByAppend(s: Sys)
    requires Enabled(s, Proceed(P.NoPipe)) && s.task.Appending?
    ensures Flight(Proceeded(s, P.NoPipe)) == Flight(s)
  {
    var es := s.task.es;
    assert es == [es[0]] + es[1..];
    assert Pending(Append(es[1..])) == es[1..];
  }

  lemma FlightSameByProceed(s: Sys, outcome: P.ForkOutcome)
    requires Enabled(s, Proceed(outcome))
    ensures Flight(Proceeded(s, outcome)) == Flight(s)
  {
    if s.task.Appending? {
      FlightSameByAppend(s);
      assert Proceeded(s, outcome) == Proceeded(s, P.NoPipe);
    } else {
      var s' := Proceeded(s, outcome);
      assert s'.posted == s.posted && s'.q.queue == s.q.queue && Pending(s'.task) == [] == Pending(s.task);
      assert Q.InHand(s'.q.worker) == Q.InHand(s.q.worker);
    }
  }

  /** Of the history, only a fork changes what the flight depends on. */
  predicate SameOrNextRun(h: History, h': History) {
    && h'.completes == h.completes && h'.delivered == h.delivered && h'.unlocked == h.unlocked
    && ((h'.run == h.run && h'.completions == h.completions) || (h'.run == h.run + 1 && h'.completions == 0))
  }

  lemma HistoryByFork(s: Sys, user: string, outcome: P.ForkOutcome)
    ensures SameOrNextRun(s.h, Forked(s, user, outcome).h)
  {
  }

  lemma HistoryByProceed(s: Sys, outcome: P.ForkOutcome)
    requires Enabled(s, Proceed(outcome))
    ensures SameOrNextRun(s.h, Proceeded(s, outcome).h)
  {
    if s.task.Fork? {
      HistoryByFork(s, s.task.user, outcome);
    } else {
      var h' := Proceeded(s, outcome).h;
      assert h' == s.h.(completeSinceCancel := h'.completeSinceCancel);
    }
  }

  lemma FlightKeptByProceed(s: Sys, outcome: P.ForkOutcome)
    requires Enabled(s, Proceed(outcome)) && FlightInv(s)
    ensures FlightInv(Proceeded(s, outcome))
  {
    FlightSameByProceed(s, outcome);
    HistoryByProceed(s, outcome);
    FlightOkNextRun(Flight(s), s.h.run, s.h.completions, s.h.completes, s.h.delivered);
  }

  lemma FlightOkNextRun(g: seq<Entry>, run: nat, completions: nat, completes: map<nat, bool>, delivered: seq<nat>)
    requires FlightOk(g, run, completions, completes, delivered)
    ensures FlightOk(g, run + 1, 0, completes, delivered)
  {
    forall i | 0 <= i < |g|
      ensures CompletionOk(g[i], run + 1, 0, completes)
    {
      assert CompletionOk(g[i], run, completions, completes);
    }
  }

  lemma FlightKeptByService(s: Sys, text: string, kind: X.ServiceKind, sid: string)
    requires AtLoop(s) && FlightInv(s)
    ensures FlightInv(Apply(s, ServiceMessage(text, kind, sid)))
  {
    var result := X.OnServiceMessage(s.proxy, text, kind, sid);
    X.EnqueuedByServiceMessage(s.proxy, text, kind, sid);
    HandledAppends(s, result, ServiceSession(sid));
    FlightOkPlain(Flight(s), Tagged(X.Enqueued(result.1), ServiceSession(sid)),
                  s.h.run, s.h.completions, s.h.completes, s.h.delivered);
  }

  lemma DeliveredFlight(s: Sys)
    requires Enabled(s, Deliver)
    ensures Flight(s) == [s.posted[0]] + Flight(Delivered(s))
  {
    assert Pending(Delivered(s).task) == [];
    assert s.posted == [s.posted[0]] + s.posted[1..];
  }

  lemma FlightOkTail(g: seq<Entry>, run: nat, completions: nat, completes: map<nat, bool>, delivered: seq<nat>)
    requires g != [] && FlightOk(g, run, completions, completes, delivered)
    ensures FlightOk(g[1..], run, completions, completes,
                     if g[0].msg.Completion? then delivered + [g[0].src.run] else delivered)
  {
  }

  lemma DeliveredHistory(s: Sys)
    requires s.posted != []
    ensures
      var e, h, h' := s.posted[0], s.h, Delivered(s).h;
      && h'.run == h.run && h'.completions == h.completions && h'.completes == h.completes
      && h'.delivered == (if e.msg.Completion? then h.delivered + [RunOf(e.src)] else h.delivered)
      && h'.unlocked == (if e.msg == Completion(true) then h.unlocked + [RunOf(e.src)] else h.unlocked)
  {
    var e := s.posted[0];
    X.ReleaseTells(s.proxy, e.msg);
    var requests := Shown(s.dialog, [X.Told(e.msg)], s.pam.inAuthenticating).1;
    assert D.AuthenticationPassed in requests <==> e.msg == Completion(true);
  }

  lemma DeliveredOkExtended(run: nat, completions: nat, completes: map<nat, bool>,
                            delivered: seq<nat>, unlocked: seq<nat>, r: nat, authRes: bool)
    requires DeliveredOk(run, completions, completes, delivered, unlocked)
    requires delivered != [] ==> delivered[|delivered| - 1] < r
    requires r <= run && (r == run ==> completions == 1)
    requires authRes ==> r in completes && completes[r]
    ensures DeliveredOk(run, completions, completes, delivered + [r], if authRes then unlocked + [r] else unlocked)
  {
  }

  lemma FlightKeptByDeliver(s: Sys)
    requires Enabled(s, Deliver) && FlightInv(s)
    ensures FlightInv(Delivered(s))
  {
    var s', e := Delivered(s), s.posted[0];
    DeliveredFlight(s);
    DeliveredHistory(s);
    assert Flight(s)[0] == e && Flight(s)[1..] == Flight(s');
    FlightOkTail(Flight(s), s.h.run, s.h.completions, s.h.completes, s.h.delivered);
    if e.msg.Completion? {
      assert CompletionOk(e, s.h.run, s.h.completions, s.h.completes);
      DeliveredOkExtended(s.h.run, s.h.completions, s.h.completes, s.h.delivered, s.h.unlocked,
                          e.src.run, e.msg.authRes);
    }
  }

  predicate LeavesFlight(l: Label) {
    l.UserReply? || l.ReAuthClicked? || l.ChildSays? || l.ChildAsks? || l.ChildReads?
    || l.ChildFinishes? || l.ChildCrashes?
  }

  lemma RestIsSameFlight(s: Sys, l: Label)
    requires Enabled(s, l) && LeavesFlight(l)
    ensures
      var s' := Apply(s, l);
      && Flight(s') == Flight(s)
      && s'.h == s.h.(sent := s'.h.sent, verdicts := s'.h.verdicts, replies := s'.h.replies)
  {
    var s' := Apply(s, l);
    assert s'.posted == s.posted && s'.q == s.q;
    assert l.ReAuthClicked? ==> Pending(s'.task) == [];
  }

  lemma FlightKeptByRest(s: Sys, l: Label)
    requires Enabled(s, l) && FlightInv(s) && LeavesFlight(l)
    ensures FlightInv(Apply(s, l))
  {
    RestIsSameFlight(s, l);
    FlightInvFrame(s.h, Apply(s, l));
  }

  lemma FlightKept(s: Sys, l: Label)
    requires Enabled(s, l) && Inv(s)
    ensures FlightInv(Apply(s, l))
  {
    match l
    case QueueStep(ql) => FlightKeptByQueue(s, ql);
    case Proceed(outcome) => FlightKeptByProceed(s, outcome);
    case PipeActivated(answer) => FlightKeptByActivated(s, answer);
    case ServiceMessage(text, kind, sid) => FlightKeptByService(s, text, kind, sid);
    case Deliver => FlightKeptByDeliver(s);
    case _ => FlightKeptByRest(s, l);
  }
}
