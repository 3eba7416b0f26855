/**
 The unlock pipeline as one step machine: the checkpass child, the two pipes, the
 PAM parent, the proxy, the message queue with its dispatcher thread, the event
 loop of the main thread, and the unlock dialog.

 The main thread handles one event at a time.  A handler that appends to the
 queue, or stops it, goes on over several steps (`Task`), during which the
 dispatcher thread, the child and the clock move freely.  Whatever the handlers
 compute is computed by the functions of their own modules.
 */
module Pipeline {
  import opened AuthTypes
  import Q = DispatchQueue
  import P = AuthPam
  import X = AuthProxy
  import D = ScreenSaverDialog

  /** The checkpass child: deciding what to do next, waiting for a reply, or gone. */
  datatype Child = NoChild | Thinking | Awaiting | Exited

  /** What is left of the handler the main thread is in.  From CancelPam on it is
      the way through cancelAuthentication and authenticate. */
  datatype Task =
    | Free
    | Appending(es: seq<Entry>)
    | Boot
    | CancelPam
    | StopOld
    | DropSession
    | Reset
    | Relaunch
    | Fork(user: string)

  datatype Reply = Reply(toService: bool, shown: Option<Source>)

  /** What happened so far.  `sent`, `received`, `completions`, `flagAtFork` and
      `exited` are about the current run. */
  datatype History = History(
    run: nat,
    sent: seq<PamEvent>,
    received: seq<PamEvent>,
    verdicts: map<nat, bool>,       // what pam_authenticate returned, by run
    completes: map<nat, bool>,      // the Complete events received, by run
    live: bool,                     // the run was forked since the queue was last stopped
    completions: nat,               // authenticationComplete signals of AuthPam
    flagAtFork: bool,               // m_hasSendCompleteSignal when the run began
    exited: bool,                   // the child's exit was handled
    completeSinceCancel: bool,      // a Complete was received since the last cancel
    delivered: seq<nat>,            // runs whose completion reached the dialog
    unlocked: seq<nat>,             // runs for which the dialog unlocked
    shown: Option<Source>,          // source of the prompt shown last
    replies: seq<Reply>)

  datatype Sys = Sys(
    pam: P.Pam, child: Child, toParent: seq<PamEvent>, toChild: seq<PamEvent>,
    proxy: X.Proxy, q: Q.Queue, posted: seq<Entry>, task: Task, dialog: D.Dialog, h: History)

  const USER: string := "user"

  /** The dialog's constructor has run: a queue is installed and authentication is
      about to start. */
  function Init(interval: int, clock: nat): Sys {
    Sys(P.FRESH, NoChild, [], [], X.FRESH, Q.Init(interval, clock), [], Boot, D.FRESH,
        History(0, [], [], map[], map[], false, 0, false, false, false, [], [], None, []))
  }

  datatype Label =
    | QueueStep(ql: Q.Label)
    | Proceed(outcome: P.ForkOutcome)
    | PipeActivated(answer: Option<X.Session>)
    | ServiceMessage(text: string, kind: X.ServiceKind, sid: string)
    | Deliver
    | UserReply(text: string)
    | ReAuthClicked
    | ChildSays(isError: bool, text: string)
    | ChildAsks(secret: bool, text: string)
    | ChildReads
    | ChildFinishes(success: bool, text: string)
    | ChildCrashes

  /** The main thread is in its event loop. */
  predicate AtLoop(s: Sys) {
    s.task.Free? && s.q.main.Idle?
  }

  predicate Enabled(s: Sys, l: Label) {
    match l
    case QueueStep(ql) => (ql.Main? || ql.Work? || ql.Timeout? || ql.Tick?) && Q.Enabled(s.q, ql)
    case Proceed(_) => !s.task.Free? && s.q.main.Idle? && (s.task.Appending? ==> s.task.es != [])
    case PipeActivated(_) => AtLoop(s) && s.pam.inAuthenticating && (s.toParent != [] || s.child.Exited?)
    case ServiceMessage(_, _, _) => AtLoop(s)
    case Deliver => AtLoop(s) && s.posted != []
    case UserReply(_) => AtLoop(s)
    case ReAuthClicked => AtLoop(s) && s.dialog.reAuthShown
    case ChildSays(_, _) => s.child.Thinking?
    case ChildAsks(_, _) => s.child.Thinking?
    case ChildReads => s.child.Awaiting? && s.toChild != []
    case ChildFinishes(_, _) => s.child.Thinking?
    case ChildCrashes => s.child.Thinking? || s.child.Awaiting?
  }

  /** Entries for the messages a handler appends. */
  function Tagged(msgs: seq<AuthMsg>, src: Source): seq<Entry> {
    seq(|msgs|, i requires 0 <= i < |msgs| => Entry(msgs[i], src))
  }

  function Append(es: seq<Entry>): Task {
    if es == [] then Free else Appending(es)
  }

  /** Positive replies for the answers a handler gives to the child. */
  function Positive(texts: seq<string>): seq<PamEvent> {
    seq(|texts|, i requires 0 <= i < |texts| => PromptReply(true, texts[i]))
  }

  /** The state after a proxy handler's calls: its answers are in the child's
      pipe, its messages are about to be appended. */
  function Handled(s: Sys, result: (X.Proxy, seq<X.Call>), src: Source): Sys {
    s.(proxy := result.0,
       toChild := s.toChild + (if s.pam.inAuthenticating then Positive(X.Answers(result.1)) else []),
       task := Append(Tagged(X.Enqueued(result.1), src)))
  }

  // ----- the parent

  /** A signal of AuthPam, handled by the proxy. */
  function OnSignal(s: Sys, signal: P.Signal, answer: Option<X.Session>): Sys {
    match signal
    case ShowPrompt(text, promptType) =>
      Handled(s, X.OnPamPrompt(s.proxy, text, promptType, answer), PamEventOf(s.h.run))
    case ShowMessage(text, messageType) =>
      Handled(s, X.OnPamMessage(s.proxy, text, messageType), PamEventOf(s.h.run))
    case AuthenticationComplete =>
      Handled(s.(h := s.h.(completions := s.h.completions + 1)),
              X.OnPamComplete(s.proxy, s.pam.isAuthenticated), EndOfRun(s.h.run))
  }

  function OnSignals(s: Sys, signals: seq<P.Signal>, answer: Option<X.Session>): Sys {
    if signals == [] then s else OnSignal(s, signals[0], answer)
  }

  function Received(s: Sys): Sys
    requires s.toParent != []
  {
    var e := s.toParent[0];
    s.(pam := P.OnEvent(s.pam, e).0,
       toParent := s.toParent[1..],
       h := s.h.(received := s.h.received + [e],
                 completes := if e.Complete? then s.h.completes[s.h.run := e.authResult] else s.h.completes,
                 completeSinceCancel := s.h.completeSinceCancel || e.Complete?))
  }

  function ChildGone(s: Sys): Sys {
    s.(pam := P.OnExit(s.pam).0, child := NoChild, toParent := [], toChild := [],
       h := s.h.(exited := true))
  }

  function Activated(s: Sys, answer: Option<X.Session>): Sys {
    if s.toParent != [] then OnSignals(Received(s), P.OnEvent(s.pam, s.toParent[0]).1, answer)
    else OnSignals(ChildGone(s), P.OnExit(s.pam).1, answer)
  }

  // ----- the main thread's longer handlers

  function Cancelled(s: Sys): Sys {
    s.(pam := P.Cancelled(s.pam), child := NoChild, toParent := [], toChild := [],
       h := s.h.(completeSinceCancel := false))
  }

  function Forked(s: Sys, user: string, outcome: P.ForkOutcome): Sys {
    var idle := if s.pam.inAuthenticating then Cancelled(s) else s;
    var s' := idle.(pam := P.Begun(s.pam, user, outcome), task := Free);
    if outcome.Forked? then
      s'.(child := Thinking, toParent := [], toChild := [],
          h := s'.h.(run := s.h.run + 1, sent := [], received := [], live := true,
                     completions := 0, flagAtFork := idle.pam.hasSendCompleteSignal, exited := false))
    else s'
  }

  /** Whom the proxy asks PAM to authenticate, if anybody. */
  function UserAsked(p: X.Proxy): string {
    var asked := X.Only(X.OnAuthenticate(p, USER).1, (c: X.Call) => c.PamAuthenticate?);
    if asked != [] && asked[0].PamAuthenticate? then asked[0].user else ""
  }

  /** PAM is cancelled if the proxy asks for it. */
  function CancelledByProxy(s: Sys): Sys {
    if X.Only(X.OnCancel(s.proxy).1, (c: X.Call) => c.PamCancel?) != [] then Cancelled(s) else s
  }

  function Proceeded(s: Sys, outcome: P.ForkOutcome): Sys
    requires Enabled(s, Proceed(outcome))
  {
    match s.task
    case Appending(es) => s.(q := Q.Apply(s.q, Q.Append(es[0])), task := Append(es[1..]))
    case Boot => s.(q := Q.Apply(s.q, Q.Start), task := Reset)
    case CancelPam => CancelledByProxy(s).(task := StopOld)
    case StopOld => s.(q := Q.Apply(s.q, Q.Stop), task := DropSession)
    case DropSession => s.(proxy := X.StopSession(s.proxy).0, task := Reset)
    case Reset => s.(q := Q.Apply(s.q, Q.Stop), task := Relaunch)
    case Relaunch =>
      s.(q := Q.Apply(s.q, Q.Start), proxy := X.OnAuthenticate(s.proxy, USER).0, task := Fork(UserAsked(s.proxy)))
    case Fork(user) => Forked(s, user, outcome)
  }

  // ----- the front end

  function RunOf(src: Source): nat {
    match src
    case PamEventOf(run) => run
    case EndOfRun(run) => run
    case ServiceSession(_) => 0
  }

  /** Starting over: first cancelling if that is among the requests. */
  function Started(requests: seq<D.Request>): Task {
    if D.CancelAuthentication in requests then CancelPam
    else if D.Authenticate in requests then Reset
    else Free
  }

  /** The dialog's slot for what the proxy tells it, if anything. */
  function Shown(d: D.Dialog, told: seq<X.Call>, inAuthentication: bool): (D.Dialog, seq<D.Request>) {
    if told == [] then (d, [])
    else
      match told[0]
      case EmitPrompt(_, _) => (D.OnPrompt(d), [])
      case EmitComplete(authRes) => D.OnComplete(d, authRes, inAuthentication)
      case _ => (d, [])
  }

  function Noted(h: History, e: Entry, unlocks: bool): History {
    match e.msg
    case Message(_, _) => h
    case Prompt(_, _, _) => h.(shown := Some(e.src))
    case Completion(_) =>
      var run := RunOf(e.src);
      h.(delivered := h.delivered + [run], unlocked := if unlocks then h.unlocked + [run] else h.unlocked)
  }

  function Delivered(s: Sys): Sys
    requires s.posted != []
  {
    var e := s.posted[0];
    var (proxy, calls) := X.OnQueueMessage(s.proxy, e.msg);
    var (d, requests) := Shown(s.dialog, X.Only(calls, X.TellsFrontEnd), s.pam.inAuthenticating);
    s.(posted := s.posted[1..],
       proxy := proxy,
       dialog := d,
       task := Started(requests),
       h := Noted(s.h, e, D.AuthenticationPassed in requests))
  }

  function Replied(s: Sys, text: string): Sys {
    var call := X.OnRespond(s.proxy, text).1[0];
    s.(toChild := s.toChild + (if call.PamRespond? && s.pam.inAuthenticating then [PromptReply(true, text)] else []),
       h := s.h.(replies := s.h.replies + [Reply(call.ServiceRespond?, s.h.shown)]))
  }

  function Clicked(s: Sys): Sys {
    var (d, requests) := D.StartAuth(s.dialog, s.pam.inAuthenticating);
    s.(dialog := d, task := Started(requests))
  }

  // ----- the child and the dispatcher

  function Wrote(s: Sys, e: PamEvent, next: Child): Sys {
    s.(toParent := s.toParent + [e], child := next, h := s.h.(sent := s.h.sent + [e]))
  }

  function Finished(s: Sys, success: bool, text: string): Sys {
    var s' := Wrote(s, Complete(true, success, text), Exited);
    s'.(h := s'.h.(verdicts := s.h.verdicts[s.h.run := success]))
  }

  /** An emission of the dispatcher is posted to the main thread's event loop. */
  function Emission(q: Q.Queue, ql: Q.Label): seq<Entry> {
    if ql.Work? && q.worker.Emitting? then [q.worker.e] else []
  }

  predicate EndsStop(q: Q.Queue, ql: Q.Label) {
    ql.Main? && q.main.Zeroing? && !q.main.first
  }

  function Queued(s: Sys, ql: Q.Label): Sys
    requires Q.Enabled(s.q, ql)
  {
    s.(q := Q.Apply(s.q, ql),
       posted := s.posted + Emission(s.q, ql),
       h := s.h.(live := s.h.live && !EndsStop(s.q, ql)))
  }

  function Apply(s: Sys, l: Label): Sys
    requires Enabled(s, l)
  {
    match l
    case QueueStep(ql) => Queued(s, ql)
    case Proceed(outcome) => Proceeded(s, outcome)
    case PipeActivated(answer) => Activated(s, answer)
    case ServiceMessage(text, kind, sid) =>
      Handled(s, X.OnServiceMessage(s.proxy, text, kind, sid), ServiceSession(sid))
    case Deliver => Delivered(s)
    case UserReply(text) => Replied(s, text)
    case ReAuthClicked => Clicked(s)
    case ChildSays(isError, text) => Wrote(s, MessageEvent(isError, text), Thinking)
    case ChildAsks(secret, text) => Wrote(s, PromptRequest(secret, text), Awaiting)
    case ChildReads => s.(toChild := s.toChild[1..], child := Thinking)
    case ChildFinishes(success, text) => Finished(s, success, text)
    case ChildCrashes => s.(child := Exited)
  }

  predicate Runs(s: Sys, ls: seq<Label>)
    decreases |ls|
  {
    ls == [] || (Enabled(s, ls[0]) && Runs(Apply(s, ls[0]), ls[1..]))
  }

  function After(s: Sys, ls: seq<Label>): Sys
    requires Runs(s, ls)
    decreases |ls|
  {
    if ls == [] then s else After(Apply(s, ls[0]), ls[1..])
  }

  ghost predicate Reachable(s: Sys) {
    exists interval: int, clock: nat, ls: seq<Label> ::
      Runs(Init(interval, clock), ls) && After(Init(interval, clock), ls) == s
  }
}
