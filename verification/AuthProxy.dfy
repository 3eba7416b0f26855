/**
 The proxy between the PAM parent, the authentication service, the message queue
 and the front end.  Both front ends install a queue, so only the branches with
 a queue are modelled.
 */
module AuthProxy {
  import opened AuthTypes

  // Prompt texts that the proxy answers itself.  Their spelling comes from a
  // header of kiran-biometrics that is not part of this model.
  const ASK_AUTH_SID: string := "ask-auth-sid"
  const ASK_FACE: string := "ask-face"
  const ASK_FPINT: string := "ask-fpint"
  const REP_FACE: string := "rep-face"
  const REP_FPINT: string := "rep-fpint"

  const FAILED_TEXT: string := "Failed to authenticate"

  datatype ServiceKind = PromptEchoOff | PromptEchoOn | TextInfo | ErrorMsg | OtherKind

  datatype Session = Session(sid: string, publicKey: string)

  datatype AuthType = Finger | Face

  /** What the proxy does to its surroundings, in order.  CreateAuth carries the
      service's answer. */
  datatype Call =
    | Enqueue(msg: AuthMsg)
    | PamRespond(text: string)
    | PamAuthenticate(user: string)
    | PamCancel
    | CreateAuth(answer: Option<Session>)
    | StartAuth(sid: string)
    | StopAuth(sid: string)
    | ServiceRespond(text: string, publicKey: string, sid: string)
    | StopDispatcher
    | StartDispatcher
    | EmitAuthType(authType: AuthType)
    | EmitMessage(text: string, messageType: MessageType)
    | EmitPrompt(text: string, promptType: PromptType)
    | EmitComplete(authRes: bool)

  datatype Proxy = Proxy(promptFrom: PromptFrom, haveErrorMsg: bool, sessionId: string, publicKey: string)

  const FRESH: Proxy := Proxy(FromPamModule, false, "", "")

  // ----- what each handler does

  predicate Intercepted(text: string) {
    text == ASK_AUTH_SID || text == ASK_FACE || text == ASK_FPINT
  }

  /** stopAuthSession, for the current session. */
  function StopSession(p: Proxy): (Proxy, seq<Call>) {
    if p.sessionId == "" then (p, []) else (p.(sessionId := ""), [StopAuth(p.sessionId)])
  }

  function OnPamComplete(p: Proxy, authenticated: bool): (Proxy, seq<Call>) {
    var (p', stop) := StopSession(p);
    var desc := if !authenticated && !p.haveErrorMsg then [Enqueue(Message(FAILED_TEXT, Error))] else [];
    (p', stop + desc + [Enqueue(Completion(authenticated))])
  }

  function OnPamPrompt(p: Proxy, text: string, promptType: PromptType, answer: Option<Session>): (Proxy, seq<Call>) {
    if text == ASK_AUTH_SID then
      match answer
      case None => (p, [CreateAuth(None), PamRespond("")])
      case Some(s) =>
        (p.(sessionId := s.sid, publicKey := s.publicKey),
         [CreateAuth(answer), PamRespond(s.sid), StartAuth(s.sid)])
    else if text == ASK_FACE then (p, [EmitAuthType(Face), PamRespond(REP_FACE)])
    else if text == ASK_FPINT then (p, [EmitAuthType(Finger), PamRespond(REP_FPINT)])
    else (p, [Enqueue(Prompt(text, promptType, FromPamModule))])
  }

  function OnPamMessage(p: Proxy, text: string, messageType: MessageType): (Proxy, seq<Call>) {
    (p, [Enqueue(Message(text, messageType))])
  }

  function OnServiceMessage(p: Proxy, text: string, kind: ServiceKind, sid: string): (Proxy, seq<Call>) {
    if sid != p.sessionId then (p, [])
    else
      match kind
      case PromptEchoOff => (p, [Enqueue(Prompt(text, Secret, FromAuthService))])
      case PromptEchoOn => (p, [Enqueue(Prompt(text, Question, FromAuthService))])
      case TextInfo => (p, [Enqueue(Message(text, Info))])
      case ErrorMsg => (p, [Enqueue(Message(text, Error))])
      case OtherKind => (p, [])
  }

  /** A message that the queue has released. */
  function OnQueueMessage(p: Proxy, msg: AuthMsg): (Proxy, seq<Call>) {
    match msg
    case Message(text, messageType) => (p, [EmitMessage(text, messageType)])
    case Prompt(text, promptType, from) => (p.(promptFrom := from), [EmitPrompt(text, promptType)])
    case Completion(authRes) =>
      var (p', stop) := StopSession(p);
      (p', stop + [EmitComplete(authRes)])
  }

  function OnAuthenticate(p: Proxy, user: string): (Proxy, seq<Call>) {
    (p.(haveErrorMsg := false), [StopDispatcher, StartDispatcher, PamAuthenticate(user)])
  }

  function OnRespond(p: Proxy, text: string): (Proxy, seq<Call>) {
    (p, [if p.promptFrom.FromAuthService? then ServiceRespond(text, p.publicKey, p.sessionId)
         else PamRespond(text)])
  }

  function OnCancel(p: Proxy): (Proxy, seq<Call>) {
    var (p', stop) := StopSession(p);
    (p', [PamCancel, StopDispatcher] + stop)
  }

  // ----- the class

  class AuthProxy {
    var m_promptFrom: PromptFrom
    var m_haveErrorMsg: bool
    var m_authSessionID: string
    var m_authPublicKey: string
    // everything asked of the surroundings so far
    var calls: seq<Call>

    function State(): Proxy
      reads this
    {
      Proxy(m_promptFrom, m_haveErrorMsg, m_authSessionID, m_authPublicKey)
    }

    constructor ()
      ensures State() == FRESH && calls == []
    {
      m_promptFrom, m_haveErrorMsg := FromPamModule, false;
      m_authSessionID, m_authPublicKey, calls := "", "", [];
    }

    method Call(c: Call)
      modifies this`calls
      ensures calls == old(calls) + [c]
    {
      calls := calls + [c];
    }

    /** `serviceFails` is the service's answer; the session is given up either way. */
    method StopAuthSession(serviceFails: bool) returns (ok: bool)
      modifies this`m_authSessionID, this`calls
      ensures (State(), calls) == (StopSession(old(State())).0, old(calls) + StopSession(old(State())).1)
      ensures ok <==> old(m_authSessionID) != "" && !serviceFails
    {
      ok := true;
      if m_authSessionID == "" {
        assert calls + [] == calls;
        return false;
      }
      Call(StopAuth(m_authSessionID));
      if serviceFails {
        ok := false;
      }
      m_authSessionID := "";
    }

    method HandlePamAuthComplete(authenticated: bool)
      modifies this
      ensures State() == OnPamComplete(old(State()), authenticated).0
      ensures calls == old(calls) + OnPamComplete(old(State()), authenticated).1
    {
      if m_authSessionID != "" {
        Call(StopAuth(m_authSessionID));
        m_authSessionID := "";
      }
      var authResultDesc := "";
      if !authenticated {
        if !m_haveErrorMsg {
          authResultDesc := FAILED_TEXT;
        }
      }
      if authResultDesc != "" {
        Call(Enqueue(Message(authResultDesc, Error)));
      }
      Call(Enqueue(Completion(authenticated)));
    }

    method HandlePamAuthShowPrompt(text: string, promptType: PromptType, answer: Option<Session>)
      modifies this
      ensures State() == OnPamPrompt(old(State()), text, promptType, answer).0
      ensures calls == old(calls) + OnPamPrompt(old(State()), text, promptType, answer).1
    {
      if text == ASK_AUTH_SID {
        Call(CreateAuth(answer));
        if answer.None? {
          Call(PamRespond(""));
          return;
        }
        m_authSessionID := answer.value.sid;
        m_authPublicKey := answer.value.publicKey;
        Call(PamRespond(m_authSessionID));
        Call(StartAuth(m_authSessionID));
        return;
      } else if text == ASK_FACE {
        Call(EmitAuthType(Face));
        Call(PamRespond(REP_FACE));
        return;
      } else if text == ASK_FPINT {
        Call(EmitAuthType(Finger));
        Call(PamRespond(REP_FPINT));
        return;
      }
      Call(Enqueue(Prompt(text, promptType, FromPamModule)));
    }

    method HandlePamAuthShowMessage(text: string, messageType: MessageType)
      modifies this
      ensures State() == OnPamMessage(old(State()), text, messageType).0
      ensures calls == old(calls) + OnPamMessage(old(State()), text, messageType).1
    {
      Call(Enqueue(Message(text, messageType)));
    }

    method HandleAuthServiceAuthMessages(text: string, kind: ServiceKind, sid: string)
      modifies this
      ensures State() == OnServiceMessage(old(State()), text, kind, sid).0
      ensures calls == old(calls) + OnServiceMessage(old(State()), text, kind, sid).1
    {
      if sid != m_authSessionID {
        assert calls + [] == calls;
        return;
      }
      match kind {
        case PromptEchoOff => Call(Enqueue(Prompt(text, Secret, FromAuthService)));
        case PromptEchoOn => Call(Enqueue(Prompt(text, Question, FromAuthService)));
        case TextInfo => Call(Enqueue(Message(text, Info)));
        case ErrorMsg => Call(Enqueue(Message(text, Error)));
        case OtherKind => assert calls + [] == calls;
      }
    }

    /** handleAuthQueueShowMessage, handleAuthQueueShowPrompt and handleAuthQueueComplete. */
    method HandleAuthQueue(msg: AuthMsg, serviceFails: bool)
      modifies this
      ensures State() == OnQueueMessage(old(State()), msg).0
      ensures calls == old(calls) + OnQueueMessage(old(State()), msg).1
    {
      match msg {
        case Message(text, messageType) => Call(EmitMessage(text, messageType));
        case Prompt(text, promptType, from) =>
          m_promptFrom := from;
          Call(EmitPrompt(text, promptType));
        case Completion(authRes) =>
          var _ := StopAuthSession(serviceFails);
          Call(EmitComplete(authRes));
      }
    }

    method Authenticate(user: string)
      modifies this
      ensures State() == OnAuthenticate(old(State()), user).0
      ensures calls == old(calls) + OnAuthenticate(old(State()), user).1
    {
      Call(StopDispatcher);
      Call(StartDispatcher);
      m_haveErrorMsg := false;
      Call(PamAuthenticate(user));
    }

    method Respond(response: string)
      modifies this`calls
      ensures State() == old(State())
      ensures calls == old(calls) + OnRespond(old(State()), response).1
    {
      if m_promptFrom.FromAuthService? {
        Call(ServiceRespond(response, m_authPublicKey, m_authSessionID));
      } else {
        Call(PamRespond(response));
      }
    }

    method CancelAuthentication(serviceFails: bool)
      modifies this
      ensures State() == OnCancel(old(State())).0
      ensures calls == old(calls) + OnCancel(old(State())).1
    {
      Call(PamCancel);
      Call(StopDispatcher);
      var _ := StopAuthSession(serviceFails);
    }
  }

  // ----- one handler at a time

  function Answers(calls: seq<Call>): seq<string> {
    if calls == [] then []
    else (if calls[0].PamRespond? then [calls[0].text] else []) + Answers(calls[1..])
  }

  function Enqueued(calls: seq<Call>): seq<AuthMsg> {
    if calls == [] then []
    else (if calls[0].Enqueue? then [calls[0].msg] else []) + Enqueued(calls[1..])
  }

  /** The answer the child is waiting for: the id of a session just created, none if
      there is no session to be had, or the word for the device that will take over. */
  function ProperAnswer(text: string, answer: Option<Session>): string
    requires Intercepted(text)
  {
    if text == ASK_FACE then REP_FACE
    else if text == ASK_FPINT then REP_FPINT
    else match answer case None => "" case Some(s) => s.sid
  }

  /** A PAM prompt is answered exactly once by the proxy, and properly, if it is one
      of the three it intercepts, and else forwarded exactly once; never both. */
  lemma AnsweredOrForwarded(p: Proxy, text: string, promptType: PromptType, answer: Option<Session>)
    ensures
      var calls := OnPamPrompt(p, text, promptType, answer).1;
      && Answers(calls) == (if Intercepted(text) then [ProperAnswer(text, answer)] else [])
      && Enqueued(calls) == if Intercepted(text) then [] else [Prompt(text, promptType, FromPamModule)]
  {
    var calls := OnPamPrompt(p, text, promptType, answer).1;
    CallsCons(calls[0], calls[1..]);
    assert calls == [calls[0]] + calls[1..];
    if |calls| > 1 {
      CallsCons(calls[1], calls[2..]);
      assert calls[1..] == [calls[1]] + calls[2..];
    }
    if |calls| > 2 {
      CallsCons(calls[2], []);
      assert calls[2..] == [calls[2]] + [];
    }
  }

  lemma {:induction false} CallsCons(c: Call, calls: seq<Call>)
    ensures Answers([c] + calls) == (if c.PamRespond? then [c.text] else []) + Answers(calls)
    ensures Enqueued([c] + calls) == (if c.Enqueue? then [c.msg] else []) + Enqueued(calls)
  {
    assert ([c] + calls)[1..] == calls;
  }

  /** A failure is explained before it is reported. */
  function Verdict(p: Proxy, authenticated: bool): seq<AuthMsg> {
    (if !authenticated && !p.haveErrorMsg then [Message(FAILED_TEXT, Error)] else []) + [Completion(authenticated)]
  }

  lemma {:induction false} EnqueuedVerdict(authenticated: bool)
    ensures Enqueued([Enqueue(Completion(authenticated))]) == [Completion(authenticated)]
    ensures Answers([Enqueue(Completion(authenticated))]) == []
  {
    CallsCons(Enqueue(Completion(authenticated)), []);
    assert [Enqueue(Completion(authenticated))] + [] == [Enqueue(Completion(authenticated))];
  }

  lemma {:induction false} EnqueuedAfterStop(p: Proxy, calls: seq<Call>)
    ensures Enqueued(StopSession(p).1 + calls) == Enqueued(calls) && Answers(StopSession(p).1 + calls) == Answers(calls)
  {
    if p.sessionId == "" {
      assert [] + calls == calls;
    } else {
      CallsCons(StopAuth(p.sessionId), calls);
    }
  }

  /** What each handler appends to the queue and answers to the child. */
  lemma {:induction false} EnqueuedByPamComplete(p: Proxy, authenticated: bool)
    ensures
      var calls := OnPamComplete(p, authenticated).1;
      Answers(calls) == [] && Enqueued(calls) == Verdict(p, authenticated)
  {
    var last := [Enqueue(Completion(authenticated))];
    EnqueuedVerdict(authenticated);
    if !authenticated && !p.haveErrorMsg {
      var error := Enqueue(Message(FAILED_TEXT, Error));
      CallsCons(error, last);
      EnqueuedAfterStop(p, [error] + last);
      assert OnPamComplete(p, authenticated).1 == StopSession(p).1 + ([error] + last);
    } else {
      EnqueuedAfterStop(p, last);
      assert OnPamComplete(p, authenticated).1 == StopSession(p).1 + last;
    }
  }

  lemma EnqueuedByPamMessage(p: Proxy, text: string, messageType: MessageType)
    ensures
      var calls := OnPamMessage(p, text, messageType).1;
      Answers(calls) == [] && Enqueued(calls) == [Message(text, messageType)]
  {
    var calls := OnPamMessage(p, text, messageType).1;
    assert calls[1..] == [];
  }

  /** The text is kept, a prompt is secret exactly if the service wants no echo, and
      its reply will go back to the service. */
  predicate FaithfulToService(m: AuthMsg, text: string, kind: ServiceKind) {
    match m
    case Prompt(t, promptType, from) =>
      && t == text && from.FromAuthService?
      && (if promptType.Secret? then kind.PromptEchoOff? else kind.PromptEchoOn?)
    case Message(t, messageType) =>
      t == text && (if messageType.Error? then kind.ErrorMsg? else kind.TextInfo?)
    case Completion(_) => false
  }

  lemma EnqueuedByServiceMessage(p: Proxy, text: string, kind: ServiceKind, sid: string)
    ensures
      var calls := OnServiceMessage(p, text, kind, sid).1;
      && Answers(calls) == []
      && |Enqueued(calls)| == (if sid == p.sessionId && !kind.OtherKind? then 1 else 0)
      && (forall m :: m in Enqueued(calls) ==> FaithfulToService(m, text, kind))
  {
    var calls := OnServiceMessage(p, text, kind, sid).1;
    assert calls == [] || calls[1..] == [];
  }

  /** A service message enters the queue if and only if its session id is the
      current one and its kind is known.  No session is the empty id, so a
      message with an empty id is let in while there is none. */
  lemma ServiceMessageAcceptedIff(p: Proxy, text: string, kind: ServiceKind, sid: string)
    ensures Enqueued(OnServiceMessage(p, text, kind, sid).1) != [] <==>
            sid == p.sessionId && !kind.OtherKind?
    ensures Enqueued(OnServiceMessage(FRESH, text, TextInfo, "").1) != []
  {
    EnqueuedByServiceMessage(p, text, kind, sid);
    EnqueuedByServiceMessage(FRESH, text, TextInfo, "");
  }

  // ----- whole runs of the proxy

  datatype Input =
    | PamComplete(authenticated: bool)
    | PamPrompt(text: string, promptType: PromptType, answer: Option<Session>)
    | PamMessage(text: string, messageType: MessageType)
    | ServiceMessage(text: string, kind: ServiceKind, sid: string)
    | QueueRelease(msg: AuthMsg)
    | Begin(user: string)
    | UserReply(text: string)
    | Cancel

  function React(p: Proxy, i: Input): (Proxy, seq<Call>) {
    match i
    case PamComplete(authenticated) => OnPamComplete(p, authenticated)
    case PamPrompt(text, promptType, answer) => OnPamPrompt(p, text, promptType, answer)
    case PamMessage(text, messageType) => OnPamMessage(p, text, messageType)
    case ServiceMessage(text, kind, sid) => OnServiceMessage(p, text, kind, sid)
    case QueueRelease(msg) => OnQueueMessage(p, msg)
    case Begin(user) => OnAuthenticate(p, user)
    case UserReply(text) => OnRespond(p, text)
    case Cancel => OnCancel(p)
  }

  /** The state and the calls after a history of inputs, oldest first. */
  function Replay(inputs: seq<Input>): (Proxy, seq<Call>) {
    if inputs == [] then (FRESH, [])
    else
      var n := |inputs| - 1;
      var (p, calls) := Replay(inputs[..n]);
      var (p', more) := React(p, inputs[n]);
      (p', calls + more)
  }

  // What a log of calls says about service sessions, whoever produced it.

  /** The session created last and not stopped since, or the empty id. */
  function Open(calls: seq<Call>): string {
    if calls == [] then ""
    else
      var n := |calls| - 1;
      match calls[n]
      case CreateAuth(Some(s)) => s.sid
      case StopAuth(_) => ""
      case _ => Open(calls[..n])
  }

  function Created(calls: seq<Call>): multiset<string> {
    if calls == [] then multiset{}
    else
      var n := |calls| - 1;
      Created(calls[..n]) + (match calls[n] case CreateAuth(Some(s)) => multiset{s.sid} case _ => multiset{})
  }

  function Stopped(calls: seq<Call>): multiset<string> {
    if calls == [] then multiset{}
    else
      var n := |calls| - 1;
      Stopped(calls[..n]) + (match calls[n] case StopAuth(sid) => multiset{sid} case _ => multiset{})
  }

  /** Sessions still open when the next one was created. */
  function Overwritten(calls: seq<Call>): multiset<string> {
    if calls == [] then multiset{}
    else
      var n := |calls| - 1;
      Overwritten(calls[..n]) + (match calls[n]
                                 case CreateAuth(Some(_)) => OneOf(Open(calls[..n]))
                                 case _ => multiset{})
  }

  function OneOf(sid: string): multiset<string> {
    if sid == "" then multiset{} else multiset{sid}
  }

  predicate Conserved(calls: seq<Call>) {
    Created(calls) == Stopped(calls) + Overwritten(calls) + OneOf(Open(calls))
  }

  /** What one more call adds to each of the four. */
  lemma {:induction false} LogStep(calls: seq<Call>, c: Call)
    ensures Created(calls + [c])
         == Created(calls) + (match c case CreateAuth(Some(s)) => multiset{s.sid} case _ => multiset{})
    ensures Stopped(calls + [c])
         == Stopped(calls) + (match c case StopAuth(sid) => multiset{sid} case _ => multiset{})
    ensures Overwritten(calls + [c])
         == Overwritten(calls) + (match c case CreateAuth(Some(_)) => OneOf(Open(calls)) case _ => multiset{})
    ensures Open(calls + [c])
         == match c case CreateAuth(Some(s)) => s.sid case StopAuth(_) => "" case _ => Open(calls)
  {
    assert (calls + [c])[..|calls|] == calls;
  }

  lemma {:induction false} ConservedByCall(calls: seq<Call>, c: Call)
    requires Conserved(calls)
    requires c.StopAuth? ==> c.sid == Open(calls) != ""
    requires c.CreateAuth? && c.answer.Some? ==> c.answer.value.sid != ""
    ensures Conserved(calls + [c])
    ensures Open(calls + [c]) == match c
                                 case CreateAuth(Some(s)) => s.sid
                                 case StopAuth(_) => ""
                                 case _ => Open(calls)
  {
    LogStep(calls, c);
  }

  predicate NonEmptyIds(inputs: seq<Input>) {
    forall i :: 0 <= i < |inputs| && inputs[i].PamPrompt? && inputs[i].answer.Some? ==>
      inputs[i].answer.value.sid != ""
  }

  predicate NoSessionCall(calls: seq<Call>) {
    forall c :: c in calls ==> !c.StopAuth? && !c.CreateAuth?
  }

  lemma {:induction false} ConservedSilently(calls: seq<Call>, more: seq<Call>)
    requires Conserved(calls) && NoSessionCall(more)
    ensures Conserved(calls + more) && Open(calls + more) == Open(calls)
    decreases |more|
  {
    if more == [] {
      assert calls + more == calls;
    } else {
      var n := |more| - 1;
      ConservedSilently(calls, more[..n]);
      ConservedByCall(calls + more[..n], more[n]);
      assert calls + more == calls + more[..n] + [more[n]];
    }
  }

  lemma SameConcatenation(a: seq<Call>, b: seq<Call>, c: seq<Call>, d: seq<Call>)
    ensures a + (b + c + d) == a + b + c + d
  {
  }

  lemma {:induction false} ConservedAround(calls: seq<Call>, before: seq<Call>, c: Call, after: seq<Call>)
    requires Conserved(calls) && NoSessionCall(before) && NoSessionCall(after)
    requires c.StopAuth? ==> c.sid == Open(calls) != ""
    requires c.CreateAuth? && c.answer.Some? ==> c.answer.value.sid != ""
    ensures Conserved(calls + (before + [c] + after))
    ensures Open(calls + (before + [c] + after)) == match c
                                                   case CreateAuth(Some(s)) => s.sid
                                                   case StopAuth(_) => ""
                                                   case _ => Open(calls)
  {
    ConservedSilently(calls, before);
    var asked := calls + before;
    ConservedByCall(asked, c);
    var called := asked + [c];
    ConservedSilently(called, after);
    SameConcatenation(calls, before, [c], after);
  }

  /** The calls of one reaction contain at most one that concerns a session. */
  lemma ReactionShape(p: Proxy, i: Input) returns (before: seq<Call>, c: Call, after: seq<Call>)
    requires React(p, i).1 != []
    ensures React(p, i).1 == before + [c] + after
    ensures NoSessionCall(before) && NoSessionCall(after)
    ensures c.StopAuth? ==> c.sid == p.sessionId != ""
    ensures React(p, i).0.sessionId == match c
                                       case CreateAuth(Some(s)) => s.sid
                                       case StopAuth(_) => ""
                                       case _ => p.sessionId
    ensures c.CreateAuth? ==> i.PamPrompt? && i.answer == c.answer
  {
    var calls := React(p, i).1;
    if i.Cancel? && p.sessionId != "" {
      before, c, after := calls[..2], calls[2], [];
    } else {
      before, c, after := [], calls[0], calls[1..];
    }
  }

  lemma {:induction false} ConservedByReaction(p: Proxy, calls: seq<Call>, i: Input)
    requires Conserved(calls) && Open(calls) == p.sessionId
    requires i.PamPrompt? && i.answer.Some? ==> i.answer.value.sid != ""
    ensures
      var (p', more) := React(p, i);
      Conserved(calls + more) && Open(calls + more) == p'.sessionId
  {
    if React(p, i).1 == [] {
      assert calls + [] == calls;
    } else {
      var before, c, after := ReactionShape(p, i);
      ConservedAround(calls, before, c, after);
    }
  }

  /** Every session the service created was stopped, was overwritten by a second
      request for a session id, or is the current one. */
  lemma {:induction false} SessionConservation(inputs: seq<Input>)
    requires NonEmptyIds(inputs)
    ensures
      var (p, calls) := Replay(inputs);
      && Created(calls) == Stopped(calls) + Overwritten(calls) + OneOf(p.sessionId)
      && Open(calls) == p.sessionId
    decreases |inputs|
  {
    if inputs != [] {
      var n := |inputs| - 1;
      SessionConservation(inputs[..n]);
      var (p, calls) := Replay(inputs[..n]);
      ConservedByReaction(p, calls, inputs[n]);
    }
  }

  // Sessions in the order they were created, and in the order they were started.

  function Creations(calls: seq<Call>): seq<Session> {
    if calls == [] then []
    else
      var n := |calls| - 1;
      Creations(calls[..n]) + (match calls[n] case CreateAuth(Some(s)) => [s] case _ => [])
  }

  function Starts(calls: seq<Call>): seq<string> {
    if calls == [] then []
    else
      var n := |calls| - 1;
      Starts(calls[..n]) + (match calls[n] case StartAuth(sid) => [sid] case _ => [])
  }

  function Ids(sessions: seq<Session>): seq<string> {
    if sessions == [] then []
    else
      var n := |sessions| - 1;
      Ids(sessions[..n]) + [sessions[n].sid]
  }

  lemma {:induction false} OrderStep(calls: seq<Call>, c: Call)
    ensures Creations(calls + [c])
         == Creations(calls) + (match c case CreateAuth(Some(s)) => [s] case _ => [])
    ensures Starts(calls + [c]) == Starts(calls) + (match c case StartAuth(sid) => [sid] case _ => [])
  {
    assert (calls + [c])[..|calls|] == calls;
  }

  predicate NeitherStartsNorCreates(calls: seq<Call>) {
    forall c :: c in calls ==> !c.StartAuth? && !(c.CreateAuth? && c.answer.Some?)
  }

  lemma {:induction false} OrderSilently(calls: seq<Call>, more: seq<Call>)
    requires NeitherStartsNorCreates(more)
    ensures Creations(calls + more) == Creations(calls) && Starts(calls + more) == Starts(calls)
    decreases |more|
  {
    if more == [] {
      assert calls + more == calls;
    } else {
      var n := |more| - 1;
      OrderSilently(calls, more[..n]);
      OrderStep(calls + more[..n], more[n]);
      assert calls + more == calls + more[..n] + [more[n]];
    }
  }

  /** What the proxy knows of its session is what the service said of the last one. */
  predicate KnowsLast(p: Proxy, created: seq<Session>) {
    if created == [] then p.sessionId == "" && p.publicKey == ""
    else
      var last := created[|created| - 1];
      p.publicKey == last.publicKey && (p.sessionId == last.sid || p.sessionId == "")
  }

  lemma {:induction false} CreationStep(calls: seq<Call>, s: Session)
    ensures
      var calls' := calls + [CreateAuth(Some(s)), PamRespond(s.sid), StartAuth(s.sid)];
      Creations(calls') == Creations(calls) + [s] && Starts(calls') == Starts(calls) + [s.sid]
  {
    var c0, c1, c2 := CreateAuth(Some(s)), PamRespond(s.sid), StartAuth(s.sid);
    OrderStep(calls, c0);
    OrderStep(calls + [c0], c1);
    OrderStep(calls + [c0] + [c1], c2);
    assert calls + [c0, c1, c2] == calls + [c0] + [c1] + [c2];
  }

  lemma SilentReaction(p: Proxy, i: Input)
    requires !(i.PamPrompt? && i.text == ASK_AUTH_SID && i.answer.Some?)
    ensures
      var (p', more) := React(p, i);
      && NeitherStartsNorCreates(more)
      && p'.publicKey == p.publicKey && (p'.sessionId == p.sessionId || p'.sessionId == "")
  {
  }

  predicate InOrder(p: Proxy, calls: seq<Call>) {
    Starts(calls) == Ids(Creations(calls)) && KnowsLast(p, Creations(calls))
  }

  lemma {:induction false} InOrderAfterCreation(p: Proxy, calls: seq<Call>, promptType: PromptType, s: Session)
    requires InOrder(p, calls)
    ensures
      var (p', more) := OnPamPrompt(p, ASK_AUTH_SID, promptType, Some(s));
      InOrder(p', calls + more)
  {
    var created := Creations(calls);
    CreationStep(calls, s);
    assert (created + [s])[..|created|] == created;
  }

  lemma {:induction false} InOrderAfterOthers(p: Proxy, calls: seq<Call>, i: Input)
    requires InOrder(p, calls) && !(i.PamPrompt? && i.text == ASK_AUTH_SID && i.answer.Some?)
    ensures
      var (p', more) := React(p, i);
      InOrder(p', calls + more)
  {
    SilentReaction(p, i);
    OrderSilently(calls, React(p, i).1);
  }

  /** Every session created is started, exactly once and in order; and the id and the
      key the proxy holds, which go with a reply to the service, are those of the
      session created last, or no id once it ended. */
  lemma {:induction false} SessionsStartedInOrder(inputs: seq<Input>)
    ensures
      var (p, calls) := Replay(inputs);
      Starts(calls) == Ids(Creations(calls)) && KnowsLast(p, Creations(calls))
    decreases |inputs|
  {
    if inputs != [] {
      var n := |inputs| - 1;
      var i := inputs[n];
      SessionsStartedInOrder(inputs[..n]);
      var (p, calls) := Replay(inputs[..n]);
      if i.PamPrompt? && i.text == ASK_AUTH_SID && i.answer.Some? {
        InOrderAfterCreation(p, calls, i.promptType, i.answer.value);
      } else {
        InOrderAfterOthers(p, calls, i);
      }
    }
  }

  /** With ids that are never reused, no session is stopped twice, nor stopped
      after it was overwritten, nor current after either. */
  lemma {:induction false} NoSessionEndsTwice(inputs: seq<Input>, sid: string)
    requires NonEmptyIds(inputs)
    requires Created(Replay(inputs).1)[sid] <= 1
    ensures
      var (p, calls) := Replay(inputs);
      Stopped(calls)[sid] + Overwritten(calls)[sid] + (if sid != "" && sid == p.sessionId then 1 else 0) <= 1
  {
    SessionConservation(inputs);
  }

  /** Completion, on either side of the queue, and cancelling leave no session. */
  lemma {:induction false} NoSessionAfterCompletion(inputs: seq<Input>, last: Input)
    requires last.PamComplete? || last.Cancel? || (last.QueueRelease? && last.msg.Completion?)
    ensures Replay(inputs + [last]).0.sessionId == ""
  {
    assert (inputs + [last])[..|inputs|] == inputs;
  }

  /** The source of the prompt released last. */
  function ShownFrom(inputs: seq<Input>): PromptFrom {
    if inputs == [] then FromPamModule
    else
      var n := |inputs| - 1;
      if inputs[n].QueueRelease? && inputs[n].msg.Prompt? then inputs[n].msg.from else ShownFrom(inputs[..n])
  }

  lemma {:induction false} PromptFromIsShown(inputs: seq<Input>)
    ensures Replay(inputs).0.promptFrom == ShownFrom(inputs)
    decreases |inputs|
  {
    if inputs != [] {
      PromptFromIsShown(inputs[..|inputs| - 1]);
    }
  }

  /** A user reply goes to the source of the prompt most recently released, and
      nowhere else, whatever else happened since. */
  lemma {:induction false} ReplyGoesToShownSource(inputs: seq<Input>, text: string)
    ensures
      var (p, calls) := Replay(inputs);
      var (p', calls') := Replay(inputs + [UserReply(text)]);
      && p' == p
      && calls' == calls + [if ShownFrom(inputs).FromAuthService?
                            then ServiceRespond(text, p.publicKey, p.sessionId)
                            else PamRespond(text)]
  {
    PromptFromIsShown(inputs);
    assert (inputs + [UserReply(text)])[..|inputs|] == inputs;
  }

  // ----- what goes out, over whole runs

  /** The calls of one kind, in order. */
  function Only(calls: seq<Call>, kind: Call -> bool): seq<Call> {
    if calls == [] then []
    else (if kind(calls[0]) then [calls[0]] else []) + Only(calls[1..], kind)
  }

  lemma {:induction false} OnlyConcat(a: seq<Call>, b: seq<Call>, kind: Call -> bool)
    ensures Only(a + b, kind) == Only(a, kind) + Only(b, kind)
    decreases |a|
  {
    if a == [] {
      assert a + b == b;
    } else {
      assert (a + b)[0] == a[0] && (a + b)[1..] == a[1..] + b;
      OnlyConcat(a[1..], b, kind);
      ConcatAssociates(if kind(a[0]) then [a[0]] else [], Only(a[1..], kind), Only(b, kind));
    }
  }

  lemma ConcatAssociates(a: seq<Call>, b: seq<Call>, c: seq<Call>)
    ensures a + (b + c) == a + b + c
  {
  }

  function Pick(calls: seq<Call>, k: nat, kind: Call -> bool): seq<Call> {
    if k < |calls| && kind(calls[k]) then [calls[k]] else []
  }

  /** The calls of one reaction are few. */
  lemma {:induction false} OnlyOfFew(calls: seq<Call>, kind: Call -> bool)
    requires |calls| <= 3
    ensures Only(calls, kind) == Pick(calls, 0, kind) + Pick(calls, 1, kind) + Pick(calls, 2, kind)
  {
    if calls != [] {
      var a := calls[1..];
      assert Only(calls, kind) == Pick(calls, 0, kind) + Only(a, kind);
      if a != [] {
        var b := a[1..];
        assert a[0] == calls[1] && Only(a, kind) == Pick(calls, 1, kind) + Only(b, kind);
        if b != [] {
          assert b[0] == calls[2] && b[1..] == [] && Only(b, kind) == Pick(calls, 2, kind);
        }
      }
    }
  }

  /** What each input calls for, all inputs taken together. */
  function Total(inputs: seq<Input>, due: Input -> seq<Call>): seq<Call> {
    if inputs == [] then []
    else
      var n := |inputs| - 1;
      Total(inputs[..n], due) + due(inputs[n])
  }

  /** If every reaction makes the calls of a kind that are due, so does every run. */
  lemma {:induction false} RunMakesDueCalls(inputs: seq<Input>, kind: Call -> bool, due: Input -> seq<Call>)
    requires forall p: Proxy, i: Input :: Only(React(p, i).1, kind) == due(i)
    ensures Only(Replay(inputs).1, kind) == Total(inputs, due)
    decreases |inputs|
  {
    if inputs != [] {
      var n := |inputs| - 1;
      var (p, calls) := Replay(inputs[..n]);
      RunMakesDueCalls(inputs[..n], kind, due);
      OnlyConcat(calls, React(p, inputs[n]).1, kind);
    }
  }

  // What the front end is told.

  predicate TellsFrontEnd(c: Call) {
    c.EmitMessage? || c.EmitPrompt? || c.EmitComplete?
  }

  /** A released message, as the front end is to hear of it. */
  function Told(msg: AuthMsg): Call {
    match msg
    case Message(text, messageType) => EmitMessage(text, messageType)
    case Prompt(text, promptType, _) => EmitPrompt(text, promptType)
    case Completion(authRes) => EmitComplete(authRes)
  }

  function ToldAt(i: Input): seq<Call> {
    if i.QueueRelease? then [Told(i.msg)] else []
  }

  lemma {:induction false} OnlyNone(calls: seq<Call>, kind: Call -> bool)
    requires forall c :: c in calls ==> !kind(c)
    ensures Only(calls, kind) == []
    decreases |calls|
  {
    if calls != [] {
      OnlyNone(calls[1..], kind);
    }
  }

  lemma {:induction false} ReleaseTells(p: Proxy, msg: AuthMsg)
    ensures Only(OnQueueMessage(p, msg).1, TellsFrontEnd) == [Told(msg)]
  {
    OnlyOfFew(OnQueueMessage(p, msg).1, TellsFrontEnd);
  }

  lemma {:induction false} ReactionTells(p: Proxy, i: Input)
    ensures Only(React(p, i).1, TellsFrontEnd) == ToldAt(i)
  {
    if i.QueueRelease? {
      ReleaseTells(p, i.msg);
    } else {
      OnlyNone(React(p, i).1, TellsFrontEnd);
    }
  }

  /** The front end is told of exactly the released messages, in order, each with its
      own text, type or verdict; nothing else is ever shown or completed. */
  lemma {:induction false} FrontEndHearsReleases(inputs: seq<Input>)
    ensures Only(Replay(inputs).1, TellsFrontEnd) == Total(inputs, ToldAt)
  {
    forall p: Proxy, i: Input
      ensures Only(React(p, i).1, TellsFrontEnd) == ToldAt(i)
    {
      ReactionTells(p, i);
    }
    RunMakesDueCalls(inputs, TellsFrontEnd, ToldAt);
  }

  // What the PAM side and the queue are told to do.

  predicate Commands(c: Call) {
    c.StopDispatcher? || c.StartDispatcher? || c.PamAuthenticate? || c.PamCancel?
  }

  /** Beginning resets the queue and then authenticates the user asked for; cancelling
      cancels PAM and then stops the queue. */
  function CommandedAt(i: Input): seq<Call> {
    match i
    case Begin(user) => [StopDispatcher, StartDispatcher, PamAuthenticate(user)]
    case Cancel => [PamCancel, StopDispatcher]
    case _ => []
  }

  lemma {:induction false} ReactionCommands(p: Proxy, i: Input)
    ensures Only(React(p, i).1, Commands) == CommandedAt(i)
  {
    if i.Begin? || i.Cancel? {
      OnlyOfFew(React(p, i).1, Commands);
    } else {
      OnlyNone(React(p, i).1, Commands);
    }
  }

  /** Over any run the commands are those of the Begin and Cancel inputs, in order:
      PAM authenticates exactly the users asked for, and is cancelled exactly once
      per cancel. */
  lemma {:induction false} CommandsFollowInputs(inputs: seq<Input>)
    ensures Only(Replay(inputs).1, Commands) == Total(inputs, CommandedAt)
  {
    forall p: Proxy, i: Input
      ensures Only(React(p, i).1, Commands) == CommandedAt(i)
    {
      ReactionCommands(p, i);
    }
    RunMakesDueCalls(inputs, Commands, CommandedAt);
  }

  /** In the log, PAM is only asked to authenticate directly after the queue was
      stopped and started, and directly after a cancel the queue is stopped. */
  predicate WellOrdered(calls: seq<Call>) {
    && (forall k :: 0 <= k < |calls| && calls[k].PamAuthenticate? ==>
          k >= 2 && calls[k - 2].StopDispatcher? && calls[k - 1].StartDispatcher?)
    && (forall k :: 0 <= k < |calls| && calls[k].PamCancel? ==>
          k + 1 < |calls| && calls[k + 1].StopDispatcher?)
  }

  lemma WellOrderedConcat(a: seq<Call>, b: seq<Call>)
    requires WellOrdered(a) && WellOrdered(b)
    ensures WellOrdered(a + b)
  {
    var c := a + b;
    forall k | 0 <= k < |c| && c[k].PamAuthenticate?
      ensures k >= 2 && c[k - 2].StopDispatcher? && c[k - 1].StartDispatcher?
    {
      if k < |a| {
        assert a[k].PamAuthenticate?;
      } else {
        assert b[k - |a|].PamAuthenticate?;
      }
    }
    forall k | 0 <= k < |c| && c[k].PamCancel?
      ensures k + 1 < |c| && c[k + 1].StopDispatcher?
    {
      if k < |a| {
        assert a[k].PamCancel?;
      } else {
        assert b[k - |a|].PamCancel?;
      }
    }
  }

  lemma CancelWellOrdered(p: Proxy)
    ensures WellOrdered(OnCancel(p).1)
  {
    var calls := OnCancel(p).1;
    assert calls == [PamCancel, StopDispatcher] + StopSession(p).1;
    assert forall k :: 2 <= k < |calls| ==> calls[k].StopAuth?;
  }

  lemma ReactionWellOrdered(p: Proxy, i: Input)
    ensures WellOrdered(React(p, i).1)
  {
    if i.Cancel? {
      CancelWellOrdered(p);
    } else if !i.Begin? {
      var calls := React(p, i).1;
      forall k | 0 <= k < |calls|
        ensures !calls[k].PamAuthenticate? && !calls[k].PamCancel?
      {
        NoStrayCalls(p, i, calls[k]);
      }
    }
  }

  lemma {:induction false} CommandsWellOrdered(inputs: seq<Input>)
    ensures WellOrdered(Replay(inputs).1)
    decreases |inputs|
  {
    if inputs != [] {
      var n := |inputs| - 1;
      var (p, calls) := Replay(inputs[..n]);
      CommandsWellOrdered(inputs[..n]);
      ReactionWellOrdered(p, inputs[n]);
      WellOrderedConcat(calls, React(p, inputs[n]).1);
    }
  }

  // What the child is answered, what is queued, and which device is announced.

  predicate Announces(c: Call) {
    c.EmitAuthType?
  }

  function AnnouncedAt(i: Input): seq<Call> {
    if i.PamPrompt? && i.text == ASK_FACE then [EmitAuthType(Face)]
    else if i.PamPrompt? && i.text == ASK_FPINT then [EmitAuthType(Finger)]
    else []
  }

  lemma {:induction false} ReactionAnnounces(p: Proxy, i: Input)
    ensures Only(React(p, i).1, Announces) == AnnouncedAt(i)
  {
    if i.PamPrompt? {
      OnlyOfFew(React(p, i).1, Announces);
    } else {
      OnlyNone(React(p, i).1, Announces);
    }
  }

  /** A device is announced exactly when PAM asks for it, and it is that device. */
  lemma {:induction false} DevicesAnnounced(inputs: seq<Input>)
    ensures Only(Replay(inputs).1, Announces) == Total(inputs, AnnouncedAt)
  {
    forall p: Proxy, i: Input
      ensures Only(React(p, i).1, Announces) == AnnouncedAt(i)
    {
      ReactionAnnounces(p, i);
    }
    RunMakesDueCalls(inputs, Announces, AnnouncedAt);
  }

  /** And only a user reply, or the answer to an intercepted prompt, answers anybody;
      only PAM's and the service's own messages are queued. */
  lemma NoStrayCalls(p: Proxy, i: Input, c: Call)
    requires c in React(p, i).1
    ensures c.PamRespond? ==> i.UserReply? || (i.PamPrompt? && Intercepted(i.text))
    ensures c.ServiceRespond? ==> i.UserReply?
    ensures c.Enqueue? ==> i.PamComplete? || i.PamPrompt? || i.PamMessage? || i.ServiceMessage?
    ensures c.StopAuth? ==> i.PamComplete? || i.Cancel? || (i.QueueRelease? && i.msg.Completion?)
    ensures c.CreateAuth? || c.StartAuth? ==> i.PamPrompt? && i.text == ASK_AUTH_SID
    ensures c.PamAuthenticate? ==> i.Begin?
    ensures c.PamCancel? ==> i.Cancel?
  {
  }
}
