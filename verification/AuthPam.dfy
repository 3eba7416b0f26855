/** The parent's side of the checkpass protocol. */
module AuthPam {
  import opened AuthTypes
  import opened PamMessage

  /** The fields that decide what the parent reports. */
  datatype Pam = Pam(user: string, isAuthenticated: bool, inAuthenticating: bool, hasSendCompleteSignal: bool)

  datatype Signal =
    | ShowPrompt(text: string, promptType: PromptType)
    | ShowMessage(text: string, messageType: MessageType)
    | AuthenticationComplete

  /** What pipe() and fork() answer. */
  datatype ForkOutcome = Forked | NoPipe | NoFork

  const FRESH: Pam := Pam("", false, false, false)

  function Cancelled(p: Pam): Pam {
    FRESH
  }

  function Begun(p: Pam, user: string, outcome: ForkOutcome): Pam {
    var idle := if p.inAuthenticating then Cancelled(p) else p;
    match outcome
    case NoPipe => idle
    case NoFork => idle.(user := "")
    case Forked => idle.(user := user, inAuthenticating := true)
  }

  function OnEvent(p: Pam, e: PamEvent): (Pam, seq<Signal>) {
    match e
    case PromptRequest(secret, text) => (p, [ShowPrompt(text, if secret then Secret else Question)])
    case MessageEvent(isError, text) => (p, [ShowMessage(text, if isError then Error else Info)])
    case Complete(_, authResult, _) =>
      (p.(hasSendCompleteSignal := true, isAuthenticated := authResult), [AuthenticationComplete])
    case ErrorEvent(_) => (p, [])
    case PromptReply(_, _) => (p, [])
  }

  function OnExit(p: Pam): (Pam, seq<Signal>) {
    (p.(inAuthenticating := false), if p.hasSendCompleteSignal then [] else [AuthenticationComplete])
  }

  /** One activation of the pipe notifier, given what recv returned. */
  function OnActivated(p: Pam, received: Option<PamEvent>): (Pam, seq<Signal>) {
    match received
    case None => OnExit(p)
    case Some(e) => OnEvent(p, e)
  }

  class AuthPam {
    var m_userName: string
    var m_isAuthenticated: bool
    var m_inAuthenticating: bool
    var m_hasSendCompleteSignal: bool
    var m_toParentPipe: Pipe?
    var m_toChildPipe: Pipe?
    // signals emitted so far
    var signals: seq<Signal>

    function State(): Pam
      reads this
    {
      Pam(m_userName, m_isAuthenticated, m_inAuthenticating, m_hasSendCompleteSignal)
    }

    predicate Valid()
      reads this
    {
      m_inAuthenticating ==>
        m_toParentPipe != null && m_toChildPipe != null && m_toParentPipe != m_toChildPipe
    }

    constructor ()
      ensures Valid() && State() == FRESH && signals == []
    {
      m_userName, m_isAuthenticated, m_inAuthenticating := "", false, false;
      m_hasSendCompleteSignal, signals := false, [];
      m_toParentPipe, m_toChildPipe := null, null;
    }

    method CancelAuthentication()
      modifies this
      ensures Valid() && State() == Cancelled(old(State())) && signals == old(signals)
      ensures m_toParentPipe == null && m_toChildPipe == null
    {
      m_toChildPipe := null;
      m_toParentPipe := null;
      m_isAuthenticated := false;
      m_inAuthenticating := false;
      m_hasSendCompleteSignal := false;
      m_userName := "";
    }

    method Authenticate(user: string, outcome: ForkOutcome) returns (ok: bool)
      requires Valid()
      modifies this
      ensures Valid() && State() == Begun(old(State()), user, outcome) && signals == old(signals)
      ensures ok <==> outcome.Forked?
      ensures ok ==> m_toParentPipe != null && fresh(m_toParentPipe) && m_toParentPipe.bytes == []
      ensures ok ==> m_toChildPipe != null && fresh(m_toChildPipe) && m_toChildPipe.bytes == []
    {
      if m_inAuthenticating {
        CancelAuthentication();
      }
      if outcome.NoPipe? {
        return false;
      }
      if outcome.NoFork? {
        m_userName := "";
        return false;
      }
      m_userName := user;
      m_inAuthenticating := true;
      m_toParentPipe := new Pipe();
      m_toChildPipe := new Pipe();
      return true;
    }

    /** Only a positive reply is ever written, and only while authenticating. */
    method Respond(c: Codec, response: string)
      requires Valid()
      modifies m_toChildPipe
      ensures m_toChildPipe != null ==>
        && m_toChildPipe.readerOpen == old(m_toChildPipe.readerOpen)
        && m_toChildPipe.bytes ==
             if m_inAuthenticating && m_toChildPipe.readerOpen
             then old(m_toChildPipe.bytes) + EventFrame(c, PromptReply(true, response))
             else old(m_toChildPipe.bytes)
    {
      if !m_inAuthenticating {
        return;
      }
      var _ := SendEvent(c, m_toChildPipe, PromptReply(true, response));
    }

    method HandleChildExit()
      modifies this
      ensures Valid()
      ensures (State(), signals) == (OnExit(old(State())).0, old(signals) + OnExit(old(State())).1)
    {
      m_inAuthenticating := false;
      m_toParentPipe := null;
      m_toChildPipe := null;
      if !m_hasSendCompleteSignal {
        signals := signals + [AuthenticationComplete];
      } else {
        assert signals + [] == signals;
      }
    }

    method HandlePipeActivated(c: Codec)
      requires Valid() && m_inAuthenticating
      modifies this, m_toParentPipe`bytes
      ensures Valid()
      ensures
        var (received, rest) := Recv(c, old(m_toParentPipe.bytes));
        var (p, emitted) := OnActivated(old(State()), received);
        && State() == p && signals == old(signals) + emitted
        && old(m_toParentPipe).bytes == rest
        && (received.Some? ==> m_toParentPipe == old(m_toParentPipe) && m_toChildPipe == old(m_toChildPipe))
    {
      var received := RecvEvent(c, m_toParentPipe);
      if received.None? {
        HandleChildExit();
        return;
      }
      HandleEvent(received.value);
    }

    /** The switch over the received event. */
    method HandleEvent(event: PamEvent)
      modifies this`m_hasSendCompleteSignal, this`m_isAuthenticated, this`signals
      ensures (State(), signals) == (OnEvent(old(State()), event).0, old(signals) + OnEvent(old(State()), event).1)
    {
      match event {
        case PromptRequest(secret, text) =>
          signals := signals + [ShowPrompt(text, if secret then Secret else Question)];
        case MessageEvent(isError, text) =>
          signals := signals + [ShowMessage(text, if isError then Error else Info)];
        case Complete(_, authResult, _) =>
          m_hasSendCompleteSignal := true;
          m_isAuthenticated := authResult;
          signals := signals + [AuthenticationComplete];
        case ErrorEvent(_) => assert signals + [] == signals;
        case PromptReply(_, _) => assert signals + [] == signals;
      }
    }
  }

  /** On a pipe holding the frames of what the child wrote, one activation is one
      event; on an empty pipe whose writer is gone it is the child's exit. */
  lemma {:induction false} ActivationOnFrames(c: Codec, p: Pam, es: seq<PamEvent>)
    requires Carries(c, es) && (es != [] ==> !Refused(es[0]))
    ensures
      var (received, rest) := Recv(c, EventFrames(c, es));
      && OnActivated(p, received) == (if es == [] then OnExit(p) else OnEvent(p, es[0]))
      && (es != [] ==> rest == EventFrames(c, es[1..]))
  {
    RecvFrames(c, es);
  }

  // ----- whole runs of a child

  /** The parent's side of a run in which the child wrote `es` and then was gone. */
  function Hear(p: Pam, es: seq<PamEvent>): (Pam, seq<Signal>)
    decreases |es|
  {
    if es == [] then OnExit(p)
    else
      var (p', signals) := OnEvent(p, es[0]);
      var (end, more) := Hear(p', es[1..]);
      (end, signals + more)
  }

  /** The same, activation by activation, on the bytes in the pipe. */
  function HearStream(c: Codec, p: Pam, stream: seq<byte>): (Pam, seq<Signal>)
    decreases |stream|
  {
    var (received, rest) := Recv(c, stream);
    if received.None? || stream == [] then OnExit(p)
    else
      var (p', signals) := OnActivated(p, received);
      var (end, more) := HearStream(c, p', rest);
      (end, signals + more)
  }

  /** The bytes of any run, also one that breaks off in the middle of a frame, make
      the parent do exactly what the complete events among them say. */
  lemma {:induction false} StreamIsItsEvents(c: Codec, p: Pam, es: seq<PamEvent>, last: PamEvent, cut: nat)
    requires Carries(c, es) && forall e :: e in es ==> !Refused(e)
    requires |c.print_(Encode(last))| < WORD && cut < |EventFrame(c, last)|
    ensures HearStream(c, p, EventFrames(c, es) + EventFrame(c, last)[..cut]) == Hear(p, es)
    decreases |es|
  {
    var torn := EventFrame(c, last)[..cut];
    if es == [] {
      RecvTorn(c, last, cut);
      assert [] + torn == torn;
    } else {
      CarriesRest(c, es);
      RecvFirst(c, es, torn);
      assert EventFrames(c, es) + torn != [];
      StreamIsItsEvents(c, OnEvent(p, es[0]).0, es[1..], last, cut);
    }
  }

  function Completions(signals: seq<Signal>): nat {
    if signals == [] then 0
    else (if signals[0].AuthenticationComplete? then 1 else 0) + Completions(signals[1..])
  }

  function CompleteEvents(es: seq<PamEvent>): nat {
    if es == [] then 0 else (if es[0].Complete? then 1 else 0) + CompleteEvents(es[1..])
  }

  lemma {:induction false} CompletionsConcat(a: seq<Signal>, b: seq<Signal>)
    ensures Completions(a + b) == Completions(a) + Completions(b)
    decreases |a|
  {
    if a == [] {
      assert a + b == b;
    } else {
      assert (a + b)[0] == a[0] && (a + b)[1..] == a[1..] + b;
      CompletionsConcat(a[1..], b);
    }
  }

  /** A run signals completion once per Complete event, and once more at its end if
      it had none and began with the flag down.  With the child's one Complete
      event at most: never twice, and never only in the silent case. */
  lemma {:induction false} CompletionsOfRun(p: Pam, es: seq<PamEvent>)
    ensures Completions(Hear(p, es).1)
         == CompleteEvents(es) + if p.hasSendCompleteSignal || CompleteEvents(es) > 0 then 0 else 1
    ensures !Hear(p, es).0.inAuthenticating
    decreases |es|
  {
    if es == [] {
      assert Completions([AuthenticationComplete]) == 1;
    } else {
      var (p', signals) := OnEvent(p, es[0]);
      CompletionsConcat(signals, Hear(p', es[1..]).1);
      CompletionsOfRun(p', es[1..]);
      assert signals != [] ==> Completions(signals) == if signals[0].AuthenticationComplete? then 1 else 0;
    }
  }

  /** Whether the parent ends up authenticated is decided by the last Complete event
      of the run; without one it stays as it was. */
  lemma {:induction false} VerdictOfRun(p: Pam, es: seq<PamEvent>, authResult: bool, isComplete: bool, text: string)
    ensures Hear(p, es + [Complete(isComplete, authResult, text)]).0.isAuthenticated == authResult
    ensures CompleteEvents(es) == 0 ==> Hear(p, es).0.isAuthenticated == p.isAuthenticated
    decreases |es|
  {
    var es' := es + [Complete(isComplete, authResult, text)];
    if es == [] {
      assert es'[1..] == [];
    } else {
      assert es'[0] == es[0] && es'[1..] == es[1..] + [Complete(isComplete, authResult, text)];
      VerdictOfRun(OnEvent(p, es[0]).0, es[1..], authResult, isComplete, text);
    }
  }

  /** A run is for the user it was begun for, whoever came before, until it ends or is
      cancelled; an attempt that does not fork leaves no user, or the state before. */
  lemma {:induction false} RunIsForUser(p: Pam, user: string, es: seq<PamEvent>)
    ensures Begun(p, user, Forked).user == user && Hear(Begun(p, user, Forked), es).0.user == user
    ensures Begun(p, user, NoFork).user == "" && !Begun(p, user, NoFork).inAuthenticating
    ensures Begun(p, user, NoPipe) == if p.inAuthenticating then FRESH else p
  {
    UserKept(Begun(p, user, Forked), es);
  }

  lemma {:induction false} UserKept(p: Pam, es: seq<PamEvent>)
    ensures Hear(p, es).0.user == p.user
    decreases |es|
  {
    if es != [] {
      UserKept(OnEvent(p, es[0]).0, es[1..]);
    }
  }

  lemma {:induction false} FlagAfterRun(p: Pam, es: seq<PamEvent>)
    ensures Hear(p, es).0.hasSendCompleteSignal <==> p.hasSendCompleteSignal || CompleteEvents(es) > 0
    decreases |es|
  {
    if es != [] {
      FlagAfterRun(OnEvent(p, es[0]).0, es[1..]);
    }
  }

  /** A run that follows another without a cancel in between reports nothing at all
      if and only if its child dies before its Complete event and one was received
      before: its exit is taken for one already reported.  After a cancel every run
      reports. */
  lemma {:induction false} SilentRunIff(p: Pam, user: string, first: seq<PamEvent>, second: seq<PamEvent>)
    ensures
      var begun := Begun(p, user, Forked);
      var finished := Hear(begun, first).0;
      && (Completions(Hear(Begun(finished, user, Forked), second).1) == 0 <==>
          CompleteEvents(second) == 0 && (begun.hasSendCompleteSignal || CompleteEvents(first) > 0))
      && Completions(Hear(Begun(Cancelled(finished), user, Forked), second).1) >= 1
  {
    var begun := Begun(p, user, Forked);
    var finished := Hear(begun, first).0;
    FlagAfterRun(begun, first);
    CompletionsOfRun(begun, first);
    CompletionsOfRun(Begun(finished, user, Forked), second);
    CompletionsOfRun(Begun(Cancelled(finished), user, Forked), second);
  }
}
