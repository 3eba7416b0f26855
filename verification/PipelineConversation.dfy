/** The conversation of module Conversation, as what the pipeline's child does. */
module PipelineConversation {
  import opened AuthTypes
  import C = Conversation
  import P = AuthPam
  import X = AuthProxy
  import opened Pipeline
  import opened PipelineInvariant
  import opened PipelineSteps
  import opened PipelineTheorems

  /** The child's steps for one PAM message: write the event, and for a prompt
      block until a reply can be read. */
  function MessageSteps(m: C.PamMsg): seq<Label> {
    match m.style
    case EchoOff => [ChildAsks(true, m.text), ChildReads]
    case EchoOn => [ChildAsks(false, m.text), ChildReads]
    case ErrorMsg => [ChildSays(true, m.text)]
    case TextInfo => [ChildSays(false, m.text)]
    case OtherStyle => []
  }

  function ConversationSteps(msgs: seq<C.PamMsg>): seq<Label> {
    if msgs == [] then [] else MessageSteps(msgs[0]) + ConversationSteps(msgs[1..])
  }

  predicate IsChildStep(l: Label) {
    l.ChildSays? || l.ChildAsks? || l.ChildReads? || l.ChildFinishes? || l.ChildCrashes?
  }

  /** The child's own steps of a schedule; the rest is the parent, the queue, the user,
      the service and the clock, in any order. */
  function ChildPart(ls: seq<Label>): seq<Label> {
    if ls == [] then []
    else (if IsChildStep(ls[0]) then [ls[0]] else []) + ChildPart(ls[1..])
  }

  /** The child is in the middle of one and the same run all along. */
  predicate OneRun(s: Sys, ls: seq<Label>)
    requires Runs(s, ls)
    decreases |ls|
  {
    && (s.child.Thinking? || s.child.Awaiting?)
    && (ls != [] ==> Apply(s, ls[0]).h.run == s.h.run && OneRun(Apply(s, ls[0]), ls[1..]))
  }

  /** The replies put into the child's pipe on the way, by the user or by the proxy. */
  function Given(s: Sys, ls: seq<Label>): seq<PamEvent>
    requires Runs(s, ls)
    decreases |ls|
  {
    if ls == [] then []
    else
      var s' := Apply(s, ls[0]);
      (if IsChildStep(ls[0]) || |s'.toChild| < |s.toChild| then [] else s'.toChild[|s.toChild|..]) + Given(s', ls[1..])
  }

  function Writes(steps: seq<Label>): seq<PamEvent> {
    if steps == [] then []
    else (match steps[0]
          case ChildAsks(secret, text) => [PromptRequest(secret, text)]
          case ChildSays(isError, text) => [MessageEvent(isError, text)]
          case _ => []) + Writes(steps[1..])
  }

  function Reads(steps: seq<Label>): nat {
    if steps == [] then 0 else (if steps[0].ChildReads? then 1 else 0) + Reads(steps[1..])
  }

  // ----- every run of the child is a conversation

  /** Nobody else touches what the child wrote; replies are only added. */
  predicate OnlyGives(s: Sys, s': Sys) {
    s'.child == s.child && s'.h.sent == s.h.sent && s.toChild <= s'.toChild
  }

  lemma ProceedingOnlyGives(s: Sys, outcome: P.ForkOutcome)
    requires ControlInv(s) && Enabled(s, Proceed(outcome)) && !s.child.NoChild?
    requires !Proceeded(s, outcome).child.NoChild?
    ensures OnlyGives(s, Proceeded(s, outcome))
  {
    assert !s.task.Fork? && !s.task.CancelPam?;
  }

  lemma RestOnlyGives(s: Sys, l: Label)
    requires Enabled(s, l) && LeavesRun(l)
    ensures OnlyGives(s, Apply(s, l))
  {
    RestIsSameRun(s, l);
    if l.Deliver? {
      assert Delivered(s).toChild == s.toChild;
    } else if l.ReAuthClicked? {
      assert Clicked(s).toChild == s.toChild;
    }
  }

  lemma OthersOnlyGive(s: Sys, l: Label)
    requires ControlInv(s) && Enabled(s, l) && !IsChildStep(l)
    requires s.child.Thinking? || s.child.Awaiting?
    requires !Apply(s, l).child.NoChild?
    ensures OnlyGives(s, Apply(s, l))
  {
    if l.PipeActivated? {
      ActivationOnlyGives(s, l.answer);
    } else if l.Proceed? {
      ProceedingOnlyGives(s, l.outcome);
    } else {
      RestOnlyGives(s, l);
    }
  }

  lemma ActivationOnlyGives(s: Sys, answer: Option<X.Session>)
    requires Enabled(s, PipeActivated(answer)) && s.toParent != []
    ensures OnlyGives(s, Activated(s, answer))
  {
    var signals := P.OnEvent(s.pam, s.toParent[0]).1;
    var r := Received(s);
    assert OnSignals(r, signals, answer).h.sent == r.h.sent;
  }

  predicate Busy(s: Sys) {
    s.child.Thinking? || s.child.Awaiting?
  }

  /** What one step of whoever it may be does to the child's two pipes. */
  predicate Stepped(s: Sys, l: Label, s': Sys) {
    if IsChildStep(l) then
      && s'.h.sent == s.h.sent + Writes([l])
      && Reads([l]) <= |s.toChild| && s'.toChild == s.toChild[Reads([l])..]
    else OnlyGives(s, s')
  }

  lemma OneStep(s: Sys, l: Label)
    requires ControlInv(s) && Enabled(s, l) && Busy(s) && Busy(Apply(s, l))
    ensures Stepped(s, l, Apply(s, l))
  {
    if !IsChildStep(l) {
      OthersOnlyGive(s, l);
    } else {
      assert [l][1..] == [];
      assert s.h.sent + [] == s.h.sent && s.toChild[0..] == s.toChild;
    }
  }

  /** The child's account between `s` and `end`: what its steps write has been sent,
      and of the replies that were there or came it took one per read, oldest first. */
  predicate Account(s: Sys, steps: seq<Label>, given: seq<PamEvent>, end: Sys) {
    && end.h.sent == s.h.sent + Writes(steps)
    && Reads(steps) <= |s.toChild + given|
    && end.toChild == (s.toChild + given)[Reads(steps)..]
  }

  lemma {:induction false} AccountOfChildStep(s: Sys, l: Label, s': Sys, steps: seq<Label>, given: seq<PamEvent>, end: Sys)
    requires IsChildStep(l) && Stepped(s, l, s') && Account(s', steps, given, end)
    ensures Account(s, [l] + steps, given, end)
  {
    StepsCons(l, steps);
    assert s.h.sent + Writes([l]) + Writes(steps) == s.h.sent + (Writes([l]) + Writes(steps));
    DropTwice(s.toChild, Reads([l]), given, Reads(steps));
  }

  lemma {:induction false} AccountOfOtherStep(s: Sys, l: Label, s': Sys, steps: seq<Label>, given: seq<PamEvent>, end: Sys)
    requires !IsChildStep(l) && Stepped(s, l, s') && Account(s', steps, given, end)
    ensures Account(s, steps, s'.toChild[|s.toChild|..] + given, end)
  {
    assert s'.toChild == s.toChild + s'.toChild[|s.toChild|..];
    assert s'.toChild + given == s.toChild + (s'.toChild[|s.toChild|..] + given);
  }

  /** The account of a schedule is that of its first step and of the rest. */
  lemma {:induction false} AccountCons(s: Sys, ls: seq<Label>, s': Sys, end: Sys)
    requires Runs(s, ls) && ls != [] && s' == Apply(s, ls[0])
    requires Stepped(s, ls[0], s') && Account(s', ChildPart(ls[1..]), Given(s', ls[1..]), end)
    ensures Account(s, ChildPart(ls), Given(s, ls), end)
  {
    var l, steps, given := ls[0], ChildPart(ls[1..]), Given(s', ls[1..]);
    if IsChildStep(l) {
      AccountOfChildStep(s, l, s', steps, given, end);
      assert Given(s, ls) == [] + given == given;
    } else {
      AccountOfOtherStep(s, l, s', steps, given, end);
      assert ChildPart(ls) == [] + steps == steps;
    }
  }

  /** However the child's steps are interleaved with all others. */
  lemma {:induction false} ChildSendsAndTakes(s: Sys, ls: seq<Label>)
    requires Inv(s) && Runs(s, ls) && OneRun(s, ls)
    ensures Account(s, ChildPart(ls), Given(s, ls), After(s, ls))
    decreases |ls|
  {
    if ls == [] {
      assert s.h.sent + [] == s.h.sent && (s.toChild + [])[0..] == s.toChild;
    } else {
      FirstOfRun(s, ls);
      ChildSendsAndTakes(Apply(s, ls[0]), ls[1..]);
      AccountCons(s, ls, Apply(s, ls[0]), After(s, ls));
    }
  }

  lemma FirstOfRun(s: Sys, ls: seq<Label>)
    requires Inv(s) && Runs(s, ls) && OneRun(s, ls) && ls != []
    ensures
      var s' := Apply(s, ls[0]);
      Inv(s') && Busy(s) && Busy(s') && OneRun(s', ls[1..]) && Stepped(s, ls[0], s')
  {
    InvKept(s, ls[0]);
    OneStep(s, ls[0]);
  }

  lemma {:induction false} StepsCons(l: Label, steps: seq<Label>)
    ensures Writes([l] + steps) == Writes([l]) + Writes(steps) && Reads([l] + steps) == Reads([l]) + Reads(steps)
  {
    assert ([l] + steps)[1..] == steps && [l][1..] == [];
  }

  lemma DropTwice(replies: seq<PamEvent>, n: nat, more: seq<PamEvent>, m: nat)
    requires n <= |replies| && m <= |replies[n..] + more|
    ensures n + m <= |replies + more| && (replies[n..] + more)[m..] == (replies + more)[n + m..]
  {
  }

  lemma {:induction false} StepsConcat(a: seq<Label>, b: seq<Label>)
    ensures Writes(a + b) == Writes(a) + Writes(b) && Reads(a + b) == Reads(a) + Reads(b)
    decreases |a|
  {
    if a == [] {
      assert a + b == b;
    } else {
      StepsConcat(a[1..], b);
      StepsCons(a[0], a[1..] + b);
      StepsCons(a[0], a[1..]);
      assert a + b == [a[0]] + (a[1..] + b) && a == [a[0]] + a[1..];
    }
  }

  lemma {:induction false} MessageWrites(m: C.PamMsg)
    ensures Writes(MessageSteps(m)) == C.Announce(m) && Reads(MessageSteps(m)) == if C.IsPrompt(m) then 1 else 0
  {
    var steps := MessageSteps(m);
    if steps != [] {
      StepsCons(steps[0], steps[1..]);
      assert steps == [steps[0]] + steps[1..];
      assert steps[1..] == [] || steps[1..] == [ChildReads];
      assert [ChildReads][1..] == [];
    }
  }

  lemma {:induction false} ConversationWrites(msgs: seq<C.PamMsg>)
    ensures Writes(ConversationSteps(msgs)) == C.Announcements(msgs)
    ensures Reads(ConversationSteps(msgs)) == C.PromptCount(msgs)
    decreases |msgs|
  {
    if msgs != [] {
      MessageWrites(msgs[0]);
      ConversationWrites(msgs[1..]);
      StepsConcat(MessageSteps(msgs[0]), ConversationSteps(msgs[1..]));
    }
  }

  /** In every run, whenever the replies came: a child that goes through the messages
      `msgs` has sent their announcements in array order, and taken exactly one reply
      per prompt. */
  lemma ConversationInAnyRun(s: Sys, ls: seq<Label>, msgs: seq<C.PamMsg>)
    requires Reachable(s) && Runs(s, ls) && OneRun(s, ls) && ChildPart(ls) == ConversationSteps(msgs)
    ensures After(s, ls).h.sent == s.h.sent + C.Announcements(msgs)
    ensures
      var n, replies := C.PromptCount(msgs), s.toChild + Given(s, ls);
      n <= |replies| && After(s, ls).toChild == replies[n..]
  {
    ReachableInv(s);
    ConversationWrites(msgs);
    ChildSendsAndTakes(s, ls);
  }

  function MessageOf(l: Label): C.PamMsg
    requires l.ChildSays? || l.ChildAsks?
  {
    match l
    case ChildSays(isError, text) => C.PamMsg(if isError then C.ErrorMsg else C.TextInfo, text)
    case ChildAsks(secret, text) => C.PamMsg(if secret then C.EchoOff else C.EchoOn, text)
  }

  /** And the machine's child does nothing else: between two moments at which it is not
      waiting, its steps are those of a conversation. */
  lemma {:induction false} ChildIsAConversation(s: Sys, ls: seq<Label>) returns (msgs: seq<C.PamMsg>)
    requires Inv(s) && Runs(s, ls) && OneRun(s, ls) && After(s, ls).child.Thinking?
    ensures ChildPart(ls) == Finishing(s.child) + ConversationSteps(msgs)
    decreases |ls|
  {
    if ls == [] {
      msgs := [];
    } else {
      FirstOfRun(s, ls);
      PhaseAfter(s, ls[0]);
      var rest := ChildIsAConversation(Apply(s, ls[0]), ls[1..]);
      msgs := Extended(s.child, ls[0], Apply(s, ls[0]).child, rest);
    }
  }

  /** What the child is in the middle of. */
  function Finishing(child: Child): seq<Label> {
    if child.Awaiting? then [ChildReads] else []
  }

  /** How a step moves the child between its two phases. */
  predicate Moves(child: Child, l: Label, child': Child) {
    if IsChildStep(l) then
      || (l.ChildAsks? && child.Thinking? && child'.Awaiting?)
      || (l.ChildSays? && child.Thinking? && child'.Thinking?)
      || (l.ChildReads? && child.Awaiting? && child'.Thinking?)
    else child' == child
  }

  lemma PhaseAfter(s: Sys, l: Label)
    requires Enabled(s, l) && Busy(s) && Busy(Apply(s, l)) && Stepped(s, l, Apply(s, l))
    ensures Moves(s.child, l, Apply(s, l).child)
  {
  }

  lemma {:induction false} Extended(child: Child, l: Label, child': Child, rest: seq<C.PamMsg>)
    returns (msgs: seq<C.PamMsg>)
    requires Moves(child, l, child')
    ensures (if IsChildStep(l) then [l] else []) + (Finishing(child') + ConversationSteps(rest))
         == Finishing(child) + ConversationSteps(msgs)
  {
    if l.ChildSays? || l.ChildAsks? {
      var m := MessageOf(l);
      msgs := [m] + rest;
      assert msgs[1..] == rest;
      assert MessageSteps(m) == [l] + Finishing(child');
    } else {
      msgs := rest;
    }
  }

  // ----- and every conversation can take place

  /** A schedule in which the user answers each prompt after it was asked. */
  function Dialogue(msgs: seq<C.PamMsg>, texts: seq<string>): seq<Label>
    requires |texts| == C.PromptCount(msgs)
  {
    if msgs == [] then []
    else if C.IsPrompt(msgs[0]) then
      [ChildAsks(msgs[0].style.EchoOff?, msgs[0].text), UserReply(texts[0]), ChildReads]
      + Dialogue(msgs[1..], texts[1..])
    else MessageSteps(msgs[0]) + Dialogue(msgs[1..], texts)
  }

  /** The user can answer PAM: nothing but the main loop is running there, and the
      prompt shown last, if any, was PAM's. */
  predicate ListensToPam(s: Sys) {
    AtLoop(s) && s.pam.inAuthenticating && s.proxy.promptFrom.FromPamModule?
  }

  /** `s` after the child wrote `sent`, but for the record of the user's replies. */
  predicate Talked(s: Sys, s': Sys, sent: seq<PamEvent>) {
    && s' == s.(toParent := s.toParent + sent, h := s'.h)
    && s'.h == s.h.(sent := s.h.sent + sent, replies := s'.h.replies)
  }

  lemma TalkedTwice(s: Sys, s1: Sys, s2: Sys, a: seq<PamEvent>, b: seq<PamEvent>)
    requires Talked(s, s1, a) && Talked(s1, s2, b)
    ensures Talked(s, s2, a + b)
  {
    assert s.toParent + a + b == s.toParent + (a + b);
    assert s.h.sent + a + b == s.h.sent + (a + b);
  }

  lemma {:induction false} RunsCons(s: Sys, l: Label, ls: seq<Label>)
    requires Enabled(s, l) && Runs(Apply(s, l), ls)
    ensures Runs(s, [l] + ls) && After(s, [l] + ls) == After(Apply(s, l), ls)
  {
    assert ([l] + ls)[1..] == ls;
  }

  /** The prompt was written, the reply came and was read. */
  function AfterPrompt(s: Sys, m: C.PamMsg, text: string): Sys {
    s.(toParent := s.toParent + C.Announce(m),
       h := s.h.(sent := s.h.sent + C.Announce(m), replies := s.h.replies + [Reply(false, s.h.shown)]))
  }

  lemma PromptAnswered(s: Sys, m: C.PamMsg, text: string)
    requires ListensToPam(s) && s.child.Thinking? && s.toChild == [] && C.IsPrompt(m)
    ensures Enabled(s, ChildAsks(m.style.EchoOff?, m.text))
    ensures
      var asked := Apply(s, ChildAsks(m.style.EchoOff?, m.text));
      && Enabled(asked, UserReply(text))
      && var answered := Apply(asked, UserReply(text));
         Enabled(answered, ChildReads) && Apply(answered, ChildReads) == AfterPrompt(s, m, text)
    ensures Talked(s, AfterPrompt(s, m, text), C.Announce(m))
  {
    var asked := Apply(s, ChildAsks(m.style.EchoOff?, m.text));
    var answered := Apply(asked, UserReply(text));
    assert answered.toChild == [PromptReply(true, text)];
    assert Apply(answered, ChildReads).toChild == [];
  }

  /** The prompt's three steps, before the rest of a dialogue. */
  lemma {:induction false} PromptFirst(s: Sys, m: C.PamMsg, text: string, ls: seq<Label>, s': Sys)
    requires ListensToPam(s) && s.child.Thinking? && s.toChild == [] && C.IsPrompt(m)
    requires s' == AfterPrompt(s, m, text) && Runs(s', ls)
    ensures
      var steps := [ChildAsks(m.style.EchoOff?, m.text), UserReply(text), ChildReads] + ls;
      Runs(s, steps) && After(s, steps) == After(s', ls)
  {
    PromptAnswered(s, m, text);
    var asks := ChildAsks(m.style.EchoOff?, m.text);
    var asked := Apply(s, asks);
    var answered := Apply(asked, UserReply(text));
    RunsCons(answered, ChildReads, ls);
    RunsCons(asked, UserReply(text), [ChildReads] + ls);
    RunsCons(s, asks, [UserReply(text)] + ([ChildReads] + ls));
    assert [asks, UserReply(text), ChildReads] + ls == [asks] + ([UserReply(text)] + ([ChildReads] + ls));
  }

  lemma {:induction false} SayFirst(s: Sys, m: C.PamMsg, ls: seq<Label>, s': Sys)
    requires s.child.Thinking? && (m.style.ErrorMsg? || m.style.TextInfo?)
    requires s' == Apply(s, ChildSays(m.style.ErrorMsg?, m.text)) && Runs(s', ls)
    ensures Runs(s, MessageSteps(m) + ls) && After(s, MessageSteps(m) + ls) == After(s', ls)
    ensures Talked(s, s', C.Announce(m)) && s'.child.Thinking?
  {
    RunsCons(s, ChildSays(m.style.ErrorMsg?, m.text), ls);
    assert MessageSteps(m) == [ChildSays(m.style.ErrorMsg?, m.text)];
  }

  /** One message, before the rest of a dialogue. */
  lemma {:induction false} MessageFirst(s: Sys, msgs: seq<C.PamMsg>, texts: seq<string>) returns (s': Sys)
    requires ListensToPam(s) && s.child.Thinking? && s.toChild == [] && |texts| == C.PromptCount(msgs) && msgs != []
    ensures Talked(s, s', C.Announce(msgs[0])) && ListensToPam(s') && s'.child.Thinking? && s'.toChild == []
    ensures
      var ls := Dialogue(msgs[1..], if C.IsPrompt(msgs[0]) then texts[1..] else texts);
      Runs(s', ls) ==> Runs(s, Dialogue(msgs, texts)) && After(s, Dialogue(msgs, texts)) == After(s', ls)
  {
    var m := msgs[0];
    var ls := Dialogue(msgs[1..], if C.IsPrompt(m) then texts[1..] else texts);
    if C.IsPrompt(m) {
      s' := AfterPrompt(s, m, texts[0]);
      if Runs(s', ls) {
        PromptFirst(s, m, texts[0], ls, s');
      }
    } else if m.style.OtherStyle? {
      s' := s;
      assert s.toParent + [] == s.toParent && s.h.sent + [] == s.h.sent;
      assert Dialogue(msgs, texts) == [] + ls == ls;
    } else {
      s' := Wrote(s, MessageEvent(m.style.ErrorMsg?, m.text), Thinking);
      if Runs(s', ls) {
        SayFirst(s, m, ls, s');
      }
    }
  }

  /** Any conversation with any replies happens, prompt by prompt. */
  lemma {:induction false} DialogueHappens(s: Sys, msgs: seq<C.PamMsg>, texts: seq<string>)
    requires ListensToPam(s) && s.child.Thinking? && s.toChild == [] && |texts| == C.PromptCount(msgs)
    ensures Runs(s, Dialogue(msgs, texts))
    ensures Talked(s, After(s, Dialogue(msgs, texts)), C.Announcements(msgs))
    decreases |msgs|
  {
    if msgs == [] {
      assert s.toParent + [] == s.toParent && s.h.sent + [] == s.h.sent;
    } else {
      var more := if C.IsPrompt(msgs[0]) then texts[1..] else texts;
      var s' := MessageFirst(s, msgs, texts);
      DialogueHappens(s', msgs[1..], more);
      TalkedTwice(s, s', After(s', Dialogue(msgs[1..], more)), C.Announce(msgs[0]), C.Announcements(msgs[1..]));
    }
  }

  // ----- from PAM's styles to what the front end is asked to show

  /** What PAM wants the user to see of one message: echo off is a secret, and the
      three prompts that are really requests to the proxy are not for the user. */
  function ForTheUser(m: C.PamMsg): seq<AuthMsg> {
    match m.style
    case EchoOff => if X.Intercepted(m.text) then [] else [Prompt(m.text, Secret, FromPamModule)]
    case EchoOn => if X.Intercepted(m.text) then [] else [Prompt(m.text, Question, FromPamModule)]
    case ErrorMsg => [Message(m.text, Error)]
    case TextInfo => [Message(m.text, Info)]
    case OtherStyle => []
  }

  function AllForTheUser(msgs: seq<C.PamMsg>): seq<AuthMsg> {
    if msgs == [] then [] else ForTheUser(msgs[0]) + AllForTheUser(msgs[1..])
  }

  lemma {:induction false} OneForTheUser(m: C.PamMsg)
    ensures Forwarded(C.Announce(m)) == ForTheUser(m)
  {
    if !m.style.OtherStyle? {
      var e := C.Announce(m)[0];
      assert C.Announce(m)[..0] == [];
      assert Forwarded([e]) == Forwarded([]) + ForwardedOne(e);
    }
  }

  /** The events of a conversation are forwarded as what PAM meant: the codec's
      flags and the proxy's types keep texts, echo and severity apart. */
  lemma {:induction false} ConversationIsForwarded(msgs: seq<C.PamMsg>)
    ensures Forwarded(C.Announcements(msgs)) == AllForTheUser(msgs)
    decreases |msgs|
  {
    if msgs != [] {
      OneForTheUser(msgs[0]);
      ConversationIsForwarded(msgs[1..]);
      ForwardedConcat(C.Announce(msgs[0]), C.Announcements(msgs[1..]));
    }
  }

  /** End to end: whatever a run's child has said of the PAM messages `msgs`, with or
      without its Complete event behind it, what the dispatcher has emitted of it is a
      prefix of what PAM wants the user to see. */
  lemma EmittedAsMeant(s: Sys, msgs: seq<C.PamMsg>, end: seq<PamEvent>)
    requires Reachable(s) && s.h.live && s.h.sent == C.Announcements(msgs) + end
    requires end == [] || (|end| == 1 && end[0].Complete?)
    ensures PamPart(s.q.emitted) <= AllForTheUser(msgs)
  {
    FifoRefinement(s);
    ConversationIsForwarded(msgs);
    ForwardedConcat(C.Announcements(msgs), end);
    CompleteIsNotForwarded(end);
  }

  lemma {:induction false} CompleteIsNotForwarded(end: seq<PamEvent>)
    requires end == [] || (|end| == 1 && end[0].Complete?)
    ensures Forwarded(end) == []
  {
    if end != [] {
      assert end[..0] == [];
    }
  }
}
