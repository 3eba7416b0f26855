/** What every step of the pipeline keeps. */
module PipelineInvariant {
  import opened AuthTypes
  import Q = DispatchQueue
  import QI = DispatchQueueInvariant
  import X = AuthProxy
  import opened Pipeline

  function Pending(t: Task): seq<Entry> {
    if t.Appending? then t.es else []
  }

  /** Everything on its way to the front end, the next to arrive first. */
  function Flight(s: Sys): seq<Entry> {
    s.posted + Q.InHand(s.q.worker) + s.q.queue + Pending(s.task)
  }

  /** Everything appended since the queue was last stopped, or about to be. */
  function Epoch(s: Sys): seq<Entry> {
    s.q.appended + Pending(s.task)
  }

  predicate HasComplete(es: seq<PamEvent>) {
    es != [] && es[|es| - 1].Complete?
  }

  // ----- the invariant

  predicate OnTheWayToFork(t: Task) {
    t.Boot? || t.StopOld? || t.DropSession? || t.Reset? || t.Relaunch? || t.Fork?
  }

  predicate ControlInv(s: Sys) {
    && (s.task.Appending? ==> s.task.es != [])
    && (OnTheWayToFork(s.task) ==> !s.pam.inAuthenticating)
    && (Q.Stopping(s.q.main) ==> s.task.DropSession? || s.task.Relaunch?)
    && (s.q.main.Releasing? ==> s.task.Free? || s.task.Appending?)
    && (s.task.Relaunch? && s.q.main.Idle? ==> s.q.appended == [])
    && (s.task.Fork? ==> s.q.main.Idle? && s.q.appended == [] && s.task.user == USER)
    && (s.pam.inAuthenticating ==> s.pam.user == USER)
    && (s.pam.isAuthenticated ==> s.pam.hasSendCompleteSignal)
    && (s.pam.inAuthenticating <==> !s.child.NoChild?)
    && (!s.pam.inAuthenticating ==> s.toParent == [])
    && !s.proxy.haveErrorMsg
  }

  predicate RunInv(s: Sys) {
    && s.h.received <= s.h.sent
    && (s.pam.inAuthenticating ==> s.h.sent == s.h.received + s.toParent)
    && (s.child.Thinking? || s.child.Awaiting? ==> s.h.run !in s.h.verdicts && !HasComplete(s.h.sent))
    && (forall i :: 0 <= i < |s.h.sent| && s.h.sent[i].Complete? ==>
          i == |s.h.sent| - 1 && s.h.run in s.h.verdicts && s.h.verdicts[s.h.run] == s.h.sent[i].authResult)
    && (forall i :: 0 <= i < |s.h.sent| ==>
          s.h.sent[i].Complete? || s.h.sent[i].PromptRequest? || s.h.sent[i].MessageEvent?)
    && (forall r :: r in s.h.verdicts ==> r <= s.h.run)
    && (forall r :: r in s.h.completes ==> r in s.h.verdicts && s.h.verdicts[r] == s.h.completes[r])
    && (s.h.run in s.h.completes <==> HasComplete(s.h.received))
  }

  predicate CountInv(s: Sys) {
    && s.h.completions <= 1
    && (s.pam.inAuthenticating ==> !s.h.exited)
    && (!s.h.exited ==> (s.h.completions == 1 <==> HasComplete(s.h.received)))
    && (s.h.exited ==> (s.h.completions == 1 <==> HasComplete(s.h.received) || !s.h.flagAtFork))
    && (s.pam.inAuthenticating ==>
          (s.pam.hasSendCompleteSignal <==> s.h.flagAtFork || HasComplete(s.h.received)))
    && s.pam.hasSendCompleteSignal == s.h.completeSinceCancel
  }

  /** A completion in flight belongs to a run that completed, and a successful one
      to a run whose successful Complete event was received. */
  predicate CompletionOk(e: Entry, run: nat, completions: nat, completes: map<nat, bool>) {
    e.msg.Completion? ==>
      && e.src.EndOfRun?
      && e.src.run <= run
      && (e.src.run == run ==> completions == 1)
      && (e.msg.authRes ==> e.src.run in completes && completes[e.src.run])
  }

  predicate FlightOk(g: seq<Entry>, run: nat, completions: nat, completes: map<nat, bool>, delivered: seq<nat>) {
    && (forall i :: 0 <= i < |g| ==> CompletionOk(g[i], run, completions, completes))
    && (forall i :: 0 <= i < |g| && g[i].msg.Completion? && delivered != [] ==>
          delivered[|delivered| - 1] < g[i].src.run)
    && (forall i, j :: 0 <= i < j < |g| && g[i].msg.Completion? && g[j].msg.Completion? ==>
          g[i].src.run < g[j].src.run)
  }

  predicate Increasing(runs: seq<nat>) {
    forall i, j :: 0 <= i < j < |runs| ==> runs[i] < runs[j]
  }

  predicate DeliveredOk(run: nat, completions: nat, completes: map<nat, bool>, delivered: seq<nat>, unlocked: seq<nat>) {
    && Increasing(delivered)
    && Increasing(unlocked)
    && (delivered != [] ==>
          var last := delivered[|delivered| - 1];
          last <= run && (last == run ==> completions == 1))
    && (forall i :: 0 <= i < |unlocked| ==>
          && delivered != [] && unlocked[i] <= delivered[|delivered| - 1]
          && unlocked[i] in completes && completes[unlocked[i]])
  }

  predicate FlightInv(s: Sys) {
    && FlightOk(Flight(s), s.h.run, s.h.completions, s.h.completes, s.h.delivered)
    && DeliveredOk(s.h.run, s.h.completions, s.h.completes, s.h.delivered, s.h.unlocked)
  }

  /** The messages among `es` that come from PAM events. */
  function PamPart(es: seq<Entry>): seq<AuthMsg> {
    if es == [] then []
    else
      var n := |es| - 1;
      PamPart(es[..n]) + (if es[n].src.PamEventOf? then [es[n].msg] else [])
  }

  /** What becomes of one PAM event that the proxy does not keep to itself. */
  function ForwardedOne(e: PamEvent): seq<AuthMsg> {
    match e
    case PromptRequest(secret, text) =>
      if X.Intercepted(text) then []
      else [Prompt(text, if secret then Secret else Question, FromPamModule)]
    case MessageEvent(isError, text) => [Message(text, if isError then Error else Info)]
    case _ => []
  }

  function Forwarded(es: seq<PamEvent>): seq<AuthMsg> {
    if es == [] then []
    else
      var n := |es| - 1;
      Forwarded(es[..n]) + ForwardedOne(es[n])
  }

  function FailureNotice(run: nat): Entry {
    Entry(Message(X.FAILED_TEXT, Error), EndOfRun(run))
  }

  predicate ClosedBy(es: seq<Entry>, run: nat, done: bool) {
    && (forall i :: 0 <= i < |es| && es[i].msg.Completion? ==> done && es[i].src == EndOfRun(run))
    && (forall i, j :: 0 <= i < j < |es| && es[i].msg.Completion? ==> es[j].src == ServiceSession(""))
    && (forall i :: 0 <= i < |es| && es[i].msg == Completion(false) ==> i > 0 && es[i - 1] == FailureNotice(run))
  }

  predicate EpochInv(s: Sys) {
    && (s.pam.inAuthenticating ==> s.h.live)
    && (s.h.live ==> PamPart(Epoch(s)) == Forwarded(s.h.received))
    && ClosedBy(Epoch(s), s.h.run, s.h.live && s.h.completions == 1)
    && (s.h.completions == 1 ==> s.proxy.sessionId == "")
  }

  predicate FromService(shown: Option<Source>) {
    shown.Some? && shown.value.ServiceSession?
  }

  predicate Routed(e: Entry) {
    e.msg.Prompt? ==> (e.msg.from.FromAuthService? <==> e.src.ServiceSession?)
  }

  predicate RouteInv(s: Sys) {
    && (forall i :: 0 <= i < |Flight(s)| ==> Routed(Flight(s)[i]))
    && (s.proxy.promptFrom.FromAuthService? <==> FromService(s.h.shown))
    && (forall i :: 0 <= i < |s.h.replies| ==>
          (s.h.replies[i].toService <==> FromService(s.h.replies[i].shown)))
  }

  predicate Inv(s: Sys) {
    && QI.Inv(s.q)
    && ControlInv(s)
    && RunInv(s)
    && CountInv(s)
    && FlightInv(s)
    && EpochInv(s)
    && RouteInv(s)
  }

  // ----- sequences

  lemma {:induction false} PamPartConcat(a: seq<Entry>, b: seq<Entry>)
    ensures PamPart(a + b) == PamPart(a) + PamPart(b)
    decreases |b|
  {
    if b == [] {
      assert a + b == a;
    } else {
      var n := |b| - 1;
      assert (a + b)[..|a + b| - 1] == a + b[..n];
      PamPartConcat(a, b[..n]);
    }
  }

  lemma {:induction false} ForwardedConcat(a: seq<PamEvent>, b: seq<PamEvent>)
    ensures Forwarded(a + b) == Forwarded(a) + Forwarded(b)
    decreases |b|
  {
    if b == [] {
      assert a + b == a;
    } else {
      var n := |b| - 1;
      assert (a + b)[..|a + b| - 1] == a + b[..n];
      ForwardedConcat(a, b[..n]);
    }
  }

  lemma FlightOkWithout(a: seq<Entry>, b: seq<Entry>, c: seq<Entry>,
                        run: nat, completions: nat, completes: map<nat, bool>, delivered: seq<nat>)
    requires FlightOk(a + b + c, run, completions, completes, delivered)
    ensures FlightOk(a + c, run, completions, completes, delivered)
  {
    var g, g' := a + b + c, a + c;
    forall i | 0 <= i < |g'|
      ensures g'[i] == g[if i < |a| then i else i + |b|]
    {
    }
  }

  /** What a step of the queue machine does to what is in flight: nothing, or it
      drops what a stop clears. */
  lemma QueueFlight(q: Q.Queue, ql: Q.Label, posted: seq<Entry>)
    requires Q.Enabled(q, ql) && (ql.Main? || ql.Work? || ql.Timeout? || ql.Tick?)
    requires QI.ThreadInv(q)
    ensures
      var q' := Q.Apply(q, ql);
      var before, after := Q.InHand(q.worker), Q.InHand(q'.worker);
      || posted + Emission(q, ql) + after + q'.queue == posted + before + q.queue
      || (ql.Main? && q.main.Clearing? && Emission(q, ql) == [] && after == before && q'.queue == [])
      || (ql.Main? && q.main.Waking? && Emission(q, ql) == [] && after == [] && q'.queue == q.queue)
  {
    var q' := Q.Apply(q, ql);
    if ql.Work? && q.worker.Dequeuing? && q.queue != [] {
      assert q.queue == [q.queue[0]] + q.queue[1..];
      assert posted + [] + [q.queue[0]] + q.queue[1..] == posted + [] + q.queue;
    } else if ql.Work? && q.worker.Emitting? {
      assert posted + [q.worker.e] + [] + q.queue == posted + [q.worker.e] + q.queue;
    } else if !(ql.Main? && (q.main.Clearing? || q.main.Waking?)) {
      assert Emission(q, ql) == [] && Q.InHand(q'.worker) == Q.InHand(q.worker) && q'.queue == q.queue;
      assert posted + [] == posted;
    }
  }
}
