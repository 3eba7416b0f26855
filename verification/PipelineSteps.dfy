/** Every step of the pipeline keeps the invariant. */
module PipelineSteps {
  import opened AuthTypes
  import Q = DispatchQueue
  import QI = DispatchQueueInvariant
  import P = AuthPam
  import X = AuthProxy
  import opened Pipeline
  import opened PipelineInvariant

  // ----- control

  lemma ControlOfQueue(q: Q.Queue, ql: Q.Label)
    requires Q.Enabled(q, ql) && (ql.Main? || ql.Work? || ql.Timeout? || ql.Tick?)
    ensures
      var q' := Q.Apply(q, ql);
      && (q'.appended == q.appended || q'.appended == [])
      && (q.main.Idle? ==> q'.main.Idle?)
      && (Q.Stopping(q'.main) ==> Q.Stopping(q.main))
      && (q'.main.Releasing? ==> q.main.Releasing?)
      && (Q.Stopping(q.main) && q'.main.Idle? ==> q'.appended == [])
  {
    if !ql.Main? {
      assert Q.Apply(q, ql).main == q.main && Q.Apply(q, ql).appended == q.appended;
    }
  }

  lemma ControlKeptByQueue(s: Sys, ql: Q.Label)
    requires ControlInv(s) && QI.Inv(s.q) && Enabled(s, QueueStep(ql))
    ensures ControlInv(Queued(s, ql)) && QI.Inv(Queued(s, ql).q)
  {
    QI.InvKept(s.q, ql);
    ControlOfQueue(s.q, ql);
  }

  lemma QueueKeptByProceed(s: Sys, outcome: P.ForkOutcome)
    requires QI.Inv(s.q) && Enabled(s, Proceed(outcome))
    ensures QI.Inv(Proceeded(s, outcome).q)
  {
    if s.task.Appending? {
      QI.InvKept(s.q, Q.Append(s.task.es[0]));
    } else if s.task.Boot? || s.task.Relaunch? {
      QI.InvKept(s.q, Q.Start);
    } else if s.task.StopOld? || s.task.Reset? {
      QI.InvKept(s.q, Q.Stop);
    } else {
      assert Proceeded(s, outcome).q == s.q;
    }
  }

  /** The proxy passes the user's name on. */
  lemma {:induction false} ProxyAsksForUser(p: X.Proxy)
    ensures UserAsked(p) == USER
  {
    X.OnlyOfFew(X.OnAuthenticate(p, USER).1, (c: X.Call) => c.PamAuthenticate?);
  }

  /** The proxy does cancel PAM. */
  lemma {:induction false} ProxyCancels(s: Sys)
    ensures CancelledByProxy(s) == Cancelled(s)
  {
    X.OnlyOfFew(X.OnCancel(s.proxy).1, (c: X.Call) => c.PamCancel?);
  }

  /** Cancelling and authenticating, spread over several steps, leave the proxy as its
      own handlers do, and no session after a cancel. */
  lemma TasksFollowProxy(s: Sys, outcome: P.ForkOutcome)
    requires Enabled(s, Proceed(outcome))
    ensures Proceeded(s, outcome).proxy ==
            match s.task
            case DropSession => X.OnCancel(s.proxy).0
            case Relaunch => X.OnAuthenticate(s.proxy, USER).0
            case _ => s.proxy
    ensures s.task.DropSession? ==> Proceeded(s, outcome).proxy.sessionId == ""
  {
    if s.task.CancelPam? {
      ProxyCancels(s);
    }
  }

  lemma ControlKeptByFork(s: Sys, outcome: P.ForkOutcome)
    requires ControlInv(s) && Enabled(s, Proceed(outcome)) && s.task.Fork?
    ensures ControlInv(Forked(s, s.task.user, outcome))
  {
  }

  lemma ControlKeptByProceed(s: Sys, outcome: P.ForkOutcome)
    requires ControlInv(s) && Enabled(s, Proceed(outcome))
    ensures ControlInv(Proceeded(s, outcome))
  {
    if s.task.Fork? {
      ControlKeptByFork(s, outcome);
    } else if s.task.CancelPam? {
      ProxyCancels(s);
    } else if s.task.Relaunch? {
      ProxyAsksForUser(s.proxy);
    } else {
      assert Proceeded(s, outcome).pam == s.pam && Proceeded(s, outcome).child == s.child;
    }
  }

  lemma ControlKeptByHandled(s: Sys, result: (X.Proxy, seq<X.Call>), src: Source)
    requires ControlInv(s) && AtLoop(s) && !result.0.haveErrorMsg
    ensures ControlInv(Handled(s, result, src))
  {
  }

  lemma ControlKeptByActivated(s: Sys, answer: Option<X.Session>)
    requires ControlInv(s) && Enabled(s, PipeActivated(answer))
    ensures ControlInv(Activated(s, answer))
  {
  }

  lemma ControlKeptByRest(s: Sys, l: Label)
    requires ControlInv(s) && Enabled(s, l)
    requires !l.QueueStep? && !l.Proceed? && !l.PipeActivated? && !l.ServiceMessage?
    ensures ControlInv(Apply(s, l)) && Apply(s, l).q == s.q
  {
  }

  // ----- the current run

  /** The proxy's handling of AuthPam's signals leaves the run alone. */
  lemma RunKeptBySignals(s: Sys, signals: seq<P.Signal>, answer: Option<X.Session>)
    requires RunInv(s)
    ensures RunInv(OnSignals(s, signals, answer))
  {
    var s' := OnSignals(s, signals, answer);
    assert s'.pam == s.pam && s'.child == s.child && s'.toParent == s.toParent;
    assert s'.h == s.h.(completions := s'.h.completions);
  }

  lemma RunKeptByReceiving(s: Sys)
    requires RunInv(s) && s.pam.inAuthenticating && s.toParent != []
    ensures RunInv(Received(s))
  {
    var e := s.toParent[0];
    assert s.h.sent == (s.h.received + [e]) + s.toParent[1..];
    assert s.h.sent[|s.h.received|] == e;
  }

  lemma RunKeptByActivated(s: Sys, answer: Option<X.Session>)
    requires RunInv(s) && Enabled(s, PipeActivated(answer))
    ensures RunInv(Activated(s, answer))
  {
    if s.toParent != [] {
      RunKeptByReceiving(s);
      RunKeptBySignals(Received(s), P.OnEvent(s.pam, s.toParent[0]).1, answer);
    } else {
      assert RunInv(ChildGone(s));
      RunKeptBySignals(ChildGone(s), P.OnExit(s.pam).1, answer);
    }
  }

  lemma RunKeptByChild(s: Sys, l: Label)
    requires RunInv(s) && ControlInv(s) && Enabled(s, l)
    requires l.ChildSays? || l.ChildAsks? || l.ChildReads? || l.ChildFinishes? || l.ChildCrashes?
    ensures RunInv(Apply(s, l))
  {
    var s' := Apply(s, l);
    if l.ChildSays? || l.ChildAsks? || l.ChildFinishes? {
      assert s'.h.sent == s.h.received + s'.toParent;
    }
  }

  lemma RunKeptByCancel(s: Sys)
    requires RunInv(s)
    ensures RunInv(Cancelled(s))
  {
  }

  lemma RunKeptByFork(s: Sys, user: string, outcome: P.ForkOutcome)
    requires RunInv(s) && !s.pam.inAuthenticating && s.child.NoChild?
    ensures RunInv(Forked(s, user, outcome))
  {
  }

  lemma RunKeptByProceed(s: Sys, outcome: P.ForkOutcome)
    requires RunInv(s) && ControlInv(s) && Enabled(s, Proceed(outcome))
    ensures RunInv(Proceeded(s, outcome))
  {
    if s.task.Fork? {
      RunKeptByFork(s, s.task.user, outcome);
    } else if s.task.CancelPam? {
      ProxyCancels(s);
      RunKeptByCancel(s);
    } else {
      RunKept(s, Proceeded(s, outcome));
    }
  }

  /** Nothing about the current run differs. */
  predicate SameRun(s: Sys, s': Sys) {
    && s'.pam == s.pam && s'.child == s.child && s'.toParent == s.toParent
    && s'.h.(live := s.h.live, delivered := s.h.delivered, unlocked := s.h.unlocked,
             shown := s.h.shown, replies := s.h.replies) == s.h
  }

  predicate LeavesRun(l: Label) {
    l.QueueStep? || l.ServiceMessage? || l.Deliver? || l.UserReply? || l.ReAuthClicked?
  }

  lemma DeliveryIsSameRun(s: Sys)
    requires s.posted != []
    ensures SameRun(s, Delivered(s))
  {
  }

  lemma RestIsSameRun(s: Sys, l: Label)
    requires Enabled(s, l) && LeavesRun(l)
    ensures SameRun(s, Apply(s, l))
  {
    if l.Deliver? {
      DeliveryIsSameRun(s);
    } else if l.QueueStep? {
      assert SameRun(s, Queued(s, l.ql));
    } else if l.ServiceMessage? {
      assert SameRun(s, Handled(s, X.OnServiceMessage(s.proxy, l.text, l.kind, l.sid), ServiceSession(l.sid)));
    } else if l.UserReply? {
      assert SameRun(s, Replied(s, l.text));
    } else {
      assert SameRun(s, Clicked(s));
    }
  }

  lemma RunKept(s: Sys, s': Sys)
    requires RunInv(s) && SameRun(s, s')
    ensures RunInv(s')
  {
  }

  lemma RunKeptByRest(s: Sys, l: Label)
    requires RunInv(s) && Enabled(s, l) && LeavesRun(l)
    ensures RunInv(Apply(s, l))
  {
    RestIsSameRun(s, l);
    RunKept(s, Apply(s, l));
  }

  /** Once AuthPam has signalled completion, the run has nothing more to say. */
  lemma NothingAfterCompletion(s: Sys)
    requires RunInv(s) && CountInv(s) && ControlInv(s)
    requires s.pam.inAuthenticating && s.h.completions == 1
    ensures s.toParent == [] && s.child.Exited? && s.pam.hasSendCompleteSignal
    ensures s.h.run in s.h.completes
  {
    assert HasComplete(s.h.received);
    assert s.h.sent[|s.h.received| - 1] == s.h.received[|s.h.received| - 1];
  }

  // ----- completions of a run

  lemma CountKeptByReceiving(s: Sys, answer: Option<X.Session>)
    requires CountInv(s) && Enabled(s, PipeActivated(answer)) && s.toParent != [] && s.h.completions == 0
    ensures CountInv(Activated(s, answer))
  {
    var e, received := s.toParent[0], s.h.received + [s.toParent[0]];
    assert HasComplete(received) == e.Complete?;
  }

  lemma CountKeptByExit(s: Sys, answer: Option<X.Session>)
    requires CountInv(s) && Enabled(s, PipeActivated(answer)) && s.toParent == []
    requires s.h.completions == 1 ==> s.pam.hasSendCompleteSignal
    ensures CountInv(Activated(s, answer))
  {
  }

  lemma CountKeptByActivated(s: Sys, answer: Option<X.Session>)
    requires RunInv(s) && CountInv(s) && ControlInv(s) && Enabled(s, PipeActivated(answer))
    ensures CountInv(Activated(s, answer))
  {
    if s.h.completions == 1 {
      NothingAfterCompletion(s);
    }
    if s.toParent != [] {
      CountKeptByReceiving(s, answer);
    } else {
      CountKeptByExit(s, answer);
    }
  }

  lemma CountKeptByProceed(s: Sys, outcome: P.ForkOutcome)
    requires CountInv(s) && ControlInv(s) && Enabled(s, Proceed(outcome))
    ensures CountInv(Proceeded(s, outcome))
  {
    if s.task.Fork? {
      assert CountInv(Forked(s, s.task.user, outcome));
    } else if s.task.CancelPam? {
      ProxyCancels(s);
    } else {
      var s' := Proceeded(s, outcome);
      assert s'.pam == s.pam && s'.h == s.h;
    }
  }

  /** The child's own steps do not touch what AuthPam counts. */
  lemma CountKeptByChild(s: Sys, l: Label)
    requires CountInv(s) && Enabled(s, l)
    requires l.ChildSays? || l.ChildAsks? || l.ChildReads? || l.ChildFinishes? || l.ChildCrashes?
    ensures CountInv(Apply(s, l))
  {
    var s' := Apply(s, l);
    assert s'.pam == s.pam && s'.h.(sent := s.h.sent, verdicts := s.h.verdicts) == s.h;
  }

  lemma CountKeptByRest(s: Sys, l: Label)
    requires CountInv(s) && Enabled(s, l) && LeavesRun(l)
    ensures CountInv(Apply(s, l))
  {
    RestIsSameRun(s, l);
  }
}
