/** Runs that do happen: one in which the dialog unlocks, so that the theorems are not
    about nothing, and one in which a child dies without anybody hearing of it. */
module PipelineWitness {
  import opened AuthTypes
  import Q = DispatchQueue
  import W = DispatchQueueWitness
  import P = AuthPam
  import X = AuthProxy
  import D = ScreenSaverDialog
  import opened Pipeline
  import opened PipelineSteps
  import opened PipelineTheorems

  // ----- quiet schedules of the queue

  lemma GoOne(s: Sys, ql: Q.Label)
    requires Reachable(s) && W.Quiet(s.q, ql) && !(s.h.live && Q.Stopping(s.q.main))
    ensures Reachable(s.(q := Q.Apply(s.q, ql)))
  {
    ReachStep(s, QueueStep(ql));
    assert s.posted + [] == s.posted;
    assert Queued(s, ql) == s.(q := Q.Apply(s.q, ql));
  }

  lemma QuietKeepsOutOfStop(q: Q.Queue, ql: Q.Label)
    requires W.Quiet(q, ql) && !Q.Stopping(q.main)
    ensures !Q.Stopping(Q.Apply(q, ql).main)
  {
  }

  /** A quiet schedule of the queue is one of the pipeline. */
  lemma {:induction false} Go(s: Sys, ls: seq<Q.Label>, end: Q.Queue)
    requires Reachable(s) && W.QuietRun(s.q, ls, end) && !(s.h.live && Q.Stopping(s.q.main))
    ensures Reachable(s.(q := end))
    decreases |ls|
  {
    if ls == [] {
      assert s.(q := end) == s;
    } else {
      GoOne(s, ls[0]);
      if !Q.Stopping(s.q.main) {
        QuietKeepsOutOfStop(s.q, ls[0]);
      }
      Go(s.(q := Q.Apply(s.q, ls[0])), ls[1..], end);
    }
  }

  /** The same for a stop, which ends the epoch of the run. */
  lemma {:induction false} GoStop(s: Sys, ls: seq<Q.Label>, end: Q.Queue) returns (s': Sys)
    requires Reachable(s) && W.QuietRun(s.q, ls, end)
    ensures Reachable(s') && s' == s.(q := end, h := s.h.(live := s'.h.live))
    decreases |ls|
  {
    if ls == [] {
      s' := s;
    } else {
      ReachStep(s, QueueStep(ls[0]));
      assert s.posted + [] == s.posted;
      s' := GoStop(Queued(s, ls[0]), ls[1..], end);
    }
  }

  // ----- beginning an authentication

  /** From the task of resetting the queue, if all its messages have been shown, to
      the point where the child is forked. */
  lemma ResetToFork(s: Sys) returns (s': Sys)
    requires Reachable(s) && s.task.Reset? && s.q.main.Idle? && s.q.worker.Top?
    requires !s.q.interrupted && !s.q.quit && s.q.permits == 0 && s.q.queue == []
    ensures Reachable(s')
    ensures s' == s.(task := Fork(USER), q := W.Stopped(s.q).(worker := Q.Top),
                     proxy := X.OnAuthenticate(s.proxy, USER).0, h := s.h.(live := s'.h.live))
  {
    ReachStep(s, Proceed(P.Forked));
    var t := s.(task := Relaunch, q := s.q.(main := Q.Interrupting));
    assert Proceeded(s, P.Forked) == t;
    var ls := W.StopRuns(t.q);
    var r := GoStop(t, ls, W.Stopped(t.q));
    s' := Relaunched(r);
  }

  lemma Relaunched(r: Sys) returns (s': Sys)
    requires Reachable(r) && r.task.Relaunch? && r.q.main.Idle? && r.q.worker.Off? && !r.q.interrupted && !r.q.quit
    ensures Reachable(s')
    ensures s' == r.(task := Fork(USER), q := r.q.(worker := Q.Top), proxy := X.OnAuthenticate(r.proxy, USER).0)
  {
    ReachStep(r, Proceed(P.Forked));
    ProxyAsksForUser(r.proxy);
    s' := Proceeded(r, P.Forked);
  }

  /** From the dialog's start to the first fork. */
  lemma ReadyToFork(interval: int, clock: nat) returns (s: Sys)
    ensures Reachable(s)
    ensures s == Init(interval, clock).(task := Fork(USER), q := W.Looping(interval, clock), h := s.h)
    ensures s.h == Init(interval, clock).h.(live := s.h.live)
  {
    s := Init(interval, clock);
    assert Runs(s, []) && After(s, []) == s;
    ReachStep(s, Proceed(P.Forked));
    s := s.(task := Reset, q := W.Looping(interval, clock));
    assert Proceeded(Init(interval, clock), P.Forked) == s;
    s := ResetToFork(s);
  }

  /** The first child is forked and finishes, one way or the other. */
  lemma ChildDone(interval: int, clock: nat, success: bool, text: string) returns (s: Sys)
    ensures Reachable(s) && s.q == W.Looping(interval, clock) && s.task.Free? && s.posted == []
    ensures s.pam == P.Pam(USER, false, true, false) && s.child.Exited? && s.toParent == [Complete(true, success, text)]
    ensures s.h.live && s.h.unlocked == [] && s.h.run == 1 && s.proxy == X.FRESH && s.dialog == D.FRESH
  {
    s := ReadyToFork(interval, clock);
    ReachStep(s, Proceed(P.Forked));
    s := Forked(s, USER, P.Forked);
    ReachStep(s, ChildFinishes(success, text));
    s := Finished(s, success, text);
  }

  /** One message of the handler in progress is appended, permit and all. */
  lemma Appends(s: Sys) returns (s': Sys)
    requires Reachable(s) && s.task.Appending? && s.task.es != [] && s.q.main.Idle? && s.h.live
    ensures Reachable(s')
    ensures s' == s.(task := Append(s.task.es[1..]),
                     q := s.q.(queue := s.q.queue + [s.task.es[0]], appended := s.q.appended + [s.task.es[0]],
                               permits := s.q.permits + 1))
  {
    ReachStep(s, Proceed(P.Forked));
    s' := Proceeded(s, P.Forked);
    GoOne(s', Q.Main);
    s' := s'.(q := Q.Apply(s'.q, Q.Main));
  }

  /** The first message is emitted, once it is due. */
  lemma Emits(s: Sys) returns (s': Sys)
    requires Reachable(s) && !Q.Stopping(s.q.main)
    requires s.q.worker.Top? && !s.q.interrupted && s.q.queue != [] && s.q.permits > 0
    requires !s.q.queue[0].msg.Prompt? && Q.Due(s.q.showTime, s.q.interval) <= Q.UpTime(s.q.clock)
    ensures Reachable(s')
    ensures s' == s.(posted := s.posted + [s.q.queue[0]], q := s'.q)
    ensures s'.q.worker.Top? && s'.q.queue == s.q.queue[1..] && s'.q.permits == s.q.permits - 1
    ensures s'.q.showTime == Q.UpTime(s.q.clock) && s'.q.clock == s.q.clock && s'.q.interval == s.q.interval
    ensures s'.q.main == s.q.main && !s'.q.interrupted && s'.q.quit == s.q.quit
  {
    var ls := W.MessageRuns(s.q);
    var end := W.AboutToEmit(s.q);
    Go(s, ls, end);
    ReachStep(s.(q := end), QueueStep(Q.Work));
    s' := Queued(s.(q := end), Q.Work);
  }

  /** One posted message is delivered: the dialog hears of it what the proxy tells. */
  lemma Delivers(s: Sys) returns (s': Sys)
    requires Reachable(s) && AtLoop(s) && s.posted != []
    ensures Reachable(s') && s' == Delivered(s)
    ensures s'.posted == s.posted[1..] && s'.q == s.q && s'.pam == s.pam && s'.h.run == s.h.run
    ensures
      var (d, requests) := Shown(s.dialog, [X.Told(s.posted[0].msg)], s.pam.inAuthenticating);
      && s'.dialog == d && s'.task == Started(requests)
      && s'.h == Noted(s.h, s.posted[0], D.AuthenticationPassed in requests)
  {
    ReachStep(s, Deliver);
    X.ReleaseTells(s.proxy, s.posted[0].msg);
    s' := Delivered(s);
  }

  // ----- an unlock

  lemma SuccessHandled(interval: int, clock: nat, text: string) returns (s: Sys)
    ensures Reachable(s) && s.h.live && s.h.unlocked == [] && s.posted == []
    ensures s.task == Appending([Entry(Completion(true), EndOfRun(1))]) && s.q == W.Looping(interval, clock)
  {
    s := ChildDone(interval, clock, true, text);
    X.EnqueuedByPamComplete(s.proxy, true);
    ReachStep(s, PipeActivated(None));
    s := Activated(s, None);
    assert s.task.es == [Entry(Completion(true), EndOfRun(1))];
  }

  lemma SuccessEmitted(interval: int, clock: nat, text: string) returns (s: Sys)
    requires 0 <= interval <= Q.UpTime(clock)
    ensures Reachable(s) && AtLoop(s) && s.h.unlocked == [] && s.posted == [Entry(Completion(true), EndOfRun(1))]
  {
    s := SuccessHandled(interval, clock, text);
    s := Appends(s);
    s := Emits(s);
  }

  /** The dialog can unlock: a child whose authentication succeeds is enough. */
  lemma UnlockHappens(interval: int, clock: nat, text: string) returns (s: Sys)
    requires 0 <= interval <= Q.UpTime(clock)
    ensures Reachable(s) && s.h.unlocked == [1]
  {
    s := SuccessEmitted(interval, clock, text);
    s := Delivers(s);
  }

  // ----- a run nobody hears of

  function Failure(): Entry {
    Entry(Completion(false), EndOfRun(1))
  }

  function Notice(): Entry {
    Entry(Message(X.FAILED_TEXT, Error), EndOfRun(1))
  }

  lemma FailureHandled(interval: int, clock: nat, text: string) returns (s: Sys)
    ensures Reachable(s) && s.h.live && s.posted == [] && s.h.run == 1 && s.dialog == D.FRESH && s.proxy == X.FRESH
    ensures s.pam == P.Pam(USER, false, true, true) && s.child.Exited? && s.toParent == []
    ensures s.task == Appending([Notice(), Failure()]) && s.q == W.Looping(interval, clock)
  {
    s := ChildDone(interval, clock, false, text);
    X.EnqueuedByPamComplete(s.proxy, false);
    ReachStep(s, PipeActivated(None));
    s := Activated(s, None);
    assert s.task.es == [Notice(), Failure()];
  }

  /** The failure is queued, and the parent has seen the child's exit. */
  lemma FailureQueued(interval: int, clock: nat, text: string) returns (s: Sys)
    ensures Reachable(s) && s.h.live && s.posted == [] && s.h.run == 1 && s.dialog == D.FRESH && s.proxy == X.FRESH
    ensures s.pam == P.Pam(USER, false, false, true) && s.task.Free?
    ensures s.q == W.Looping(interval, clock).(queue := [Notice(), Failure()], appended := [Notice(), Failure()], permits := 2)
  {
    s := FailureHandled(interval, clock, text);
    s := Appends(s);
    s := Appends(s);
    ReachStep(s, PipeActivated(None));
    s := Activated(s, None);
  }

  lemma Ticks(s: Sys, ms: nat) returns (s': Sys)
    requires Reachable(s)
    ensures Reachable(s') && s' == s.(q := s.q.(clock := s.q.clock + ms))
  {
    ReachStep(s, QueueStep(Q.Tick(ms)));
    assert s.posted + [] == s.posted;
    s' := Queued(s, Q.Tick(ms));
  }

  /** The error text is shown at once, if the machine has been up for an interval. */
  lemma NoticeEmitted(interval: int, clock: nat, text: string) returns (s: Sys)
    requires 0 <= interval <= Q.UpTime(clock)
    ensures Reachable(s) && s.posted == [Notice()] && s.h.run == 1 && s.dialog == D.FRESH
    ensures s.pam == P.Pam(USER, false, false, true) && s.task.Free? && s.q.main.Idle? && s.q.worker.Top?
    ensures !s.q.interrupted && !s.q.quit && s.q.permits == 1 && s.q.queue == [Failure()]
    ensures s.q.showTime == Q.UpTime(s.q.clock) && s.q.interval == interval
  {
    s := FailureQueued(interval, clock, text);
    s := Emits(s);
  }

  /** And the failure an interval later. */
  lemma FailureEmitted(interval: int, clock: nat, text: string) returns (s: Sys)
    requires 0 <= interval <= Q.UpTime(clock)
    ensures Reachable(s) && s.posted == [Notice(), Failure()] && s.h.run == 1 && s.dialog == D.FRESH
    ensures s.pam == P.Pam(USER, false, false, true) && s.task.Free? && s.q.main.Idle? && s.q.worker.Top?
    ensures !s.q.interrupted && !s.q.quit && s.q.permits == 0 && s.q.queue == []
  {
    s := NoticeEmitted(interval, clock, text);
    s := Ticks(s, interval * 1000);
    s := Emits(s);
  }

  /** The dialog, never having shown a prompt, offers its button. */
  lemma ButtonOffered(interval: int, clock: nat, text: string) returns (s: Sys)
    requires 0 <= interval <= Q.UpTime(clock)
    ensures Reachable(s) && AtLoop(s) && s.dialog.reAuthShown && s.h.run == 1 && s.posted == []
    ensures s.pam == P.Pam(USER, false, false, true) && s.q.worker.Top?
    ensures !s.q.interrupted && !s.q.quit && s.q.permits == 0 && s.q.queue == []
  {
    s := FailureEmitted(interval, clock, text);
    s := Delivers(s);
    assert s.posted == [Failure()] && s.dialog == D.FRESH && s.task.Free?;
    s := Delivers(s);
  }

  /** And it is clicked. */
  lemma StartedOver(interval: int, clock: nat, text: string) returns (s: Sys)
    requires 0 <= interval <= Q.UpTime(clock)
    ensures Reachable(s) && s.task.Reset? && s.h.run == 1 && s.posted == []
    ensures s.pam == P.Pam(USER, false, false, true) && s.q.main.Idle? && s.q.worker.Top?
    ensures !s.q.interrupted && !s.q.quit && s.q.permits == 0 && s.q.queue == []
  {
    s := ButtonOffered(interval, clock, text);
    ReachStep(s, ReAuthClicked);
    s := Clicked(s);
  }

  /** A second run whose child dies: its exit has been handled, and neither a
      completion nor a Complete event came of it. */
  lemma SilentRunHappens(interval: int, clock: nat, text: string) returns (s: Sys)
    requires 0 <= interval <= Q.UpTime(clock)
    ensures Reachable(s) && s.h.run == 2 && s.h.exited && s.h.completions == 0 && 2 !in s.h.completes
    ensures AtLoop(s) && !s.pam.inAuthenticating && s.q.queue == [] && s.posted == []
  {
    s := StartedOver(interval, clock, text);
    s := ResetToFork(s);
    ReachStep(s, Proceed(P.Forked));
    s := Forked(s, USER, P.Forked);
    ReachStep(s, ChildCrashes);
    s := s.(child := Exited);
    ReachStep(s, PipeActivated(None));
    s := Activated(s, None);
    CompletionCount(s);
  }
}
