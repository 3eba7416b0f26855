/**
 DispatcherWorker in its own, imperative form.

 The fine-grained machine of module DispatchQueue says what happens when both
 threads run.  Here each method is proved against a function on the fields, and
 the lemmas about turns connect each kind of turn of the dispatch loop to the machine.
 */
module DispatcherWorker {
  import opened AuthTypes
  import Q = DispatchQueue
  import T = DispatchQueueTheorems

  /** The fields both threads work on. */
  datatype Fields = Fields(
    queue: seq<Entry>, permits: nat, showTime: nat, havePrompted: bool, interval: int)

  /** What the surroundings answer during one turn of the loop: whether an
      interruption was requested, the two clock readings, and whether a wait
      would be cancelled. */
  datatype Turn = Turn(interrupted: bool, upTime: nat, cancelled: bool, shownAt: nat)

  function Fetched(f: Fields): (Fields, Option<Entry>) {
    if f.permits == 0 then (f, None)
    else if f.queue == [] then (f.(permits := f.permits - 1), None)
    else (f.(permits := f.permits - 1, queue := f.queue[1..]), Some(f.queue[0]))
  }

  /** The milliseconds `e` is to wait before it is shown, if it is delayed. */
  function Delay(f: Fields, e: Entry, upTime: nat): Option<nat> {
    var due := Q.Due(f.showTime, f.interval);
    if !(e.msg.Prompt? && !f.havePrompted) && due > upTime then Some(Q.WaitMs(due, upTime)) else None
  }

  function Iterate(f: Fields, t: Turn): (Fields, seq<Entry>) {
    var (g, fetched) := Fetched(f);
    match fetched
    case None => (g, [])
    case Some(e) =>
      if Delay(g, e, t.upTime).Some? && t.cancelled then (g, [])
      else (g.(showTime := t.shownAt, havePrompted := g.havePrompted || e.msg.Prompt?), [e])
  }

  /** The dispatch loop: turns up to the first requested interruption. */
  function Loop(f: Fields, ts: seq<Turn>): (Fields, seq<Entry>)
    decreases |ts|
  {
    if ts == [] || ts[0].interrupted then (f, [])
    else
      var (g, out) := Iterate(f, ts[0]);
      var (h, rest) := Loop(g, ts[1..]);
      (h, out + rest)
  }

  class DispatcherWorker {
    var m_queue: seq<Entry>
    var m_queueSem: nat
    var m_interval: int
    var m_msgShowTime: nat
    var m_havePrompted: bool
    // the showMessage, showPrompt and authenticationComplete signals, in order
    var signals: seq<Entry>

    function State(): Fields
      reads this
    {
      Fields(m_queue, m_queueSem, m_msgShowTime, m_havePrompted, m_interval)
    }

    constructor ()
      ensures State() == Fields([], 0, 0, false, 2) && signals == []
    {
      m_queue, m_queueSem, m_interval := [], 0, 2;
      m_msgShowTime, m_havePrompted, signals := 0, false, [];
    }

    method SetInterval(seconds: int)
      modifies this`m_interval
      ensures State() == old(State()).(interval := seconds)
    {
      m_interval := seconds;
    }

    /** The lock region that enqueues, then the release of a permit. */
    method Append(e: Entry)
      modifies this`m_queue, this`m_queueSem
      ensures m_queue == old(m_queue) + [e] && m_queueSem == old(m_queueSem) + 1
    {
      m_queue := m_queue + [e];
      m_queueSem := m_queueSem + 1;
    }

    /** Drains the permits, clears the queue and resets the show time. */
    method CancelAndStop()
      modifies this`m_queue, this`m_queueSem, this`m_msgShowTime
      ensures State() == old(State()).(queue := [], permits := 0, showTime := 0)
    {
      var available := m_queueSem;
      m_queueSem := m_queueSem - available;
      m_queue := [];
      m_msgShowTime := 0;
    }

    method FetchMsgFromQueue() returns (r: Option<Entry>)
      modifies this`m_queue, this`m_queueSem
      ensures (State(), r) == Fetched(old(State()))
    {
      r := None;
      if m_queueSem > 0 {
        m_queueSem := m_queueSem - 1;
        if m_queue != [] {
          r := Some(m_queue[0]);
          m_queue := m_queue[1..];
        }
      }
    }

    /** The dispatch loop, driven by the answers of its surroundings. */
    method DoDispatcher(turns: seq<Turn>)
      modifies this
      ensures (State(), signals) ==
              (Loop(old(State()), turns).0, old(signals) + Loop(old(State()), turns).1)
    {
      var i := 0;
      while i < |turns|
        invariant 0 <= i <= |turns|
        invariant Loop(old(State()), turns).0 == Loop(State(), turns[i..]).0
        invariant old(signals) + Loop(old(State()), turns).1 == signals + Loop(State(), turns[i..]).1
      {
        ghost var before, shown := State(), signals;
        var t := turns[i];
        assert turns[i..][1..] == turns[i + 1..];
        if t.interrupted {
          break;
        }
        i := i + 1;
        var fetched := FetchMsgFromQueue();
        if fetched.None? {
          assert Loop(before, turns[i-1..]) == (Loop(State(), turns[i..]).0, [] + Loop(State(), turns[i..]).1);
          continue;
        }
        var e := fetched.value;
        var msgShowTime := Q.Due(m_msgShowTime, m_interval);
        if !(e.msg.Prompt? && !m_havePrompted) && msgShowTime > t.upTime {
          if t.cancelled {
            assert Loop(before, turns[i-1..]) == (Loop(State(), turns[i..]).0, [] + Loop(State(), turns[i..]).1);
            continue;
          }
        }
        m_msgShowTime := t.shownAt;
        if e.msg.Prompt? {
          m_havePrompted := true;
        }
        signals := signals + [e];
        assert (State(), [e]) == Iterate(before, t);
        assert shown + ([e] + Loop(State(), turns[i..]).1) == signals + Loop(State(), turns[i..]).1;
      }
      assert Loop(State(), turns[i..]) == (State(), []) && signals + [] == signals;
    }
  }

  /** This turn's message has to wait, and its wait is cancelled. */
  predicate Loses(f: Fields, t: Turn) {
    var (g, fetched) := Fetched(f);
    fetched.Some? && Delay(g, fetched.value, t.upTime).Some? && t.cancelled
  }

  /** No turn is interrupted, and none loses its message; a wake-up that finds nobody
      waiting does no harm. */
  predicate Undisturbed(f: Fields, ts: seq<Turn>)
    decreases |ts|
  {
    ts == [] || (!ts[0].interrupted && !Loses(f, ts[0]) && Undisturbed(Iterate(f, ts[0]).0, ts[1..]))
  }

  /** Then the loop emits the queue in order and completely. */
  lemma {:induction false} LoopDeliversAll(f: Fields, ts: seq<Turn>)
    requires f.permits == |f.queue| <= |ts| && Undisturbed(f, ts)
    ensures Loop(f, ts).1 == f.queue && Loop(f, ts).0.queue == [] && Loop(f, ts).0.permits == 0
    decreases |ts|
  {
    if ts != [] {
      var g := Iterate(f, ts[0]).0;
      LoopDeliversAll(g, ts[1..]);
      assert f.queue == [] || f.queue == [f.queue[0]] + f.queue[1..];
    }
  }

  /** What becomes of a fetched message. */
  datatype Fate = Fate(e: Entry, shown: bool)

  /** The fates of the messages the loop fetches. */
  function Fates(f: Fields, ts: seq<Turn>): seq<Fate>
    decreases |ts|
  {
    if ts == [] || ts[0].interrupted then []
    else
      (if Fetched(f).1.Some? then [Fate(Fetched(f).1.value, !Loses(f, ts[0]))] else [])
      + Fates(Iterate(f, ts[0]).0, ts[1..])
  }

  function Entries(fates: seq<Fate>): seq<Entry> {
    if fates == [] then [] else [fates[0].e] + Entries(fates[1..])
  }

  function Emitted(fates: seq<Fate>): seq<Entry> {
    if fates == [] then [] else (if fates[0].shown then [fates[0].e] else []) + Emitted(fates[1..])
  }

  /** Whatever the turns: the messages fetched and those left make up the queue, and
      the fetched ones are emitted, in order, but for those whose wait was cancelled. */
  lemma {:induction false} LoopAccountsForAll(f: Fields, ts: seq<Turn>)
    ensures Entries(Fates(f, ts)) + Loop(f, ts).0.queue == f.queue
    ensures Loop(f, ts).1 == Emitted(Fates(f, ts))
    decreases |ts|
  {
    if ts != [] && !ts[0].interrupted {
      var g := Iterate(f, ts[0]).0;
      var rest := Fates(g, ts[1..]);
      LoopAccountsForAll(g, ts[1..]);
      if Fetched(f).1.Some? {
        FatesCons(Fate(f.queue[0], !Loses(f, ts[0])), rest);
        assert f.queue == [f.queue[0]] + (Entries(rest) + Loop(g, ts[1..]).0.queue);
      } else {
        assert [] + rest == rest && [] + Emitted(rest) == Emitted(rest);
      }
    }
  }

  lemma {:induction false} FatesCons(fate: Fate, rest: seq<Fate>)
    ensures Entries([fate] + rest) == [fate.e] + Entries(rest)
    ensures Emitted([fate] + rest) == (if fate.shown then [fate.e] else []) + Emitted(rest)
  {
    assert ([fate] + rest)[1..] == rest;
  }

  // ----- one turn of the loop is a schedule of the two-thread machine

  function FieldsOf(q: Q.Queue): Fields {
    Fields(q.queue, q.permits, q.showTime, q.havePrompted, q.interval)
  }

  /** The dispatcher's steps for one message that is shown; `rest` milliseconds
      pass between the end of the wait and the second clock reading. */
  function TurnSchedule(f: Fields, upTime: nat, rest: nat): seq<Q.Label>
    requires f.queue != []
  {
    WORK5 + Pause(Delay(f, f.queue[0], upTime)) + [Q.Tick(rest), Q.Work, Q.Work, Q.Work]
  }

  const WORK5: seq<Q.Label> := [Q.Work, Q.Work, Q.Work, Q.Work, Q.Work]

  function Pause(delay: Option<nat>): seq<Q.Label> {
    match delay
    case None => []
    case Some(ms) => [Q.Tick(ms), Q.Timeout]
  }

  /** Undisturbed by the main thread, the machine does to the fields and emits
      exactly what one turn of the loop does: here, a turn that shows a message.  A
      wake-up does not matter if the message need not wait. */
  lemma {:induction false} ShowingTurn(q: Q.Queue, rest: nat, cancelled: bool)
    requires q.worker.Top? && !q.interrupted && q.queue != [] && q.permits > 0
    requires cancelled ==> Delay(FieldsOf(q), q.queue[0], Q.UpTime(q.clock)).None?
    ensures
      var f := FieldsOf(q);
      var upTime := Q.UpTime(q.clock);
      var ls := TurnSchedule(f, upTime, rest);
      && Q.Runs(q, ls)
      && var q' := Q.After(q, ls);
         var (g, out) := Iterate(f, Turn(false, upTime, cancelled, Q.UpTime(q'.clock)));
         && FieldsOf(q') == g
         && q'.emitted == q.emitted + out
         && q'.worker.Top? && q'.main == q.main
  {
    var delay := Delay(FieldsOf(q), q.queue[0], Q.UpTime(q.clock));
    var tail := [Q.Tick(rest), Q.Work, Q.Work, Q.Work];
    var q5 := HeadSchedule(q, Pause(delay) + tail);
    AfterDecision(q5, q.queue[0], delay, rest);
    assert TurnSchedule(FieldsOf(q), Q.UpTime(q.clock), rest) == WORK5 + (Pause(delay) + tail);
  }

  /** From the decision on: the wait, if any, and the emission. */
  lemma {:induction false} AfterDecision(q: Q.Queue, e: Entry, delay: Option<nat>, rest: nat)
    requires match delay
             case Some(ms) => q.worker == Q.Waiting(e, q.clock + ms)
             case None => q.worker.Stamping? && q.worker.e == e
    ensures
      var ls := Pause(delay) + [Q.Tick(rest), Q.Work, Q.Work, Q.Work];
      && Q.Runs(q, ls)
      && var q' := Q.After(q, ls);
         && FieldsOf(q') == FieldsOf(q).(showTime := Q.UpTime(q'.clock),
                                         havePrompted := q.havePrompted || e.msg.Prompt?)
         && q'.emitted == q.emitted + [e] && q'.worker.Top? && q'.main == q.main
  {
    var tail := [Q.Tick(rest), Q.Work, Q.Work, Q.Work];
    if delay.Some? {
      var q1 := Q.Apply(q, Q.Tick(delay.value));
      var q2 := Q.Apply(q1, Q.Timeout);
      TailSchedule(q2, rest);
      T.RunsCons(q1, Q.Timeout, tail);
      T.RunsCons(q, Q.Tick(delay.value), [Q.Timeout] + tail);
      assert Pause(delay) + tail == [Q.Tick(delay.value)] + ([Q.Timeout] + tail);
    } else {
      TailSchedule(q, rest);
      assert [] + tail == tail;
    }
  }

  /** A turn that finds no message: the wait for a permit times out, or the permit
      it got is for a message that a stop has cleared. */
  lemma {:induction false} EmptyTurn(q: Q.Queue)
    requires q.worker.Top? && !q.interrupted && (q.permits == 0 || q.queue == [])
    ensures
      var ls := if q.permits == 0 then [Q.Work, Q.Timeout] else [Q.Work, Q.Work, Q.Work];
      && Q.Runs(q, ls)
      && var q' := Q.After(q, ls);
         && (forall t: Turn :: !t.interrupted ==> (FieldsOf(q'), []) == Iterate(FieldsOf(q), t))
         && q'.emitted == q.emitted && q'.worker.Top? && q'.main == q.main
  {
    var q1 := Q.Apply(q, Q.Work);
    if q.permits == 0 {
      T.RunsCons(q1, Q.Timeout, []);
      T.RunsCons(q, Q.Work, [Q.Timeout]);
    } else {
      var q2 := Q.Apply(q1, Q.Work);
      T.RunsCons(q2, Q.Work, []);
      T.RunsCons(q1, Q.Work, [Q.Work]);
      T.RunsCons(q, Q.Work, [Q.Work, Q.Work]);
    }
  }

  /** A turn whose wait is cancelled.  `between` is whatever else happens during the
      wait, up to the main thread's wake-up.  The fetch does what the turn does to
      the fields; the wake-up changes none, and nothing is emitted. */
  lemma {:induction false} CancelledTurn(q: Q.Queue, q5: Q.Queue, between: seq<Q.Label>)
    requires q.worker.Top? && !q.interrupted && q.queue != [] && q.permits > 0
    requires Delay(FieldsOf(q), q.queue[0], Q.UpTime(q.clock)).Some?
    requires Q.Runs(q, WORK5) && q5 == Q.After(q, WORK5) && Q.Runs(q5, between)
    requires Q.After(q5, between).worker == q5.worker && Q.After(q5, between).main.Waking?
    ensures
      var woken := Q.Apply(Q.After(q5, between), Q.Main);
      && (forall shownAt :: (FieldsOf(q5), []) == Iterate(FieldsOf(q), Turn(false, Q.UpTime(q.clock), true, shownAt)))
      && FieldsOf(woken) == FieldsOf(Q.After(q5, between))
      && woken.worker.Top? && woken.emitted == Q.After(q5, between).emitted
  {
    var head := HeadSchedule(q, []);
    assert WORK5 + [] == WORK5;
  }

  /** A turn that sees the interruption ends the loop and touches nothing. */
  lemma InterruptedTurn(q: Q.Queue, ts: seq<Turn>)
    requires q.worker.Top? && q.interrupted && ts != [] && ts[0].interrupted
    ensures Q.Enabled(q, Q.Work) && Q.Apply(q, Q.Work).worker.Returned?
    ensures (FieldsOf(Q.Apply(q, Q.Work)), []) == Loop(FieldsOf(q), ts)
    ensures Q.Apply(q, Q.Work).emitted == q.emitted
  {
  }

  /** From the loop head to the decision whether to wait. */
  lemma {:induction false} HeadSchedule(q: Q.Queue, ls: seq<Q.Label>) returns (q5: Q.Queue)
    requires q.worker.Top? && !q.interrupted && q.queue != [] && q.permits > 0
    ensures
      var e := q.queue[0];
      var delay := Delay(FieldsOf(q), e, Q.UpTime(q.clock));
      && q5 == q.(queue := q.queue[1..], permits := q.permits - 1, taken := q.taken + 1,
                  worker := if delay.Some? then Q.Waiting(e, q.clock + delay.value)
                            else Q.Stamping(e, e.msg.Prompt? && !q.havePrompted))
    ensures Q.Runs(q5, ls) ==> Q.Runs(q, WORK5 + ls) && Q.After(q, WORK5 + ls) == Q.After(q5, ls)
  {
    var q2 := Fetches(q);
    q5 := Decides(q2, q.queue[0]);
    if Q.Runs(q5, ls) {
      WorkRuns(q, q2, q5, ls);
    }
  }

  lemma Fetches(q: Q.Queue) returns (q2: Q.Queue)
    requires q.worker.Top? && !q.interrupted && q.queue != [] && q.permits > 0
    ensures Q.Enabled(q, Q.Work) && Q.Enabled(Q.Apply(q, Q.Work), Q.Work)
    ensures q2 == Q.Apply(Q.Apply(q, Q.Work), Q.Work)
         == q.(permits := q.permits - 1, taken := q.taken + 1, worker := Q.Dequeuing)
  {
    q2 := Q.Apply(Q.Apply(q, Q.Work), Q.Work);
  }

  lemma Decides(q: Q.Queue, e: Entry) returns (q': Q.Queue)
    requires q.worker.Dequeuing? && q.queue != [] && e == q.queue[0]
    ensures Q.Enabled(q, Q.Work) && Q.Enabled(Q.Apply(q, Q.Work), Q.Work)
    ensures Q.Enabled(Q.Apply(Q.Apply(q, Q.Work), Q.Work), Q.Work)
    ensures q' == Q.Apply(Q.Apply(Q.Apply(q, Q.Work), Q.Work), Q.Work)
    ensures
      var delay := Delay(FieldsOf(q), e, Q.UpTime(q.clock));
      q' == q.(queue := q.queue[1..],
               worker := if delay.Some? then Q.Waiting(e, q.clock + delay.value)
                         else Q.Stamping(e, e.msg.Prompt? && !q.havePrompted))
  {
    var q1 := Q.Apply(q, Q.Work);
    var q2 := Q.Apply(q1, Q.Work);
    q' := Q.Apply(q2, Q.Work);
  }

  lemma {:induction false} WorkRuns(q: Q.Queue, q2: Q.Queue, q5: Q.Queue, ls: seq<Q.Label>)
    requires Q.Enabled(q, Q.Work) && Q.Enabled(Q.Apply(q, Q.Work), Q.Work)
    requires q2 == Q.Apply(Q.Apply(q, Q.Work), Q.Work)
    requires Q.Enabled(q2, Q.Work) && Q.Enabled(Q.Apply(q2, Q.Work), Q.Work)
    requires Q.Enabled(Q.Apply(Q.Apply(q2, Q.Work), Q.Work), Q.Work)
    requires q5 == Q.Apply(Q.Apply(Q.Apply(q2, Q.Work), Q.Work), Q.Work) && Q.Runs(q5, ls)
    ensures Q.Runs(q, WORK5 + ls) && Q.After(q, WORK5 + ls) == Q.After(q5, ls)
  {
    var w := [Q.Work];
    var q3 := Q.Apply(q2, Q.Work);
    T.RunsCons(Q.Apply(q3, Q.Work), Q.Work, ls);
    T.RunsCons(q3, Q.Work, w + ls);
    T.RunsCons(q2, Q.Work, w + (w + ls));
    T.RunsCons(Q.Apply(q, Q.Work), Q.Work, w + (w + (w + ls)));
    T.RunsCons(q, Q.Work, w + (w + (w + (w + ls))));
    assert WORK5 + ls == w + (w + (w + (w + (w + ls))));
  }

  /** From the stamping step to the emission. */
  lemma {:induction false} TailSchedule(q: Q.Queue, rest: nat)
    requires q.worker.Stamping?
    ensures
      var tail := [Q.Tick(rest), Q.Work, Q.Work, Q.Work];
      && Q.Runs(q, tail)
      && var q' := Q.After(q, tail);
         var e := q.worker.e;
         && FieldsOf(q') == FieldsOf(q).(showTime := Q.UpTime(q'.clock),
                                         havePrompted := q.havePrompted || e.msg.Prompt?)
         && q'.emitted == q.emitted + [e]
         && q'.worker.Top? && q'.main == q.main
  {
    var q1 := Q.Apply(q, Q.Tick(rest));
    var q2 := Q.Apply(q1, Q.Work);
    var q3 := Q.Apply(q2, Q.Work);
    T.RunsCons(q3, Q.Work, []);
    T.RunsCons(q2, Q.Work, [Q.Work]);
    T.RunsCons(q1, Q.Work, [Q.Work, Q.Work]);
    T.RunsCons(q, Q.Tick(rest), [Q.Work, Q.Work, Q.Work]);
  }
}
