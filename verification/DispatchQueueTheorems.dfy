/** What callers of the message queue may rely on, for every interleaving. */
module DispatchQueueTheorems {
  import opened AuthTypes
  import opened DispatchQueue
  import opened DispatchQueueInvariant

  lemma {:induction false} RunsCons(q: Queue, l: Label, ls: seq<Label>)
    requires Enabled(q, l) && Runs(Apply(q, l), ls)
    ensures Runs(q, [l] + ls) && After(q, [l] + ls) == After(Apply(q, l), ls)
  {
    assert ([l] + ls)[1..] == ls;
  }

  // ----- order and permits

  /** No loss, duplication or reordering: what was emitted, what the dispatcher
      holds and what is queued make up what was appended. */
  lemma PrefixDelivery(q: Queue)
    requires Reachable(q)
    ensures q.emitted <= q.appended
    ensures !Stopping(q.main) ==> q.emitted + InHand(q.worker) + q.queue == q.appended
  {
    ReachableInv(q);
    assert q.emitted <= q.emitted + InHand(q.worker);
  }

  /** Outside a stop every queued message is matched by a permit, one taken or
      one about to be released; so a dispatcher that took a permit finds a
      message. */
  lemma PermitAccounting(q: Queue)
    requires Reachable(q) && !Stopping(q.main)
    ensures |q.queue| == q.permits + Held(q.worker) + (if q.main.Releasing? then 1 else 0)
    ensures q.worker.Dequeuing? ==> q.queue != []
  {
    ReachableInv(q);
  }

  // ----- stopping

  lemma LastStepOfStop(q: Queue)
    requires ThreadInv(q) && PermitInv(q) && OrderInv(q)
    requires Stopping(q.main) && Enabled(q, Main) && MainStep(q).main.Idle?
    ensures
      var q' := MainStep(q);
      && q'.worker.Off? && q'.queue == [] && q'.permits == 0 && q'.showTime == 0
      && !q'.interrupted && !q'.quit
  {
  }

  /** When stopDispatcher returns, the thread is gone and nothing is left over. */
  lemma StopIsQuiescent(q: Queue)
    requires Reachable(q)
    requires Stopping(q.main) && Enabled(q, Main) && MainStep(q).main.Idle?
    ensures
      var q' := MainStep(q);
      && q'.worker.Off? && q'.queue == [] && q'.permits == 0 && q'.showTime == 0
      && !q'.interrupted && !q'.quit
  {
    ReachableInv(q);
    LastStepOfStop(q);
  }

  /** A schedule during which stopDispatcher, past its interruption request, does
      not return. */
  predicate StopLasts(q: Queue, ls: seq<Label>)
    requires Runs(q, ls)
    decreases |ls|
  {
    && Stopping(q.main)
    && !q.main.Interrupting?
    && (ls != [] ==> StopLasts(Apply(q, ls[0]), ls[1..]))
  }

  lemma LateEmissionStep(q: Queue, l: Label)
    requires Inv(q) && Enabled(q, l)
    requires Stopping(q.main) && !q.main.Interrupting? && Stopping(Apply(q, l).main)
    ensures q.emitted <= Apply(q, l).emitted
    ensures |Apply(q, l).emitted| + q.late == |q.emitted| + Apply(q, l).late
  {
  }

  lemma {:induction false} LateEmissions(q: Queue, ls: seq<Label>)
    requires Inv(q) && Runs(q, ls) && StopLasts(q, ls)
    ensures q.emitted <= After(q, ls).emitted
    ensures |After(q, ls).emitted| + q.late <= |q.emitted| + 1
    decreases |ls|
  {
    if ls != [] {
      var q' := Apply(q, ls[0]);
      assert StopLasts(q', ls[1..]);
      InvKept(q, ls[0]);
      LateEmissionStep(q, ls[0]);
      LateEmissions(q', ls[1..]);
    }
  }

  /** Once the interruption is requested, at most one more message is emitted. */
  lemma {:induction false} AtMostOneLateEmission(q: Queue, ls: seq<Label>)
    requires Reachable(q) && q.main.Interrupting?
    requires Runs(Apply(q, Main), ls) && StopLasts(Apply(q, Main), ls)
    ensures q.emitted <= After(Apply(q, Main), ls).emitted
    ensures |After(Apply(q, Main), ls).emitted| <= |q.emitted| + 1
  {
    ReachableInv(q);
    InvKept(q, Main);
    LateEmissions(Apply(q, Main), ls);
  }

  /** The first drain can acquire what it counted if and only if the dispatcher
      took no permit in between. */
  lemma FirstDrainReturnsIff(q: Queue)
    requires Reachable(q) && q.main.Acquiring? && q.main.first
    ensures Enabled(q, Main) <==> q.taken == 0
  {
    ReachableInv(q);
  }

  /** A drain that cannot acquire never will: only the main thread releases. */
  lemma {:induction false} BlockedDrainStaysBlocked(q: Queue, ls: seq<Label>)
    requires Runs(q, ls)
    requires q.main.Acquiring? && q.permits < q.main.n
    ensures After(q, ls).main == q.main && After(q, ls).permits < q.main.n
    decreases |ls|
  {
    if ls != [] {
      BlockedDrainStaysBlocked(Apply(q, ls[0]), ls[1..]);
    }
  }

  /** A schedule that ends in such a blocked drain: one message, and the
      dispatcher takes its permit between available() and acquire(). */
  function BlockingSchedule(e: Entry): seq<Label> {
    [Start, Append(e), Main, Work, Stop, Main, Main, Work]
  }

  lemma FirstDrainCanBlock(interval: nat, clock: nat, e: Entry)
    ensures Runs(Init(interval, clock), BlockingSchedule(e))
    ensures
      var q := After(Init(interval, clock), BlockingSchedule(e));
      q.main == Acquiring(true, 1) && q.permits == 0
  {
    var q0 := Init(interval, clock);
    var q1 := Apply(q0, Start);
    var q2 := Apply(q1, Append(e));
    var q3 := Apply(q2, Main);
    var q4 := Apply(q3, Work);
    var q5 := Apply(q4, Stop);
    var q6 := Apply(q5, Main);
    var q7 := Apply(q6, Main);
    RunsCons(q7, Work, []);
    RunsCons(q6, Main, [Work]);
    RunsCons(q5, Main, [Main, Work]);
    RunsCons(q4, Stop, [Main, Main, Work]);
    RunsCons(q3, Work, [Stop, Main, Main, Work]);
    RunsCons(q2, Main, [Work, Stop, Main, Main, Work]);
    RunsCons(q1, Append(e), [Main, Work, Stop, Main, Main, Work]);
    RunsCons(q0, Start, [Append(e), Main, Work, Stop, Main, Main, Work]);
  }

  // ----- when a stop can block

  predicate Blocked(q: Queue) {
    q.main.Acquiring? && q.permits < q.main.n
  }

  /** A schedule during which the stop in progress does not return. */
  predicate DuringStop(q: Queue, ls: seq<Label>)
    requires Runs(q, ls)
    decreases |ls|
  {
    Stopping(q.main) && (ls != [] ==> DuringStop(Apply(q, ls[0]), ls[1..]))
  }

  /** Some schedule of a stop requested now ends in a drain that never returns. */
  ghost predicate StopCanBlock(q: Queue)
    requires Enabled(q, Stop)
  {
    exists ls :: Runs(Apply(q, Stop), ls) && DuringStop(Apply(q, Stop), ls) && Blocked(After(Apply(q, Stop), ls))
  }

  lemma {:induction false} DuringCons(q: Queue, l: Label, ls: seq<Label>)
    requires Enabled(q, l) && Stopping(q.main) && Runs(Apply(q, l), ls) && DuringStop(Apply(q, l), ls)
    ensures Runs(q, [l] + ls) && DuringStop(q, [l] + ls)
    ensures After(q, [l] + ls) == After(Apply(q, l), ls)
  {
    assert ([l] + ls)[1..] == ls;
  }

  /** No permit, no block: only appending releases one. */
  lemma {:induction false} NoPermitNoBlock(q: Queue, ls: seq<Label>)
    requires Runs(q, ls) && DuringStop(q, ls)
    requires q.permits == 0 && (q.main.Acquiring? ==> q.main.n == 0)
    ensures !Blocked(After(q, ls))
    decreases |ls|
  {
    if ls != [] {
      NoPermitNoBlock(Apply(q, ls[0]), ls[1..]);
    }
  }

  lemma {:induction false} SecondDrainLasts(q: Queue, ls: seq<Label>)
    requires Inv(q) && Runs(q, ls) && DuringStop(q, ls) && SecondDrain(q.main)
    ensures !Blocked(After(q, ls))
    decreases |ls|
  {
    if ls != [] {
      InvKept(q, ls[0]);
      SecondDrainLasts(Apply(q, ls[0]), ls[1..]);
    }
  }

  /** How far the dispatcher is from its next fetch. */
  function ToFetch(w: WorkerPc): nat {
    match w
    case Fetching => 0
    case Top => 1
    case Emitting(_, _, _) => 2
    case Writing(_, _, _) => 3
    case Stamping(_, _) => 4
    case Waiting(_, _) => 5
    case ReadingShowTime(_, _) => 6
    case ReadingClock(_) => 7
    case _ => 8
  }

  /** The dispatcher, not yet interrupted, about to fetch with a permit there. */
  lemma BlockFromFetch(q: Queue) returns (ls: seq<Label>)
    requires q.main.Interrupting? && q.worker.Fetching? && q.permits > 0
    ensures Runs(q, ls) && DuringStop(q, ls) && Blocked(After(q, ls))
  {
    var q1 := Apply(q, Main);
    var q2 := Apply(q1, Main);
    var q3 := Apply(q2, Work);
    DuringCons(q2, Work, []);
    DuringCons(q1, Main, [Work] + []);
    DuringCons(q, Main, [Main] + ([Work] + []));
    ls := [Main] + ([Main] + ([Work] + []));
  }

  /** From anywhere in its loop the dispatcher can get there first. */
  lemma BlockFrom(q: Queue) returns (ls: seq<Label>)
    requires q.main.Interrupting? && !q.interrupted && q.permits > 0 && !q.worker.Off? && !q.worker.Returned?
    ensures Runs(q, ls) && DuringStop(q, ls) && Blocked(After(q, ls))
    decreases ToFetch(q.worker)
  {
    if q.worker.Fetching? {
      ls := BlockFromFetch(q);
    } else if q.worker.Waiting? {
      var ms := if q.clock < q.worker.until then q.worker.until - q.clock else 0;
      var q1 := Apply(q, Tick(ms));
      var rest := BlockFrom(Apply(q1, Timeout));
      DuringCons(q1, Timeout, rest);
      DuringCons(q, Tick(ms), [Timeout] + rest);
      ls := [Tick(ms)] + ([Timeout] + rest);
    } else {
      var rest := BlockFrom(Apply(q, Work));
      DuringCons(q, Work, rest);
      ls := [Work] + rest;
    }
  }

  /** Whether a stop can block for ever is decided before it begins: it can if and
      only if the dispatcher runs and a permit is available. */
  lemma StopCanBlockIff(q: Queue)
    requires Reachable(q) && q.main.Idle?
    ensures StopCanBlock(q) <==> !q.worker.Off? && q.permits > 0
  {
    ReachableInv(q);
    InvKept(q, Stop);
    var q' := Apply(q, Stop);
    if !q.worker.Off? && q.permits > 0 {
      var ls := BlockFrom(q');
    } else if StopCanBlock(q) {
      var ls :| Runs(q', ls) && DuringStop(q', ls) && Blocked(After(q', ls));
      if q.worker.Off? {
        SecondDrainLasts(q', ls);
      } else {
        NoPermitNoBlock(q', ls);
      }
    }
  }

  /** The drain after the join never blocks. */
  lemma SecondDrainNeverBlocks(q: Queue)
    requires Reachable(q) && SecondDrain(q.main)
    ensures Enabled(q, Main)
  {
    ReachableInv(q);
  }

  // ----- a stop that is past its first drain ends

  predicate Ending(m: MainPc) {
    SecondDrain(m) || m.Quitting? || m.Joining? || ((m.Clearing? || m.Waking? || m.Zeroing?) && m.first)
  }

  function MainRank(m: MainPc): nat {
    match m
    case Clearing(first) => if first then 9 else 2
    case Waking(first) => if first then 8 else 1
    case Zeroing(first) => if first then 7 else 0
    case Quitting => 6
    case Joining => 5
    case Counting(_) => 4
    case Acquiring(_, _) => 3
    case _ => 10
  }

  function WorkerRank(w: WorkerPc): nat {
    match w
    case Fetching => 10
    case Dequeuing => 9
    case ReadingClock(_) => 8
    case ReadingShowTime(_, _) => 7
    case Waiting(_, _) => 6
    case Stamping(_, _) => 5
    case Writing(_, _, _) => 4
    case Emitting(_, _, _) => 3
    case Top => 2
    case Returned => 1
    case Off => 0
  }

  function Rank(q: Queue): nat {
    MainRank(q.main) + WorkerRank(q.worker)
  }

  lemma EndingWorkStep(q: Queue, l: Label)
    requires ThreadInv(q) && Ending(q.main) && Enabled(q, l) && (l.Work? || l.Timeout?)
    ensures Apply(q, l).main == q.main && WorkerRank(Apply(q, l).worker) < WorkerRank(q.worker)
  {
  }

  lemma EndingMainStep(q: Queue)
    requires Ending(q.main) && Enabled(q, Main)
    ensures
      var q' := MainStep(q);
      q'.main.Idle? || (Ending(q'.main) && MainRank(q'.main) < MainRank(q.main))
    ensures WorkerRank(MainStep(q).worker) <= WorkerRank(q.worker)
  {
  }

  lemma EndingStep(q: Queue, l: Label)
    requires ThreadInv(q) && Ending(q.main) && Enabled(q, l)
    ensures
      var q' := Apply(q, l);
      q'.main.Idle? || (Ending(q'.main) && Rank(q') <= Rank(q) - (if l.Tick? then 0 else 1))
  {
    if l.Main? {
      EndingMainStep(q);
    } else if l.Work? || l.Timeout? {
      EndingWorkStep(q, l);
    }
  }

  /** Some step other than the clock is possible now, or after letting the
      dispatcher's wait run out. */
  lemma EndingNeverStuck(q: Queue)
    requires Reachable(q) && Ending(q.main)
    ensures
      || Enabled(q, Main) || Enabled(q, Work) || Enabled(q, Timeout)
      || (q.worker.Waiting? && q.clock < q.worker.until
          && Enabled(Apply(q, Tick(q.worker.until - q.clock)), Timeout))
  {
    ReachableInv(q);
  }

  function Moves(ls: seq<Label>): nat {
    if ls == [] then 0 else (if ls[0].Tick? then 0 else 1) + Moves(ls[1..])
  }

  lemma {:induction false} MovesBounded(q: Queue, ls: seq<Label>)
    requires Inv(q) && Ending(q.main) && Runs(q, ls) && StopLasts(q, ls)
    ensures Moves(ls) <= Rank(q)
    decreases |ls|
  {
    if ls != [] {
      InvKept(q, ls[0]);
      EndingStep(q, ls[0]);
      assert StopLasts(Apply(q, ls[0]), ls[1..]);
      MovesBounded(Apply(q, ls[0]), ls[1..]);
    }
  }

  /** Past its first drain, stopDispatcher returns within 19 thread steps. */
  lemma {:induction false} StopEnds(q: Queue, ls: seq<Label>)
    requires Reachable(q) && Ending(q.main) && Runs(q, ls) && StopLasts(q, ls)
    ensures Moves(ls) <= 19
  {
    ReachableInv(q);
    MovesBounded(q, ls);
  }

  // ----- timing

  function ExemptCount(stamps: seq<Stamp>, i: nat, j: nat): nat
    requires i <= j < |stamps|
    decreases j
  {
    if i == j then 0 else ExemptCount(stamps, i, j - 1) + (if stamps[j].exempt then 1 else 0)
  }

  lemma {:induction false} SpacingByExempt(stamps: seq<Stamp>, interval: int, i: nat, j: nat)
    requires 0 <= interval && Gaps(stamps, interval) && i <= j < |stamps|
    ensures ExemptCount(stamps, i, j) <= j - i
    ensures stamps[j].at >= stamps[i].at + (j - i - ExemptCount(stamps, i, j)) * interval
    decreases j
  {
    if i < j {
      SpacingByExempt(stamps, interval, i, j - 1);
      var n := j - 1 - i - ExemptCount(stamps, i, j - 1);
      assert (n + 1) * interval == n * interval + interval;
    }
  }

  lemma {:induction false} ExemptAtMostOnce(stamps: seq<Stamp>, i: nat, j: nat)
    requires forall a, b :: 0 <= a < b < |stamps| ==> !(stamps[a].exempt && stamps[b].exempt)
    requires i <= j < |stamps|
    ensures ExemptCount(stamps, i, j) <= 1
    ensures (forall k :: i < k <= j ==> !stamps[k].exempt) ==> ExemptCount(stamps, i, j) == 0
    ensures stamps[j].exempt && i < j ==> ExemptCount(stamps, i, j - 1) == 0
    decreases j
  {
    if i < j {
      ExemptAtMostOnce(stamps, i, j - 1);
      if stamps[j].exempt {
        assert forall k :: i < k <= j - 1 ==> !stamps[k].exempt;
      }
    }
  }

  lemma EpochExemptOnce(q: Queue, a: nat, b: nat)
    requires ExemptInv(q) && a < b < |q.stamps|
    ensures !(q.stamps[a].exempt && q.stamps[b].exempt)
  {
    var i, j := |q.life| - |q.emitted| + a, |q.life| - |q.emitted| + b;
    assert q.life[i] == Show(q.emitted[a], q.stamps[a].exempt);
    assert q.life[j] == Show(q.emitted[b], q.stamps[b].exempt);
    assert q.life[..j][i] == q.life[i];
  }

  /** Any messages number i to j emitted before a stop resets the show time are
      spread over at least (j - i) intervals, less one if the single exempt
      prompt is among the later ones. */
  lemma Spacing(q: Queue, i: nat, j: nat)
    requires Reachable(q) && InRange(q) && Timed(q.main) && i < j < |q.stamps|
    ensures |q.stamps| == |q.emitted|
    ensures q.stamps[j].at - q.stamps[i].at >= (j - i - 1) * q.interval
    ensures (forall k :: i < k <= j ==> !q.stamps[k].exempt) ==>
              q.stamps[j].at - q.stamps[i].at >= (j - i) * q.interval
  {
    ReachableInv(q);
    forall a, b | 0 <= a < b < |q.stamps|
      ensures !(q.stamps[a].exempt && q.stamps[b].exempt)
    {
      EpochExemptOnce(q, a, b);
    }
    SpacingByExempt(q.stamps, q.interval, i, j);
    ExemptAtMostOnce(q.stamps, i, j);
    assert (j - i) * q.interval == (j - i - 1) * q.interval + q.interval;
  }

  /** In the worker's whole life, across all stops, an emission skips the wait if
      and only if it is the first prompt. */
  lemma ExemptIffFirstPrompt(q: Queue, i: nat)
    requires Reachable(q) && i < |q.life|
    ensures q.life[i].exempt <==>
            q.life[i].e.msg.Prompt? && forall k :: 0 <= k < i ==> !q.life[k].e.msg.Prompt?
  {
    ReachableInv(q);
    assert forall k :: 0 <= k < i ==> q.life[..i][k] == q.life[k];
    if !PromptIn(q.life[..i]) {
      forall k | 0 <= k < i
        ensures !q.life[k].e.msg.Prompt?
      {
        assert q.life[..i][k] == q.life[k];
      }
    } else {
      var k :| 0 <= k < i && q.life[..i][k].e.msg.Prompt?;
      assert q.life[k].e.msg.Prompt?;
    }
  }

  /** So at most one ever does; and the epoch's emissions end that life. */
  lemma ExemptOncePerLife(q: Queue, i: nat, j: nat)
    requires Reachable(q) && i < j < |q.life|
    ensures !(q.life[i].exempt && q.life[j].exempt)
    ensures Recent(q.life, q.emitted, q.stamps)
  {
    ReachableInv(q);
    ExemptIffFirstPrompt(q, i);
    ExemptIffFirstPrompt(q, j);
  }

  /** The clock is far from the end of the 64-bit range, and the interval is an int. */
  predicate PlainNumbers(q: Queue) {
    (UpTime(q.clock) + 0x8000_0000) * 1000 < WORD / 2 && -0x8000_0000 <= q.interval < 0x8000_0000
  }

  /** A message that is not exempt waits if and only if it is not due, or the interval
      is so negative that the due time wraps around. */
  lemma WaitsIff(q: Queue)
    requires Reachable(q) && PlainNumbers(q) && q.worker.ReadingShowTime?
    requires !(q.worker.e.msg.Prompt? && !q.havePrompted)
    ensures WorkStep(q).worker.Waiting? <==>
            q.showTime + q.interval > q.worker.upTime || q.showTime + q.interval < 0
  {
    ReachableInv(q);
    assert q.showTime + q.interval < WORD;
    if q.showTime + q.interval < 0 {
      WrapsAround(q.showTime, q.interval, q.worker.upTime);
    }
  }

  /** A negative interval makes the message due in the far future. */
  lemma WrapsAround(showTime: nat, interval: int, upTime: nat)
    requires -0x8000_0000 <= interval && showTime + interval < 0 && showTime <= upTime
    requires (upTime + 0x8000_0000) * 1000 < WORD / 2
    ensures Due(showTime, interval) == showTime + interval + WORD > upTime
    ensures WaitMs(Due(showTime, interval), upTime) > WORD / 2
  {
    var behind := upTime - showTime - interval;
    assert Due(showTime, interval) == showTime + interval + WORD;
    assert (WORD - behind) * 1000 == (WORD - 1000 * behind) + WORD * 999;
    assert 0 <= WORD - 1000 * behind < WORD;
  }

  /** A wait that is begun is positive and at most one interval long if and only if
      the interval is not negative, also during a stop; with a negative one it is
      more than 2^63 milliseconds. */
  lemma WaitIsBoundedIff(q: Queue)
    requires Reachable(q) && PlainNumbers(q)
    requires q.worker.ReadingShowTime? && WorkStep(q).worker.Waiting?
    ensures 0 < WorkStep(q).worker.until - q.clock <= q.interval * 1000 <==> q.interval >= 0
    ensures q.interval < 0 ==> WorkStep(q).worker.until - q.clock > WORD / 2
  {
    ReachableInv(q);
    WaitsIff(q);
    if q.showTime + q.interval < 0 {
      WrapsAround(q.showTime, q.interval, q.worker.upTime);
    } else {
      NoWrap(q.(interval := q.showTime + q.interval, showTime := 0), q.worker.upTime);
    }
  }
}
