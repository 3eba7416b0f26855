/** What every step of the queue machine keeps. */
module DispatchQueueInvariant {
  import opened AuthTypes
  import opened DispatchQueue

  /** No stop has cleared the queue yet. */
  predicate Uncleared(m: MainPc) {
    !Stopping(m) || m.Interrupting? || ((m.Counting? || m.Acquiring? || m.Clearing?) && m.first)
  }

  /** The part of stopDispatcher after the join, or with no thread to join. */
  predicate SecondDrain(m: MainPc) {
    (m.Counting? || m.Acquiring? || m.Clearing? || m.Waking? || m.Zeroing?) && !m.first
  }

  /** The part of stopDispatcher between the interruption request and the join. */
  predicate FirstDrain(m: MainPc) {
    (m.Counting? || m.Acquiring? || m.Clearing? || m.Waking? || m.Zeroing?) && m.first
  }

  predicate OrderInv(q: Queue) {
    && (Uncleared(q.main) ==> q.emitted + InHand(q.worker) + q.queue == q.appended)
    && q.emitted + InHand(q.worker) <= q.appended
    && (q.main.Waking? || q.main.Zeroing? || q.main.Quitting? || q.main.Joining? ==> q.queue == [])
  }

  predicate ThreadInv(q: Queue) {
    && (SecondDrain(q.main) ==> q.worker.Off?)
    && (!Stopping(q.main) || q.main.Interrupting? || SecondDrain(q.main) ==>
          !q.interrupted && !q.quit && !q.worker.Returned?)
    && (q.main.Interrupting? ==> !q.worker.Off?)
    && (FirstDrain(q.main) || q.main.Quitting? ==>
          q.interrupted && !q.quit && !q.worker.Off?)
    && (q.main.Joining? ==> q.interrupted == q.quit == !q.worker.Off?)
    && q.late <= 1
    && (q.interrupted && Busy(q.worker) ==> q.late == 0)
  }

  predicate PermitInv(q: Queue) {
    match q.main
    case Idle => |q.queue| == q.permits + Held(q.worker)
    case Releasing => |q.queue| == q.permits + Held(q.worker) + 1
    case Interrupting => |q.queue| == q.permits + Held(q.worker)
    case Counting(_) => |q.queue| == q.permits + Held(q.worker)
    case Acquiring(first, n) =>
      && |q.queue| == q.permits + Held(q.worker)
      && n == q.permits + q.taken
      && q.taken <= (if first then 1 else 0)
      && (q.taken == 1 ==> !q.worker.Fetching?)
    case _ => q.permits == 0
  }

  /** Show times are still those of the current epoch. */
  predicate Timed(m: MainPc) {
    !Stopping(m) || m.Interrupting? || FirstDrain(m)
  }

  /** Consecutive emissions are an interval apart unless the later one is exempt. */
  predicate Gaps(stamps: seq<Stamp>, interval: int) {
    forall i :: 0 < i < |stamps| ==>
      && stamps[i-1].at <= stamps[i].at
      && (stamps[i].exempt || stamps[i-1].at + interval <= stamps[i].at)
  }

  predicate TimeInv(q: Queue) {
    var last := LastStamp(q.stamps);
    && last <= UpTime(q.clock)
    && Gaps(q.stamps, q.interval)
    && (q.worker.Emitting? || q.showTime == last)
    && match q.worker
       case ReadingShowTime(_, upTime) => last <= upTime <= UpTime(q.clock)
       case Waiting(_, until) => last + q.interval <= UpTime(until)
       case Stamping(_, exempt) => exempt || last + q.interval <= UpTime(q.clock)
       case Writing(_, exempt, now) =>
         last <= now <= UpTime(q.clock) && (exempt || last + q.interval <= now)
       case Emitting(_, exempt, now) =>
         last <= now <= UpTime(q.clock) && q.showTime == now && (exempt || last + q.interval <= now)
       case _ => true
  }

  predicate PromptIn(life: seq<Show>) {
    exists k :: 0 <= k < |life| && life[k].e.msg.Prompt?
  }

  /** Exempt is exactly the first prompt. */
  predicate LifeLog(life: seq<Show>) {
    forall i :: 0 <= i < |life| ==>
      (life[i].exempt <==> life[i].e.msg.Prompt? && !PromptIn(life[..i]))
  }

  /** The epoch's emissions are the last of the worker's life. */
  predicate Recent(life: seq<Show>, emitted: seq<Entry>, stamps: seq<Stamp>) {
    && |stamps| == |emitted| <= |life|
    && forall i :: 0 <= i < |emitted| ==> life[|life| - |emitted| + i] == Show(emitted[i], stamps[i].exempt)
  }

  /** The message in hand is marked exempt exactly if it is the first prompt. */
  predicate MarkedRight(w: WorkerPc, havePrompted: bool) {
    match w
    case Waiting(e, _) => !(e.msg.Prompt? && !havePrompted)
    case Stamping(e, exempt) => exempt <==> e.msg.Prompt? && !havePrompted
    case Writing(e, exempt, _) => exempt <==> e.msg.Prompt? && !havePrompted
    case Emitting(e, exempt, _) => exempt <==> e.msg.Prompt? && !havePrompted
    case _ => true
  }

  predicate ExemptInv(q: Queue) {
    && LifeLog(q.life)
    && (q.havePrompted <==> PromptIn(q.life))
    && Recent(q.life, q.emitted, q.stamps)
    && MarkedRight(q.worker, q.havePrompted)
  }

  /** The show time is never in the future, also while a stop resets it. */
  predicate ShowTimeInv(q: Queue) {
    && q.showTime <= UpTime(q.clock)
    && (q.worker.ReadingShowTime? ==> q.showTime <= q.worker.upTime <= UpTime(q.clock))
    && (q.worker.Writing? ==> q.worker.now <= UpTime(q.clock))
  }

  predicate Inv(q: Queue) {
    && OrderInv(q)
    && ShowTimeInv(q)
    && ThreadInv(q)
    && PermitInv(q)
    && (Timed(q.main) && InRange(q) ==> TimeInv(q))
    && ExemptInv(q)
  }

  lemma ThreadKeptByMain(q: Queue)
    requires ThreadInv(q) && Enabled(q, Main)
    ensures ThreadInv(MainStep(q))
  {
  }

  lemma ThreadKeptByWork(q: Queue)
    requires ThreadInv(q) && Enabled(q, Work)
    ensures ThreadInv(WorkStep(q))
  {
    assert WorkStep(q).main == q.main;
  }

  lemma ThreadKeptByRest(q: Queue, l: Label)
    requires ThreadInv(q) && Enabled(q, l) && !l.Main? && !l.Work?
    ensures ThreadInv(Apply(q, l))
  {
  }

  lemma ThreadKept(q: Queue, l: Label)
    requires ThreadInv(q) && Enabled(q, l)
    ensures ThreadInv(Apply(q, l))
  {
    if l.Main? {
      ThreadKeptByMain(q);
    } else if l.Work? {
      ThreadKeptByWork(q);
    } else {
      ThreadKeptByRest(q, l);
    }
  }

  lemma OrderKeptByMain(q: Queue)
    requires OrderInv(q) && ThreadInv(q) && Enabled(q, Main)
    ensures OrderInv(MainStep(q))
  {
    var q' := MainStep(q);
    assert InHand(q'.worker) == InHand(q.worker) || InHand(q'.worker) == [];
    assert q.emitted + [] == q.emitted;
  }

  lemma OrderKeptByDequeue(q: Queue)
    requires OrderInv(q) && ThreadInv(q) && q.worker.Dequeuing?
    ensures OrderInv(WorkStep(q))
  {
    if q.queue != [] {
      var e := q.queue[0];
      assert q.queue == [e] + q.queue[1..];
      assert q.emitted + [e] + q.queue[1..] == q.emitted + [] + q.queue;
      assert q.emitted + [e] <= q.emitted + [e] + q.queue[1..];
    }
  }

  lemma OrderFrame(q: Queue, q': Queue)
    requires OrderInv(q)
    requires q'.queue == q.queue && q'.main == q.main && q'.appended == q.appended
    requires q'.emitted + InHand(q'.worker) == q.emitted + InHand(q.worker)
    ensures OrderInv(q')
  {
  }

  lemma OrderKeptByWork(q: Queue)
    requires OrderInv(q) && ThreadInv(q) && Enabled(q, Work)
    ensures OrderInv(WorkStep(q))
  {
    var q' := WorkStep(q);
    if q.worker.Dequeuing? {
      OrderKeptByDequeue(q);
    } else {
      assert q'.emitted + InHand(q'.worker) == q.emitted + InHand(q.worker);
      OrderFrame(q, q');
    }
  }

  lemma OrderKept(q: Queue, l: Label)
    requires OrderInv(q) && ThreadInv(q) && Enabled(q, l)
    ensures OrderInv(Apply(q, l))
  {
    if l.Append? {
      assert q.emitted + InHand(q.worker) + (q.queue + [l.e])
          == (q.emitted + InHand(q.worker) + q.queue) + [l.e];
    } else if l.Main? {
      OrderKeptByMain(q);
    } else if l.Work? {
      OrderKeptByWork(q);
    } else {
      assert InHand(Apply(q, l).worker) == InHand(q.worker);
    }
  }

  lemma PermitKeptByMain(q: Queue)
    requires ThreadInv(q) && PermitInv(q) && OrderInv(q) && Enabled(q, Main)
    ensures PermitInv(MainStep(q))
  {
    assert MainStep(q).queue == q.queue || q.main.Clearing?;
  }

  lemma PermitKeptByWork(q: Queue)
    requires ThreadInv(q) && PermitInv(q) && OrderInv(q) && Enabled(q, Work)
    ensures PermitInv(WorkStep(q))
  {
    var q' := WorkStep(q);
    assert q'.main == q.main;
    if !q.worker.Dequeuing? {
      assert q'.queue == q.queue;
      assert q'.permits + Held(q'.worker) == q.permits + Held(q.worker);
    } else if q.queue != [] {
      assert |q'.queue| == |q.queue| - 1;
    }
  }

  lemma PermitKept(q: Queue, l: Label)
    requires ThreadInv(q) && PermitInv(q) && OrderInv(q) && Enabled(q, l)
    ensures PermitInv(Apply(q, l))
  {
    if l.Work? {
      PermitKeptByWork(q);
    } else if l.Main? {
      PermitKeptByMain(q);
    } else {
      assert Held(Apply(q, l).worker) == Held(q.worker);
    }
  }

  lemma TimeFrame(q: Queue, q': Queue)
    requires TimeInv(q)
    requires q'.stamps == q.stamps && q'.showTime == q.showTime && q'.clock == q.clock && q'.interval == q.interval
    requires q'.worker == q.worker || (q.worker.Waiting? && q'.worker.Top?)
    ensures TimeInv(q')
  {
  }

  lemma TimesByMain(q: Queue)
    requires Enabled(q, Main) && !(q.main.Zeroing?)
    ensures
      var q' := MainStep(q);
      && q'.stamps == q.stamps && q'.showTime == q.showTime && q'.clock == q.clock && q'.interval == q.interval
      && (q'.worker == q.worker || (q.worker.Waiting? && q'.worker.Top?))
      && (Timed(q'.main) ==> Timed(q.main))
  {
  }

  lemma TimeKeptByMain(q: Queue)
    requires ThreadInv(q) && Enabled(q, Main)
    requires Timed(q.main) ==> TimeInv(q)
    ensures Timed(MainStep(q).main) ==> TimeInv(MainStep(q))
  {
    if q.main.Zeroing? {
      assert Timed(MainStep(q).main) ==> MainStep(q).stamps == [] && q.worker.Off?;
    } else {
      TimesByMain(q);
      if Timed(MainStep(q).main) {
        TimeFrame(q, MainStep(q));
      }
    }
  }

  lemma GapsExtended(stamps: seq<Stamp>, interval: int, s: Stamp)
    requires Gaps(stamps, interval) && LastStamp(stamps) <= s.at
    requires s.exempt || LastStamp(stamps) + interval <= s.at
    ensures Gaps(stamps + [s], interval)
    ensures LastStamp(stamps + [s]) == s.at
  {
  }

  /** A wait of whole seconds lasts at least that long on the truncated clock. */
  lemma WaitReachesDue(clock: nat, seconds: nat)
    ensures UpTime(clock + seconds * 1000) == UpTime(clock) + seconds
  {
  }

  /** In range, neither the due time nor the wait wraps around. */
  lemma NoWrap(q: Queue, upTime: nat)
    requires InRange(q) && q.showTime <= upTime <= UpTime(q.clock)
    ensures Due(q.showTime, q.interval) == q.showTime + q.interval
    ensures q.showTime + q.interval > upTime ==>
              WaitMs(q.showTime + q.interval, upTime) == (q.showTime + q.interval - upTime) * 1000
  {
    assert q.showTime + q.interval < WORD;
    assert q.showTime + q.interval > upTime ==> 0 < (q.showTime + q.interval - upTime) * 1000 < WORD;
  }

  lemma TimeKeptByDeciding(q: Queue)
    requires TimeInv(q) && InRange(q) && q.worker.ReadingShowTime?
    ensures TimeInv(WorkStep(q))
  {
    var due := q.showTime + q.interval;
    NoWrap(q, q.worker.upTime);
    if due > q.worker.upTime {
      WaitReachesDue(q.clock, due - q.worker.upTime);
    }
  }

  lemma TimeKeptByWork(q: Queue)
    requires TimeInv(q) && InRange(q) && Enabled(q, Work)
    ensures TimeInv(WorkStep(q))
  {
    if q.worker.ReadingShowTime? {
      TimeKeptByDeciding(q);
    } else if q.worker.Emitting? {
      GapsExtended(q.stamps, q.interval, Stamp(q.worker.now, q.worker.exempt));
    } else {
      assert WorkStep(q).stamps == q.stamps;
    }
  }

  lemma TimeKept(q: Queue, l: Label)
    requires ThreadInv(q) && Enabled(q, l) && InRange(q)
    requires Timed(q.main) ==> TimeInv(q)
    ensures Timed(Apply(q, l).main) ==> TimeInv(Apply(q, l))
  {
    if l.Main? {
      TimeKeptByMain(q);
    } else if l.Work? && Timed(q.main) {
      TimeKeptByWork(q);
    }
  }

  lemma RangeOnlyLeft(q: Queue, l: Label)
    requires Enabled(q, l) && InRange(Apply(q, l))
    ensures InRange(q)
  {
    assert Apply(q, l).interval == q.interval && q.clock <= Apply(q, l).clock;
  }

  lemma LifeExtended(life: seq<Show>, s: Show)
    requires LifeLog(life) && (s.exempt <==> s.e.msg.Prompt? && !PromptIn(life))
    ensures LifeLog(life + [s])
    ensures PromptIn(life + [s]) <==> PromptIn(life) || s.e.msg.Prompt?
  {
    var life' := life + [s];
    forall i | 0 <= i < |life'|
      ensures life'[i].exempt <==> life'[i].e.msg.Prompt? && !PromptIn(life'[..i])
    {
      assert i < |life| ==> life'[..i] == life[..i];
      assert i == |life| ==> life'[..i] == life;
    }
    if PromptIn(life) {
      var k :| 0 <= k < |life| && life[k].e.msg.Prompt?;
      assert life'[k].e.msg.Prompt?;
    }
    assert life'[|life|] == s;
  }

  lemma RecentExtended(life: seq<Show>, emitted: seq<Entry>, stamps: seq<Stamp>, e: Entry, s: Stamp)
    requires Recent(life, emitted, stamps)
    ensures Recent(life + [Show(e, s.exempt)], emitted + [e], stamps + [s])
  {
  }

  lemma ExemptKeptByEmission(q: Queue)
    requires ExemptInv(q) && q.worker.Emitting?
    ensures ExemptInv(WorkStep(q))
  {
    var e, s := q.worker.e, Stamp(q.worker.now, q.worker.exempt);
    LifeExtended(q.life, Show(e, s.exempt));
    RecentExtended(q.life, q.emitted, q.stamps, e, s);
  }

  /** The step emits nothing; the epoch may end. */
  predicate SameLife(q: Queue, q': Queue) {
    && q'.life == q.life && q'.havePrompted == q.havePrompted
    && ((q'.stamps == q.stamps && q'.emitted == q.emitted) || (q'.stamps == [] && q'.emitted == []))
  }

  lemma ExemptFrame(q: Queue, q': Queue)
    requires ExemptInv(q) && SameLife(q, q') && MarkedRight(q'.worker, q.havePrompted)
    ensures ExemptInv(q')
  {
  }

  lemma SilentByMain(q: Queue)
    requires Enabled(q, Main)
    ensures SameLife(q, MainStep(q)) && (MainStep(q).worker == q.worker || MainStep(q).worker.Top?)
  {
  }

  lemma ExemptKeptByMain(q: Queue)
    requires ExemptInv(q) && Enabled(q, Main)
    ensures ExemptInv(MainStep(q))
  {
    SilentByMain(q);
    ExemptFrame(q, MainStep(q));
  }

  lemma ExemptKeptSilently(q: Queue, l: Label)
    requires ExemptInv(q) && Enabled(q, l) && !l.Main? && !(l.Work? && q.worker.Emitting?)
    ensures ExemptInv(Apply(q, l))
  {
    assert MarkedRight(Apply(q, l).worker, q.havePrompted);
    ExemptFrame(q, Apply(q, l));
  }

  lemma ExemptKept(q: Queue, l: Label)
    requires ExemptInv(q) && Enabled(q, l)
    ensures ExemptInv(Apply(q, l))
  {
    if l.Work? && q.worker.Emitting? {
      ExemptKeptByEmission(q);
    } else if l.Main? {
      ExemptKeptByMain(q);
    } else {
      ExemptKeptSilently(q, l);
    }
  }

  lemma ShowTimeKeptByWork(q: Queue)
    requires ShowTimeInv(q) && Enabled(q, Work)
    ensures ShowTimeInv(WorkStep(q))
  {
    assert WorkStep(q).clock == q.clock;
  }

  lemma ShowTimeKept(q: Queue, l: Label)
    requires ShowTimeInv(q) && Enabled(q, l)
    ensures ShowTimeInv(Apply(q, l))
  {
    if l.Work? {
      ShowTimeKeptByWork(q);
    } else if l.Main? {
      assert MainStep(q).showTime in {0, q.showTime};
    } else {
      assert Apply(q, l).showTime == q.showTime;
    }
  }

  lemma InvKept(q: Queue, l: Label)
    requires Inv(q) && Enabled(q, l)
    ensures Inv(Apply(q, l))
  {
    ThreadKept(q, l);
    ShowTimeKept(q, l);
    OrderKept(q, l);
    PermitKept(q, l);
    if InRange(Apply(q, l)) {
      RangeOnlyLeft(q, l);
      TimeKept(q, l);
    }
    ExemptKept(q, l);
  }

  lemma {:induction false} InvAfter(q: Queue, ls: seq<Label>)
    requires Inv(q) && Runs(q, ls)
    ensures Inv(After(q, ls))
    decreases |ls|
  {
    if ls != [] {
      InvKept(q, ls[0]);
      InvAfter(Apply(q, ls[0]), ls[1..]);
    }
  }

  lemma InvInit(interval: int, clock: nat)
    ensures Inv(Init(interval, clock))
  {
  }

  lemma ReachableInv(q: Queue)
    requires Reachable(q)
    ensures Inv(q)
  {
    var clock: nat, ls :| Runs(Init(q.interval, clock), ls) && After(Init(q.interval, clock), ls) == q;
    InvInit(q.interval, clock);
    InvAfter(Init(q.interval, clock), ls);
  }
}
