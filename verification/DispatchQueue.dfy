/**
 The timed message queue as a two-thread step machine.

 The main thread appends messages and starts or stops the dispatcher; the
 dispatcher thread fetches, waits out the interval and emits.  Every lock
 region, semaphore call and access to a field shared by the two threads is one
 step, so a run is an arbitrary interleaving of such steps with the clock.
 */
module DispatchQueue {
  import opened AuthTypes

  /** What the main thread is about to do.  `first` tells the drain inside the
      "thread is running" branch of stopDispatcher from the one after it. */
  datatype MainPc =
    | Idle
    | Releasing
    | Interrupting
    | Counting(first: bool)
    | Acquiring(first: bool, n: nat)
    | Clearing(first: bool)
    | Waking(first: bool)
    | Zeroing(first: bool)
    | Quitting
    | Joining

  /** What the dispatcher thread is about to do.  `exempt` marks the one prompt
      that is shown without waiting; `until` is a clock value in milliseconds. */
  datatype WorkerPc =
    | Off
    | Top
    | Fetching
    | Dequeuing
    | ReadingClock(e: Entry)
    | ReadingShowTime(e: Entry, upTime: nat)
    | Waiting(e: Entry, until: nat)
    | Stamping(e: Entry, exempt: bool)
    | Writing(e: Entry, exempt: bool, now: nat)
    | Emitting(e: Entry, exempt: bool, now: nat)
    | Returned

  /** The show time recorded for an emission, and whether it was exempt. */
  datatype Stamp = Stamp(at: nat, exempt: bool)

  /** An emission in the worker's whole life. */
  datatype Show = Show(e: Entry, exempt: bool)

  /** The arithmetic of quint64 and of the wait's unsigned long. */
  const WORD: int := 0x1_0000_0000_0000_0000

  /** When the next message is due: a negative interval wraps around. */
  function Due(showTime: nat, interval: int): nat {
    (showTime + interval) % WORD
  }

  function WaitMs(due: nat, upTime: nat): nat
    requires due > upTime
  {
    (due - upTime) * 1000 % WORD
  }

  datatype Queue = Queue(
    // fields of DispatcherWorker
    queue: seq<Entry>, permits: nat, showTime: nat, havePrompted: bool, interval: int,
    // the thread
    interrupted: bool, quit: bool, main: MainPc, worker: WorkerPc,
    // milliseconds since boot
    clock: nat,
    // history of the current epoch, that is, since the last completed stop
    appended: seq<Entry>, emitted: seq<Entry>, stamps: seq<Stamp>,
    // emissions since the last interruption request
    late: nat,
    // permits the dispatcher took since the main thread last read available()
    taken: nat,
    // history of the worker's whole life
    life: seq<Show>)

  function Init(interval: int, clock: nat): Queue {
    Queue([], 0, 0, false, interval, false, false, Idle, Off, clock, [], [], [], 0, 0, [])
  }

  datatype Label =
    | Append(e: Entry)
    | Stop
    | Start
    | Main
    | Work
    | Timeout
    | Tick(ms: nat)

  predicate Enabled(q: Queue, l: Label) {
    match l
    case Append(_) => q.main.Idle?
    case Stop => q.main.Idle?
    case Start => q.main.Idle?
    case Main =>
      && !q.main.Idle?
      && (q.main.Acquiring? ==> q.permits >= q.main.n)
      && (q.main.Joining? ==> q.worker.Off?)
    case Work =>
      && !q.worker.Off?
      && !q.worker.Waiting?
      && (q.worker.Fetching? ==> q.permits > 0)
      && (q.worker.Returned? ==> q.quit)
    case Timeout =>
      || (q.worker.Fetching? && q.permits == 0)
      || (q.worker.Waiting? && q.clock >= q.worker.until)
    case Tick(_) => true
  }

  /** One step of append or stopDispatcher. */
  function MainStep(q: Queue): Queue
    requires Enabled(q, Main)
  {
    match q.main
    case Releasing => q.(permits := q.permits + 1, main := Idle)
    case Interrupting => q.(interrupted := true, late := 0, main := Counting(true))
    case Counting(first) => q.(taken := 0, main := Acquiring(first, q.permits))
    case Acquiring(first, n) => q.(permits := q.permits - n, main := Clearing(first))
    case Clearing(first) => q.(queue := [], main := Waking(first))
    case Waking(first) =>
      q.(worker := if q.worker.Waiting? then Top else q.worker, main := Zeroing(first))
    case Zeroing(first) =>
      if first then
        q.(showTime := 0, main := Quitting)
      else
        q.(showTime := 0, main := Idle, appended := [], emitted := [], stamps := [])
    case Quitting => q.(quit := true, main := Joining)
    case Joining => q.(main := Counting(false))
  }

  /** Whole seconds since boot, as sysinfo reports them. */
  function UpTime(clock: nat): nat {
    clock / 1000
  }

  /** One step of doDispatcher. */
  function WorkStep(q: Queue): Queue
    requires Enabled(q, Work)
  {
    match q.worker
    case Top => q.(worker := if q.interrupted then Returned else Fetching)
    case Fetching => q.(permits := q.permits - 1, taken := q.taken + 1, worker := Dequeuing)
    case Dequeuing =>
      if q.queue == [] then q.(worker := Top)
      else q.(queue := q.queue[1..], worker := ReadingClock(q.queue[0]))
    case ReadingClock(e) => q.(worker := ReadingShowTime(e, UpTime(q.clock)))
    case ReadingShowTime(e, upTime) =>
      var due := Due(q.showTime, q.interval);
      var exempt := e.msg.Prompt? && !q.havePrompted;
      q.(worker :=
        if !exempt && due > upTime then Waiting(e, q.clock + WaitMs(due, upTime))
        else Stamping(e, exempt))
    case Stamping(e, exempt) => q.(worker := Writing(e, exempt, UpTime(q.clock)))
    case Writing(e, exempt, now) => q.(showTime := now, worker := Emitting(e, exempt, now))
    case Emitting(e, exempt, now) =>
      q.(havePrompted := q.havePrompted || e.msg.Prompt?,
         emitted := q.emitted + [e],
         stamps := q.stamps + [Stamp(now, exempt)],
         life := q.life + [Show(e, exempt)],
         late := if q.interrupted then q.late + 1 else q.late,
         worker := Top)
    case Returned => q.(worker := Off, interrupted := false, quit := false)
  }

  function Apply(q: Queue, l: Label): Queue
    requires Enabled(q, l)
  {
    match l
    case Append(e) =>
      q.(queue := q.queue + [e], appended := q.appended + [e], main := Releasing)
    case Stop => q.(main := if q.worker.Off? then Counting(false) else Interrupting)
    case Start =>
      if q.worker.Off? then q.(worker := Top, interrupted := false, quit := false) else q
    case Main => MainStep(q)
    case Work => WorkStep(q)
    case Timeout =>
      if q.worker.Fetching? then q.(worker := Top)
      else q.(worker := Stamping(q.worker.e, false))
    case Tick(ms) => q.(clock := q.clock + ms)
  }

  /** `ls` is a possible schedule from `q`. */
  predicate Runs(q: Queue, ls: seq<Label>)
    decreases |ls|
  {
    ls == [] || (Enabled(q, ls[0]) && Runs(Apply(q, ls[0]), ls[1..]))
  }

  function After(q: Queue, ls: seq<Label>): Queue
    requires Runs(q, ls)
    decreases |ls|
  {
    if ls == [] then q else After(Apply(q, ls[0]), ls[1..])
  }

  /** Some schedule of a fresh queue, booted at any time, leads to `q`. */
  ghost predicate Reachable(q: Queue) {
    exists clock: nat, ls: seq<Label> ::
      Runs(Init(q.interval, clock), ls) && After(Init(q.interval, clock), ls) == q
  }

  // ----- vocabulary of the properties

  /** stopDispatcher is in progress. */
  predicate Stopping(m: MainPc) {
    !m.Idle? && !m.Releasing?
  }

  /** The message the dispatcher has taken out of the queue and not emitted. */
  function InHand(w: WorkerPc): seq<Entry> {
    match w
    case ReadingClock(e) => [e]
    case ReadingShowTime(e, _) => [e]
    case Waiting(e, _) => [e]
    case Stamping(e, _) => [e]
    case Writing(e, _, _) => [e]
    case Emitting(e, _, _) => [e]
    case _ => []
  }

  /** One when the dispatcher holds a permit it has not yet used. */
  function Held(w: WorkerPc): nat {
    if w.Dequeuing? then 1 else 0
  }

  /** The dispatcher is past the interruption check of an iteration. */
  predicate Busy(w: WorkerPc) {
    !w.Off? && !w.Top? && !w.Returned?
  }

  /** The interval is not negative, and the 64-bit arithmetic on the clock does not
      wrap around. */
  predicate InRange(q: Queue) {
    0 <= q.interval && (UpTime(q.clock) + q.interval) * 1000 < WORD
  }

  function LastStamp(stamps: seq<Stamp>): nat {
    if stamps == [] then 0 else stamps[|stamps| - 1].at
  }
}
