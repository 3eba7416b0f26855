/** Schedules on which nothing is emitted, to build runs of the pipeline from. */
module DispatchQueueWitness {
  import opened AuthTypes
  import opened DispatchQueue

  /** A step of either thread that emits nothing. */
  predicate Quiet(q: Queue, l: Label) {
    (l.Main? || l.Work?) && Enabled(q, l) && !(l.Work? && q.worker.Emitting?)
  }

  /** `ls` leads quietly from `q` to `end`. */
  predicate QuietRun(q: Queue, ls: seq<Label>, end: Queue)
    decreases |ls|
  {
    if ls == [] then q == end else Quiet(q, ls[0]) && QuietRun(Apply(q, ls[0]), ls[1..], end)
  }

  lemma {:induction false} Before(q: Queue, l: Label, q1: Queue, ls: seq<Label>, end: Queue)
    returns (more: seq<Label>)
    requires Quiet(q, l) && Apply(q, l) == q1 && QuietRun(q1, ls, end)
    ensures QuietRun(q, more, end)
  {
    more := [l] + ls;
    assert more[1..] == ls;
  }

  /** A queue whose dispatcher is at the head of its loop. */
  function Looping(interval: int, clock: nat): Queue {
    Init(interval, clock).(worker := Top)
  }

  // ----- a stop

  /** A queue with nothing in it and nobody working on it. */
  predicate Drained(q: Queue) {
    q.worker.Off? && q.permits == 0 && q.queue == [] && !q.interrupted && !q.quit
  }

  /** The second drain finds nothing and returns. */
  lemma SecondDrain(e: Queue) returns (ls: seq<Label>)
    requires Drained(e) && e.main == Counting(false)
    ensures QuietRun(e, ls, e.(main := Idle, taken := 0, showTime := 0, appended := [], emitted := [], stamps := []))
  {
    var end := e.(main := Idle, taken := 0, showTime := 0, appended := [], emitted := [], stamps := []);
    var f := e.(taken := 0);
    ls := Before(f.(main := Zeroing(false)), Main, end, [], end);
    ls := Before(f.(main := Waking(false)), Main, f.(main := Zeroing(false)), ls, end);
    ls := Before(f.(main := Clearing(false)), Main, f.(main := Waking(false)), ls, end);
    ls := Before(f.(main := Acquiring(false, 0)), Main, f.(main := Clearing(false)), ls, end);
    ls := Before(e, Main, f.(main := Acquiring(false, 0)), ls, end);
  }

  /** The dispatcher leaves its loop, and the join succeeds. */
  lemma Join(q: Queue) returns (ls: seq<Label>, end: Queue)
    requires q.main.Joining? && q.worker.Top? && q.interrupted && q.quit && q.permits == 0 && q.queue == []
    ensures end == q.(main := Idle, worker := Off, interrupted := false, quit := false,
                      taken := 0, showTime := 0, appended := [], emitted := [], stamps := [])
    ensures QuietRun(q, ls, end)
  {
    var off := q.(worker := Off, interrupted := false, quit := false);
    end := off.(main := Idle, taken := 0, showTime := 0, appended := [], emitted := [], stamps := []);
    ls := SecondDrain(off.(main := Counting(false)));
    ls := Before(off, Main, off.(main := Counting(false)), ls, end);
    ls := Before(q.(worker := Returned), Work, off, ls, end);
    ls := Before(q, Work, q.(worker := Returned), ls, end);
  }

  /** The rest of a stop whose first drain found nothing. */
  lemma StopIdle(q: Queue) returns (ls: seq<Label>, end: Queue)
    requires q.main == Clearing(true) && q.worker.Top? && q.interrupted && !q.quit && q.permits == 0 && q.queue == []
    ensures end == q.(main := Idle, worker := Off, interrupted := false,
                      taken := 0, showTime := 0, appended := [], emitted := [], stamps := [])
    ensures QuietRun(q, ls, end)
  {
    var z := q.(showTime := 0);
    ls, end := Join(z.(main := Joining, quit := true));
    ls := Before(z.(main := Quitting), Main, z.(main := Joining, quit := true), ls, end);
    ls := Before(q.(main := Zeroing(true)), Main, z.(main := Quitting), ls, end);
    ls := Before(q.(main := Waking(true)), Main, q.(main := Zeroing(true)), ls, end);
    ls := Before(q, Main, q.(main := Waking(true)), ls, end);
  }

  /** What a stop leaves of an idle queue. */
  function Stopped(q: Queue): Queue {
    q.(main := Idle, worker := Off, interrupted := false, quit := false,
       taken := 0, late := 0, showTime := 0, appended := [], emitted := [], stamps := [])
  }

  /** A stop of a queue whose messages have all been shown. */
  lemma StopRuns(q: Queue) returns (ls: seq<Label>)
    requires q.main.Interrupting? && q.worker.Top? && !q.interrupted && !q.quit && q.permits == 0 && q.queue == []
    ensures QuietRun(q, ls, Stopped(q))
  {
    var r := q.(interrupted := true, late := 0);
    var t := r.(taken := 0);
    var end;
    ls, end := StopIdle(t.(main := Clearing(true)));
    assert end == Stopped(q);
    ls := Before(t.(main := Acquiring(true, 0)), Main, t.(main := Clearing(true)), ls, end);
    ls := Before(r.(main := Counting(true)), Main, t.(main := Acquiring(true, 0)), ls, end);
    ls := Before(q, Main, r.(main := Counting(true)), ls, end);
  }

  // ----- a message

  /** What the queue is like when its first message is about to be emitted. */
  function AboutToEmit(q: Queue): Queue
    requires q.queue != [] && q.permits > 0
  {
    var now := UpTime(q.clock);
    q.(queue := q.queue[1..], permits := q.permits - 1, taken := q.taken + 1,
       showTime := now, worker := Emitting(q.queue[0], false, now))
  }

  /** A fetched message that is no prompt is not delayed once it is due. */
  lemma ShowRuns(q: Queue, e: Entry, end: Queue) returns (ls: seq<Label>)
    requires q.worker == ReadingClock(e) && !e.msg.Prompt? && Due(q.showTime, q.interval) <= UpTime(q.clock)
    requires end == q.(showTime := UpTime(q.clock), worker := Emitting(e, false, UpTime(q.clock)))
    ensures QuietRun(q, ls, end)
  {
    var now := UpTime(q.clock);
    ls := Before(q.(worker := Writing(e, false, now)), Work, end, [], end);
    ls := Before(q.(worker := Stamping(e, false)), Work, q.(worker := Writing(e, false, now)), ls, end);
    ls := Before(q.(worker := ReadingShowTime(e, now)), Work, q.(worker := Stamping(e, false)), ls, end);
    ls := Before(q, Work, q.(worker := ReadingShowTime(e, now)), ls, end);
  }

  /** From the loop head to the emission. */
  lemma MessageRuns(q: Queue) returns (ls: seq<Label>)
    requires q.worker.Top? && !q.interrupted && q.queue != [] && q.permits > 0
    requires !q.queue[0].msg.Prompt? && Due(q.showTime, q.interval) <= UpTime(q.clock)
    ensures QuietRun(q, ls, AboutToEmit(q))
  {
    var e, end := q.queue[0], AboutToEmit(q);
    var q2 := q.(permits := q.permits - 1, taken := q.taken + 1, worker := Dequeuing);
    var q3 := q2.(queue := q.queue[1..], worker := ReadingClock(e));
    ls := ShowRuns(q3, e, end);
    ls := Before(q2, Work, q3, ls, end);
    ls := Before(q.(worker := Fetching), Work, q2, ls, end);
    ls := Before(q, Work, q.(worker := Fetching), ls, end);
  }
}
