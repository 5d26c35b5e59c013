/** The arithmetic of the live agent's playback cursor (services/geminiService.ts:255-267):
    each decoded buffer starts at `max(nextStartTime, currentTime)` and the cursor
    then moves to the end of that buffer. Times are seconds on the playback
    context's clock, as reals (IEEE rounding is not modelled). */
module PlaybackSchedule {

  /** An `AudioBuffer.duration`, never negative. */
  type Duration = d: real | d >= 0.0

  /** One call of `playAudio`: the clock's `currentTime` when it ran and the
      duration of the buffer it scheduled. */
  datatype Request = Request(now: real, duration: Duration)

  function Max(a: real, b: real): real {
    if a >= b then a else b
  }

  /** Where one buffer starts, given the cursor before it. */
  function StartOf(cursor: real, q: Request): (start: real)
    ensures start >= cursor && start >= q.now
    ensures start == cursor || start == q.now
  {
    Max(cursor, q.now)
  }

  /** The start times of a run of buffers scheduled one after another from `cursor`. */
  function Starts(cursor: real, reqs: seq<Request>): (r: seq<real>)
    ensures |r| == |reqs|
    decreases |reqs|
  {
    if reqs == [] then []
    else [StartOf(cursor, reqs[0])] + Starts(StartOf(cursor, reqs[0]) + reqs[0].duration, reqs[1..])
  }

  /** The cursor after a run of buffers. */
  function Cursor(cursor: real, reqs: seq<Request>): real
    decreases |reqs|
  {
    if reqs == [] then cursor
    else Cursor(StartOf(cursor, reqs[0]) + reqs[0].duration, reqs[1..])
  }

  /** Scheduling one more buffer at the end of a run: it starts at
      `max(cursor, now)` and moves the cursor by its duration. */
  lemma {:induction false} ScheduleOneMore(cursor: real, reqs: seq<Request>, q: Request)
    ensures Starts(cursor, reqs + [q]) == Starts(cursor, reqs) + [StartOf(Cursor(cursor, reqs), q)]
    ensures Cursor(cursor, reqs + [q]) == StartOf(Cursor(cursor, reqs), q) + q.duration
    decreases |reqs|
  {
    if reqs == [] {
      assert reqs + [q] == [q];
    } else {
      var next := StartOf(cursor, reqs[0]) + reqs[0].duration;
      assert (reqs + [q])[1..] == reqs[1..] + [q];
      ScheduleOneMore(next, reqs[1..], q);
    }
  }

  /** The cursor never moves backwards and never falls behind the end of any
      scheduled buffer. */
  lemma {:induction false} CursorBounds(cursor: real, reqs: seq<Request>)
    ensures Cursor(cursor, reqs) >= cursor
    ensures forall i :: 0 <= i < |reqs| ==> Cursor(cursor, reqs) >= Starts(cursor, reqs)[i] + reqs[i].duration
    decreases |reqs|
  {
    if reqs != [] {
      var next := StartOf(cursor, reqs[0]) + reqs[0].duration;
      CursorBounds(next, reqs[1..]);
      forall i | 0 <= i < |reqs|
        ensures Cursor(cursor, reqs) >= Starts(cursor, reqs)[i] + reqs[i].duration
      {
        if i > 0 {
          assert Starts(cursor, reqs)[i] == Starts(next, reqs[1..])[i - 1];
        }
      }
    }
  }

  /** No buffer is ever scheduled in the past: each starts no earlier than the
      clock reading at the moment it was scheduled, and no earlier than the
      cursor the run began from. */
  lemma {:induction false} NeverInPast(cursor: real, reqs: seq<Request>)
    ensures forall i :: 0 <= i < |reqs| ==> Starts(cursor, reqs)[i] >= reqs[i].now
    ensures forall i :: 0 <= i < |reqs| ==> Starts(cursor, reqs)[i] >= cursor
    decreases |reqs|
  {
    if reqs != [] {
      var next := StartOf(cursor, reqs[0]) + reqs[0].duration;
      NeverInPast(next, reqs[1..]);
      forall i | 0 < i < |reqs|
        ensures Starts(cursor, reqs)[i] >= reqs[i].now && Starts(cursor, reqs)[i] >= cursor
      {
        assert Starts(cursor, reqs)[i] == Starts(next, reqs[1..])[i - 1];
      }
    }
  }

  /** Gapless ordering: each buffer after the first starts exactly at the later of
      its own clock reading and the end of the buffer before it, so consecutive
      buffers never overlap. */
  lemma {:induction false} Gapless(cursor: real, reqs: seq<Request>)
    ensures forall i :: 0 < i < |reqs| ==>
      Starts(cursor, reqs)[i] == Max(Starts(cursor, reqs)[i - 1] + reqs[i - 1].duration, reqs[i].now)
    ensures forall i :: 0 < i < |reqs| ==>
      Starts(cursor, reqs)[i] >= Starts(cursor, reqs)[i - 1] + reqs[i - 1].duration
    decreases |reqs|
  {
    if |reqs| > 1 {
      var next := StartOf(cursor, reqs[0]) + reqs[0].duration;
      Gapless(next, reqs[1..]);
      forall i | 1 < i < |reqs|
        ensures Starts(cursor, reqs)[i] == Max(Starts(cursor, reqs)[i - 1] + reqs[i - 1].duration, reqs[i].now)
      {
        assert Starts(cursor, reqs)[i] == Starts(next, reqs[1..])[i - 1];
        assert Starts(cursor, reqs)[i - 1] == Starts(next, reqs[1..])[i - 2];
      }
    }
  }

  /** Start times never decrease: the buffers play in the order they arrived. */
  lemma ArrivalOrder(cursor: real, reqs: seq<Request>, i: int, j: int)
    requires 0 <= i <= j < |reqs|
    ensures Starts(cursor, reqs)[i] <= Starts(cursor, reqs)[j]
    decreases j - i
  {
    if i < j {
      Gapless(cursor, reqs);
      ArrivalOrder(cursor, reqs, i, j - 1);
    }
  }
}
