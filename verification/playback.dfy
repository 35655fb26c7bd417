/**
 The voice session's playback scheduler. It keeps one cursor, the output
 clock time at which the next decoded chunk may begin. A chunk arriving at
 clock reading `now` starts at `max(now, cursor)`, and the cursor then moves
 to that start plus the chunk's duration. Times and durations are exact reals;
 a decoded buffer's duration is never negative.
 */
module Playback {

  /** A decoded chunk as it reaches the scheduler: the output clock reading
      when it is scheduled, and its duration in seconds. */
  datatype Chunk = Chunk(now: real, duration: real)

  predicate NonNegative(chunks: seq<Chunk>)
  {
    forall i :: 0 <= i < |chunks| ==> chunks[i].duration >= 0.0
  }

  /** The durations of `chunks`, in order. */
  function Durations(chunks: seq<Chunk>): (r: seq<real>)
    ensures |r| == |chunks|
    ensures forall i :: 0 <= i < |chunks| ==> r[i] == chunks[i].duration
  {
    seq(|chunks|, i requires 0 <= i < |chunks| => chunks[i].duration)
  }

  lemma DurationsAppend(a: seq<Chunk>, b: seq<Chunk>)
    ensures Durations(a + b) == Durations(a) + Durations(b)
  {
    assert forall i :: |a| <= i < |a + b| ==> (a + b)[i] == b[i - |a|];
  }

  /** Where a chunk scheduled at clock reading `now` starts:
      `Math.max(now, cursor)`. */
  function StartAt(cursor: real, now: real): (start: real)
    ensures start >= now && start >= cursor
    ensures start == now || start == cursor
  {
    if now >= cursor then now else cursor
  }

  /** The cursor once one chunk has been scheduled: the end of that chunk. */
  function Advance(cursor: real, c: Chunk): (next: real)
    requires c.duration >= 0.0
    ensures next >= cursor
    ensures next >= c.now + c.duration
  {
    StartAt(cursor, c.now) + c.duration
  }

  /** The start time of each of `chunks`, scheduled in order from `cursor`. */
  function Starts(cursor: real, chunks: seq<Chunk>): (r: seq<real>)
    requires NonNegative(chunks)
    ensures |r| == |chunks|
    ensures forall i :: 0 <= i < |r| ==> r[i] >= chunks[i].now && r[i] >= cursor
    decreases |chunks|
  {
    if |chunks| == 0 then []
    else [StartAt(cursor, chunks[0].now)] + Starts(Advance(cursor, chunks[0]), chunks[1..])
  }

  /** The cursor after scheduling all of `chunks` from `cursor`. */
  function FinalCursor(cursor: real, chunks: seq<Chunk>): (r: real)
    requires NonNegative(chunks)
    ensures r >= cursor
    decreases |chunks|
  {
    if |chunks| == 0 then cursor
    else FinalCursor(Advance(cursor, chunks[0]), chunks[1..])
  }

  /** Every start is the maximum of the chunk's arrival clock and the end of
      the chunk before it; the first one measures from the initial cursor. */
  lemma {:induction false} StartsRecurrence(cursor: real, chunks: seq<Chunk>)
    requires NonNegative(chunks)
    ensures |chunks| > 0 ==> Starts(cursor, chunks)[0] == StartAt(cursor, chunks[0].now)
    ensures forall i :: 0 < i < |chunks| ==>
      Starts(cursor, chunks)[i] == StartAt(Starts(cursor, chunks)[i - 1] + chunks[i - 1].duration, chunks[i].now)
    decreases |chunks|
  {
    if |chunks| > 0 {
      var next := Advance(cursor, chunks[0]);
      var rest := chunks[1..];
      assert NonNegative(rest);
      StartsRecurrence(next, rest);
      var r := Starts(cursor, chunks);
      assert r == [StartAt(cursor, chunks[0].now)] + Starts(next, rest);
      forall i | 0 < i < |chunks|
        ensures r[i] == StartAt(r[i - 1] + chunks[i - 1].duration, chunks[i].now)
      {
        assert r[i] == Starts(next, rest)[i - 1];
        assert chunks[i] == rest[i - 1];
        if i > 1 {
          assert r[i - 1] == Starts(next, rest)[i - 2];
          assert chunks[i - 1] == rest[i - 2];
        }
      }
    }
  }

  /** No overlap: each chunk starts no earlier than the previous one ends. */
  lemma NoOverlap(cursor: real, chunks: seq<Chunk>)
    requires NonNegative(chunks)
    ensures forall i :: 0 < i < |chunks| ==>
      Starts(cursor, chunks)[i] >= Starts(cursor, chunks)[i - 1] + chunks[i - 1].duration
  {
    StartsRecurrence(cursor, chunks);
  }

  /** Gapless playback: a chunk that arrives while the previous one is still
      pending starts exactly where the previous one ends. */
  lemma Gapless(cursor: real, chunks: seq<Chunk>, i: nat)
    requires NonNegative(chunks)
    requires 0 < i < |chunks|
    requires chunks[i].now <= Starts(cursor, chunks)[i - 1] + chunks[i - 1].duration
    ensures Starts(cursor, chunks)[i] == Starts(cursor, chunks)[i - 1] + chunks[i - 1].duration
  {
    StartsRecurrence(cursor, chunks);
  }

  /** A burst of chunks that all arrive before the first of them starts
      plays back to back, with neither gap nor overlap. */
  lemma BurstIsGapless(cursor: real, chunks: seq<Chunk>)
    requires NonNegative(chunks)
    requires |chunks| > 0
    requires forall i :: 0 <= i < |chunks| ==> chunks[i].now <= Starts(cursor, chunks)[0]
    ensures forall i :: 0 < i < |chunks| ==>
      Starts(cursor, chunks)[i] == Starts(cursor, chunks)[i - 1] + chunks[i - 1].duration
  {
    var r := Starts(cursor, chunks);
    StartsRecurrence(cursor, chunks);
    forall i | 0 < i < |chunks|
      ensures r[i] == r[i - 1] + chunks[i - 1].duration
    {
      StartsFromFirst(cursor, chunks, i - 1);
    }
  }

  /** Starts never precede the first start. */
  lemma {:induction false} StartsFromFirst(cursor: real, chunks: seq<Chunk>, i: nat)
    requires NonNegative(chunks)
    requires i < |chunks|
    ensures Starts(cursor, chunks)[i] >= Starts(cursor, chunks)[0]
  {
    StartsRecurrence(cursor, chunks);
    if i > 0 {
      StartsFromFirst(cursor, chunks, i - 1);
    }
  }

  /** The cursor left behind is the end of the last chunk scheduled. */
  lemma {:induction false} FinalCursorIsLastEnd(cursor: real, chunks: seq<Chunk>)
    requires NonNegative(chunks)
    requires |chunks| > 0
    ensures FinalCursor(cursor, chunks) ==
      Starts(cursor, chunks)[|chunks| - 1] + chunks[|chunks| - 1].duration
    decreases |chunks|
  {
    var next := Advance(cursor, chunks[0]);
    var rest := chunks[1..];
    assert NonNegative(rest);
    if |rest| > 0 {
      FinalCursorIsLastEnd(next, rest);
      assert chunks[|chunks| - 1] == rest[|rest| - 1];
    }
  }

  /** Scheduling `a` and then `b` leaves the same cursor as scheduling
      `a + b` in one go. */
  lemma {:induction false} FinalCursorAppend(cursor: real, a: seq<Chunk>, b: seq<Chunk>)
    requires NonNegative(a) && NonNegative(b)
    ensures NonNegative(a + b)
    ensures FinalCursor(cursor, a + b) == FinalCursor(FinalCursor(cursor, a), b)
    decreases |a|
  {
    assert NonNegative(a + b) by {
      forall i | 0 <= i < |a + b| ensures (a + b)[i].duration >= 0.0 {
        if i < |a| { assert (a + b)[i] == a[i]; } else { assert (a + b)[i] == b[i - |a|]; }
      }
    }
    if |a| == 0 {
      assert a + b == b;
    } else {
      assert NonNegative(a[1..]);
      assert (a + b)[0] == a[0];
      assert (a + b)[1..] == a[1..] + b;
      FinalCursorAppend(Advance(cursor, a[0]), a[1..], b);
    }
  }

  /** The cursor never moves backwards: after any prefix of the chunks it is
      no later than after any longer prefix. */
  lemma CursorMonotone(cursor: real, chunks: seq<Chunk>, i: nat, j: nat)
    requires NonNegative(chunks)
    requires i <= j <= |chunks|
    ensures NonNegative(chunks[..i]) && NonNegative(chunks[..j])
    ensures cursor <= FinalCursor(cursor, chunks[..i]) <= FinalCursor(cursor, chunks[..j])
  {
    var a, b := chunks[..i], chunks[i..j];
    assert NonNegative(a) && NonNegative(b) by {
      forall k | 0 <= k < |a| ensures a[k].duration >= 0.0 { assert a[k] == chunks[k]; }
      forall k | 0 <= k < |b| ensures b[k].duration >= 0.0 { assert b[k] == chunks[i + k]; }
    }
    assert chunks[..j] == a + b;
    FinalCursorAppend(cursor, a, b);
  }

  /** Three chunks of 0.5 s, 0.3 s and 0.2 s delivered together at the start
      of a session (cursor not ahead of the clock reading `t0`) start at `t0`,
      `t0 + 0.5` and `t0 + 0.8`, and leave the cursor at `t0 + 1`. */
  lemma ThreeChunkBurst(cursor: real, t0: real)
    requires cursor <= t0
    ensures var chunks := [Chunk(t0, 0.5), Chunk(t0, 0.3), Chunk(t0, 0.2)];
      && NonNegative(chunks)
      && Starts(cursor, chunks) == [t0, t0 + 0.5, t0 + 0.8]
      && FinalCursor(cursor, chunks) == t0 + 1.0
  {
    var chunks := [Chunk(t0, 0.5), Chunk(t0, 0.3), Chunk(t0, 0.2)];
    var tail2 := [Chunk(t0, 0.2)];
    var tail1 := [Chunk(t0, 0.3)] + tail2;
    assert chunks == [Chunk(t0, 0.5)] + tail1;
    assert tail2 == [Chunk(t0, 0.2)] + [];
    Cons(t0 + 0.8, Chunk(t0, 0.2), []);
    assert Starts(t0 + 0.8, tail2) == [t0 + 0.8];
    assert FinalCursor(t0 + 0.8, tail2) == t0 + 1.0;
    Cons(t0 + 0.5, Chunk(t0, 0.3), tail2);
    assert Advance(t0 + 0.5, Chunk(t0, 0.3)) == t0 + 0.8;
    assert Starts(t0 + 0.5, tail1) == [t0 + 0.5, t0 + 0.8];
    Cons(cursor, Chunk(t0, 0.5), tail1);
    assert StartAt(cursor, t0) == t0 && Advance(cursor, Chunk(t0, 0.5)) == t0 + 0.5;
  }

  /** Scheduling a chunk and then the ones after it. */
  lemma Cons(cursor: real, c: Chunk, tail: seq<Chunk>)
    requires c.duration >= 0.0 && NonNegative(tail)
    ensures NonNegative([c] + tail)
    ensures Starts(cursor, [c] + tail) == [StartAt(cursor, c.now)] + Starts(Advance(cursor, c), tail)
    ensures FinalCursor(cursor, [c] + tail) == FinalCursor(Advance(cursor, c), tail)
  {
    var chunks := [c] + tail;
    assert chunks[0] == c && chunks[1..] == tail;
    assert forall k :: 0 < k < |chunks| ==> chunks[k] == tail[k - 1];
  }

  /** Scheduling two batches one after the other is scheduling them as one
      batch: the second batch starts from the cursor the first leaves. */
  lemma {:induction false} StartsAppend(cursor: real, a: seq<Chunk>, b: seq<Chunk>)
    requires NonNegative(a) && NonNegative(b)
    ensures NonNegative(a + b)
    ensures Starts(cursor, a + b) == Starts(cursor, a) + Starts(FinalCursor(cursor, a), b)
    decreases |a|
  {
    FinalCursorAppend(cursor, a, b);
    if |a| == 0 {
      assert a + b == b;
    } else {
      assert NonNegative(a[1..]);
      assert (a + b)[0] == a[0];
      assert (a + b)[1..] == a[1..] + b;
      StartsAppend(Advance(cursor, a[0]), a[1..], b);
      var head := [StartAt(cursor, a[0].now)];
      var mid := Starts(Advance(cursor, a[0]), a[1..]);
      var tail := Starts(FinalCursor(cursor, a), b);
      assert head + (mid + tail) == (head + mid) + tail;
    }
  }

  /** The scheduler run over a batch of chunks in arrival order: the start of
      each and the cursor it leaves behind. */
  method ScheduleAll(cursor: real, chunks: seq<Chunk>) returns (starts: seq<real>, next: real)
    requires NonNegative(chunks)
    ensures starts == Starts(cursor, chunks)
    ensures next == FinalCursor(cursor, chunks)
    ensures forall i :: 0 <= i < |chunks| ==> starts[i] >= chunks[i].now
    ensures next >= cursor
  {
    starts := [];
    next := cursor;
    var i := 0;
    assert chunks[..0] == [];
    while i < |chunks|
      invariant 0 <= i <= |chunks|
      invariant NonNegative(chunks[..i])
      invariant starts == Starts(cursor, chunks[..i])
      invariant next == FinalCursor(cursor, chunks[..i])
    {
      var c := chunks[i];
      assert chunks[..i + 1] == chunks[..i] + [c];
      assert [c] == [c] + [];
      Cons(next, c, []);
      StartsAppend(cursor, chunks[..i], [c]);
      FinalCursorAppend(cursor, chunks[..i], [c]);
      starts := starts + [StartAt(next, c.now)];
      next := Advance(next, c);
      i := i + 1;
    }
    assert chunks[..i] == chunks;
  }
}
