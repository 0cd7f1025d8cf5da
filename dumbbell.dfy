/**
 * The dumbbell repetition counter: an accelerometer's z reading is run through a
 * hysteresis detector (a lift counts when the reading rises above 11 while the
 * detector is down; it re-arms only below 8), each counted lift appends
 * (time, speed) to the motion buffer, the session ends after 30 seconds without a
 * lift or once more than 100 lifts are counted, and the count is shown on the
 * four-digit display after every sample.
 */
module Dumbbell {

  const ThresholdUp: real := 11.0
  const ThresholdDown: real := 8.0
  /** Seconds without a lift that end the session. */
  const IdleTimeout: real := 30.0
  /** The loop runs while the count is at most this. */
  const MaxCount: nat := 100

  datatype Level = Down | Up

  /**
   * One pass of the loop's inputs: the time it was taken, the z acceleration,
   * and the speed estimate `abs(acc_z * dt)` computed from them.
   */
  datatype Sample = Sample(time: real, accZ: real, speed: real)

  /** One entry of `motion_data`. */
  datatype Motion = Motion(time: real, speed: real)

  /** The loop's variables: `count`, `last_state`, `last_lift_time` and `motion_data`. */
  datatype Tracker = Tracker(count: nat, level: Level, lastLift: real, motion: seq<Motion>)

  /** The variables as the script sets them before the loop, with `time()` read as `t0`. */
  function Start(t0: real): Tracker
  {
    Tracker(0, Down, t0, [])
  }

  /** The sample is counted as a lift. */
  predicate Lifts(t: Tracker, s: Sample)
  {
    s.accZ > ThresholdUp && t.level == Down
  }

  /** The lift detection of one loop pass. */
  function Observe(t: Tracker, s: Sample): (r: Tracker)
    ensures Lifts(t, s) ==> r == Tracker(t.count + 1, Up, s.time, t.motion + [Motion(s.time, s.speed)])
    ensures !Lifts(t, s) ==> r.count == t.count && r.lastLift == t.lastLift && r.motion == t.motion
    ensures ThresholdDown <= s.accZ <= ThresholdUp ==> r == t
    ensures r.level == Down <==> (t.level == Down && !Lifts(t, s)) || (t.level == Up && s.accZ < ThresholdDown)
  {
    if s.accZ > ThresholdUp && t.level == Down then
      Tracker(t.count + 1, Up, s.time, t.motion + [Motion(s.time, s.speed)])
    else if s.accZ < ThresholdDown && t.level == Up then
      t.(level := Down)
    else
      t
  }

  /** The detector after a sequence of samples. */
  function Track(t: Tracker, ss: seq<Sample>): Tracker
    decreases |ss|
  {
    if ss == [] then t else Observe(Track(t, ss[..|ss| - 1]), ss[|ss| - 1])
  }

  /** The buffer only grows, and by exactly one entry per counted lift. */
  lemma {:induction false} BufferGrowsWithCount(t: Tracker, ss: seq<Sample>)
    ensures var r := Track(t, ss);
      && t.motion <= r.motion
      && |r.motion| - |t.motion| == r.count - t.count
    decreases |ss|
  {
    if ss != [] {
      BufferGrowsWithCount(t, ss[..|ss| - 1]);
    }
  }

  /** Readings inside the hysteresis band [8, 11] never change anything. */
  lemma {:induction false} BandChangesNothing(t: Tracker, ss: seq<Sample>)
    requires forall i :: 0 <= i < |ss| ==> ThresholdDown <= ss[i].accZ <= ThresholdUp
    ensures Track(t, ss) == t
    decreases |ss|
  {
    if ss != [] {
      BandChangesNothing(t, ss[..|ss| - 1]);
    }
  }

  /** While the detector is up, readings of at least 8 count nothing and keep it up. */
  lemma {:induction false} UpPhaseCountsNothing(t: Tracker, ss: seq<Sample>)
    requires t.level == Up
    requires forall i :: 0 <= i < |ss| ==> ss[i].accZ >= ThresholdDown
    ensures Track(t, ss) == t
    decreases |ss|
  {
    if ss != [] {
      UpPhaseCountsNothing(t, ss[..|ss| - 1]);
    }
  }

  /**
   * One crossing, one count: from the down state, a reading above 11 followed by
   * any number of readings of at least 8 and then one below 8 counts exactly one
   * lift, recorded at the first high reading, and re-arms the detector.
   */
  lemma OneCountPerCrossing(t: Tracker, high: seq<Sample>, low: Sample)
    requires t.level == Down && |high| >= 1
    requires high[0].accZ > ThresholdUp
    requires forall i :: 0 <= i < |high| ==> high[i].accZ >= ThresholdDown
    requires low.accZ < ThresholdDown
    ensures var r := Track(t, high + [low]);
      && r.count == t.count + 1 && r.level == Down
      && r.lastLift == high[0].time
      && r.motion == t.motion + [Motion(high[0].time, high[0].speed)]
  {
    var first := Observe(t, high[0]);
    assert Track(t, [high[0]]) == first by {
      assert [high[0]][..0] == [];
    }
    UpPhaseCountsNothing(first, high[1..]);
    TrackAppend(t, [high[0]], high[1..]);
    assert [high[0]] + high[1..] == high;
    assert (high + [low])[..|high|] == high;
  }

  /**
   * Feeding two runs of samples is feeding the first, then the second from
   * where it left the detector. (The same fold-over-a-split fact is proved for
   * each script's own step function; this is the dumbbell detector's.)
   */
  lemma {:induction false} TrackAppend(t: Tracker, a: seq<Sample>, b: seq<Sample>)
    ensures Track(t, a + b) == Track(Track(t, a), b)
    decreases |b|
  {
    if b == [] {
      assert a + b == a;
    } else {
      assert (a + b)[..|a + b| - 1] == a + b[..|b| - 1];
      TrackAppend(t, a, b[..|b| - 1]);
    }
  }

  lemma TrackStep(t: Tracker, ss: seq<Sample>, k: nat)
    requires k < |ss|
    ensures Track(t, ss[..k + 1]) == Observe(Track(t, ss[..k]), ss[k])
  {
    assert ss[..k + 1][..k] == ss[..k];
  }

  /** Why the loop stopped. */
  datatype Ending = TimedOut | Capped | OutOfSamples

  /** No pass among the first n ended more than 30 seconds after the last lift. */
  predicate Alive(t0: real, samples: seq<Sample>, n: nat)
    requires n <= |samples|
  {
    forall k :: 0 < k <= n ==> samples[k - 1].time - Track(Start(t0), samples[..k]).lastLift <= IdleTimeout
  }

  lemma AliveStep(t0: real, samples: seq<Sample>, n: nat)
    requires n < |samples| && Alive(t0, samples, n)
    requires samples[n].time - Track(Start(t0), samples[..n + 1]).lastLift <= IdleTimeout
    ensures Alive(t0, samples, n + 1)
  {
  }

  /** The counts `display` shows in the first n passes. */
  function Shown(t0: real, samples: seq<Sample>, n: nat): (r: seq<nat>)
    requires n <= |samples|
    ensures |r| == n
  {
    seq(n, k requires 0 <= k < n => Track(Start(t0), samples[..k + 1]).count)
  }

  lemma ShownStep(t0: real, samples: seq<Sample>, n: nat)
    requires n < |samples|
    ensures Shown(t0, samples, n + 1) == Shown(t0, samples, n) + [Track(Start(t0), samples[..n + 1]).count]
  {
  }

  /**
   * The main loop over the samples it is given (the script polls forever; here
   * the loop also stops when the samples run out). Returns the detector's final
   * state, how many samples were read, why the loop ended and the count passed
   * to `display` in each pass.
   */
  method Session(t0: real, samples: seq<Sample>) returns (t: Tracker, used: nat, ending: Ending, shown: seq<nat>)
    ensures used <= |samples| && t == Track(Start(t0), samples[..used])
    ensures t.count == |t.motion| && t.count <= MaxCount + 1
    ensures ending == TimedOut ==>
      0 < used && Alive(t0, samples, used - 1) && samples[used - 1].time - t.lastLift > IdleTimeout
    ensures ending != TimedOut ==> Alive(t0, samples, used)
    ensures ending == Capped ==> t.count == MaxCount + 1
    ensures ending == OutOfSamples ==> used == |samples| && t.count <= MaxCount
    ensures shown == Shown(t0, samples, if ending == TimedOut then used - 1 else used)
  {
    var count: nat := 0;
    var level := Down;
    var lastLift := t0;
    var motion: seq<Motion> := [];
    used, ending, shown := 0, OutOfSamples, [];
    while count <= MaxCount && used < |samples|
      invariant used <= |samples|
      invariant Tracker(count, level, lastLift, motion) == Track(Start(t0), samples[..used])
      invariant count == |motion| && count <= MaxCount + 1
      invariant Alive(t0, samples, used)
      invariant shown == Shown(t0, samples, used)
    {
      var s := samples[used];
      if s.accZ > ThresholdUp && level == Down {
        count := count + 1;
        level := Up;
        motion := motion + [Motion(s.time, s.speed)];
        lastLift := s.time;
      } else if s.accZ < ThresholdDown && level == Up {
        level := Down;
      }
      TrackStep(Start(t0), samples, used);
      if s.time - lastLift > IdleTimeout {
        used := used + 1;
        ending := TimedOut;
        break;
      }
      AliveStep(t0, samples, used);
      ShownStep(t0, samples, used);
      used := used + 1;
      shown := shown + [count];
    }
    t := Tracker(count, level, lastLift, motion);
    if ending != TimedOut && count > MaxCount {
      ending := Capped;
    }
  }
}

/** `display(count)` of the dumbbell counter. */
module DumbbellDisplay {
  import opened Optional
  import opened SegmentDisplay

  /** `display(count)` puts digit 3 - i of the count at position i: the most significant digit at position 0. */
  function Cells(count: nat): (cells: seq<Cell>)
    ensures ValidCells(cells)
  {
    seq(Positions, i requires 0 <= i < Positions => Cell(i, Digit(count, 3 - i)))
  }

  /** `display(count)`: one clear, select and shift phase per position. */
  method Display(count: nat) returns (out: seq<Write>)
    ensures out == FrameWrites(Cells(count), Positions)
  {
    out := [];
    for i := 0 to Positions
      invariant out == FrameWrites(Cells(count), i)
    {
      var phase := ShowCell(Cell(i, Digit(count, 3 - i)));
      assert Cells(count)[i] == Cell(i, Digit(count, 3 - i));
      out := out + phase;
    }
  }

  /** Read from position 0 to 3, the digits shown spell the count modulo 10000. */
  lemma DisplaySpellsCount(count: nat)
    ensures var cells := Cells(count);
      1000 * cells[0].digit + 100 * cells[1].digit + 10 * cells[2].digit + cells[3].digit == count % 10000
  {
    FourDigitsSpell(count);
  }

  /** Each phase of `display(count)` leaves position i lit, alone, with digit 3 - i of the count. */
  lemma DisplayShowsDigits(c: Chip, count: nat, i: nat)
    requires Idle(c) && i < Positions
    ensures var r := Run(c, FrameWrites(Cells(count), i + 1));
      r.enable == OneHot(i) && DigitShown(r) == Some(Digit(count, 3 - i))
  {
    FrameShowsEachCell(c, Cells(count), i);
  }
}
