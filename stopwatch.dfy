/**
 * The stopwatch: elapsed milliseconds measured from an anchor instant that a
 * restart moves back by the time already shown, so that time continues across
 * pauses; and a list of laps, the most recent first, each with its number, its
 * split and the total at which it was taken.
 */
module Stopwatch {
  import opened Js
  import opened Wrappers

  datatype Lap = Lap(id: int, time: int, total: int)

  /** The total of the most recent lap, or 0 before the first one. */
  function LastTotal(laps: seq<Lap>): int
  {
    if laps == [] then 0 else laps[0].total
  }

  /**
   * The laps as `addLap` builds them, most recent first: lap `i` from the head
   * is number `|laps| - i`, and its split is its total less the total of the
   * lap before it in time (the next one in the list), or less 0 for the first lap.
   */
  ghost predicate WellFormedLaps(laps: seq<Lap>)
  {
    forall i :: 0 <= i < |laps| ==>
      laps[i].id == |laps| - i && laps[i].time == laps[i].total - LastTotal(laps[i + 1..])
  }

  /** The sum of the splits of a list of laps. */
  function SumSplits(laps: seq<Lap>): int
  {
    if laps == [] then 0 else laps[0].time + SumSplits(laps[1..])
  }

  /** The laps' splits add up to the most recent lap's total. */
  lemma {:induction false} SplitsSumToLastTotal(laps: seq<Lap>)
    requires WellFormedLaps(laps)
    ensures SumSplits(laps) == LastTotal(laps)
  {
    if laps != [] {
      var rest := laps[1..];
      forall i | 0 <= i < |rest|
        ensures rest[i].id == |rest| - i && rest[i].time == rest[i].total - LastTotal(rest[i + 1..])
      {
        assert rest[i] == laps[i + 1];
        assert rest[i + 1..] == laps[i + 2..];
      }
      SplitsSumToLastTotal(rest);
    }
  }

  /** Lap numbers strictly decrease from the head of a well-formed list, so no two laps share one. */
  lemma IdsDecreasing(laps: seq<Lap>, i: int, j: int)
    requires WellFormedLaps(laps)
    requires 0 <= i < j < |laps|
    ensures laps[i].id > laps[j].id >= 1
  {
    assert laps[i].id == |laps| - i;
    assert laps[j].id == |laps| - j;
  }

  /** Lap `k` has the smallest split, and every lap nearer the head has a larger one. */
  ghost predicate FirstFastest(laps: seq<Lap>, k: int)
  {
    && 0 <= k < |laps|
    && (forall j :: 0 <= j < |laps| ==> laps[k].time <= laps[j].time)
    && (forall j :: 0 <= j < k ==> laps[j].time > laps[k].time)
  }

  /** Lap `k` has the largest split, and every lap nearer the head has a smaller one. */
  ghost predicate FirstSlowest(laps: seq<Lap>, k: int)
  {
    && 0 <= k < |laps|
    && (forall j :: 0 <= j < |laps| ==> laps[k].time >= laps[j].time)
    && (forall j :: 0 <= j < k ==> laps[j].time < laps[k].time)
  }

  /**
   * `getBestLap`: no answer with fewer than two laps; otherwise the number of
   * the lap with the smallest split, ties going to the lap nearest the head
   * (the most recent), since only a strictly smaller split replaces the best.
   */
  method BestLap(laps: seq<Lap>) returns (best: Option<int>)
    ensures |laps| <= 1 <==> best.None?
    ensures best.Some? ==> exists k :: FirstFastest(laps, k) && best.value == laps[k].id
  {
    if |laps| <= 1 {
      return None;
    }
    var bestId := laps[0].id;
    var bestTime := laps[0].time;
    ghost var k := 0;
    var i := 1;
    while i < |laps|
      invariant 1 <= i <= |laps| && 0 <= k < i
      invariant bestId == laps[k].id && bestTime == laps[k].time
      invariant forall j :: 0 <= j < i ==> bestTime <= laps[j].time
      invariant forall j :: 0 <= j < k ==> laps[j].time > bestTime
    {
      if laps[i].time < bestTime {
        bestTime := laps[i].time;
        bestId := laps[i].id;
        k := i;
      }
      i := i + 1;
    }
    assert FirstFastest(laps, k);
    return Some(bestId);
  }

  /** `getWorstLap`: the same scan for the largest split, ties again going to the most recent lap. */
  method WorstLap(laps: seq<Lap>) returns (worst: Option<int>)
    ensures |laps| <= 1 <==> worst.None?
    ensures worst.Some? ==> exists k :: FirstSlowest(laps, k) && worst.value == laps[k].id
  {
    if |laps| <= 1 {
      return None;
    }
    var worstId := laps[0].id;
    var worstTime := laps[0].time;
    ghost var k := 0;
    var i := 1;
    while i < |laps|
      invariant 1 <= i <= |laps| && 0 <= k < i
      invariant worstId == laps[k].id && worstTime == laps[k].time
      invariant forall j :: 0 <= j < i ==> worstTime >= laps[j].time
      invariant forall j :: 0 <= j < k ==> laps[j].time < worstTime
    {
      if laps[i].time > worstTime {
        worstTime := laps[i].time;
        worstId := laps[i].id;
        k := i;
      }
      i := i + 1;
    }
    assert FirstSlowest(laps, k);
    return Some(worstId);
  }

  /** The whole minutes, the seconds of the minute and the hundredths of the second in `ms` milliseconds. */
  function TimeParts(ms: nat): (p: (nat, nat, nat))
    ensures p.1 < 60 && p.2 < 100
    ensures p.0 * 60000 + p.1 * 1000 + p.2 * 10 <= ms < p.0 * 60000 + p.1 * 1000 + p.2 * 10 + 10
  {
    var m := ms / 60000;
    var r := ms % 60000;
    var s := r / 1000;
    assert ms % 1000 == r % 1000 by {
      assert ms == m * 60000 + r;
      assert m * 60000 == (m * 60) * 1000;
    }
    (m, s, (ms % 1000) / 10)
  }

  /** `formatTime`: `mm:ss.cc`, each field padded to two digits. */
  function FormatTime(ms: nat): string
  {
    var p := TimeParts(ms);
    Pad2(p.0) + ":" + Pad2(p.1) + "." + Pad2(p.2)
  }

  /**
   * Under 100 minutes the display is `mm:ss.cc`, and reading it back gives the
   * milliseconds cut down to a whole hundredth of a second (less than 10 ms off).
   */
  lemma FormatTimeReadsBack(ms: nat)
    requires ms < 6000000
    ensures var r := FormatTime(ms);
            && |r| == 8 && r[2] == ':' && r[5] == '.'
            && AllDigits(r[..2]) && AllDigits(r[3..5]) && AllDigits(r[6..])
            && DigitsValue(r[3..5]) < 60
            && var shown := DigitsValue(r[..2]) * 60000 + DigitsValue(r[3..5]) * 1000 + DigitsValue(r[6..]) * 10;
               shown <= ms < shown + 10
  {
    var p := TimeParts(ms);
    assert p.0 == ms / 60000 < 100;
    Pad2RoundTrip(p.0);
    Pad2RoundTrip(p.1);
    Pad2RoundTrip(p.2);
    SplitJoined(Pad2(p.0), ':', Pad2(p.1), '.', Pad2(p.2));
  }

  class Stopwatch {
    /** The elapsed milliseconds shown. */
    var time: int
    var isRunning: bool
    /** The laps, most recent first. */
    var laps: seq<Lap>
    /** The instant the running time is measured from. */
    var startTime: int
    /** The number of the last lap taken. */
    var lapCounter: int

    /** The lap counter counts the laps, and the laps are as `addLap` builds them. */
    ghost predicate Valid()
      reads this
    {
      lapCounter == |laps| && WellFormedLaps(laps)
    }

    constructor ()
      ensures Valid()
      ensures time == 0 && !isRunning && laps == [] && startTime == 0 && lapCounter == 0
    {
      isRunning := false;
      time, laps, startTime, lapCounter := 0, [], 0, 0;
    }

    /**
     * `startStopwatch` at instant `now`: nothing while running; otherwise run,
     * measuring from `now - time`, so that the time shown carries on from where it stood.
     */
    method Start(now: int)
      modifies this`isRunning, this`startTime
      ensures old(isRunning) ==> unchanged(this)
      ensures !old(isRunning) ==> isRunning && startTime == now - time
    {
      if isRunning {
        return;
      }
      isRunning := true;
      startTime := now - time;
    }

    /** `pauseStopwatch`: stop the interval; the time shown stays. */
    method Pause()
      modifies this`isRunning
      ensures !isRunning
    {
      if !isRunning {
        return;
      }
      isRunning := false;
    }

    /** `resetStopwatch`: stop, and clear the time, the laps and the lap counter. */
    method Reset()
      modifies this`isRunning, this`time, this`laps, this`lapCounter
      ensures Valid()
      ensures !isRunning && time == 0 && laps == [] && lapCounter == 0
    {
      Pause();
      time := 0;
      laps := [];
      lapCounter := 0;
    }

    /** One firing of the 10 ms interval at instant `now`: the time is the distance from the anchor. */
    method Tick(now: int)
      modifies this`time
      ensures !isRunning ==> unchanged(this)
      ensures isRunning ==> time == now - startTime
    {
      if isRunning {
        time := now - startTime;
      }
    }

    /**
     * `addLap`: nothing while stopped; otherwise a lap numbered one more than
     * the last, with the time shown as its total and the time since the last
     * lap's total as its split, goes in front of the others.
     */
    method AddLap()
      requires Valid()
      modifies this`laps, this`lapCounter
      ensures Valid()
      ensures !old(isRunning) ==> unchanged(this)
      ensures old(isRunning) ==>
                lapCounter == old(lapCounter) + 1
                && laps == [Lap(old(lapCounter) + 1, time - LastTotal(old(laps)), time)] + old(laps)
    {
      if !isRunning {
        return;
      }
      var lastLapTime := if |laps| > 0 then laps[0].total else 0;
      var lapTime := time - lastLapTime;
      lapCounter := lapCounter + 1;
      var lap := Lap(lapCounter, lapTime, time);
      ghost var before := laps;
      laps := [lap] + laps;
      assert laps[1..] == before;
      forall i | 1 <= i < |laps|
        ensures laps[i + 1..] == before[i..]
      {
      }
    }
  }

  /**
   * Pausing, restarting at instant `t0` and ticking at `t1` advances the time
   * shown by exactly `t1 - t0`; a tick at the restart instant itself shows the
   * time the pause left.
   */
  method ResumeContinues(w: Stopwatch, t0: int, t1: int)
    modifies w
    ensures w.isRunning
    ensures w.time == old(w.time) + (t1 - t0)
  {
    w.Pause();
    w.Start(t0);
    w.Tick(t1);
  }
}
