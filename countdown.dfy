/**
 * The countdown timer: an hours/minutes/seconds input, a seconds counter that
 * a once-a-second tick brings down, and a list of named presets. Two effects
 * tie the input to the counter: while stopped the counter is the input's
 * total, and while running the input shows the counter split into h:m:s.
 */
module Countdown {
  import opened Tick
  import opened Js
  import opened JsArray
  import opened Wrappers

  datatype SavedTimer = SavedTimer(id: string, name: string, duration: int)

  /** The three input fields and their upper bounds. */
  datatype Unit = Hours | Minutes | Seconds

  function MaxOf(u: Unit): nat
  {
    match u
    case Hours => 23
    case Minutes => 59
    case Seconds => 59
  }

  /** `handleInputChange`: `parseInt`, with `NaN` read as 0, then clamped into `[0, max]`. */
  function ClampInput(value: string, max: nat): (r: int)
    ensures 0 <= r <= max
    ensures ParseInt(value).None? ==> r == 0
    ensures ParseInt(value).Some? && 0 <= ParseInt(value).value <= max ==> r == ParseInt(value).value
    ensures ParseInt(value).Some? && ParseInt(value).value > max ==> r == max
    ensures ParseInt(value).Some? && ParseInt(value).value < 0 ==> r == 0
  {
    var num := match ParseInt(value) case None => 0 case Some(n) => n;
    if num > max then max else if num < 0 then 0 else num
  }

  /** A field shows `n.toString()`; reading what it shows gives `n` back when `n` is in range. */
  lemma ClampInputOfShown(n: nat, max: nat)
    requires n <= max
    ensures ClampInput(DecimalString(n), max) == n
  {
    ParseIntOfDecimal(n);
  }

  function TotalSeconds(h: int, m: int, s: int): int
  {
    (h * 60 + m) * 60 + s
  }

  datatype HMS = HMS(h: int, m: int, s: int)

  /** The split of a duration that `loadTimer`, the running display and the preset list use. */
  function Split(d: nat): (t: HMS)
    ensures 0 <= t.h && 0 <= t.m < 60 && 0 <= t.s < 60
    ensures TotalSeconds(t.h, t.m, t.s) == d
  {
    var h := d / 3600;
    var r := d % 3600;
    assert d % 60 == r % 60 by {
      assert d == h * 3600 + r;
      assert h * 3600 == (h * 60) * 60;
    }
    HMS(h, r / 60, d % 60)
  }

  /** Splitting the total of an in-range input gives the input back. */
  lemma {:induction false} SplitOfTotal(h: nat, m: nat, s: nat)
    requires m < 60 && s < 60
    ensures Split(TotalSeconds(h, m, s)) == HMS(h, m, s)
  {
    var d := TotalSeconds(h, m, s);
    var r := m * 60 + s;
    assert d == h * 3600 + r && 0 <= r < 3600;
    assert d / 3600 == h;
    assert d % 3600 == r;
    assert r / 60 == m;
    var t := Split(d);
    assert t.h == h && t.m == m;
  }

  /** A preset as the list shows it: `hh:mm:ss`. */
  function FormatDuration(d: nat): string
  {
    var t := Split(d);
    Pad2(t.h) + ":" + Pad2(t.m) + ":" + Pad2(t.s)
  }

  /** Under 100 hours the preset reads `hh:mm:ss`, and reading the three fields back gives the duration. */
  lemma FormatDurationReadsBack(d: nat)
    requires d < 360000
    ensures var r := FormatDuration(d);
            |r| == 8 && r[2] == ':' && r[5] == ':'
            && AllDigits(r[..2]) && AllDigits(r[3..5]) && AllDigits(r[6..])
            && TotalSeconds(DigitsValue(r[..2]), DigitsValue(r[3..5]), DigitsValue(r[6..])) == d
  {
    var t := Split(d);
    assert t.h == d / 3600 < 100;
    Pad2RoundTrip(t.h);
    Pad2RoundTrip(t.m);
    Pad2RoundTrip(t.s);
    SplitJoined(Pad2(t.h), ':', Pad2(t.m), ':', Pad2(t.s));
  }

  /** `deleteTimer`'s new list. */
  function WithoutPreset(timers: seq<SavedTimer>, id: string): seq<SavedTimer>
  {
    RemoveByKey(timers, (t: SavedTimer) => t.id, id)
  }

  /** Deleting a preset removes every preset with that id and keeps each of the others. */
  lemma DeletePresetExactly(timers: seq<SavedTimer>, id: string, t: SavedTimer)
    ensures forall i :: 0 <= i < |WithoutPreset(timers, id)| ==> WithoutPreset(timers, id)[i].id != id
    ensures t.id != id ==> multiset(WithoutPreset(timers, id))[t] == multiset(timers)[t]
  {
    RemoveByKeyExactly(timers, (p: SavedTimer) => p.id, id, t);
  }

  /**
   * The input and the counter agree: the input is in range and, while
   * stopped, the counter is its total; a running counter has at least one
   * second left, and the input shows it split into h:m:s.
   */
  predicate Consistent(running: bool, input: HMS, timeLeft: int)
  {
    && 0 <= input.h && 0 <= input.m < 60 && 0 <= input.s < 60
    && (!running ==> timeLeft == TotalSeconds(input.h, input.m, input.s))
    && (running ==> timeLeft >= 1 && input == Split(timeLeft))
  }

  class CountdownTimer {
    var hours: int
    var minutes: int
    var seconds: int
    var timeLeft: int
    var isRunning: bool
    var savedTimers: seq<SavedTimer>
    var timerName: string

    /** The input and the counter agree, and no preset has a negative duration. */
    ghost predicate Valid()
      reads this
    {
      && Consistent(isRunning, HMS(hours, minutes, seconds), timeLeft)
      && forall i :: 0 <= i < |savedTimers| ==> savedTimers[i].duration >= 0
    }

    constructor ()
      ensures Valid()
      ensures hours == 0 && minutes == 0 && seconds == 0 && timeLeft == 0 && !isRunning
      ensures savedTimers == [] && timerName == ""
    {
      isRunning := false;
      hours, minutes, seconds, timeLeft := 0, 0, 0, 0;
      savedTimers, timerName := [], "";
    }

    /**
     * Typing into one field of the input, which is enabled only while stopped:
     * the field takes the clamped value and the counter follows the total.
     */
    method Input(u: Unit, value: string)
      requires Valid() && !isRunning
      modifies this`hours, this`minutes, this`seconds, this`timeLeft
      ensures Valid() && !isRunning
      ensures u == Hours ==> hours == ClampInput(value, 23) && minutes == old(minutes) && seconds == old(seconds)
      ensures u == Minutes ==> minutes == ClampInput(value, 59) && hours == old(hours) && seconds == old(seconds)
      ensures u == Seconds ==> seconds == ClampInput(value, 59) && hours == old(hours) && minutes == old(minutes)
    {
      var v := ClampInput(value, MaxOf(u));
      match u {
        case Hours => hours := v;
        case Minutes => minutes := v;
        case Seconds => seconds := v;
      }
      timeLeft := TotalSeconds(hours, minutes, seconds);
    }

    /** `startTimer`: nothing when the counter is 0; otherwise run, and the input shows the counter. */
    method Start()
      requires Valid()
      modifies this`isRunning, this`hours, this`minutes, this`seconds
      ensures Valid()
      ensures old(timeLeft) == 0 || old(isRunning) ==> unchanged(this)
      ensures old(timeLeft) != 0 ==>
                isRunning && hours == old(hours) && minutes == old(minutes) && seconds == old(seconds)
    {
      if timeLeft == 0 { return; }
      if !isRunning {
        SplitOfTotal(hours, minutes, seconds);
        isRunning := true;
        var t := Split(timeLeft);
        hours, minutes, seconds := t.h, t.m, t.s;
      }
    }

    /**
     * One second of the running interval, with the effects that follow it:
     * while more than one second is left, one is taken away and the input
     * shows the rest; otherwise the run completes and stops, and the
     * stopped-counter effect sets the counter to the input's total. Returns
     * whether the completion sound plays.
     */
    method Tick() returns (completed: bool)
      requires Valid()
      modifies this`timeLeft, this`isRunning, this`hours, this`minutes, this`seconds
      ensures Valid()
      ensures completed <==> old(isRunning) && Completes(old(timeLeft))
      ensures !old(isRunning) ==> unchanged(this)
      ensures old(isRunning) && !completed ==> isRunning && timeLeft == old(timeLeft) - 1
      ensures completed ==> !isRunning && timeLeft == 1 && HMS(hours, minutes, seconds) == HMS(0, 0, 1)
    {
      if !isRunning {
        completed := false;
        return;
      }
      completed := Completes(timeLeft);
      if completed {
        SplitOfTotal(0, 0, 1);
        timeLeft, isRunning := Step(timeLeft), false;
        timeLeft := TotalSeconds(hours, minutes, seconds);
      } else {
        timeLeft := Step(timeLeft);
        var t := Split(timeLeft);
        hours, minutes, seconds := t.h, t.m, t.s;
      }
    }

    /**
     * The same tick with the completion clearing the input as well, so that
     * the stopped-counter effect leaves 0 on the counter.
     */
    method TickClearingInput() returns (completed: bool)
      requires Valid()
      modifies this`timeLeft, this`isRunning, this`hours, this`minutes, this`seconds
      ensures Valid()
      ensures completed <==> old(isRunning) && Completes(old(timeLeft))
      ensures !old(isRunning) ==> unchanged(this)
      ensures old(isRunning) && !completed ==> isRunning && timeLeft == old(timeLeft) - 1
      ensures completed ==> !isRunning && timeLeft == 0 && hours == 0 && minutes == 0 && seconds == 0
    {
      if !isRunning {
        completed := false;
        return;
      }
      completed := Completes(timeLeft);
      if completed {
        timeLeft := Step(timeLeft);
        isRunning := false;
        hours, minutes, seconds := 0, 0, 0;
        timeLeft := TotalSeconds(hours, minutes, seconds);
      } else {
        timeLeft := Step(timeLeft);
        var t := Split(timeLeft);
        hours, minutes, seconds := t.h, t.m, t.s;
      }
    }

    /** `pauseTimer`, with the stopped-counter effect: pausing a run keeps the seconds it had left. */
    method Pause()
      requires Valid()
      modifies this`isRunning, this`timeLeft
      ensures Valid()
      ensures !isRunning && timeLeft == TotalSeconds(hours, minutes, seconds)
      ensures old(isRunning) ==> timeLeft == old(timeLeft)
    {
      isRunning := false;
      timeLeft := TotalSeconds(hours, minutes, seconds);
    }

    /**
     * `resetTimer`: stop and set the counter to the input's total. During a
     * run the input already shows the remaining time, so this keeps it.
     */
    method Reset()
      requires Valid()
      modifies this`isRunning, this`timeLeft
      ensures Valid()
      ensures !isRunning && timeLeft == TotalSeconds(hours, minutes, seconds)
      ensures old(isRunning) ==> timeLeft == old(timeLeft)
    {
      isRunning := false;
      timeLeft := TotalSeconds(hours, minutes, seconds);
    }

    method SetTimerName(name: string)
      modifies this`timerName
      ensures timerName == name
    {
      timerName := name;
    }

    /**
     * `saveTimer`: a name that trims to nothing saves nothing; otherwise one
     * preset with the input's total is appended and the name is cleared.
     */
    method SaveTimer(id: string)
      requires Valid()
      modifies this`savedTimers, this`timerName
      ensures Valid()
      ensures Trim(old(timerName)) == "" ==> unchanged(this)
      ensures Trim(old(timerName)) != "" ==>
                savedTimers == old(savedTimers) + [SavedTimer(id, old(timerName), TotalSeconds(hours, minutes, seconds))]
                && timerName == ""
    {
      if Trim(timerName) == "" { return; }
      var preset := SavedTimer(id, timerName, TotalSeconds(hours, minutes, seconds));
      savedTimers := savedTimers + [preset];
      timerName := "";
    }

    /** `loadTimer`: stop, and put the preset's split into the input and its duration on the counter. */
    method LoadTimer(timer: SavedTimer)
      requires Valid() && timer in savedTimers
      modifies this`isRunning, this`hours, this`minutes, this`seconds, this`timeLeft
      ensures Valid()
      ensures !isRunning && timeLeft == timer.duration
      ensures HMS(hours, minutes, seconds) == Split(timer.duration)
    {
      isRunning := false;
      var t := Split(timer.duration);
      hours, minutes, seconds := t.h, t.m, t.s;
      timeLeft := timer.duration;
    }

    /** `deleteTimer`. */
    method DeleteTimer(id: string)
      requires Valid()
      modifies this`savedTimers
      ensures Valid()
      ensures savedTimers == WithoutPreset(old(savedTimers), id)
    {
      savedTimers := WithoutPreset(savedTimers, id);
    }
  }

  /** Typing "2" into the seconds field of a stopped timer whose hours and minutes are 0, then starting. */
  method TypeTwoSecondsAndStart(c: CountdownTimer)
    requires c.Valid() && !c.isRunning && c.hours == 0 && c.minutes == 0
    modifies c
    ensures c.Valid() && c.isRunning && c.timeLeft == 2
  {
    ClampInputOfShown(2, 59);
    assert DecimalString(2) == "2";
    c.Input(Seconds, "2");
    c.Start();
  }

  /**
   * A two-second run, as the source is written: after the completing tick the
   * counter and the input read one second, not zero.
   */
  method TwoSecondRun(c: CountdownTimer) returns (completed: bool)
    requires c.Valid() && !c.isRunning && c.hours == 0 && c.minutes == 0
    modifies c
    ensures completed && c.timeLeft == 1 && HMS(c.hours, c.minutes, c.seconds) == HMS(0, 0, 1)
  {
    TypeTwoSecondsAndStart(c);
    SplitOfTotal(0, 0, 1);
    completed := c.Tick();
    completed := c.Tick();
  }

  /** The same run with the corrected completion ends on zero. */
  method TwoSecondRunClearingInput(c: CountdownTimer) returns (completed: bool)
    requires c.Valid() && !c.isRunning && c.hours == 0 && c.minutes == 0
    modifies c
    ensures completed && c.timeLeft == 0 && HMS(c.hours, c.minutes, c.seconds) == HMS(0, 0, 0)
  {
    TypeTwoSecondsAndStart(c);
    SplitOfTotal(0, 0, 1);
    completed := c.TickClearingInput();
    completed := c.TickClearingInput();
  }
}
