/**
 * The pomodoro timer: a work phase followed by a break, a long break after
 * every `cycles`-th work phase and a short one otherwise, each phase a number
 * of seconds that a once-a-second tick counts down; completing a work phase
 * adds to the completed-cycle count and to the total work time.
 */
module Pomodoro {
  import opened Tick
  import opened Js
  import opened Wrappers

  datatype Mode = Work | ShortBreak | LongBreak

  /** Phase lengths in minutes, and how many work phases come before a long break. */
  datatype Settings = Settings(work: int, shortBreak: int, longBreak: int, cycles: int)

  const DefaultSettings := Settings(25, 5, 15, 4)

  predicate PositiveSettings(s: Settings)
  {
    s.work > 0 && s.shortBreak > 0 && s.longBreak > 0 && s.cycles > 0
  }

  /** The configured length of a phase in seconds. */
  function Duration(settings: Settings, mode: Mode): int
  {
    match mode
    case Work => settings.work * 60
    case ShortBreak => settings.shortBreak * 60
    case LongBreak => settings.longBreak * 60
  }

  /** A field of the settings dialog as it is read: `parseInt(value) || fallback`. */
  function FieldValue(value: string, fallback: int): (r: int)
    ensures fallback != 0 ==> r != 0
  {
    match ParseInt(value)
    case Some(n) => if n != 0 then n else fallback
    case None => fallback
  }

  /** A typed positive number is taken as it is; 0 and an empty field fall back to the default. */
  lemma FieldValueOfTyped(n: nat, fallback: int)
    ensures FieldValue(DecimalString(n), fallback) == if n == 0 then fallback else n
    ensures FieldValue("", fallback) == fallback
  {
    assert ParseInt(DecimalString(n)) == Some(n) by {
      ParseIntOfDecimal(n);
    }
    assert ParseInt("") == None;
  }

  datatype Field = WorkField | ShortBreakField | LongBreakField | CyclesField

  /** The value a settings field holds. */
  function Get(s: Settings, field: Field): int
  {
    match field
    case WorkField => s.work
    case ShortBreakField => s.shortBreak
    case LongBreakField => s.longBreak
    case CyclesField => s.cycles
  }

  /** The dialog's draft settings after typing `value` into one field; each field has its own default. */
  function EditField(draft: Settings, field: Field, value: string): Settings
  {
    match field
    case WorkField => draft.(work := FieldValue(value, 25))
    case ShortBreakField => draft.(shortBreak := FieldValue(value, 5))
    case LongBreakField => draft.(longBreak := FieldValue(value, 15))
    case CyclesField => draft.(cycles := FieldValue(value, 4))
  }

  /**
   * Typing into a field changes that field only: it takes the number `parseInt`
   * reads when that number is not 0, and the field's value in the default
   * settings when the text is empty, unreadable or 0.
   */
  lemma EditFieldExactly(draft: Settings, field: Field, value: string)
    ensures forall f :: f != field ==> Get(EditField(draft, field, value), f) == Get(draft, f)
    ensures ParseInt(value).Some? && ParseInt(value).value != 0 ==>
              Get(EditField(draft, field, value), field) == ParseInt(value).value
    ensures ParseInt(value).None? || ParseInt(value) == Some(0) ==>
              Get(EditField(draft, field, value), field) == Get(DefaultSettings, field)
  {
  }

  /** Editing never produces a zero field, so positive drafts stay positive when a positive number is typed. */
  lemma EditKeepsFieldsNonZero(draft: Settings, field: Field, value: string)
    requires draft.work != 0 && draft.shortBreak != 0 && draft.longBreak != 0 && draft.cycles != 0
    ensures var r := EditField(draft, field, value);
            r.work != 0 && r.shortBreak != 0 && r.longBreak != 0 && r.cycles != 0
  {
  }

  /**
   * The phase that follows a completed one, given the completed-cycle count
   * the tick saw. A break is followed by work; work by a long break exactly
   * when the new count is a multiple of `cycles` (in JavaScript `n % 0` is NaN,
   * never 0).
   */
  function NextMode(mode: Mode, cycles: int, completedBefore: int): (r: Mode)
  {
    if mode != Work then Work
    else if cycles != 0 && (completedBefore + 1) % cycles == 0 then LongBreak
    else ShortBreak
  }

  /** Work and breaks alternate, and the long break comes exactly on the multiples of `cycles`. */
  lemma NextModeAlternates(mode: Mode, cycles: int, completedBefore: int)
    ensures mode == Work <==> NextMode(mode, cycles, completedBefore) != Work
    ensures mode == Work && cycles > 0 ==>
              (NextMode(mode, cycles, completedBefore) == LongBreak <==> (completedBefore + 1) % cycles == 0)
  {
  }

  /** The phase and the statistics, as a sequence of completed phases sees them. */
  datatype Progress = Progress(mode: Mode, cyclesCompleted: int, totalWorkTime: int)

  /** Completing the current phase when the statistics were not reset while it ran. */
  function Advance(settings: Settings, p: Progress): Progress
  {
    if p.mode == Work then
      Progress(NextMode(Work, settings.cycles, p.cyclesCompleted),
               p.cyclesCompleted + 1, p.totalWorkTime + settings.work * 60)
    else
      Progress(Work, p.cyclesCompleted, p.totalWorkTime)
  }

  /** `k` phases completed one after the other. */
  function AdvanceN(settings: Settings, p: Progress, k: nat): Progress
  {
    if k == 0 then p else Advance(settings, AdvanceN(settings, p, k - 1))
  }

  /**
   * Starting in a work phase, `n` rounds of work and break bring the timer
   * back to work with `n` more completed cycles and `n` work phases more of
   * work time; the break of round `n + 1` is long exactly when the cycle count
   * it follows is a multiple of `cycles`.
   */
  lemma {:induction false} Rounds(settings: Settings, c: int, t: int, n: nat)
    ensures AdvanceN(settings, Progress(Work, c, t), 2 * n)
              == Progress(Work, c + n, t + n * (settings.work * 60))
    ensures AdvanceN(settings, Progress(Work, c, t), 2 * n + 1)
              == Progress(NextMode(Work, settings.cycles, c + n), c + n + 1, t + (n + 1) * (settings.work * 60))
  {
    var w := settings.work * 60;
    if n > 0 {
      Rounds(settings, c, t, n - 1);
      assert 2 * n == 2 * (n - 1) + 1 + 1;
      assert t + n * w == t + (n - 1) * w + w;
    }
    assert t + (n + 1) * w == t + n * w + w;
  }

  /** With the default four cycles, the fourth break of a fresh run is the first long one. */
  lemma DefaultCycle()
    ensures AdvanceN(DefaultSettings, Progress(Work, 0, 0), 1).mode == ShortBreak
    ensures AdvanceN(DefaultSettings, Progress(Work, 0, 0), 3).mode == ShortBreak
    ensures AdvanceN(DefaultSettings, Progress(Work, 0, 0), 5).mode == ShortBreak
    ensures AdvanceN(DefaultSettings, Progress(Work, 0, 0), 7) == Progress(LongBreak, 4, 4 * 25 * 60)
    ensures AdvanceN(DefaultSettings, Progress(Work, 0, 0), 8) == Progress(Work, 4, 4 * 25 * 60)
  {
    Rounds(DefaultSettings, 0, 0, 0);
    Rounds(DefaultSettings, 0, 0, 1);
    Rounds(DefaultSettings, 0, 0, 2);
    Rounds(DefaultSettings, 0, 0, 3);
    Rounds(DefaultSettings, 0, 0, 4);
  }

  /**
   * `formatTime`: `Math.floor(seconds / 60)` and `seconds % 60`, each padded
   * to two characters, joined by ':'. A phase length typed as a negative
   * number makes the counter negative, so any integer can reach it.
   */
  function FormatTime(seconds: int): string
  {
    PadInt2(seconds / 60) + ":" + PadInt2(JsRem(seconds, 60))
  }

  /** Under 100 minutes the display is `mm:ss`, and reading it back gives the seconds again. */
  lemma FormatTimeReadsBack(seconds: int)
    requires 0 <= seconds < 6000
    ensures var r := FormatTime(seconds);
            |r| == 5 && r[2] == ':' && AllDigits(r[..2]) && AllDigits(r[3..])
            && DigitsValue(r[3..]) < 60
            && DigitsValue(r[..2]) * 60 + DigitsValue(r[3..]) == seconds
  {
    var m, sec := seconds / 60, seconds % 60;
    assert m < 100 && m * 60 + sec == seconds;
    assert FormatTime(seconds) == Pad2(m) + ":" + Pad2(sec) by {
      assert JsRem(seconds, 60) == sec;
      NonNegativeFields(m, sec);
    }
    FieldsReadBack(m, sec);
  }

  /** Two fields below 100 joined by ':' are cut apart again and read back. */
  lemma FieldsReadBack(m: nat, sec: nat)
    requires m < 100 && sec < 100
    ensures var r := Pad2(m) + ":" + Pad2(sec);
            |r| == 5 && r[2] == ':' && AllDigits(r[..2]) && AllDigits(r[3..])
            && DigitsValue(r[..2]) == m && DigitsValue(r[3..]) == sec
  {
    Pad2RoundTrip(m);
    Pad2RoundTrip(sec);
    SplitJoinedPair(Pad2(m), ':', Pad2(sec));
  }

  /**
   * A counter of `k` seconds below zero shows as `-m:00` for a whole number `m`
   * of minutes; otherwise the minutes, rounded down, are one more than the
   * whole minutes in `k` and the seconds field carries its own minus sign:
   * -301 shows as `-6:-1`.
   */
  lemma FormatTimeOfNegative(k: int)
    requires k > 0
    ensures k % 60 == 0 ==> FormatTime(-k) == "-" + DecimalString(k / 60) + ":00"
    ensures k % 60 != 0 ==> FormatTime(-k) == "-" + DecimalString(k / 60 + 1) + ":-" + DecimalString(k % 60)
  {
    if k % 60 == 0 {
      WholeNegativeMinutes(k);
    } else {
      PartNegativeMinute(k);
    }
  }

  lemma WholeNegativeMinutes(k: int)
    requires k > 0 && k % 60 == 0
    ensures FormatTime(-k) == "-" + DecimalString(k / 60) + ":00"
  {
    var m, sec := -k / 60, JsRem(-k, 60);
    assert m < 0 && -m == k / 60 && sec == 0 by {
      NegativeMinutes(-k);
    }
    NegativeWholeFields(m);
  }

  lemma PartNegativeMinute(k: int)
    requires k > 0 && k % 60 != 0
    ensures FormatTime(-k) == "-" + DecimalString(k / 60 + 1) + ":-" + DecimalString(k % 60)
  {
    var m, sec := -k / 60, JsRem(-k, 60);
    assert m < 0 && sec < 0 && -m == k / 60 + 1 && -sec == k % 60 by {
      NegativeMinutes(-k);
    }
    NegativeFields(m, sec);
  }

  /** The display of non-negative minutes and seconds is their two-digit fields. */
  lemma NonNegativeFields(m: int, sec: int)
    requires m >= 0 && sec >= 0
    ensures PadInt2(m) + ":" + PadInt2(sec) == Pad2(m) + ":" + Pad2(sec)
  {
    PadInt2Cases(m);
    PadInt2Cases(sec);
  }

  /** The display of negative whole minutes. */
  lemma NegativeWholeFields(m: int)
    requires m < 0
    ensures PadInt2(m) + ":" + PadInt2(0) == "-" + DecimalString(-m) + ":00"
  {
    PadInt2Cases(m);
    assert PadInt2(0) == "00";
  }

  /** The display of negative minutes and negative seconds, each with its own sign. */
  lemma NegativeFields(m: int, sec: int)
    requires m < 0 && sec < 0
    ensures PadInt2(m) + ":" + PadInt2(sec) == "-" + DecimalString(-m) + ":-" + DecimalString(-sec)
  {
    var a, b := DecimalString(-m), DecimalString(-sec);
    PadInt2Cases(m);
    PadInt2Cases(sec);
    assert ("-" + a) + ":" + ("-" + b) == "-" + a + ":-" + b;
  }

  /** Rounding a negative number of seconds down to minutes, and its JavaScript remainder. */
  lemma NegativeMinutes(seconds: int)
    requires seconds < 0
    ensures var k := -seconds;
            && seconds / 60 == (if k % 60 == 0 then -(k / 60) else -(k / 60) - 1)
            && JsRem(seconds, 60) == -(k % 60)
  {
    var k := -seconds;
    var q, r := k / 60, k % 60;
    assert k == 60 * q + r && 0 <= r < 60;
    if r == 0 {
      assert seconds == 60 * (-q) + 0;
    } else {
      assert seconds == 60 * (-q - 1) + (60 - r);
    }
  }

  /**
   * The hours and minutes `formatTotalTime` shows: `Math.floor(seconds / 3600)`
   * and `Math.floor((seconds % 3600) / 60)`. For a non-negative total they are
   * the whole hours and the minutes of the hour begun; a negative total (work
   * phases of negative length) shows the hour below it and the negative
   * minutes of the part of an hour, rounded down.
   */
  function TotalTimeParts(seconds: int): (hm: (int, int))
    ensures hm.0 * 3600 <= seconds < hm.0 * 3600 + 3600
    ensures seconds >= 0 ==> 0 <= hm.1 < 60 && hm.0 * 3600 + hm.1 * 60 <= seconds < hm.0 * 3600 + hm.1 * 60 + 60
    ensures seconds < 0 ==>
              -60 <= hm.1 <= 0 && hm.1 * 60 <= -((-seconds) % 3600) < hm.1 * 60 + 60
  {
    (seconds / 3600, JsRem(seconds, 3600) / 60)
  }

  /** `formatTotalTime`, with the translated words for hours and minutes given. */
  function FormatTotalTime(seconds: int, hoursWord: string, minutesWord: string): string
  {
    var hm := TotalTimeParts(seconds);
    IntString(hm.0) + " " + hoursWord + " " + IntString(hm.1) + " " + minutesWord
  }

  class PomodoroTimer {
    var settings: Settings
    /** The settings dialog's draft. */
    var tempSettings: Settings
    /** Whether the draft is the very object `settings` holds (set by saving, cleared by editing). */
    var draftIsCurrent: bool
    var mode: Mode
    var timeLeft: int
    var isRunning: bool
    var cyclesCompleted: int
    var totalWorkTime: int
    /** The completed-cycle count the running interval's callback was created with. */
    var cyclesAtStart: int

    /**
     * With positive settings the counter lies between 1 and the phase's
     * length, and a draft that is the current object equals the settings.
     */
    ghost predicate Valid()
      reads this
    {
      && (PositiveSettings(settings) ==> 1 <= timeLeft <= Duration(settings, mode))
      && (draftIsCurrent ==> tempSettings == settings)
    }

    constructor ()
      ensures Valid()
      ensures settings == DefaultSettings && tempSettings == DefaultSettings && draftIsCurrent
      ensures mode == Work && timeLeft == 25 * 60 && !isRunning
      ensures cyclesCompleted == 0 && totalWorkTime == 0
    {
      settings, tempSettings, draftIsCurrent := DefaultSettings, DefaultSettings, true;
      mode, timeLeft, isRunning := Work, 25 * 60, false;
      cyclesCompleted, totalWorkTime, cyclesAtStart := 0, 0, 0;
    }

    /** How far the current phase has got, for the progress bar. */
    function ElapsedInPhase(): (e: int)
      reads this
      requires Valid()
      ensures PositiveSettings(settings) ==> 0 <= e < Duration(settings, mode)
    {
      Duration(settings, mode) - timeLeft
    }

    /** `startTimer`: nothing while running; otherwise run, remembering the current cycle count. */
    method Start()
      modifies this`isRunning, this`cyclesAtStart
      ensures old(isRunning) ==> unchanged(this)
      ensures !old(isRunning) ==> isRunning && cyclesAtStart == cyclesCompleted
    {
      if isRunning { return; }
      isRunning := true;
      cyclesAtStart := cyclesCompleted;
    }

    /** `pauseTimer`. */
    method Pause()
      modifies this`isRunning
      ensures !isRunning
    {
      isRunning := false;
    }

    /**
     * One second of the running interval, with the mode effect that follows a
     * completion: while more than one second is left it takes one away;
     * otherwise the phase completes, the next phase is chosen from the cycle
     * count captured at start, and the timer stops, re-armed to the next
     * phase's length. Returns whether the completion sound plays.
     */
    method Tick() returns (completed: bool)
      requires Valid()
      modifies this`timeLeft, this`isRunning, this`mode, this`cyclesCompleted, this`totalWorkTime
      ensures Valid()
      ensures completed <==> old(isRunning) && Completes(old(timeLeft))
      ensures !old(isRunning) ==> unchanged(this)
      ensures old(isRunning) && !completed ==>
                isRunning && timeLeft == old(timeLeft) - 1 && mode == old(mode)
                && cyclesCompleted == old(cyclesCompleted) && totalWorkTime == old(totalWorkTime)
      ensures completed ==>
                !isRunning && mode == NextMode(old(mode), settings.cycles, cyclesAtStart)
                && timeLeft == Duration(settings, mode)
      ensures completed && old(mode) == Work ==>
                cyclesCompleted == cyclesAtStart + 1 && totalWorkTime == old(totalWorkTime) + settings.work * 60
      ensures completed && old(mode) != Work ==>
                cyclesCompleted == old(cyclesCompleted) && totalWorkTime == old(totalWorkTime)
      ensures completed && cyclesAtStart == old(cyclesCompleted) ==>
                Progress(mode, cyclesCompleted, totalWorkTime)
                  == Advance(settings, Progress(old(mode), old(cyclesCompleted), old(totalWorkTime)))
    {
      if !isRunning {
        completed := false;
        return;
      }
      completed := Completes(timeLeft);
      if !completed {
        timeLeft := Step(timeLeft);
        return;
      }
      isRunning := false;
      if mode == Work {
        totalWorkTime := totalWorkTime + settings.work * 60;
        cyclesCompleted := cyclesAtStart + 1;
      }
      mode := NextMode(mode, settings.cycles, cyclesAtStart);
      timeLeft := Duration(settings, mode);
    }

    /** `resetTimer`: stop and re-arm the current phase. */
    method Reset()
      requires Valid()
      modifies this`isRunning, this`timeLeft
      ensures Valid()
      ensures !isRunning && timeLeft == Duration(settings, mode)
    {
      isRunning := false;
      timeLeft := Duration(settings, mode);
    }

    /** A phase tab: choosing another phase stops the timer and arms that phase; the current one changes nothing. */
    method SwitchMode(m: Mode)
      requires Valid()
      modifies this`mode, this`timeLeft, this`isRunning
      ensures Valid()
      ensures m == old(mode) ==> unchanged(this)
      ensures m != old(mode) ==> mode == m && timeLeft == Duration(settings, m) && !isRunning
    {
      if m != mode {
        mode := m;
        timeLeft := Duration(settings, mode);
        isRunning := false;
      }
    }

    /** Typing into a field of the settings dialog. */
    method EditSetting(field: Field, value: string)
      requires Valid()
      modifies this`tempSettings, this`draftIsCurrent
      ensures Valid()
      ensures tempSettings == EditField(old(tempSettings), field, value) && !draftIsCurrent
    {
      tempSettings := EditField(tempSettings, field, value);
      draftIsCurrent := false;
    }

    /**
     * `saveSettings`: an edited draft becomes the settings, which stops the
     * timer and re-arms the current phase; saving an unedited draft hands
     * back the same object and changes nothing.
     */
    method SaveSettings()
      requires Valid()
      modifies this`settings, this`timeLeft, this`isRunning, this`draftIsCurrent
      ensures Valid()
      ensures old(draftIsCurrent) ==> unchanged(this) && settings == tempSettings
      ensures !old(draftIsCurrent) ==>
                settings == tempSettings && draftIsCurrent
                && timeLeft == Duration(settings, mode) && !isRunning
    {
      if !draftIsCurrent {
        settings := tempSettings;
        draftIsCurrent := true;
        timeLeft := Duration(settings, mode);
        isRunning := false;
      }
    }

    /** `resetStats`: the statistics go back to zero; the phase and the counter are untouched. */
    method ResetStats()
      modifies this`cyclesCompleted, this`totalWorkTime
      ensures cyclesCompleted == 0 && totalWorkTime == 0
    {
      cyclesCompleted, totalWorkTime := 0, 0;
    }
  }
}
