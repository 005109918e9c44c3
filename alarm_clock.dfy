/**
 * The alarm clock: a list of alarms, each an `HH:MM` time, an on/off switch,
 * the weekdays it repeats on (none meaning every day) and a label; a draft
 * alarm edited in the add dialog; and a once-a-second check that sounds every
 * alarm matching the current minute and weekday.
 */
module AlarmClock {
  import opened JsArray

  datatype Alarm = Alarm(id: string, time: string, enabled: bool, days: seq<string>, labelText: string)

  /** The weekday keys, in the order the dialog offers them. */
  const DaysOfWeek: seq<string> := ["sun", "mon", "tue", "wed", "thu", "fri", "sat"]

  /** The test in `checkAlarms`: switched on, set for this minute, and for today or for every day. */
  predicate Matches(alarm: Alarm, currentTime: string, currentDay: string)
  {
    alarm.enabled && alarm.time == currentTime && (|alarm.days| == 0 || currentDay in alarm.days)
  }

  /** The alarms one check sounds, in list order. */
  function Fired(alarms: seq<Alarm>, currentTime: string, currentDay: string): seq<Alarm>
  {
    Filter(alarms, (a: Alarm) => Matches(a, currentTime, currentDay))
  }

  lemma FiredConcat(a: seq<Alarm>, b: seq<Alarm>, currentTime: string, currentDay: string)
    ensures Fired(a + b, currentTime, currentDay) == Fired(a, currentTime, currentDay) + Fired(b, currentTime, currentDay)
  {
    FilterConcat(a, b, (x: Alarm) => Matches(x, currentTime, currentDay));
  }

  /**
   * A check sounds an alarm exactly when it matches, once per copy in the
   * list; a switched-off alarm never sounds.
   */
  lemma FiredExactly(alarms: seq<Alarm>, currentTime: string, currentDay: string, a: Alarm)
    ensures multiset(Fired(alarms, currentTime, currentDay))[a]
            == if Matches(a, currentTime, currentDay) then multiset(alarms)[a] else 0
    ensures !a.enabled ==> a !in Fired(alarms, currentTime, currentDay)
  {
    FilterCount(alarms, (x: Alarm) => Matches(x, currentTime, currentDay), a);
  }

  /** The alarms sounded by a run of checks, each at its own (time, weekday) reading. */
  function FiredOverTicks(alarms: seq<Alarm>, ticks: seq<(string, string)>): seq<Alarm>
  {
    if ticks == [] then [] else Fired(alarms, ticks[0].0, ticks[0].1) + FiredOverTicks(alarms, ticks[1..])
  }

  /**
   * Nothing remembers that an alarm has sounded: over any number of checks
   * reading the same minute and weekday, each check sounds the matching alarms again.
   */
  lemma {:induction false} EveryCheckOfTheMinuteFires(alarms: seq<Alarm>, ticks: seq<(string, string)>,
                                                      currentTime: string, currentDay: string, a: Alarm)
    requires forall i :: 0 <= i < |ticks| ==> ticks[i] == (currentTime, currentDay)
    ensures multiset(FiredOverTicks(alarms, ticks))[a]
            == |ticks| * multiset(Fired(alarms, currentTime, currentDay))[a]
    decreases |ticks|
  {
    if ticks != [] {
      var once := Fired(alarms, currentTime, currentDay);
      var later := FiredOverTicks(alarms, ticks[1..]);
      EveryCheckOfTheMinuteFires(alarms, ticks[1..], currentTime, currentDay, a);
      assert ticks[0] == (currentTime, currentDay);
      assert FiredOverTicks(alarms, ticks) == once + later;
      assert multiset(once + later)[a] == multiset(once)[a] + multiset(later)[a];
      assert multiset(later)[a] == (|ticks| - 1) * multiset(once)[a];
    }
  }

  /** The notification text: the label, or a stock text for an alarm without one. */
  function NotificationBody(alarm: Alarm): (body: string)
    ensures body != ""
    ensures alarm.labelText != "" ==> body == alarm.labelText
  {
    if alarm.labelText != "" then alarm.labelText else "Time to wake up!"
  }

  /** `toggleAlarm`'s new list: the alarms with this id switched over. */
  function Toggled(alarms: seq<Alarm>, id: string): seq<Alarm>
  {
    Map(alarms, (a: Alarm) => if a.id == id then a.(enabled := !a.enabled) else a)
  }

  /**
   * Toggling switches over exactly the alarms with that id, touching none of
   * their other fields and no other alarm; toggling twice restores the list.
   */
  lemma ToggledExactly(alarms: seq<Alarm>, id: string)
    ensures |Toggled(alarms, id)| == |alarms|
    ensures forall i :: 0 <= i < |alarms| ==>
              var t := Toggled(alarms, id)[i];
              && (t.enabled <==> (if alarms[i].id == id then !alarms[i].enabled else alarms[i].enabled))
              && t.(enabled := alarms[i].enabled) == alarms[i]
    ensures Toggled(Toggled(alarms, id), id) == alarms
  {
    var f := (a: Alarm) => if a.id == id then a.(enabled := !a.enabled) else a;
    MapInvolution(alarms, f);
  }

  /** `deleteAlarm`'s new list. */
  function Deleted(alarms: seq<Alarm>, id: string): seq<Alarm>
  {
    RemoveByKey(alarms, (a: Alarm) => a.id, id)
  }

  /**
   * Deleting removes every alarm with that id and keeps every other one as
   * often as it was there, in the same order: deleting from a joined list is
   * deleting from each part.
   */
  lemma DeletedExactly(alarms: seq<Alarm>, more: seq<Alarm>, id: string, a: Alarm)
    ensures forall i :: 0 <= i < |Deleted(alarms, id)| ==> Deleted(alarms, id)[i].id != id
    ensures multiset(Deleted(alarms, id))[a] == if a.id == id then 0 else multiset(alarms)[a]
    ensures Deleted(alarms + more, id) == Deleted(alarms, id) + Deleted(more, id)
  {
    RemoveByKeyExactly(alarms, (x: Alarm) => x.id, id, a);
    RemoveByKeyConcat(alarms, more, (x: Alarm) => x.id, id);
  }

  /** `toggleDay`'s new selection: the day taken out when chosen, otherwise added at the end. */
  function ToggledDays(days: seq<string>, day: string): seq<string>
  {
    if day in days then Filter(days, d => d != day) else days + [day]
  }

  /**
   * Toggling a day flips whether it is chosen and leaves every other day as
   * often as it was; a selection without repeats keeps none.
   */
  lemma ToggledDaysExactly(days: seq<string>, day: string, other: string)
    ensures day in ToggledDays(days, day) <==> day !in days
    ensures other != day ==> multiset(ToggledDays(days, day))[other] == multiset(days)[other]
    ensures NoDuplicates(days) ==> NoDuplicates(ToggledDays(days, day))
  {
    var keep := (d: string) => d != day;
    if day in days {
      FilterCount(days, keep, other);
      FilterCount(days, keep, day);
      if NoDuplicates(days) {
        FilterNoDuplicates(days, keep);
      }
    } else {
      assert (days + [day])[|days|] == day;
      assert multiset(days + [day]) == multiset(days) + multiset{day};
    }
  }

  /** A day that was not chosen, toggled twice, leaves the selection exactly as it was. */
  lemma ToggledDaysTwice(days: seq<string>, day: string)
    requires day !in days
    ensures ToggledDays(ToggledDays(days, day), day) == days
  {
    var keep := (d: string) => d != day;
    var added := days + [day];
    assert added[|days|] == day;
    FilterConcat(days, [day], keep);
    FilterAllKept(days, keep);
    assert Filter([day], keep) == [];
  }

  class AlarmClock {
    var alarms: seq<Alarm>
    var showAddModal: bool
    var newAlarmTime: string
    var newAlarmLabel: string
    var newAlarmDays: seq<string>

    /** Neither the draft nor any alarm lists a weekday twice. */
    ghost predicate Valid()
      reads this
    {
      NoDuplicates(newAlarmDays) && forall i :: 0 <= i < |alarms| ==> NoDuplicates(alarms[i].days)
    }

    constructor ()
      ensures Valid()
      ensures alarms == [] && !showAddModal && newAlarmTime == "" && newAlarmLabel == "" && newAlarmDays == []
    {
      showAddModal := false;
      alarms, newAlarmTime, newAlarmLabel, newAlarmDays := [], "", "", [];
    }

    /**
     * One run of the once-a-second check with the current minute and weekday
     * read from the clock: the alarms that sound, in list order. The check
     * changes nothing.
     */
    method CheckAlarms(currentTime: string, currentDay: string) returns (fired: seq<Alarm>)
      ensures fired == Fired(alarms, currentTime, currentDay)
    {
      fired := [];
      var i := 0;
      while i < |alarms|
        invariant 0 <= i <= |alarms|
        invariant fired == Fired(alarms[..i], currentTime, currentDay)
      {
        var alarm := alarms[i];
        FiredConcat(alarms[..i], [alarm], currentTime, currentDay);
        assert alarms[..i + 1] == alarms[..i] + [alarm];
        if alarm.enabled && alarm.time == currentTime && (|alarm.days| == 0 || currentDay in alarm.days) {
          fired := fired + [alarm];
        }
        i := i + 1;
      }
      assert alarms[..|alarms|] == alarms;
    }

    method OpenAddModal()
      modifies this`showAddModal
      ensures showAddModal
    {
      showAddModal := true;
    }

    /** Cancelling closes the dialog and keeps the draft. */
    method CancelAddModal()
      modifies this`showAddModal
      ensures !showAddModal
    {
      showAddModal := false;
    }

    method SetNewAlarmTime(time: string)
      modifies this`newAlarmTime
      ensures newAlarmTime == time
    {
      newAlarmTime := time;
    }

    method SetNewAlarmLabel(labelText: string)
      modifies this`newAlarmLabel
      ensures newAlarmLabel == labelText
    {
      newAlarmLabel := labelText;
    }

    /** `toggleDay` on the draft's weekdays. */
    method ToggleDay(day: string)
      requires Valid()
      modifies this`newAlarmDays
      ensures Valid()
      ensures newAlarmDays == ToggledDays(old(newAlarmDays), day)
    {
      ToggledDaysExactly(newAlarmDays, day, day);
      if day in newAlarmDays {
        newAlarmDays := Filter(newAlarmDays, d => d != day);
      } else {
        newAlarmDays := newAlarmDays + [day];
      }
    }

    /**
     * `addAlarm`, with `id` the creation instant's digits: nothing without a
     * time; otherwise a switched-on alarm made from the draft goes at the end
     * of the list, the dialog closes and the draft is cleared.
     */
    method AddAlarm(id: string)
      requires Valid()
      modifies this`alarms, this`showAddModal, this`newAlarmTime, this`newAlarmLabel, this`newAlarmDays
      ensures Valid()
      ensures old(newAlarmTime) == "" ==> unchanged(this)
      ensures old(newAlarmTime) != "" ==>
                && alarms == old(alarms) + [Alarm(id, old(newAlarmTime), true, old(newAlarmDays), old(newAlarmLabel))]
                && !showAddModal && newAlarmTime == "" && newAlarmLabel == "" && newAlarmDays == []
    {
      if newAlarmTime == "" {
        return;
      }
      var alarm := Alarm(id, newAlarmTime, true, newAlarmDays, newAlarmLabel);
      alarms := alarms + [alarm];
      showAddModal := false;
      newAlarmTime, newAlarmLabel, newAlarmDays := "", "", [];
    }

    /** `toggleAlarm`. */
    method ToggleAlarm(id: string)
      requires Valid()
      modifies this`alarms
      ensures Valid()
      ensures alarms == Toggled(old(alarms), id)
    {
      alarms := Toggled(alarms, id);
    }

    /** `deleteAlarm`. */
    method DeleteAlarm(id: string)
      requires Valid()
      modifies this`alarms
      ensures Valid()
      ensures alarms == Deleted(old(alarms), id)
    {
      alarms := Deleted(alarms, id);
    }
  }
}
