/**
 * The world clock's city list: the zones shown, a fixed catalogue of further
 * zones to add from, the city chosen in the add dialog, and the add, remove
 * and once-a-second refresh operations on the list.
 */
module WorldClock {
  import opened Wrappers
  import opened JsArray

  datatype TimeZone = TimeZone(id: string, name: string, offset: string, countryCode: string)

  function IdOf(tz: TimeZone): string { tz.id }

  /** The zones shown at first. */
  const InitialTimeZones: seq<TimeZone> := [
    TimeZone("America/New_York", "New York", "GMT-5", "US"),
    TimeZone("Europe/London", "London", "GMT+0", "GB"),
    TimeZone("Asia/Dubai", "Dubai", "GMT+4", "AE"),
    TimeZone("Asia/Tokyo", "Tokyo", "GMT+9", "JP"),
    TimeZone("Asia/Shanghai", "Beijing", "GMT+8", "CN"),
    TimeZone("Europe/Paris", "Paris", "GMT+1", "FR")
  ]

  /** The catalogue the add dialog offers. */
  const AvailableTimeZones: seq<TimeZone> := [
    TimeZone("Europe/Berlin", "Berlin", "GMT+1", "DE"),
    TimeZone("Asia/Singapore", "Singapore", "GMT+8", "SG"),
    TimeZone("Australia/Sydney", "Sydney", "GMT+10", "AU"),
    TimeZone("Pacific/Auckland", "Auckland", "GMT+12", "NZ"),
    TimeZone("Asia/Seoul", "Seoul", "GMT+9", "KR"),
    TimeZone("Europe/Moscow", "Moscow", "GMT+3", "RU"),
    TimeZone("Asia/Hong_Kong", "Hong Kong", "GMT+8", "HK"),
    TimeZone("Europe/Rome", "Rome", "GMT+1", "IT"),
    TimeZone("America/Los_Angeles", "Los Angeles", "GMT-8", "US"),
    TimeZone("America/Chicago", "Chicago", "GMT-6", "US"),
    TimeZone("America/Toronto", "Toronto", "GMT-5", "CA"),
    TimeZone("America/Sao_Paulo", "São Paulo", "GMT-3", "BR")
  ]

  /** `zones.some(tz => tz.id === id)`. */
  predicate HasId(zones: seq<TimeZone>, id: string)
  {
    Any(zones, (tz: TimeZone) => tz.id == id)
  }

  /** The cities the dialog lists: the catalogue's zones not already shown, in catalogue order. */
  function SelectableCities(selected: seq<TimeZone>): seq<TimeZone>
  {
    Filter(AvailableTimeZones, (tz: TimeZone) => !HasId(selected, tz.id))
  }

  /** A zone is listed exactly when it is in the catalogue and no shown zone has its id. */
  lemma SelectableExactly(selected: seq<TimeZone>, tz: TimeZone)
    ensures tz in SelectableCities(selected) <==> tz in AvailableTimeZones && !HasId(selected, tz.id)
  {
  }

  /** The zone the dialog's choice stands for: the catalogue entry with that id, or none for the empty choice. */
  function CityFor(value: string): (city: Option<TimeZone>)
    ensures city.Some? ==> city.value in AvailableTimeZones && city.value.id == value
    ensures city.None? ==> !HasId(AvailableTimeZones, value)
  {
    Find(AvailableTimeZones, (tz: TimeZone) => tz.id == value)
  }

  /** The removal `removeTimeZone` makes. */
  function WithoutZone(zones: seq<TimeZone>, id: string): seq<TimeZone>
  {
    RemoveByKey(zones, IdOf, id)
  }

  /**
   * Removing drops every zone with that id and keeps each other zone as often
   * as it was shown, in the same order.
   */
  lemma WithoutZoneExactly(zones: seq<TimeZone>, more: seq<TimeZone>, id: string, tz: TimeZone)
    ensures forall i :: 0 <= i < |WithoutZone(zones, id)| ==> WithoutZone(zones, id)[i].id != id
    ensures multiset(WithoutZone(zones, id))[tz] == if tz.id == id then 0 else multiset(zones)[tz]
    ensures WithoutZone(zones + more, id) == WithoutZone(zones, id) + WithoutZone(more, id)
  {
    RemoveByKeyExactly(zones, IdOf, id, tz);
    RemoveByKeyConcat(zones, more, IdOf, id);
  }

  /** Two ids differ when they differ at some position. */
  lemma DifferAt(a: string, b: string, k: nat)
    requires k < |a| && k < |b| && a[k] != b[k]
    ensures a != b
  {
  }

  /** The six zones shown at first have distinct ids. */
  lemma InitialIdsUnique()
    ensures UniqueKeys(InitialTimeZones, IdOf)
  {
    var z := InitialTimeZones;
    // New York differs from the Asian zones at position 1, from the European ones at 0.
    DifferAt(z[0].id, z[1].id, 0); DifferAt(z[0].id, z[2].id, 1); DifferAt(z[0].id, z[3].id, 1);
    DifferAt(z[0].id, z[4].id, 1); DifferAt(z[0].id, z[5].id, 0);
    // London and Paris differ from the Asian zones at 0, from each other at 7.
    DifferAt(z[1].id, z[2].id, 0); DifferAt(z[1].id, z[3].id, 0); DifferAt(z[1].id, z[4].id, 0);
    DifferAt(z[1].id, z[5].id, 7);
    DifferAt(z[2].id, z[5].id, 0); DifferAt(z[3].id, z[5].id, 0); DifferAt(z[4].id, z[5].id, 0);
    // Dubai, Tokyo and Shanghai differ at 5.
    DifferAt(z[2].id, z[3].id, 5); DifferAt(z[2].id, z[4].id, 5); DifferAt(z[3].id, z[4].id, 5);
  }

  class WorldClock {
    var selectedTimeZones: seq<TimeZone>
    var showAddModal: bool
    var selectedCity: Option<TimeZone>

    /** No two shown zones share an id. */
    ghost predicate Valid()
      reads this
    {
      UniqueKeys(selectedTimeZones, IdOf)
    }

    constructor ()
      ensures Valid()
      ensures selectedTimeZones == InitialTimeZones && !showAddModal && selectedCity == None
    {
      InitialIdsUnique();
      showAddModal := false;
      selectedTimeZones, selectedCity := InitialTimeZones, None;
    }

    method OpenAddModal()
      modifies this`showAddModal
      ensures showAddModal
    {
      showAddModal := true;
    }

    /** The dialog's close and Cancel buttons: the choice stays. */
    method CloseAddModal()
      modifies this`showAddModal
      ensures !showAddModal
    {
      showAddModal := false;
    }

    /** The dialog's `onChange`: the catalogue zone with the chosen id, or none. */
    method SelectCity(value: string)
      modifies this`selectedCity
      ensures selectedCity == CityFor(value)
    {
      selectedCity := CityFor(value);
    }

    /**
     * `addTimeZone`: the chosen city goes at the end of the list unless a shown
     * zone already has its id; either way the dialog closes and the choice is
     * cleared. The ids stay unique and the city is shown afterwards.
     */
    method AddTimeZone()
      requires Valid()
      modifies this`selectedTimeZones, this`showAddModal, this`selectedCity
      ensures Valid()
      ensures !showAddModal && selectedCity == None
      ensures old(selectedCity).Some? && !HasId(old(selectedTimeZones), old(selectedCity).value.id) ==>
                selectedTimeZones == old(selectedTimeZones) + [old(selectedCity).value]
      ensures old(selectedCity).None? || HasId(old(selectedTimeZones), old(selectedCity).value.id) ==>
                selectedTimeZones == old(selectedTimeZones)
      ensures old(selectedCity).Some? ==> HasId(selectedTimeZones, old(selectedCity).value.id)
    {
      if selectedCity.Some? && !HasId(selectedTimeZones, selectedCity.value.id) {
        var city := selectedCity.value;
        var before := selectedTimeZones;
        selectedTimeZones := selectedTimeZones + [city];
        assert selectedTimeZones[|before|] == city;
        forall i | 0 <= i < |before|
          ensures IdOf(selectedTimeZones[i]) != IdOf(city)
        {
          assert selectedTimeZones[i] == before[i];
        }
      }
      showAddModal := false;
      selectedCity := None;
    }

    /** `removeTimeZone`. */
    method RemoveTimeZone(id: string)
      requires Valid()
      modifies this`selectedTimeZones
      ensures Valid()
      ensures selectedTimeZones == WithoutZone(old(selectedTimeZones), id)
    {
      RemoveByKeyUniqueKeys(selectedTimeZones, IdOf, id);
      selectedTimeZones := WithoutZone(selectedTimeZones, id);
    }

    /** The once-a-second refresh: the list is replaced by a copy with the same zones in the same order. */
    method Refresh()
      modifies this`selectedTimeZones
      ensures selectedTimeZones == old(selectedTimeZones)
    {
      selectedTimeZones := selectedTimeZones[..];
    }
  }
}
