/**
 * The scenarios of tests/defaultValues.test.js, written as client code of
 * `DefaultValues.State`: each method performs the calls of one scenario on a
 * fresh record and returns the entries the scenario inspects. Where a scenario
 * depends on which calendar day an instant falls on in a zone, the method
 * states it as a requirement on the calendar rather than on real zone data.
 */
module Scenarios {
  import opened Wrappers
  import opened DayIds
  import opened Tracker
  import opened TrackerProperties
  import opened DefaultValues

  // The instants the scenarios use, in milliseconds since the epoch.
  const Aug15At10: Instant := 1692093600000  // 2023-08-15T10:00:00Z
  const Aug20At10: Instant := 1692525600000  // 2023-08-20T10:00:00Z
  const Aug21At0002: Instant := 1692576120000  // 2023-08-21T00:02:00Z
  const Aug21At0030: Instant := 1692577800000  // 2023-08-21T00:30:00Z

  /** The three August days the scenarios use: distinct identifiers, and the 20th compares before the 21st. */
  lemma AugustDays(d15: string, d20: string, d21: string)
    requires d15 == FormatDayId(Date(2023, 8, 15))
    requires d20 == FormatDayId(Date(2023, 8, 20))
    requires d21 == FormatDayId(Date(2023, 8, 21))
    ensures d15 != d20 && d15 != d21 && d20 != d21
    ensures LexLe(d20, d21)
  {
    assert Decimal(2023) == "2023" by {
      assert Decimal(2) == "2";
      assert Decimal(20) == "20";
      assert Decimal(202) == "202";
    }
    assert Decimal(8) == "8" && Decimal(15) == "15" && Decimal(20) == "20" && Decimal(21) == "21";
    assert d15 == "2023-8-15" && d20 == "2023-8-20" && d21 == "2023-8-21";
    assert d15[8] != d20[8] && d20[8] != d21[8] && d15[7] != d21[7];
    LexLeCommonPrefix("2023-8-2", "0", "1");
    assert d20 == "2023-8-2" + "0" && d21 == "2023-8-2" + "1";
  }

  /** S1: a positive default fills an empty today at once. */
  method SaveDefaultFillsToday(calendar: Calendar) returns (v: Option<int>)
    ensures v == Some(1)
  {
    var state := new State();
    var id := DayId(calendar, "UTC", Aug20At10);
    state.SaveDefault("pain", 1, Aug20At10, "UTC", calendar);
    v := Get(state.data["pain"], id);
  }

  /** S2: a reset day stays empty through the catch-up pass. */
  method ResetBlocksCatchUp(calendar: Calendar) returns (v: Option<int>)
    ensures v == None
  {
    var state := new State();
    var id := DayId(calendar, "UTC", Aug20At10);
    state.SaveDefault("pain", 1, Aug20At10, "UTC", calendar);
    ghost var beforeReset := state.Snap();
    state.ResetDay(id, ["pain"]);
    state.DailyMaterialization(Aug20At10, "UTC", calendar);
    ResetSuppressesCatchUp(beforeReset, id, ["pain"], "pain", Tracked);
    v := Get(state.data["pain"], id);
  }

  /** S3: saving the default again fills the reset day. */
  method ExplicitSaveRefillsResetDay(calendar: Calendar) returns (v: Option<int>)
    ensures v == Some(1)
  {
    var state := new State();
    var id := DayId(calendar, "UTC", Aug20At10);
    state.SaveDefault("pain", 1, Aug20At10, "UTC", calendar);
    ghost var beforeReset := state.Snap();
    state.ResetDay(id, ["pain"]);
    state.DailyMaterialization(Aug20At10, "UTC", calendar);
    ResetSuppressesCatchUp(beforeReset, id, ["pain"], "pain", Tracked);
    state.SaveDefault("pain", 1, Aug20At10, "UTC", calendar);
    v := Get(state.data["pain"], id);
  }

  /** S4: the catch-up pass on the next day writes the default. */
  method CatchUpNextDay(calendar: Calendar) returns (v: Option<int>)
    requires calendar("UTC", Aug20At10) == Date(2023, 8, 20)
    requires calendar("UTC", Aug21At0002) == Date(2023, 8, 21)
    ensures v == Some(1)
  {
    var state := new State();
    ghost var s0 := state.Snap();
    var id0 := DayId(calendar, "UTC", Aug20At10);
    var id1 := DayId(calendar, "UTC", Aug21At0002);
    AugustDays(FormatDayId(Date(2023, 8, 15)), id0, id1);
    state.SaveDefault("pain", 1, Aug20At10, "UTC", calendar);
    ghost var s1 := state.Snap();
    assert Get(s1.data["pain"], id1) == Get(s0.data["pain"], id1) == None;
    assert Due(s1, "pain", id1);
    assert Fills(s1, "pain", id1);
    state.DailyMaterialization(Aug21At0002, "UTC", calendar);
    DailyMaterializationWritesNarrowly(s1, id1);
    v := Get(state.data["pain"], id1);
  }

  /** S5: a new default does not reach back into a day reset earlier, and applies from its start on. */
  method NoBackfill(calendar: Calendar) returns (v15: Option<int>, v20: Option<int>, v21: Option<int>)
    requires calendar("UTC", Aug15At10) == Date(2023, 8, 15)
    requires calendar("UTC", Aug20At10) == Date(2023, 8, 20)
    requires calendar("UTC", Aug21At0002) == Date(2023, 8, 21)
    ensures v15 == None && v20 == Some(2) && v21 == Some(2)
  {
    var state := new State();
    var id15 := DayId(calendar, "UTC", Aug15At10);
    state.SaveDefault("pain", 1, Aug15At10, "UTC", calendar);
    ghost var s0 := state.Snap();
    state.ResetDay(id15, ["pain"]);
    ghost var s1 := state.Snap();
    var id20 := DayId(calendar, "UTC", Aug20At10);
    state.SaveDefault("pain", 2, Aug20At10, "UTC", calendar);
    v15 := Get(state.data["pain"], id15);
    v20 := Get(state.data["pain"], id20);
    ghost var s2 := state.Snap();
    var id21 := DayId(calendar, "UTC", Aug21At0002);
    AugustDays(id15, id20, id21);
    ResetDayFlags(s0, id15, ["pain"]);
    assert Flag(s1, "pain", id21) == Flag(s0, "pain", id21) == None;
    assert !Skipped(s2, "pain", id21);
    assert Get(s2.data["pain"], id21) == Get(s1.data["pain"], id21) == Get(s0.data["pain"], id21) == None;
    assert Fills(s2, "pain", id21);
    state.DailyMaterialization(Aug21At0002, "UTC", calendar);
    DailyMaterializationWritesNarrowly(s2, id21);
    v21 := Get(state.data["pain"], id21);
  }

  /** S6: a manual entry wins over the default. */
  method ManualWins(calendar: Calendar) returns (v: Option<int>)
    ensures v == Some(3)
  {
    var state := new State();
    var id := DayId(calendar, "UTC", Aug20At10);
    state.SaveDefault("pain", 1, Aug20At10, "UTC", calendar);
    state.SaveManual(id, "pain", 3);
    ghost var s1 := state.Snap();
    state.DailyMaterialization(Aug20At10, "UTC", calendar);
    DailyMaterializationWritesNarrowly(s1, id);
    v := Get(state.data["pain"], id);
  }

  /** S7: a manual zero leaves the day empty. */
  method ManualZeroIsEmpty(calendar: Calendar) returns (v: Option<int>)
    ensures v == None
  {
    var state := new State();
    var id := DayId(calendar, "UTC", Aug20At10);
    state.SaveManual(id, "pain", 0);
    v := Get(state.data["pain"], id);
  }

  /**
   * S8: the catch-up pass keys by the zone it is called with. The default is
   * activated in Paris on 20 August; at 00:30 UTC on 21 August it is still
   * 20 August in New York and already 21 August in Paris.
   */
  method CallerZoneDecides(calendar: Calendar) returns (vNewYork: Option<int>, vParis: Option<int>)
    requires calendar("Europe/Paris", Aug20At10) == Date(2023, 8, 20)
    requires calendar("America/New_York", Aug21At0030) == Date(2023, 8, 20)
    requires calendar("Europe/Paris", Aug21At0030) == Date(2023, 8, 21)
    ensures vNewYork == Some(1) && vParis == None
  {
    var state := new State();
    ghost var s0 := state.Snap();
    var idNewYork := DayId(calendar, "America/New_York", Aug21At0030);
    var idParis := DayId(calendar, "Europe/Paris", Aug21At0030);
    AugustDays(FormatDayId(Date(2023, 8, 15)), idNewYork, idParis);
    assert DayId(calendar, "Europe/Paris", Aug20At10) == idNewYork;
    state.SaveDefault("pain", 1, Aug20At10, "Europe/Paris", calendar);
    ghost var s1 := state.Snap();
    assert Get(s1.data["pain"], idNewYork) == Some(1);
    assert Get(s1.data["pain"], idParis) == Get(s0.data["pain"], idParis) == None;
    assert s1.data.Keys == s0.data.Keys;
    state.DailyMaterialization(Aug21At0030, "America/New_York", calendar);
    DailyMaterializationWritesNarrowly(s1, idNewYork);
    vNewYork := Get(state.data["pain"], idNewYork);
    vParis := Get(state.data["pain"], idParis);
  }

  /** S9: deactivating the default removes the value it wrote today. */
  method DeactivationClearsToday(calendar: Calendar) returns (before: Option<int>, after: Option<int>)
    ensures before == Some(1) && after == None
  {
    var state := new State();
    var id := DayId(calendar, "UTC", Aug20At10);
    state.SaveDefault("pain", 1, Aug20At10, "UTC", calendar);
    before := Get(state.data["pain"], id);
    state.SaveDefault("pain", 0, Aug20At10, "UTC", calendar);
    after := Get(state.data["pain"], id);
  }
}
