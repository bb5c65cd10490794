/**
 * The tracker of defaultValues.js over a mutable record. `State` holds the
 * caller-owned record in fields, and each method updates them in place as the
 * JavaScript does; `Snap()` reads the fields back as a `Tracker.Snapshot`, and
 * every method is proved to leave exactly the snapshot the corresponding
 * `Tracker` function computes, and to keep `Valid()`.
 */
module DefaultValues {
  import opened Wrappers
  import opened DayIds
  import opened Tracker
  import opened TrackerProperties

  class State {
    /** `state.pain`, `state.stiffness`, ...: metric to day identifier to level. */
    var data: map<string, Entries>
    /** `state.defaultSkipDates`. */
    var skip: map<string, map<string, bool>>
    /** `state.settings.defaultLevels`. */
    var levels: map<string, int>
    /** `state.settings.defaultStartDates`. */
    var starts: map<string, Option<string>>
    /** `state.settings.defaultTimeZones`. */
    var zones: map<string, Option<string>>

    function Snap(): Snapshot
      reads this
    {
      Snapshot(data, skip, levels, starts, zones)
    }

    ghost predicate Valid()
      reads this
    {
      Consistent(Snap())
    }

    /** The record `createState` in the test suite builds. */
    constructor ()
      ensures Snap() == Initial() && Valid()
    {
      data := map["pain" := map[], "stiffness" := map[]];
      skip := map["pain" := map[], "stiffness" := map[]];
      levels := map["pain" := 0, "stiffness" := 0];
      starts := map["pain" := None, "stiffness" := None];
      zones := map["pain" := None, "stiffness" := None];
    }

    method SaveDefault(metric: string, value: int, now: Instant, tz: string, calendar: Calendar)
      requires metric in data
      modifies this
      ensures Snap() == Tracker.SaveDefault(old(Snap()), metric, value, DayId(calendar, tz, now), tz)
      ensures old(Valid()) ==> Valid()
    {
      var prevLevel := Get(levels, metric);
      levels := levels[metric := value];
      var todayId := DayId(calendar, tz, now);
      if value > 0 {
        starts := starts[metric := Some(todayId)];
        zones := zones[metric := Some(tz)];
        var entries := data[metric];
        var cur := Get(entries, todayId);
        assert (cur == None || cur == Some(0)) == Empty(entries, todayId);
        if cur == None || cur == Some(0) {
          data := data[metric := entries[todayId := value]];
        }
        assert data == old(data)[metric := if Empty(entries, todayId) then entries[todayId := value] else entries];
      } else {
        starts := starts[metric := None];
        zones := zones[metric := None];
        // `===` on the entry and the previous level: when both are undefined the
        // JavaScript deletes a key that is absent, which changes nothing.
        var entries := data[metric];
        if Get(entries, todayId) == prevLevel {
          data := data[metric := entries - {todayId}];
        }
        assert data == old(data)[metric := if Get(entries, todayId) == prevLevel then entries - {todayId} else entries];
      }
      if old(Valid()) {
        DayIdShape(calendar, tz, now);
        SaveDefaultKeepsConsistent(old(Snap()), metric, value, todayId, tz);
      }
    }

    method DailyMaterialization(now: Instant, tz: string, calendar: Calendar)
      requires Materializable(Snap(), Tracked, DayId(calendar, tz, now))
      modifies this
      ensures Snap() == Tracker.DailyMaterialization(old(Snap()), DayId(calendar, tz, now))
      ensures old(Valid()) ==> Valid()
    {
      var todayId := DayId(calendar, tz, now);
      var i := 0;
      while i < |Tracked|
        invariant 0 <= i <= |Tracked|
        invariant Materializable(old(Snap()), Tracked[..i], todayId)
        invariant Snap() == MaterializeOver(old(Snap()), Tracked[..i], todayId)
      {
        var metric := Tracked[i];
        TakeOneMore(Tracked, i);
        MaterializeOverSnoc(old(Snap()), Tracked[..i], metric, todayId);
        MaterializeOne(metric, todayId);
        i := i + 1;
      }
      assert Tracked[..i] == Tracked;
      if old(Valid()) {
        DailyMaterializationKeepsConsistent(old(Snap()), todayId);
      }
    }

    /** The callback the catch-up pass runs for each metric. */
    method MaterializeOne(metric: string, todayId: string)
      requires Due(Snap(), metric, todayId) ==> metric in data
      modifies this
      ensures Snap() == MaterializeMetric(old(Snap()), metric, todayId)
    {
      var level := Get(levels, metric);
      var start := if metric in starts then starts[metric] else None;
      if level.Some? && level.value > 0 && start.Some? && start.value != "" && LexLe(start.value, todayId) {
        var entries := data[metric];
        var cur := Get(entries, todayId);
        var skipped := metric in skip && todayId in skip[metric] && skip[metric][todayId];
        if (cur == None || cur == Some(0)) && !skipped {
          data := data[metric := entries[todayId := level.value]];
        }
      }
    }

    method ResetDay(dateId: string, metrics: seq<string>)
      requires AllPresent(Snap(), metrics)
      modifies this
      ensures Snap() == Tracker.ResetDay(old(Snap()), dateId, metrics)
      ensures old(Valid()) ==> Valid()
    {
      var i := 0;
      while i < |metrics|
        invariant 0 <= i <= |metrics|
        invariant AllPresent(old(Snap()), metrics[..i])
        invariant Snap() == Tracker.ResetDay(old(Snap()), dateId, metrics[..i])
      {
        var metric := metrics[i];
        TakeOneMore(metrics, i);
        ResetDaySnoc(old(Snap()), dateId, metrics[..i], metric);
        ResetOne(dateId, metric);
        i := i + 1;
      }
      assert metrics[..i] == metrics;
      if old(Valid()) {
        ResetDayKeepsConsistent(old(Snap()), dateId, metrics);
      }
    }

    /** The callback `resetDay` runs for each listed metric. */
    method ResetOne(dateId: string, metric: string)
      requires metric in data
      modifies this
      ensures Snap() == ResetMetric(old(Snap()), dateId, metric)
    {
      data := data[metric := data[metric] - {dateId}];
      if metric !in skip {
        skip := skip[metric := map[]];
      }
      assert skip[metric] == SkipsOf(old(Snap()), metric);
      skip := skip[metric := skip[metric][dateId := true]];
      assert skip == old(skip)[metric := SkipsOf(old(Snap()), metric)[dateId := true]];
    }

    method SaveManual(dateId: string, metric: string, value: int)
      requires metric in data
      modifies this
      ensures Snap() == Tracker.SaveManual(old(Snap()), dateId, metric, value)
      ensures old(Valid()) ==> Valid()
    {
      if value > 0 {
        data := data[metric := data[metric][dateId := value]];
      } else {
        data := data[metric := data[metric] - {dateId}];
      }
      if old(Valid()) {
        SaveManualKeepsConsistent(old(Snap()), dateId, metric, value);
      }
    }
  }
}
