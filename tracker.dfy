/**
 * The tracked record of defaultValues.js as a value, and the four operations on
 * it as functions from the record before a call to the record after it.
 *
 * The class `DefaultValues.State` holds the same record in mutable fields; each
 * of its methods is proved to change its fields exactly as the corresponding
 * function here says. The properties of the operations (what they write, what
 * they leave alone, the invariants they keep, how they interact) are stated on
 * these functions and in the lemmas below.
 */
module Tracker {
  import opened Wrappers
  import opened DayIds

  /** The metrics the catch-up pass visits, which are also `resetDay`'s default list. */
  const Tracked: seq<string> := ["pain", "stiffness"]

  /** One metric's series: day identifier to level. A missing key is an empty day. */
  type Entries = map<string, int>

  /**
   * The caller-owned record: `state[metric]` (data), `state.defaultSkipDates`
   * (skip) and the three maps under `state.settings`. A missing key is
   * JavaScript's `undefined`; `None` is `null`.
   */
  datatype Snapshot = Snapshot(
    data: map<string, Entries>,
    skip: map<string, map<string, bool>>,
    levels: map<string, int>,
    starts: map<string, Option<string>>,
    zones: map<string, Option<string>>)

  /** `m[k]` in JavaScript: the value, or `undefined` as `None`. */
  function Get(m: map<string, int>, k: string): Option<int> {
    if k in m then Some(m[k]) else None
  }

  /** `cur === undefined || cur === null || cur === 0`. */
  predicate Empty(e: Entries, day: string) {
    day !in e || e[day] == 0
  }

  /** `state.defaultSkipDates[metric] && state.defaultSkipDates[metric][day]`. */
  predicate Skipped(s: Snapshot, metric: string, day: string) {
    metric in s.skip && day in s.skip[metric] && s.skip[metric][day]
  }

  /** A positive default level is configured. */
  predicate Active(s: Snapshot, metric: string) {
    metric in s.levels && s.levels[metric] > 0
  }

  /** The start date is not `null` (nor missing). */
  predicate HasStart(s: Snapshot, metric: string) {
    metric in s.starts && s.starts[metric].Some?
  }

  /** The time zone is not `null` (nor missing). */
  predicate HasZone(s: Snapshot, metric: string) {
    metric in s.zones && s.zones[metric].Some?
  }

  /** `level > 0 && start && start <= today`, with JavaScript's string `<=`. */
  predicate Due(s: Snapshot, metric: string, today: string) {
    Active(s, metric) && HasStart(s, metric) && s.starts[metric].value != ""
    && LexLe(s.starts[metric].value, today)
  }

  /** The catch-up pass would write the default of `metric` into `today`. */
  predicate Fills(s: Snapshot, metric: string, today: string) {
    Due(s, metric, today) && metric in s.data && Empty(s.data[metric], today)
    && !Skipped(s, metric, today)
  }

  // ---------------------------------------------------------------------------
  // Invariants of the record

  /** Every stored day value is a positive level. */
  ghost predicate PositiveValues(s: Snapshot) {
    forall m, day :: m in s.data && day in s.data[m] ==> s.data[m][day] > 0
  }

  /** A start date and a time zone are recorded exactly for the metrics whose default is active. */
  ghost predicate SettingsAgree(s: Snapshot) {
    (forall m :: HasStart(s, m) <==> Active(s, m))
    && (forall m :: HasZone(s, m) <==> Active(s, m))
  }

  /** Every recorded start date is a day identifier as `getTodayId` prints it. */
  ghost predicate StartsWellFormed(s: Snapshot) {
    forall m :: HasStart(s, m) ==> WellFormedDayId(s.starts[m].value)
  }

  ghost predicate Consistent(s: Snapshot) {
    PositiveValues(s) && SettingsAgree(s) && StartsWellFormed(s)
  }

  /** The record the test suite starts from: both tracked metrics empty, no defaults. */
  function Initial(): (s: Snapshot)
    ensures Consistent(s)
    ensures forall k :: 0 <= k < |Tracked| ==> Tracked[k] in s.data && s.data[Tracked[k]] == map[]
    ensures forall m :: !Active(s, m)
    ensures forall m, day :: !Skipped(s, m, day)
  {
    Snapshot(
      map["pain" := map[], "stiffness" := map[]],
      map["pain" := map[], "stiffness" := map[]],
      map["pain" := 0, "stiffness" := 0],
      map["pain" := None, "stiffness" := None],
      map["pain" := None, "stiffness" := None])
  }

  // ---------------------------------------------------------------------------
  // saveDefault

  /**
   * `saveDefault(state, metric, value, now, tz)` with `today == getTodayId(tz, now)`.
   * A positive value activates the default and fills an empty today, whatever
   * the skip flags say; any other value deactivates it and removes today's value
   * when that value is `===` the level configured before the call.
   */
  function SaveDefault(s: Snapshot, metric: string, value: int, today: string, tz: string): (r: Snapshot)
    requires metric in s.data
    ensures r.levels == s.levels[metric := value]
    ensures value > 0 ==> r.starts == s.starts[metric := Some(today)] && r.zones == s.zones[metric := Some(tz)]
    ensures value <= 0 ==> r.starts == s.starts[metric := None] && r.zones == s.zones[metric := None]
    ensures r.skip == s.skip
    ensures r.data.Keys == s.data.Keys
    ensures forall m :: m in s.data && m != metric ==> r.data[m] == s.data[m]
    ensures forall day :: day != today ==> Get(r.data[metric], day) == Get(s.data[metric], day)
    ensures value > 0 ==>
      Get(r.data[metric], today) == if Empty(s.data[metric], today) then Some(value) else Get(s.data[metric], today)
    ensures value <= 0 ==>
      (Get(r.data[metric], today) == None
       <==> Get(s.data[metric], today) == None || Get(s.data[metric], today) == Get(s.levels, metric))
    ensures value <= 0 ==> Get(r.data[metric], today) in {None, Get(s.data[metric], today)}
  {
    var prevLevel := Get(s.levels, metric);
    var levels := s.levels[metric := value];
    var e := s.data[metric];
    if value > 0 then
      var e' := if Empty(e, today) then e[today := value] else e;
      Snapshot(s.data[metric := e'], s.skip, levels, s.starts[metric := Some(today)], s.zones[metric := Some(tz)])
    else
      // When both sides are `undefined` the JavaScript deletes a key that is not there.
      var e' := if Get(e, today) == prevLevel then e - {today} else e;
      Snapshot(s.data[metric := e'], s.skip, levels, s.starts[metric := None], s.zones[metric := None])
  }

  // ---------------------------------------------------------------------------
  // dailyMaterialization

  /** One iteration of the `forEach` in `dailyMaterialization`. */
  function MaterializeMetric(s: Snapshot, metric: string, today: string): Snapshot
    requires Due(s, metric, today) ==> metric in s.data
  {
    if Fills(s, metric, today) then s.(data := s.data[metric := s.data[metric][today := s.levels[metric]]])
    else s
  }

  /** `state[metric]` exists wherever the pass reads it, so the JavaScript does not throw. */
  predicate Materializable(s: Snapshot, metrics: seq<string>, today: string) {
    forall k :: 0 <= k < |metrics| ==> Due(s, metrics[k], today) ==> metrics[k] in s.data
  }

  /**
   * The catch-up pass over `metrics` for day `today`. Settings and skip flags
   * never change; a listed metric gets its level written into `today` exactly
   * when `Fills` holds before the pass; nothing else changes.
   */
  function MaterializeOver(s: Snapshot, metrics: seq<string>, today: string): (r: Snapshot)
    requires Materializable(s, metrics, today)
    ensures r.skip == s.skip && r.levels == s.levels && r.starts == s.starts && r.zones == s.zones
    ensures r.data.Keys == s.data.Keys
    ensures forall m :: m in s.data ==>
      r.data[m] == if m in metrics && Fills(s, m, today) then s.data[m][today := s.levels[m]] else s.data[m]
    decreases |metrics|
  {
    if metrics == [] then s
    else
      var init, last := metrics[..|metrics| - 1], metrics[|metrics| - 1];
      assert forall m :: m in metrics <==> m in init || m == last;
      assert Materializable(s, init, today);
      var r0 := MaterializeOver(s, init, today);
      assert Due(r0, last, today) ==> last in r0.data by {
        assert Due(r0, last, today) == Due(s, last, today);
      }
      var r := MaterializeMetric(r0, last, today);
      assert forall m :: m in s.data ==>
        r.data[m] == if m in metrics && Fills(s, m, today) then s.data[m][today := s.levels[m]] else s.data[m] by {
        forall m | m in s.data && m != last ensures r.data[m] == r0.data[m] { }
        if last in s.data {
          if last in init && Fills(s, last, today) {
            assert !Empty(r0.data[last], today);
          } else {
            assert Fills(r0, last, today) == Fills(s, last, today);
          }
        }
      }
      r
  }

  /** The pass over `metrics + [metric]` is the pass over `metrics` followed by one more iteration. */
  lemma MaterializeOverSnoc(s: Snapshot, metrics: seq<string>, metric: string, today: string)
    requires Materializable(s, metrics + [metric], today)
    ensures Materializable(s, metrics, today)
    ensures var r := MaterializeOver(s, metrics, today);
      (Due(r, metric, today) ==> metric in r.data)
      && MaterializeOver(s, metrics + [metric], today) == MaterializeMetric(r, metric, today)
  {
    assert (metrics + [metric])[..|metrics|] == metrics;
    assert forall k :: 0 <= k < |metrics| ==> (metrics + [metric])[k] == metrics[k];
    assert (metrics + [metric])[|metrics|] == metric;
  }

  /** `dailyMaterialization(state, now, tz)` with `today == getTodayId(tz, now)`. */
  function DailyMaterialization(s: Snapshot, today: string): Snapshot
    requires Materializable(s, Tracked, today)
  {
    MaterializeOver(s, Tracked, today)
  }

  // ---------------------------------------------------------------------------
  // resetDay

  /** The prefix of `metrics` one element longer, as the loops over a metric list extend it. */
  lemma TakeOneMore(metrics: seq<string>, i: nat)
    requires i < |metrics|
    ensures metrics[..i + 1] == metrics[..i] + [metrics[i]]
  {
  }

  /** `state.defaultSkipDates[metric]`, with a missing map read as `{}`. */
  function SkipsOf(s: Snapshot, metric: string): map<string, bool> {
    if metric in s.skip then s.skip[metric] else map[]
  }

  /** One iteration of the `forEach` in `resetDay`. */
  function ResetMetric(s: Snapshot, dateId: string, metric: string): Snapshot
    requires metric in s.data
  {
    s.(data := s.data[metric := s.data[metric] - {dateId}],
       skip := s.skip[metric := SkipsOf(s, metric)[dateId := true]])
  }

  predicate AllPresent(s: Snapshot, metrics: seq<string>) {
    forall k :: 0 <= k < |metrics| ==> metrics[k] in s.data
  }

  /**
   * `resetDay(state, dateId, metrics)`: every listed metric loses its value for
   * `dateId` and gets that day flagged; unlisted metrics, other days and the
   * settings are untouched.
   */
  function ResetDay(s: Snapshot, dateId: string, metrics: seq<string>): (r: Snapshot)
    requires AllPresent(s, metrics)
    ensures r.levels == s.levels && r.starts == s.starts && r.zones == s.zones
    ensures r.data.Keys == s.data.Keys
    ensures forall m :: m in s.data ==> r.data[m] == if m in metrics then s.data[m] - {dateId} else s.data[m]
    decreases |metrics|
  {
    if metrics == [] then s
    else
      var init, last := metrics[..|metrics| - 1], metrics[|metrics| - 1];
      assert forall m :: m in metrics <==> m in init || m == last;
      var r0 := ResetDay(s, dateId, init);
      var r := ResetMetric(r0, dateId, last);
      assert forall m :: m in s.data ==> r.data[m] == if m in metrics then s.data[m] - {dateId} else s.data[m] by {
        forall m | m in s.data && m != last ensures r.data[m] == r0.data[m] { }
      }
      r
  }

  /** The reset of `metrics + [metric]` is the reset of `metrics` followed by one more iteration. */
  lemma ResetDaySnoc(s: Snapshot, dateId: string, metrics: seq<string>, metric: string)
    requires AllPresent(s, metrics + [metric])
    ensures AllPresent(s, metrics)
    ensures var r := ResetDay(s, dateId, metrics);
      metric in r.data && ResetDay(s, dateId, metrics + [metric]) == ResetMetric(r, dateId, metric)
  {
    assert (metrics + [metric])[..|metrics|] == metrics;
    assert forall k :: 0 <= k < |metrics| ==> (metrics + [metric])[k] == metrics[k];
    assert (metrics + [metric])[|metrics|] == metric;
  }

  /** `state.defaultSkipDates[metric][day]`: the flag, or `undefined` as `None`. */
  function Flag(s: Snapshot, metric: string, day: string): Option<bool> {
    if metric in s.skip && day in s.skip[metric] then Some(s.skip[metric][day]) else None
  }

  /**
   * The flags `resetDay` leaves: each listed metric has a skip map (created when
   * missing) with `dateId` set to true and no other day changed; the flags of
   * unlisted metrics are untouched.
   */
  lemma {:induction false} ResetDayFlags(s: Snapshot, dateId: string, metrics: seq<string>)
    requires AllPresent(s, metrics)
    ensures forall m :: m in ResetDay(s, dateId, metrics).skip <==> m in s.skip || m in metrics
    ensures forall m, day :: Flag(ResetDay(s, dateId, metrics), m, day)
                             == if m in metrics && day == dateId then Some(true) else Flag(s, m, day)
    decreases |metrics|
  {
    if metrics != [] {
      var init, last := metrics[..|metrics| - 1], metrics[|metrics| - 1];
      assert forall m :: m in metrics <==> m in init || m == last;
      assert AllPresent(s, init);
      ResetDayFlags(s, dateId, init);
      ResetDaySnoc(s, dateId, init, last);
      assert metrics == init + [last];
      ResetMetricFlags(ResetDay(s, dateId, init), dateId, last);
    }
  }

  /** One iteration of `resetDay` sets the flag of its metric for `dateId` and no other. */
  lemma ResetMetricFlags(s: Snapshot, dateId: string, metric: string)
    requires metric in s.data
    ensures forall m :: m in ResetMetric(s, dateId, metric).skip <==> m in s.skip || m == metric
    ensures forall m, day :: Flag(ResetMetric(s, dateId, metric), m, day)
                             == if m == metric && day == dateId then Some(true) else Flag(s, m, day)
  {
    var r := ResetMetric(s, dateId, metric);
    forall m, day
      ensures Flag(r, m, day) == if m == metric && day == dateId then Some(true) else Flag(s, m, day)
    {
      if m == metric {
        assert r.skip[m] == SkipsOf(s, m)[dateId := true];
      } else {
        assert m in r.skip <==> m in s.skip;
      }
    }
  }

  // ---------------------------------------------------------------------------
  // saveManual

  /** `saveManual(state, dateId, metric, value)`: a positive value is stored, anything else clears the day. */
  function SaveManual(s: Snapshot, dateId: string, metric: string, value: int): (r: Snapshot)
    requires metric in s.data
    ensures r.skip == s.skip && r.levels == s.levels && r.starts == s.starts && r.zones == s.zones
    ensures r.data.Keys == s.data.Keys
    ensures forall m :: m in s.data && m != metric ==> r.data[m] == s.data[m]
    ensures forall day :: day != dateId ==> Get(r.data[metric], day) == Get(s.data[metric], day)
    ensures Get(r.data[metric], dateId) == if value > 0 then Some(value) else None
  {
    var e := s.data[metric];
    s.(data := s.data[metric := if value > 0 then e[dateId := value] else e - {dateId}])
  }
}
