/**
 * Properties of the tracker operations that relate several calls or that hold
 * across every call: the invariants of the record, the idempotence of the
 * catch-up pass, and the interplay of defaults, resets and manual entries.
 */
module TrackerProperties {
  import opened Wrappers
  import opened DayIds
  import opened Tracker

  // ---------------------------------------------------------------------------
  // Invariants

  /** An operation that leaves the settings alone keeps the invariants about them. */
  lemma SettingsUnchanged(s: Snapshot, r: Snapshot)
    requires r.levels == s.levels && r.starts == s.starts && r.zones == s.zones
    ensures SettingsAgree(r) == SettingsAgree(s) && StartsWellFormed(r) == StartsWellFormed(s)
  {
    assert forall m :: HasStart(r, m) == HasStart(s, m) && HasZone(r, m) == HasZone(s, m) && Active(r, m) == Active(s, m);
  }

  lemma SaveDefaultKeepsConsistent(s: Snapshot, metric: string, value: int, today: string, tz: string)
    requires metric in s.data && Consistent(s) && WellFormedDayId(today)
    ensures Consistent(SaveDefault(s, metric, value, today, tz))
  {
    var r := SaveDefault(s, metric, value, today, tz);
    forall m, day | m in r.data && day in r.data[m] ensures r.data[m][day] > 0 {
      if m == metric {
        assert Get(r.data[m], day) == Some(r.data[m][day]);
        if day != today || value <= 0 {
          assert Get(s.data[m], day) == Some(r.data[m][day]);
        }
      }
    }
    forall m ensures HasStart(r, m) <==> Active(r, m) {
      if m != metric {
        assert HasStart(r, m) == HasStart(s, m) && Active(r, m) == Active(s, m);
      }
    }
    forall m ensures HasZone(r, m) <==> Active(r, m) {
      if m != metric {
        assert HasZone(r, m) == HasZone(s, m) && Active(r, m) == Active(s, m);
      }
    }
    forall m | HasStart(r, m) ensures WellFormedDayId(r.starts[m].value) {
      if m != metric {
        assert HasStart(s, m);
      }
    }
  }

  lemma DailyMaterializationKeepsConsistent(s: Snapshot, today: string)
    requires Materializable(s, Tracked, today) && Consistent(s)
    ensures Consistent(DailyMaterialization(s, today))
  {
    var r := DailyMaterialization(s, today);
    SettingsUnchanged(s, r);
    forall m, day | m in r.data && day in r.data[m] ensures r.data[m][day] > 0 {
      if m in Tracked && Fills(s, m, today) && day == today {
        assert r.data[m][day] == s.levels[m];
      } else {
        assert day in s.data[m] && r.data[m][day] == s.data[m][day];
      }
    }
  }

  lemma ResetDayKeepsConsistent(s: Snapshot, dateId: string, metrics: seq<string>)
    requires AllPresent(s, metrics) && Consistent(s)
    ensures Consistent(ResetDay(s, dateId, metrics))
  {
    var r := ResetDay(s, dateId, metrics);
    SettingsUnchanged(s, r);
    forall m, day | m in r.data && day in r.data[m] ensures r.data[m][day] > 0 {
      assert day in s.data[m] && r.data[m][day] == s.data[m][day];
    }
  }

  lemma SaveManualKeepsConsistent(s: Snapshot, dateId: string, metric: string, value: int)
    requires metric in s.data && Consistent(s)
    ensures Consistent(SaveManual(s, dateId, metric, value))
  {
    var r := SaveManual(s, dateId, metric, value);
    SettingsUnchanged(s, r);
    forall m, day | m in r.data && day in r.data[m] ensures r.data[m][day] > 0 {
      if m == metric {
        assert Get(r.data[m], day) == Some(r.data[m][day]);
        if day != dateId {
          assert Get(s.data[m], day) == Some(r.data[m][day]);
        }
      }
    }
  }

  /**
   * In a consistent record the `start &&` test of the catch-up pass never fails
   * for an active default: only the level and the string comparison decide.
   */
  lemma DueInConsistentRecord(s: Snapshot, metric: string, today: string)
    requires Consistent(s)
    ensures Due(s, metric, today) <==> Active(s, metric) && LexLe(s.starts[metric].value, today)
  {
    if Active(s, metric) {
      assert HasStart(s, metric);
      assert s.starts[metric].value != "" by {
        assert WellFormedDayId(s.starts[metric].value);
        assert SplitAtDash("") == None;
      }
    }
  }

  // ---------------------------------------------------------------------------
  // dailyMaterialization

  /**
   * The catch-up pass writes narrowly: only today's key of a tracked metric
   * changes, it changes only when `Fills` held (level positive, started, not
   * skipped, entry empty) and then to the level, a non-empty entry is never
   * overwritten, and every tracked metric that `Fills` ends with its level.
   */
  lemma DailyMaterializationWritesNarrowly(s: Snapshot, today: string)
    requires Materializable(s, Tracked, today)
    ensures var r := DailyMaterialization(s, today);
      && r.skip == s.skip && r.levels == s.levels && r.starts == s.starts && r.zones == s.zones
      && r.data.Keys == s.data.Keys
      && (forall m, day :: m in s.data && (day != today || m !in Tracked) ==> Get(r.data[m], day) == Get(s.data[m], day))
      && (forall m :: m in s.data && Get(r.data[m], today) != Get(s.data[m], today) ==>
            Fills(s, m, today) && Get(r.data[m], today) == Some(s.levels[m]))
      && (forall m :: m in s.data && !Empty(s.data[m], today) ==> Get(r.data[m], today) == Get(s.data[m], today))
      && (forall m :: m in Tracked && Fills(s, m, today) ==> Get(r.data[m], today) == Some(s.levels[m]))
  {
  }

  /** Running the catch-up pass a second time for the same day changes nothing. */
  lemma MaterializeOverIdempotent(s: Snapshot, metrics: seq<string>, today: string)
    requires Materializable(s, metrics, today)
    ensures Materializable(MaterializeOver(s, metrics, today), metrics, today)
    ensures MaterializeOver(MaterializeOver(s, metrics, today), metrics, today) == MaterializeOver(s, metrics, today)
  {
    var r := MaterializeOver(s, metrics, today);
    assert Materializable(r, metrics, today) by {
      forall k | 0 <= k < |metrics| ensures Due(r, metrics[k], today) == Due(s, metrics[k], today) { }
    }
    var r2 := MaterializeOver(r, metrics, today);
    forall m | m in r.data ensures r2.data[m] == r.data[m] {
      MaterializeOverSettles(s, metrics, today, m);
    }
    assert r2.data == r.data;
  }

  /** After the pass, no listed metric is left for a second pass to fill. */
  lemma MaterializeOverSettles(s: Snapshot, metrics: seq<string>, today: string, m: string)
    requires Materializable(s, metrics, today) && m in s.data
    ensures !(m in metrics && Fills(MaterializeOver(s, metrics, today), m, today))
  {
    var r := MaterializeOver(s, metrics, today);
    if m in metrics && Fills(s, m, today) {
      assert !Empty(r.data[m], today);
    } else {
      assert r.data[m] == s.data[m];
      assert Fills(r, m, today) == Fills(s, m, today);
    }
  }

  lemma DailyMaterializationIdempotent(s: Snapshot, today: string)
    requires Materializable(s, Tracked, today)
    ensures Materializable(DailyMaterialization(s, today), Tracked, today)
    ensures DailyMaterialization(DailyMaterialization(s, today), today) == DailyMaterialization(s, today)
  {
    MaterializeOverIdempotent(s, Tracked, today);
  }

  /**
   * The stored time zones are never read by the catch-up pass: the day it
   * writes into is the one its caller's zone gives, whatever zone the default
   * was configured under.
   */
  lemma MaterializeOverIgnoresZones(s: Snapshot, metrics: seq<string>, today: string, zones: map<string, Option<string>>)
    requires Materializable(s, metrics, today)
    ensures Materializable(s.(zones := zones), metrics, today)
    ensures MaterializeOver(s.(zones := zones), metrics, today) == MaterializeOver(s, metrics, today).(zones := zones)
  {
    var s' := s.(zones := zones);
    assert Materializable(s', metrics, today) by {
      forall k | 0 <= k < |metrics| ensures Due(s', metrics[k], today) == Due(s, metrics[k], today) { }
    }
    var r, r' := MaterializeOver(s, metrics, today), MaterializeOver(s', metrics, today);
    forall m | m in r.data ensures r'.data[m] == r.data[m] {
      MaterializeOverIgnoresZonesAt(s, metrics, today, zones, m);
    }
    assert r'.data == r.data;
    assert r' == Snapshot(r.data, r.skip, r.levels, r.starts, zones);
  }

  /** One metric of `MaterializeOverIgnoresZones`. */
  lemma MaterializeOverIgnoresZonesAt(s: Snapshot, metrics: seq<string>, today: string, zones: map<string, Option<string>>, m: string)
    requires Materializable(s, metrics, today) && Materializable(s.(zones := zones), metrics, today)
    requires m in s.data
    ensures MaterializeOver(s.(zones := zones), metrics, today).data[m] == MaterializeOver(s, metrics, today).data[m]
  {
    assert Fills(s.(zones := zones), m, today) == Fills(s, m, today);
  }

  // ---------------------------------------------------------------------------
  // resetDay

  /** After `resetDay(state, day, metrics)`, no catch-up pass for that day writes to a listed metric. */
  lemma ResetSuppressesCatchUp(s: Snapshot, day: string, metrics: seq<string>, metric: string, visited: seq<string>)
    requires AllPresent(s, metrics) && metric in metrics
    requires Materializable(ResetDay(s, day, metrics), visited, day)
    ensures day !in MaterializeOver(ResetDay(s, day, metrics), visited, day).data[metric]
  {
    ResetDayFlags(s, day, metrics);
    var r := ResetDay(s, day, metrics);
    assert Flag(r, metric, day) == Some(true);
    assert Skipped(r, metric, day);
  }

  /** A reset is for one day only: on every other day the catch-up pass behaves as it did before. */
  lemma ResetIsPerDay(s: Snapshot, dateId: string, metrics: seq<string>, metric: string, day: string)
    requires AllPresent(s, metrics) && day != dateId
    ensures Fills(ResetDay(s, dateId, metrics), metric, day) <==> Fills(s, metric, day)
  {
    ResetDayFlags(s, dateId, metrics);
    var r := ResetDay(s, dateId, metrics);
    assert Flag(r, metric, day) == Flag(s, metric, day);
    assert Skipped(r, metric, day) == Skipped(s, metric, day);
    if metric in s.data {
      assert Empty(r.data[metric], day) == Empty(s.data[metric], day);
    }
  }

  /**
   * A reset gates only the catch-up pass: an explicit positive `saveDefault`
   * fills the skipped day, and leaves the skip flag in place.
   */
  lemma SaveDefaultOverridesReset(s: Snapshot, metric: string, value: int, today: string, tz: string)
    requires metric in s.data && value > 0 && Skipped(s, metric, today) && Empty(s.data[metric], today)
    ensures Get(SaveDefault(s, metric, value, today, tz).data[metric], today) == Some(value)
    ensures Skipped(SaveDefault(s, metric, value, today, tz), metric, today)
  {
  }

  // ---------------------------------------------------------------------------
  // saveManual and saveDefault

  /** A positive manual entry survives every later catch-up pass for its day. */
  lemma ManualEntryOverridesDefault(s: Snapshot, dateId: string, metric: string, value: int, visited: seq<string>)
    requires metric in s.data && value > 0
    requires Materializable(SaveManual(s, dateId, metric, value), visited, dateId)
    ensures Get(MaterializeOver(SaveManual(s, dateId, metric, value), visited, dateId).data[metric], dateId) == Some(value)
  {
  }

  /**
   * A manual zero only clears the day: it does not flag it, so the next catch-up
   * pass fills it again exactly when the default is due and the day was not reset.
   */
  lemma ManualClearDoesNotSkip(s: Snapshot, dateId: string, metric: string, value: int)
    requires metric in s.data && value <= 0
    ensures Skipped(SaveManual(s, dateId, metric, value), metric, dateId) == Skipped(s, metric, dateId)
    ensures Fills(SaveManual(s, dateId, metric, value), metric, dateId) <==> Due(s, metric, dateId) && !Skipped(s, metric, dateId)
  {
    assert Get(SaveManual(s, dateId, metric, value).data[metric], dateId) == None;
  }

  /**
   * Activating a default and deactivating it on the same day un-writes the
   * value the activation wrote, and keeps any value that was already there.
   */
  lemma ActivateThenDeactivate(s: Snapshot, metric: string, value: int, today: string, tz: string, tz': string)
    requires metric in s.data && value > 0
    ensures var r := SaveDefault(SaveDefault(s, metric, value, today, tz), metric, 0, today, tz');
      && (Empty(s.data[metric], today) ==> Get(r.data[metric], today) == None)
      && (!Empty(s.data[metric], today) && s.data[metric][today] != value ==>
            Get(r.data[metric], today) == Get(s.data[metric], today))
      && !Active(r, metric) && !HasStart(r, metric) && !HasZone(r, metric)
  {
  }
}
