/**
 * The retention job (jobs/cleanupLogs.js): a single-flight guard around one purge
 * of the soft-deleted documents whose deletion is older than the retention period.
 * The environment variables are parameters, `Date.now()` is `now`, and whether the
 * database could be reached is the parameter `reachable`; the timer that repeats
 * the run is the caller invoking `Cleanup` again.
 */
module Cleanup {
  import opened Wrappers
  import opened JsValues
  import opened LogEntities
  import opened LogStorage

  const DefaultIntervalMs: int := 1000 * 60 * 60
  const DefaultRetentionDays: int := 30
  const DayMs: int := 24 * 60 * 60 * 1000

  /**
   * `Number(value) || fallback`: an unset variable reads as NaN, and NaN and 0 are
   * falsy, so those give the fallback; any other number is used as it is.
   */
  function ConfiguredOr(value: Option<string>, fallback: int): (r: int)
    ensures value.None? ==> r == fallback
    ensures value.Some? && ToNumber(value.value).Some? && ToNumber(value.value).value != 0 ==>
              r == ToNumber(value.value).value
    ensures value.Some? && (ToNumber(value.value).None? || ToNumber(value.value) == Some(0)) ==> r == fallback
  {
    if value.Some? && ToNumber(value.value).Some? && ToNumber(value.value).value != 0 then ToNumber(value.value).value
    else fallback
  }

  /** A setting written as a non-zero integer numeral is read back as that integer. */
  lemma ConfiguredNumeralIsUsed(n: int, fallback: int)
    requires n != 0
    ensures ConfiguredOr(Some(IntString(n)), fallback) == n
  {
    ToNumberOfIntString(n);
  }

  /** A setting of zero, or an empty one, is ignored: the fallback applies. */
  lemma ZeroOrEmptySettingFallsBack(fallback: int)
    ensures ConfiguredOr(Some("0"), fallback) == fallback
    ensures ConfiguredOr(Some(""), fallback) == fallback
  {
    ToNumberOfIntString(0);
    assert IntString(0) == "0";
    assert Trim("") == "";
  }

  /** The deletion instant at or before which a soft-deleted document is purged. */
  function Cutoff(now: int, retentionDays: int): (c: int)
    ensures now - c == retentionDays * DayMs
  {
    now - retentionDays * 24 * 60 * 60 * 1000
  }

  /**
   * A document soft-deleted at `t` is purged by a run at `now` exactly when the
   * retention period has fully elapsed since `t`.
   */
  lemma PurgedOnceRetentionElapsed(x: StoredLog, t: int, now: int, retentionDays: int)
    ensures Expired(MarkDeleted(x, t), Cutoff(now, retentionDays)) <==> now - t >= retentionDays * DayMs
  {
  }

  /** What a run did: nothing (one was in progress), failed, or purged `count` documents. */
  datatype RunOutcome = Skipped | Failed | Removed(count: nat, cutoff: int)

  /** The job's module state: its settings and the in-progress flag. */
  class CleanupJob {
    var isRunning: bool
    const intervalMs: int
    const retentionDays: int

    constructor (intervalSetting: Option<string>, retentionSetting: Option<string>)
      ensures !isRunning
      ensures intervalMs == ConfiguredOr(intervalSetting, DefaultIntervalMs)
      ensures retentionDays == ConfiguredOr(retentionSetting, DefaultRetentionDays)
    {
      isRunning := false;
      intervalMs := ConfiguredOr(intervalSetting, DefaultIntervalMs);
      retentionDays := ConfiguredOr(retentionSetting, DefaultRetentionDays);
    }

    /**
     * `cleanup()`: a run that finds another in progress returns at once and changes
     * nothing. Otherwise the flag is raised, the expired documents are purged (or,
     * when the database cannot be reached, the failure is swallowed with the store
     * untouched), and the flag is lowered again whatever happened.
     */
    method Cleanup(store: LogStore, now: int, reachable: bool) returns (outcome: RunOutcome)
      requires store.Valid()
      modifies this, store
      ensures store.Valid() && store.nextId == old(store.nextId)
      ensures old(isRunning) ==> outcome == Skipped && isRunning && store.records == old(store.records)
      ensures !old(isRunning) ==> !isRunning
      ensures !old(isRunning) && !reachable ==> outcome == Failed && store.records == old(store.records)
      ensures !old(isRunning) && reachable ==>
                store.records == Purged(old(store.records), Cutoff(now, retentionDays)) &&
                outcome == Removed(|old(store.records)| - |store.records|, Cutoff(now, retentionDays))
    {
      if isRunning {
        return Skipped;
      }
      isRunning := true;
      if !reachable {
        outcome := Failed;
      } else {
        var cutoff := Cutoff(now, retentionDays);
        var count := store.PurgeDeleted(cutoff);
        outcome := Removed(count, cutoff);
      }
      isRunning := false;
    }
  }
}
