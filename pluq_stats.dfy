/**
 * The process-wide performance statistics (`perf_stats`) and its accessors.
 */
module PluqStats {
  import opened CTypes
  import opened PluqShared

  /** Holds the single statistics record. A null pointer argument of the C
      accessors is `None` / `false` here. */
  class StatsStore {
    var perfStats: Stats

    /** The record is zero-initialised. */
    constructor ()
      ensures perfStats == ZeroStats
    {
      perfStats := ZeroStats;
    }

    /** `PluQ_GetStats`: copies the record out when given somewhere to put it;
        the stored record is left as it is. */
    method Get(hasTarget: bool) returns (target: Option<Stats>)
      ensures hasTarget ==> target == Some(perfStats)
      ensures !hasTarget ==> target == None
    {
      if hasTarget {
        target := Some(perfStats);
      } else {
        target := None;
      }
    }

    /** `PluQ_SetStats`: replaces the whole record, or does nothing for a null
        source. */
    method Set(source: Option<Stats>)
      modifies this
      ensures source.Some? ==> perfStats == source.value
      ensures source.None? ==> perfStats == old(perfStats)
    {
      if source.Some? {
        perfStats := source.value;
      }
    }

    /** `PluQ_ResetStats`: every field, the minimum included, becomes zero. */
    method Reset()
      modifies this
      ensures perfStats == ZeroStats
      ensures perfStats.framesSent == 0 && perfStats.totalEntities == 0
      ensures perfStats.totalTime == 0.0 && perfStats.maxFrameTime == 0.0 && perfStats.minFrameTime == 0.0
    {
      perfStats := ZeroStats;
    }
  }

  /** Setting a record and reading it back yields that record. */
  method SetThenGet(store: StatsStore, s: Stats) returns (copy: Option<Stats>)
    modifies store
    ensures copy == Some(s)
    ensures store.perfStats == s
  {
    store.Set(Some(s));
    copy := store.Get(true);
  }

  /** Resetting twice leaves the same record as resetting once, and a read
      straight after a reset sees all zeros. */
  method ResetTwice(store: StatsStore) returns (copy: Option<Stats>)
    modifies store
    ensures store.perfStats == ZeroStats
    ensures copy == Some(ZeroStats)
  {
    store.Reset();
    store.Reset();
    copy := store.Get(true);
  }
}
