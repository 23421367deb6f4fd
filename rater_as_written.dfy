/**
 * The snapshot as its code is written, with the Go map as a shared reference.
 *
 * A Go map value is a reference to one table. `PodCountSnapshot` hands out
 * the snapshot's own table, not a copy, so its caller sees every later
 * `Update`. Only this module models that sharing. The rest of the model
 * (module `Rater`) gives the copy that the doc comment promises.
 */
module RaterAsWritten {
  import opened Options
  import opened Rater

  /** A Go `map[string]float64`: every holder of the reference sees the same entries. */
  class GoMap {
    var entries: Counts

    constructor ()
      ensures entries == map[]
    {
      entries := map[];
    }
  }

  class SharedTimestampedCounts {
    const timestamp: int64
    const podReadCounts: GoMap

    constructor (t: int64)
      ensures timestamp == t && fresh(podReadCounts) && podReadCounts.entries == map[]
    {
      timestamp := t;
      podReadCounts := new GoMap();
    }

    /** Records one reading into the shared table; a missing reading changes nothing. */
    method Update(reading: Option<PodMetricsCount>)
      modifies podReadCounts
      ensures podReadCounts.entries == Applied(old(podReadCounts.entries), reading)
    {
      if reading.Some? {
        podReadCounts.entries := podReadCounts.entries[reading.value.name := reading.value.readCount];
      }
    }

    /** As written: returns the internal table itself. */
    method PodCountSnapshot() returns (snapshot: GoMap)
      ensures snapshot == podReadCounts
    {
      snapshot := podReadCounts;
    }
  }

  /**
   * Pod `p1` is recorded with count 1, a snapshot is taken, and then `p1` is
   * recorded with count 2. Read back through the snapshot, `p1` shows 1
   * before the second update and 2 after it.
   */
  method SnapshotSeesLaterUpdate() returns (before: real, after: real)
    ensures before == 1.0 && after == 2.0
  {
    var tc := new SharedTimestampedCounts(0);
    tc.Update(Some(PodMetricsCount("p1", 1.0)));
    var snap := tc.PodCountSnapshot();
    before := snap.entries["p1"];
    tc.Update(Some(PodMetricsCount("p1", 2.0)));
    after := snap.entries["p1"];
  }
}
