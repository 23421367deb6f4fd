/**
 * The rater's per-tick snapshot: for one timestamp, the cumulative number of
 * messages each pod of a vertex has processed.
 *
 * A scrape that fails yields no reading (`None`, Go's `nil`), and recording a
 * missing reading leaves the snapshot untouched, so a pod's last known count is
 * never deleted or zeroed; otherwise the last reading recorded for a pod wins.
 */
module Rater {
  import opened Options

  /** Go's `int64`, the type of the snapshot's timestamp (seconds). */
  newtype int64 = x: int | -0x8000_0000_0000_0000 <= x < 0x8000_0000_0000_0000

  /** One pod's reading: the pod's name and its cumulative processed count. */
  datatype PodMetricsCount = PodMetricsCount(name: string, readCount: real)

  /** Pod name to that pod's cumulative processed count. */
  type Counts = map<string, real>

  /** The counts after recording one (possibly missing) reading. */
  function Applied(counts: Counts, reading: Option<PodMetricsCount>): (r: Counts)
    ensures reading.None? ==> r == counts
    ensures reading.Some? ==>
      r.Keys == counts.Keys + {reading.value.name} && r[reading.value.name] == reading.value.readCount
    ensures forall k :: k in counts && (reading.None? || k != reading.value.name) ==> k in r && r[k] == counts[k]
  {
    match reading
    case None => counts
    case Some(p) => counts[p.name := p.readCount]
  }

  /** The counts after recording `readings` one after the other, first to last. */
  function ApplyAll(counts: Counts, readings: seq<Option<PodMetricsCount>>): Counts
    decreases |readings|
  {
    if readings == [] then counts else ApplyAll(Applied(counts, readings[0]), readings[1..])
  }

  /** The readings that are present, in order. */
  function Present(readings: seq<Option<PodMetricsCount>>): seq<PodMetricsCount>
  {
    if readings == [] then []
    else match readings[0]
      case None => Present(readings[1..])
      case Some(p) => [p] + Present(readings[1..])
  }

  /** Reference definition: insert every (present) reading into the map, in order. */
  function InsertAll(counts: Counts, pods: seq<PodMetricsCount>): Counts
    decreases |pods|
  {
    if pods == [] then counts else InsertAll(counts[pods[0].name := pods[0].readCount], pods[1..])
  }

  /** The names of the pods in `pods`. */
  function Names(pods: seq<PodMetricsCount>): set<string>
  {
    set i | 0 <= i < |pods| :: pods[i].name
  }

  /** The count of the last reading for pod `name` in `pods`, if there is one. */
  function LastFor(pods: seq<PodMetricsCount>, name: string): Option<real>
  {
    if pods == [] then None
    else match LastFor(pods[1..], name)
      case Some(c) => Some(c)
      case None => if pods[0].name == name then Some(pods[0].readCount) else None
  }

  /** Recording a reading twice is the same as recording it once; for `None` both are no-ops. */
  lemma AppliedIdempotent(counts: Counts, reading: Option<PodMetricsCount>)
    ensures Applied(Applied(counts, reading), reading) == Applied(counts, reading)
    ensures Applied(Applied(counts, None), None) == counts
  {
  }

  /** Two readings for the same pod: the later one wins, the earlier leaves no trace. */
  lemma AppliedLastWriteWins(counts: Counts, first: PodMetricsCount, second: PodMetricsCount)
    requires first.name == second.name
    ensures Applied(Applied(counts, Some(first)), Some(second)) == Applied(counts, Some(second))
  {
  }

  /** Readings for two different pods can be recorded in either order. */
  lemma AppliedCommutes(counts: Counts, a: PodMetricsCount, b: PodMetricsCount)
    requires a.name != b.name
    ensures Applied(Applied(counts, Some(a)), Some(b)) == Applied(Applied(counts, Some(b)), Some(a))
  {
  }

  /** Recording one more reading after a sequence of readings extends the fold by one step. */
  lemma {:induction false} ApplyAllSnoc(counts: Counts, readings: seq<Option<PodMetricsCount>>, reading: Option<PodMetricsCount>)
    ensures ApplyAll(counts, readings + [reading]) == Applied(ApplyAll(counts, readings), reading)
    decreases |readings|
  {
    if readings == [] {
      assert readings + [reading] == [reading];
      assert [reading][1..] == [];
    } else {
      assert (readings + [reading])[0] == readings[0];
      assert (readings + [reading])[1..] == readings[1..] + [reading];
      ApplyAllSnoc(Applied(counts, readings[0]), readings[1..], reading);
    }
  }

  /** The fold over all readings equals the fold that inserts only the present readings, in order. */
  lemma {:induction false} ApplyAllIsInsertAllPresent(counts: Counts, readings: seq<Option<PodMetricsCount>>)
    ensures ApplyAll(counts, readings) == InsertAll(counts, Present(readings))
    decreases |readings|
  {
    if readings != [] {
      ApplyAllIsInsertAllPresent(Applied(counts, readings[0]), readings[1..]);
      match readings[0]
      case None =>
      case Some(p) =>
        var rest := Present(readings[1..]);
        assert ([p] + rest)[0] == p;
        assert ([p] + rest)[1..] == rest;
    }
  }

  /** After inserting `pods`, a pod is present iff it was before or has a reading; its value is its last reading, else the old value. */
  lemma {:induction false} InsertAllLookup(counts: Counts, pods: seq<PodMetricsCount>, name: string)
    ensures name in InsertAll(counts, pods) <==> name in counts || LastFor(pods, name).Some?
    ensures LastFor(pods, name).Some? ==> InsertAll(counts, pods)[name] == LastFor(pods, name).value
    ensures LastFor(pods, name).None? && name in counts ==> InsertAll(counts, pods)[name] == counts[name]
    decreases |pods|
  {
    if pods != [] {
      InsertAllLookup(counts[pods[0].name := pods[0].readCount], pods[1..], name);
    }
  }

  /** A pod has a last reading in `pods` exactly when its name occurs in `pods`. */
  lemma {:induction false} LastForNames(pods: seq<PodMetricsCount>, name: string)
    ensures LastFor(pods, name).Some? <==> name in Names(pods)
    decreases |pods|
  {
    if pods != [] {
      LastForNames(pods[1..], name);
      assert Names(pods) == {pods[0].name} + Names(pods[1..]) by {
        forall n | n in Names(pods) ensures n in {pods[0].name} + Names(pods[1..]) {
          var i :| 0 <= i < |pods| && pods[i].name == n;
          if i > 0 { assert pods[1..][i - 1].name == n; }
        }
        forall n | n in Names(pods[1..]) ensures n in Names(pods) {
          var i :| 0 <= i < |pods[1..]| && pods[1..][i].name == n;
          assert pods[i + 1].name == n;
        }
      }
    }
  }

  /**
   * Over a whole tick the key set only grows, by exactly the pods that had a
   * reading, and a pod without any present reading keeps its earlier count.
   */
  lemma MissingReadingsPreserve(counts: Counts, readings: seq<Option<PodMetricsCount>>)
    ensures ApplyAll(counts, readings).Keys == counts.Keys + Names(Present(readings))
    ensures forall name :: name in counts && name !in Names(Present(readings)) ==>
      ApplyAll(counts, readings)[name] == counts[name]
  {
    ApplyAllIsInsertAllPresent(counts, readings);
    var pods := Present(readings);
    var r := InsertAll(counts, pods);
    forall name ensures name in r <==> name in counts || name in Names(pods) {
      InsertAllLookup(counts, pods, name);
      LastForNames(pods, name);
    }
    forall name | name in counts && name !in Names(pods) ensures r[name] == counts[name] {
      InsertAllLookup(counts, pods, name);
      LastForNames(pods, name);
    }
  }

  /**
   * The snapshot object of one tick. The timestamp is fixed at construction;
   * the map is updated in place, one reading at a time. The ghost `history`
   * records every reading handed to `Update`, in order.
   */
  class TimestampedCounts {
    const timestamp: int64
    var podReadCounts: Counts
    ghost var history: seq<Option<PodMetricsCount>>

    /** The counts are the left fold of all readings recorded so far, starting from the empty map. */
    ghost predicate Valid()
      reads this
    {
      podReadCounts == ApplyAll(map[], history)
    }

    /** A snapshot for time `t`, with no pod recorded yet. */
    constructor (t: int64)
      ensures Valid()
      ensures timestamp == t && podReadCounts == map[] && history == []
    {
      timestamp := t;
      podReadCounts := map[];
      history := [];
    }

    /** Records one pod's reading; a missing reading changes nothing. */
    method Update(reading: Option<PodMetricsCount>)
      requires Valid()
      modifies this
      ensures Valid()
      ensures history == old(history) + [reading]
      ensures podReadCounts == Applied(old(podReadCounts), reading)
      ensures reading.None? ==> podReadCounts == old(podReadCounts)
      ensures reading.Some? ==> podReadCounts[reading.value.name] == reading.value.readCount
      ensures forall k :: k in old(podReadCounts) && (reading.None? || k != reading.value.name) ==>
        k in podReadCounts && podReadCounts[k] == old(podReadCounts)[k]
      ensures old(podReadCounts).Keys <= podReadCounts.Keys
    {
      ApplyAllSnoc(map[], history, reading);
      if reading.Some? {
        podReadCounts := podReadCounts[reading.value.name := reading.value.readCount];
      }
      history := history + [reading];
    }

    /** The current pod-to-count contents, as a value: later updates do not affect it. */
    method PodCountSnapshot() returns (snapshot: Counts)
      requires Valid()
      ensures snapshot == podReadCounts
      ensures snapshot == InsertAll(map[], Present(history))
    {
      ApplyAllIsInsertAllPresent(map[], history);
      snapshot := podReadCounts;
    }

    /** The timestamp given at construction. */
    method PodTimestamp() returns (t: int64)
      ensures t == timestamp
    {
      t := timestamp;
    }
  }

  /**
   * The same steps on the value snapshot: pod `p1` is recorded with count
   * 1, a snapshot is taken, and `p1` is recorded with count 2. The snapshot
   * still shows 1, while the object now holds 2.
   */
  method SnapshotIsIndependent() returns (seen: real, current: real)
    ensures seen == 1.0 && current == 2.0
  {
    var tc := new TimestampedCounts(0);
    tc.Update(Some(PodMetricsCount("p1", 1.0)));
    var snap := tc.PodCountSnapshot();
    tc.Update(Some(PodMetricsCount("p1", 2.0)));
    seen := snap["p1"];
    var now := tc.PodCountSnapshot();
    current := now["p1"];
  }
}
