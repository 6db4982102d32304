// internal/observability/kafkabacklog: from broker offsets to the exported lag series.
module Backlog {
  import opened Bytes
  import opened Wrappers

  // ---- position_reader.go ----

  datatype Position = Position(partition: int, next: int, end: int)

  // sort.Ints over the keys of a map.
  ghost predicate SortedKeys(ids: seq<int>, m: map<int, int>) {
    (forall i, j :: 0 <= i < j < |ids| ==> ids[i] < ids[j]) && forall p :: p in m <==> p in ids
  }

  // A missing commit is -1; a commit outside the retained log counts as the start.
  function EffectiveOffset(start: int, end: int, commit: int): (next: int)
    requires start <= end
    ensures start <= next <= end
    ensures start <= commit <= end ==> next == commit
  {
    if commit < start || commit > end then start else commit
  }

  // Every partition with an end offset has a sane start offset and a commit answer.
  predicate Answered(starts: map<int, int>, ends: map<int, int>, committed: map<int, int>, p: int) {
    p in ends && p in starts && 0 <= starts[p] <= ends[p] && p in committed
  }

  predicate PositionOf(starts: map<int, int>, ends: map<int, int>, committed: map<int, int>, x: Position) {
    && Answered(starts, ends, committed, x.partition)
    && x.end == ends[x.partition]
    && x.next == (if starts[x.partition] <= committed[x.partition] <= ends[x.partition] then committed[x.partition] else starts[x.partition])
  }

  method PartitionPositions(ids: seq<int>, starts: map<int, int>, ends: map<int, int>, committed: map<int, int>)
      returns (positions: Option<seq<Position>>)
    requires SortedKeys(ids, ends)
    ensures positions.Some? <==> ends != map[] && |starts| == |ends| && forall p :: p in ends ==> Answered(starts, ends, committed, p)
    ensures positions.Some? ==>
      && (forall i :: 0 <= i < |positions.value| ==> PositionOf(starts, ends, committed, positions.value[i]))
      && (forall p :: p in ends ==> exists i :: 0 <= i < |positions.value| && positions.value[i].partition == p)
      && (forall i, j :: 0 <= i < j < |positions.value| ==> positions.value[i].partition < positions.value[j].partition)
  {
    if ends == map[] || |starts| != |ends| {
      return None;
    }
    var found: seq<Position> := [];
    for k := 0 to |ids|
      invariant |found| == k
      invariant forall i :: 0 <= i < k ==> found[i].partition == ids[i] && PositionOf(starts, ends, committed, found[i])
    {
      var p := ids[k];
      assert p in ends;
      if p !in starts || starts[p] < 0 || ends[p] < starts[p] || p !in committed {
        return None;
      }
      found := found + [Position(p, EffectiveOffset(starts[p], ends[p], committed[p]), ends[p])];
    }
    forall p | p in ends
      ensures Answered(starts, ends, committed, p) && exists i :: 0 <= i < |found| && found[i].partition == p
    {
      assert p in ids;
      var i :| 0 <= i < |ids| && ids[i] == p;
      assert found[i].partition == p;
    }
    return Some(found);
  }

  // ---- snapshots ----

  datatype PartitionSnapshot = PartitionSnapshot(partition: int, lag: int, age: int)

  datatype Snapshot = Snapshot(group: Text, topic: Text, observedAt: int, partitions: seq<PartitionSnapshot>)

  // What is left after dropping leading white space.
  function TrimLeft(s: Text): Text {
    if |s| >= 1 && Space1(s[0]) then TrimLeft(s[1..])
    else if |s| >= 2 && Space2(s[0], s[1]) then TrimLeft(s[2..])
    else if |s| >= 3 && Space3(s[0], s[1], s[2]) then TrimLeft(s[3..])
    else s
  }

  predicate Blank(s: Text) {
    TrimLeft(s) == []
  }

  predicate ValidPartition(x: PartitionSnapshot) {
    x.partition >= 0 && x.lag >= 0 && x.age >= 0 && (x.lag == 0 ==> x.age == 0)
  }

  predicate DistinctPartitions(partitions: seq<PartitionSnapshot>) {
    forall i, j :: 0 <= i < j < |partitions| ==> partitions[i].partition != partitions[j].partition
  }

  // Zero stands for the zero time.
  predicate ValidSnapshot(s: Snapshot) {
    && !Blank(s.group) && !Blank(s.topic) && s.observedAt != 0 && s.partitions != []
    && (forall i :: 0 <= i < |s.partitions| ==> ValidPartition(s.partitions[i]))
    && DistinctPartitions(s.partitions)
  }

  method ValidateSnapshot(s: Snapshot) returns (valid: bool)
    ensures valid <==> ValidSnapshot(s)
  {
    if Blank(s.group) || Blank(s.topic) || s.observedAt == 0 || s.partitions == [] {
      return false;
    }
    var seen: set<int> := {};
    for k := 0 to |s.partitions|
      invariant forall i :: 0 <= i < k ==> ValidPartition(s.partitions[i]) && s.partitions[i].partition in seen
      invariant forall p :: p in seen ==> exists i :: 0 <= i < k && s.partitions[i].partition == p
      invariant forall i, j :: 0 <= i < j < k ==> s.partitions[i].partition != s.partitions[j].partition
    {
      var x := s.partitions[k];
      if x.partition < 0 || x.partition in seen || x.lag < 0 || x.age < 0 || (x.lag == 0 && x.age != 0) {
        return false;
      }
      seen := seen + {x.partition};
    }
    return true;
  }

  // ---- source.go ----

  datatype Found = Found(offset: int, timestamp: int)

  // The observation of one position; `oldest` is the reader's answer when there is lag.
  predicate Observable(x: Position, oldest: map<int, Found>) {
    && x.partition >= 0 && 0 <= x.next <= x.end
    && (x.next < x.end ==>
          x.partition in oldest && x.next <= oldest[x.partition].offset < x.end && oldest[x.partition].timestamp != 0)
  }

  function Observation(x: Position, oldest: map<int, Found>, observedAt: int): PartitionSnapshot
    requires Observable(x, oldest)
  {
    if x.next == x.end then PartitionSnapshot(x.partition, 0, 0)
    else
      var age := observedAt - oldest[x.partition].timestamp;
      PartitionSnapshot(x.partition, x.end - x.next, if age < 0 then 0 else age)
  }

  predicate DistinctPositions(positions: seq<Position>) {
    forall i, j :: 0 <= i < j < |positions| ==> positions[i].partition != positions[j].partition
  }

  lemma BuiltIsValid(s: Snapshot, positions: seq<Position>, oldest: map<int, Found>)
    requires !Blank(s.group) && !Blank(s.topic) && s.observedAt != 0 && positions != [] && |s.partitions| == |positions|
    requires DistinctPositions(positions)
    requires forall i :: 0 <= i < |positions| ==>
      Observable(positions[i], oldest) && s.partitions[i] == Observation(positions[i], oldest, s.observedAt)
    ensures ValidSnapshot(s)
  {
  }

  // The final validation never rejects what the loop built.
  method TakeSnapshot(group: Text, topic: Text, positions: Option<seq<Position>>, observedAt: int, oldest: map<int, Found>)
      returns (snapshot: Option<Snapshot>)
    ensures snapshot.Some? <==>
      && !Blank(group) && !Blank(topic) && positions.Some? && positions.value != [] && observedAt != 0
      && DistinctPositions(positions.value)
      && forall i :: 0 <= i < |positions.value| ==> Observable(positions.value[i], oldest)
    ensures snapshot.Some? ==> ValidSnapshot(snapshot.value)
    // The lag is what the group has not consumed, the age that of its oldest record, never negative.
    ensures snapshot.Some? ==> forall i :: 0 <= i < |snapshot.value.partitions| && i < |positions.value| ==>
      var x, p := positions.value[i], snapshot.value.partitions[i];
      && p.partition == x.partition && p.lag == x.end - x.next
      && (p.lag == 0 ==> p.age == 0)
      && (p.lag > 0 && observedAt >= oldest[x.partition].timestamp ==> p.age == observedAt - oldest[x.partition].timestamp)
      && (p.lag > 0 && observedAt < oldest[x.partition].timestamp ==> p.age == 0)
    ensures snapshot.Some? ==>
      var s := snapshot.value;
      && s.group == group && s.topic == topic && s.observedAt == observedAt && |s.partitions| == |positions.value|
      && forall i :: 0 <= i < |s.partitions| ==> s.partitions[i] == Observation(positions.value[i], oldest, observedAt)
  {
    if Blank(group) || Blank(topic) || positions.None? || positions.value == [] || observedAt == 0 {
      return None;
    }
    var partitions: seq<PartitionSnapshot>, seen: set<int> := [], {};
    for k := 0 to |positions.value|
      invariant |partitions| == k
      invariant forall i :: 0 <= i < k ==> Observable(positions.value[i], oldest) && positions.value[i].partition in seen
      invariant forall i :: 0 <= i < k ==> partitions[i] == Observation(positions.value[i], oldest, observedAt)
      invariant forall p :: p in seen ==> exists i :: 0 <= i < k && positions.value[i].partition == p
      invariant forall i, j :: 0 <= i < j < k ==> positions.value[i].partition != positions.value[j].partition
    {
      var x := positions.value[k];
      if x.partition < 0 || x.partition in seen || x.next < 0 || x.end < x.next {
        return None;
      }
      seen := seen + {x.partition};
      if x.next < x.end && (x.partition !in oldest || oldest[x.partition].offset < x.next
                            || oldest[x.partition].offset >= x.end || oldest[x.partition].timestamp == 0) {
        return None;
      }
      partitions := partitions + [Observation(x, oldest, observedAt)];
    }
    var candidate := Snapshot(group, topic, observedAt, partitions);
    BuiltIsValid(candidate, positions.value, oldest);
    hide ValidSnapshot;
    var valid := ValidateSnapshot(candidate);
    if !valid {
      return None;
    }
    return Some(candidate);
  }

  // What the position reader returns never makes the source fail by itself: only a
  // record lookup can.
  lemma PositionsAreObservable(starts: map<int, int>, ends: map<int, int>, committed: map<int, int>, positions: seq<Position>, oldest: map<int, Found>)
    requires forall i :: 0 <= i < |positions| ==> PositionOf(starts, ends, committed, positions[i])
    requires forall i, j :: 0 <= i < j < |positions| ==> positions[i].partition < positions[j].partition
    requires forall p :: p in ends ==> p >= 0
    ensures DistinctPositions(positions)
    ensures forall i :: 0 <= i < |positions| ==>
      (Observable(positions[i], oldest) <==>
       positions[i].next == positions[i].end ||
       (positions[i].partition in oldest && positions[i].next <= oldest[positions[i].partition].offset < positions[i].end
        && oldest[positions[i].partition].timestamp != 0))
  {
    forall i | 0 <= i < |positions|
      ensures 0 <= positions[i].next <= positions[i].end && positions[i].partition >= 0
    {
      assert PositionOf(starts, ends, committed, positions[i]);
    }
  }

  // ---- metrics.go ----

  datatype Key = Key(group: Text, topic: Text)

  datatype Label = Label(key: Key, partition: int)

  datatype Series = Series(lag: int, age: int)

  // What is exported for one group and topic.
  datatype View = View(series: map<int, Series>, success: Option<bool>, timestamp: Option<int>)

  // The partitions of a snapshot and their values, nothing else.
  function SeriesOf(partitions: seq<PartitionSnapshot>): map<int, Series> {
    if partitions == [] then map[]
    else
      var last := partitions[|partitions| - 1];
      SeriesOf(partitions[..|partitions| - 1])[last.partition := Series(last.lag, last.age)]
  }

  // The gauges of these partitions, read together.
  ghost function SeriesIn(lag: map<Label, int>, age: map<Label, int>, partitions: set<int>, key: Key): map<int, Series>
    requires forall p :: p in partitions ==> Label(key, p) in lag && Label(key, p) in age
  {
    map p | p in partitions :: Series(lag[Label(key, p)], age[Label(key, p)])
  }

  lemma SeriesUnchanged(lag: map<Label, int>, age: map<Label, int>, nextLag: map<Label, int>, nextAge: map<Label, int>, partitions: set<int>, key: Key)
    requires forall p :: p in partitions ==> Label(key, p) in lag && Label(key, p) in age
    requires forall p :: p in partitions ==> Label(key, p) in nextLag && nextLag[Label(key, p)] == lag[Label(key, p)]
    requires forall p :: p in partitions ==> Label(key, p) in nextAge && nextAge[Label(key, p)] == age[Label(key, p)]
    ensures SeriesIn(lag, age, partitions, key) == SeriesIn(nextLag, nextAge, partitions, key)
  {
  }

  lemma SeriesFrom(lag: map<Label, int>, age: map<Label, int>, key: Key, values: seq<PartitionSnapshot>)
    requires forall p :: p in SeriesOf(values) ==>
      Label(key, p) in lag && Label(key, p) in age && Series(lag[Label(key, p)], age[Label(key, p)]) == SeriesOf(values)[p]
    ensures SeriesIn(lag, age, SeriesOf(values).Keys, key) == SeriesOf(values)
  {
    hide SeriesOf;
  }

  class Metrics {
    var lag: map<Label, int>
    var oldestAge: map<Label, int>
    var snapshotSuccess: map<Key, bool>
    var snapshotTimestamp: map<Key, int>
    var partitions: map<Key, set<int>>

    // The gauges hold exactly the remembered partitions.
    ghost predicate Valid()
      reads `lag, `oldestAge, `partitions
    {
      && lag.Keys == oldestAge.Keys
      && forall l :: l in lag <==> l.key in partitions && l.partition in partitions[l.key]
    }

    constructor ()
      ensures Valid() && forall key :: ViewOf(key) == View(map[], None, None)
    {
      lag, oldestAge, snapshotSuccess, snapshotTimestamp, partitions := map[], map[], map[], map[], map[];
    }

    function Remembered(key: Key): set<int>
      reads `partitions
    {
      if key in partitions then partitions[key] else {}
    }

    ghost function SeriesAt(key: Key): map<int, Series>
      requires Valid()
      reads `lag, `oldestAge, `partitions
    {
      SeriesIn(lag, oldestAge, Remembered(key), key)
    }

    ghost function ViewOf(key: Key): View
      requires Valid()
      reads this
    {
      View(
        SeriesAt(key),
        if key in snapshotSuccess then Some(snapshotSuccess[key]) else None,
        if key in snapshotTimestamp then Some(snapshotTimestamp[key]) else None)
    }

    // Sets the gauges of the snapshot's partitions.
    method SetGauges(key: Key, values: seq<PartitionSnapshot>) returns (current: set<int>)
      modifies `lag, `oldestAge
      ensures current == SeriesOf(values).Keys
      ensures forall l :: l in lag <==> l in old(lag) || (l.key == key && l.partition in current)
      ensures forall l :: l in oldestAge <==> l in old(oldestAge) || (l.key == key && l.partition in current)
      ensures forall p :: p in current ==> Series(lag[Label(key, p)], oldestAge[Label(key, p)]) == SeriesOf(values)[p]
      ensures forall l :: l in old(lag) && !(l.key == key && l.partition in current) ==> lag[l] == old(lag)[l]
      ensures forall l :: l in old(oldestAge) && !(l.key == key && l.partition in current) ==> oldestAge[l] == old(oldestAge)[l]
    {
      current := {};
      for k := 0 to |values|
        invariant current == SeriesOf(values[..k]).Keys
        invariant forall l :: l in lag <==> l in old(lag) || (l.key == key && l.partition in current)
        invariant forall l :: l in oldestAge <==> l in old(oldestAge) || (l.key == key && l.partition in current)
        invariant forall p :: p in current ==> Series(lag[Label(key, p)], oldestAge[Label(key, p)]) == SeriesOf(values[..k])[p]
        invariant forall l :: l in old(lag) && !(l.key == key && l.partition in current) ==> lag[l] == old(lag)[l]
        invariant forall l :: l in old(oldestAge) && !(l.key == key && l.partition in current) ==> oldestAge[l] == old(oldestAge)[l]
      {
        var x := values[k];
        assert values[..k + 1][..k] == values[..k];
        current := current + {x.partition};
        lag := lag[Label(key, x.partition) := x.lag];
        oldestAge := oldestAge[Label(key, x.partition) := x.age];
      }
      assert values[..|values|] == values;
    }

    // Deletes the gauges of partitions that are no longer reported.
    method DropStale(key: Key, stale: set<int>, current: set<int>)
      modifies `lag, `oldestAge
      ensures forall l :: l in lag <==> l in old(lag) && !(l.key == key && l.partition in stale && l.partition !in current)
      ensures forall l :: l in oldestAge <==> l in old(oldestAge) && !(l.key == key && l.partition in stale && l.partition !in current)
      ensures forall l :: l in lag ==> lag[l] == old(lag)[l]
      ensures forall l :: l in oldestAge ==> oldestAge[l] == old(oldestAge)[l]
    {
      var gone := set p | p in stale && p !in current :: Label(key, p);
      assert forall l: Label :: l in gone <==> l.key == key && l.partition in stale && l.partition !in current by {
        forall l: Label | l.key == key && l.partition in stale && l.partition !in current
          ensures l in gone
        {
          assert l == Label(key, l.partition);
        }
      }
      lag := lag - gone;
      oldestAge := oldestAge - gone;
    }

    // The loops of Apply: afterwards the key exports exactly these values.
    method PublishSeries(key: Key, values: seq<PartitionSnapshot>)
      requires Valid()
      modifies `lag, `oldestAge, `partitions
      ensures Valid()
      ensures SeriesAt(key) == SeriesOf(values)
      ensures forall other :: other != key ==> SeriesAt(other) == old(SeriesAt(other))
    {
      hide SeriesOf, SeriesIn;
      var stale := Remembered(key);
      var current := SetGauges(key, values);
      DropStale(key, stale, current);
      partitions := partitions[key := current];
      assert lag.Keys == oldestAge.Keys;
      assert Valid();
      SeriesFrom(lag, oldestAge, key, values);
      forall other | other != key
        ensures SeriesAt(other) == old(SeriesAt(other))
      {
        assert Remembered(other) == old(Remembered(other));
        SeriesUnchanged(old(lag), old(oldestAge), lag, oldestAge, Remembered(other), other);
      }
    }

    method Apply(snapshot: Snapshot) returns (ok: bool)
      requires Valid()
      modifies this
      ensures Valid()
      ensures ok <==> ValidSnapshot(snapshot)
      ensures var key := Key(snapshot.group, snapshot.topic);
        ViewOf(key) == if ok then View(SeriesOf(snapshot.partitions), Some(true), Some(snapshot.observedAt)) else old(ViewOf(key))
      ensures forall other :: other != Key(snapshot.group, snapshot.topic) ==> ViewOf(other) == old(ViewOf(other))
    {
      hide ValidSnapshot, SeriesOf, SeriesAt, Valid;
      var valid := ValidateSnapshot(snapshot);
      if !valid {
        return false;
      }
      var key := Key(snapshot.group, snapshot.topic);
      PublishSeries(key, snapshot.partitions);
      snapshotSuccess := snapshotSuccess[key := true];
      snapshotTimestamp := snapshotTimestamp[key := snapshot.observedAt];
      return true;
    }

    method MarkSnapshotFailure(group: Text, topic: Text) returns (ok: bool)
      requires Valid()
      modifies this
      ensures Valid()
      ensures ok <==> !Blank(group) && !Blank(topic)
      ensures var key := Key(group, topic);
        ViewOf(key) == if ok then old(ViewOf(key)).(success := Some(false)) else old(ViewOf(key))
      ensures forall other :: other != Key(group, topic) ==> ViewOf(other) == old(ViewOf(other))
    {
      hide SeriesAt, Valid;
      if Blank(group) || Blank(topic) {
        return false;
      }
      snapshotSuccess := snapshotSuccess[Key(group, topic) := false];
      return true;
    }

    // refresher.go: `taken` is what the source returned for the refresher's own names.
    method Refresh(group: Text, topic: Text, taken: Option<Snapshot>) returns (ok: bool)
      requires Valid() && !Blank(group) && !Blank(topic)
      requires taken.Some? ==> taken.value.group == group && taken.value.topic == topic && ValidSnapshot(taken.value)
      modifies this
      ensures Valid() && (ok <==> taken.Some?)
      ensures ViewOf(Key(group, topic)) == Refreshed(old(ViewOf(Key(group, topic))), taken)
      ensures forall other :: other != Key(group, topic) ==> ViewOf(other) == old(ViewOf(other))
    {
      if taken.None? {
        var marked := MarkSnapshotFailure(group, topic);
        return false;
      }
      ok := Apply(taken.value);
    }
  }

  // One refresh, seen from outside.
  function Refreshed(v: View, taken: Option<Snapshot>): View {
    match taken
    case None => v.(success := Some(false))
    case Some(s) => View(SeriesOf(s.partitions), Some(true), Some(s.observedAt))
  }

  function RefreshedAll(v: View, outcomes: seq<Option<Snapshot>>): View
    decreases |outcomes|
  {
    if outcomes == [] then v else Refreshed(RefreshedAll(v, outcomes[..|outcomes| - 1]), outcomes[|outcomes| - 1])
  }

  // k is the last refresh that succeeded.
  predicate LastSuccess(outcomes: seq<Option<Snapshot>>, k: nat) {
    k < |outcomes| && outcomes[k].Some? && forall j :: k < j < |outcomes| ==> outcomes[j].None?
  }

  // After any sequence of refreshes the exported series and time are exactly those of
  // the last successful snapshot, stale or not, and the flag tells how the last one went.
  lemma {:induction false} LastSuccessShows(v: View, outcomes: seq<Option<Snapshot>>, k: nat)
    requires LastSuccess(outcomes, k)
    ensures var w := RefreshedAll(v, outcomes);
      && w.series == SeriesOf(outcomes[k].value.partitions)
      && w.timestamp == Some(outcomes[k].value.observedAt)
      && w.success == Some(k == |outcomes| - 1)
    decreases |outcomes|
  {
    var n := |outcomes| - 1;
    if k < n {
      assert outcomes[n].None?;
      LastSuccessShows(v, outcomes[..n], k);
    }
  }

  // As long as no refresh has succeeded the series and time stay what they were.
  lemma {:induction false} FailuresKeepSeries(v: View, outcomes: seq<Option<Snapshot>>)
    requires forall j :: 0 <= j < |outcomes| ==> outcomes[j].None?
    ensures RefreshedAll(v, outcomes) == if outcomes == [] then v else v.(success := Some(false))
    decreases |outcomes|
  {
    if outcomes != [] {
      var n := |outcomes| - 1;
      assert outcomes[n].None?;
      FailuresKeepSeries(v, outcomes[..n]);
    }
  }

  // The series of a valid snapshot name each partition once, with its own values.
  lemma {:induction false} SeriesAreExact(partitions: seq<PartitionSnapshot>)
    requires DistinctPartitions(partitions)
    ensures forall p :: p in SeriesOf(partitions) <==> exists i :: 0 <= i < |partitions| && partitions[i].partition == p
    ensures forall i :: 0 <= i < |partitions| ==>
      partitions[i].partition in SeriesOf(partitions)
      && SeriesOf(partitions)[partitions[i].partition] == Series(partitions[i].lag, partitions[i].age)
  {
    if partitions != [] {
      var n := |partitions| - 1;
      SeriesAreExact(partitions[..n]);
      forall i | 0 <= i < |partitions|
        ensures partitions[i].partition in SeriesOf(partitions)
        ensures SeriesOf(partitions)[partitions[i].partition] == Series(partitions[i].lag, partitions[i].age)
      {
        assert i < n ==> partitions[..n][i] == partitions[i];
      }
    }
  }
}
