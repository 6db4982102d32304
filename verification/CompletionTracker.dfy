// internal/adapter/kafka/partition_completion_tracker.go and the two tracker
// loops of processBatch.
module CompletionTracker {
  import opened KafkaTypes

  // The specification: how many leading offsets are all marked.
  ghost function PrefixLength(offsets: seq<int>, marked: set<int>): (n: nat)
    ensures n <= |offsets|
    ensures forall i :: 0 <= i < n ==> offsets[i] in marked
    ensures n < |offsets| ==> offsets[n] !in marked
  {
    if offsets == [] || offsets[0] !in marked then 0 else 1 + PrefixLength(offsets[1..], marked)
  }

  // No other number is a maximal marked prefix.
  lemma {:induction false} PrefixLengthUnique(offsets: seq<int>, marked: set<int>, n: nat)
    requires n <= |offsets|
    requires forall i :: 0 <= i < n ==> offsets[i] in marked
    requires n < |offsets| ==> offsets[n] !in marked
    ensures n == PrefixLength(offsets, marked)
  {
    if offsets != [] && offsets[0] in marked {
      PrefixLengthUnique(offsets[1..], marked, n - 1);
    }
  }

  lemma {:induction false} PrefixLengthMonotone(offsets: seq<int>, small: set<int>, large: set<int>)
    requires small <= large
    ensures PrefixLength(offsets, small) <= PrefixLength(offsets, large)
  {
    if offsets != [] && offsets[0] in small {
      PrefixLengthMonotone(offsets[1..], small, large);
    }
  }

  // What one partition of the tracker means to its caller.
  datatype Tracked = Tracked(offsets: seq<int>, marked: set<int>) {
    ghost function Prefix(): nat { PrefixLength(offsets, marked) }
  }

  datatype TrackerError = NoError | OffsetNotTracked | OffsetAlreadyTracked | OffsetOutOfOrder

  ghost predicate Indexed(offsets: seq<int>, index: map<int, int>) {
    && (forall i :: 0 <= i < |offsets| ==> offsets[i] in index && index[offsets[i]] == i)
    && (forall o :: o in index ==> 0 <= index[o] < |offsets| && offsets[index[o]] == o)
  }

  // A repeated mark may leave an entry below next behind; none is missing from next on.
  ghost predicate Pending(index: map<int, int>, completed: set<int>, next: nat, marked: set<int>) {
    && marked <= index.Keys
    && completed <= marked
    && (forall o :: o in marked && next <= index[o] ==> o in completed)
  }

  lemma IndexedAppend(offsets: seq<int>, index: map<int, int>, offset: int)
    requires Increasing(offsets) && Indexed(offsets, index) && offset !in index
    requires offsets == [] || offsets[|offsets| - 1] <= offset
    ensures Increasing(offsets + [offset]) && Indexed(offsets + [offset], index[offset := |offsets|])
  {
    if offsets != [] {
      assert offsets[|offsets| - 1] in index;
    }
  }

  lemma IndexedMember(offsets: seq<int>, index: map<int, int>, offset: int)
    requires Indexed(offsets, index)
    ensures offset in offsets <==> offset in index
  {
  }

  lemma PendingMark(index: map<int, int>, completed: set<int>, next: nat, marked: set<int>, offset: int)
    requires Pending(index, completed, next, marked) && offset in index
    ensures Pending(index, completed + {offset}, next, marked + {offset})
  {
  }

  // The offset at `next` is pending exactly when it is marked, and closing it advances.
  lemma PendingAdvance(offsets: seq<int>, index: map<int, int>, completed: set<int>, next: nat, marked: set<int>)
    requires Indexed(offsets, index) && Pending(index, completed, next, marked) && next < |offsets|
    ensures offsets[next] in completed <==> offsets[next] in marked
    ensures Pending(index, completed - {offsets[next]}, next + 1, marked)
  {
    var candidate := offsets[next];
    assert candidate in index && index[candidate] == next;
    assert candidate in marked ==> candidate in completed;
    assert candidate in completed ==> candidate in marked;
  }

  ghost function TrackError(offsets: seq<int>, offset: int): TrackerError {
    if offset in offsets then OffsetAlreadyTracked
    else if offsets != [] && offset < offsets[|offsets| - 1] then OffsetOutOfOrder
    else NoError
  }

  // The contract of MarkCompleted on one partition.
  ghost predicate Marked(before: Tracked, offset: int, after: Tracked, completedOffset: int, advanced: nat, err: TrackerError) {
    if offset !in before.offsets then
      err == OffsetNotTracked && advanced == 0 && completedOffset == 0 && after == before
    else
      && err == NoError
      && after == Tracked(before.offsets, before.marked + {offset})
      && before.Prefix() + advanced == after.Prefix()
      && completedOffset == if advanced == 0 then 0 else after.offsets[after.Prefix() - 1]
  }

  lemma CreateThenAppend(before: map<PartitionKey, Tracked>, created: map<PartitionKey, Tracked>, p: PartitionKey, offset: int)
    requires created == before[p := TrackedAt(before, p)]
    ensures AppendAt(created, p, offset) == AppendAt(before, p, offset)
    ensures TrackError(TrackedAt(before, p).offsets, offset) != NoError ==> created == before
  {
  }

  class PartitionState {
    var offsets: seq<int>
    var index: map<int, int>
    var completed: set<int>
    var next: nat
    ghost var marked: set<int>
    ghost const home: PartitionKey

    constructor (ghost home: PartitionKey)
      ensures Valid() && View() == Tracked([], {}) && this.home == home
    {
      this.home := home;
      offsets, index, completed, next, marked := [], map[], {}, 0, {};
    }

    ghost function View(): Tracked
      reads this
    {
      Tracked(offsets, marked)
    }

    ghost predicate Valid()
      reads this
    {
      && Increasing(offsets)
      && Indexed(offsets, index)
      && Pending(index, completed, next, marked)
      && next == PrefixLength(offsets, marked)
    }

    // Registers one offset.
    method Append(offset: int) returns (err: TrackerError)
      requires Valid()
      modifies this
      ensures Valid()
      ensures err == TrackError(old(offsets), offset)
      ensures err == NoError ==> View() == Tracked(old(offsets) + [offset], old(marked))
      ensures err != NoError ==> View() == old(View())
    {
      IndexedMember(offsets, index, offset);
      if offset in index {
        return OffsetAlreadyTracked;
      }
      var count := |offsets|;
      if count > 0 && offset < offsets[count - 1] {
        return OffsetOutOfOrder;
      }
      IndexedAppend(offsets, index, offset);
      index := index[offset := count];
      offsets := offsets + [offset];
      PrefixLengthUnique(offsets, marked, next);
      return NoError;
    }

    // Marks one offset and advances over the closed prefix.
    method Mark(offset: int) returns (completedOffset: int, advanced: nat, err: TrackerError)
      requires Valid()
      modifies this
      ensures Valid()
      ensures Marked(old(View()), offset, View(), completedOffset, advanced, err)
    {
      hide Increasing, Indexed, Pending;
      IndexedMember(offsets, index, offset);
      if offset !in index {
        return 0, 0, OffsetNotTracked;
      }
      PendingMark(index, completed, next, marked, offset);
      completed := completed + {offset};
      marked := marked + {offset};
      PrefixLengthMonotone(offsets, old(marked), marked);
      completedOffset := 0;
      var start := next;
      while next < |offsets|
        invariant start <= next <= |offsets|
        invariant offsets == old(offsets) && index == old(index) && marked == old(marked) + {offset}
        invariant Pending(index, completed, next, marked)
        invariant forall i :: 0 <= i < next ==> offsets[i] in marked
        invariant completedOffset == if next == start then 0 else offsets[next - 1]
      {
        var candidate := offsets[next];
        PendingAdvance(offsets, index, completed, next, marked);
        if candidate !in completed {
          break;
        }
        completed := completed - {candidate};
        next := next + 1;
        completedOffset := candidate;
      }
      PrefixLengthUnique(offsets, marked, next);
      return completedOffset, next - start, NoError;
    }
  }

  ghost function TrackedAt(contents: map<PartitionKey, Tracked>, p: PartitionKey): Tracked {
    if p in contents then contents[p] else Tracked([], {})
  }

  ghost function AppendAt(contents: map<PartitionKey, Tracked>, p: PartitionKey, offset: int): map<PartitionKey, Tracked> {
    contents[p := Tracked(TrackedAt(contents, p).offsets + [offset], TrackedAt(contents, p).marked)]
  }

  class Tracker {
    var partitions: map<PartitionKey, PartitionState>
    ghost var states: set<PartitionState>
    ghost var contents: map<PartitionKey, Tracked>

    constructor ()
      ensures Valid() && contents == map[] && states == {}
    {
      partitions, states, contents := map[], {}, map[];
    }

    // The heap structure: one state object per partition.
    ghost predicate Shape()
      reads this
    {
      && contents.Keys == partitions.Keys
      && (forall p :: p in partitions ==> partitions[p] in states && partitions[p].home == p)
    }

    ghost predicate Valid()
      reads this, states
    {
      && Shape()
      && (forall p :: p in partitions ==> partitions[p].Valid() && partitions[p].View() == contents[p])
    }

    // A partition's state is created on first use.
    method CreateState(p: PartitionKey)
      requires Valid()
      modifies this
      ensures Valid() && fresh(states - old(states)) && old(states) <= states
      ensures contents == old(contents)[p := TrackedAt(old(contents), p)]
    {
      if p !in partitions {
        var state := new PartitionState(p);
        partitions := partitions[p := state];
        states := states + {state};
        contents := contents[p := Tracked([], {})];
      }
    }

    method Register(p: PartitionKey, offset: int) returns (err: TrackerError)
      requires Valid() && p in contents
      modifies `contents, states
      ensures Valid()
      ensures err == TrackError(old(contents)[p].offsets, offset)
      ensures err == NoError ==> contents == AppendAt(old(contents), p, offset)
      ensures err != NoError ==> contents == old(contents)
    {
      hide Increasing, Indexed, Pending, TrackError, PrefixLength, PartitionState.Valid;
      var state := partitions[p];
      err := state.Append(offset);
      contents := contents[p := state.View()];
    }

    // Registers a partition on its first offset, then the offset itself.  A
    // partition's first offset is never rejected, so an error changes nothing.
    method Track(p: PartitionKey, offset: int) returns (err: TrackerError)
      requires Valid()
      modifies this, states
      ensures Valid() && fresh(states - old(states))
      ensures err == TrackError(TrackedAt(old(contents), p).offsets, offset)
      ensures contents == if err == NoError then AppendAt(old(contents), p, offset) else old(contents)
    {
      ghost var before := contents;
      CreateState(p);
      ghost var created := contents;
      assert TrackedAt(before, p) == created[p];
      err := Register(p, offset);
      CreateThenAppend(before, created, p, offset);
    }

    method MarkCompleted(p: PartitionKey, offset: int) returns (completedOffset: int, advanced: nat, err: TrackerError)
      requires Valid()
      modifies `contents, states
      ensures Valid()
      ensures p !in old(contents) ==>
                err == OffsetNotTracked && advanced == 0 && completedOffset == 0 && contents == old(contents)
      ensures p in old(contents) ==>
                && p in contents
                && Marked(old(contents)[p], offset, contents[p], completedOffset, advanced, err)
                && contents == old(contents)[p := contents[p]]
    {
      if p !in partitions {
        return 0, 0, OffsetNotTracked;
      }
      completedOffset, advanced, err := MarkIn(p, offset);
    }

    method MarkIn(p: PartitionKey, offset: int) returns (completedOffset: int, advanced: nat, err: TrackerError)
      requires Valid() && p in contents
      modifies `contents, states
      ensures Valid()
      ensures p in contents && contents == old(contents)[p := contents[p]]
      ensures Marked(old(contents)[p], offset, contents[p], completedOffset, advanced, err)
    {
      hide Increasing, Indexed, Pending, Marked, PrefixLength, PartitionState.Valid;
      var state := partitions[p];
      completedOffset, advanced, err := state.Mark(offset);
      contents := contents[p := state.View()];
    }
  }
}
