// The sequential loops of internal/adapter/kafka/async_consumer.go: registering
// a polled batch, grouping it by key, and folding completions into the commit
// list.  The goroutines between the loops are modelled in AsyncConsumer.
module BatchProcessing {
  import opened KafkaTypes
  import opened CompletionTracker

  // ---- registering the batch ----

  ghost function Homes(records: seq<Record>): set<PartitionKey> {
    set r | r in records :: r.Home()
  }

  // The tracker contents right after registration.
  ghost function BatchContents(records: seq<Record>): map<PartitionKey, Tracked> {
    map p | p in Homes(records) :: Tracked(PartitionOffsets(records, p), {})
  }

  type Lookup = map<PartitionKey, map<int, Record>>

  ghost predicate Finds(lookup: Lookup, records: seq<Record>) {
    forall r :: r in records ==> r.Home() in lookup && r.offset in lookup[r.Home()] && lookup[r.Home()][r.offset] == r
  }

  lemma HomesAppend(records: seq<Record>, r: Record)
    ensures Homes(records + [r]) == Homes(records) + {r.Home()}
  {
    assert forall q :: q in records + [r] <==> q in records || q == r;
  }

  lemma NoHomeNoOffsets(records: seq<Record>, p: PartitionKey)
    ensures p !in Homes(records) ==> PartitionOffsets(records, p) == []
  {
    PartitionOffsetsMembers(records, p);
    if PartitionOffsets(records, p) != [] {
      assert PartitionOffsets(records, p)[0] in PartitionOffsets(records, p);
    }
  }

  lemma BatchContentsAppend(records: seq<Record>, r: Record)
    ensures BatchContents(records + [r]) == AppendAt(BatchContents(records), r.Home(), r.offset)
    ensures TrackedAt(BatchContents(records), r.Home()).offsets == PartitionOffsets(records, r.Home())
  {
    var all := records + [r];
    HomesAppend(records, r);
    NoHomeNoOffsets(records, r.Home());
    hide Homes;
    assert all[..|records|] == records;
    forall p
      ensures PartitionOffsets(all, p) == if p == r.Home() then PartitionOffsets(records, p) + [r.offset] else PartitionOffsets(records, p)
    {
    }
    hide PartitionOffsets;
    assert BatchContents(all).Keys == AppendAt(BatchContents(records), r.Home(), r.offset).Keys;
  }

  // A rejected offset means the batch is not in poll order.
  lemma RejectedMeansUnordered(records: seq<Record>, r: Record)
    requires PollOrdered(records)
    ensures TrackError(PartitionOffsets(records, r.Home()), r.offset) == NoError <==> PollOrdered(records + [r])
  {
    var offsets := PartitionOffsets(records, r.Home());
    PartitionOffsetsMembers(records, r.Home());
    PollOrderedOffsets(records, r.Home());
    var all := records + [r];
    if TrackError(offsets, r.offset) == NoError {
      forall i | 0 <= i < |records| && records[i].Home() == r.Home()
        ensures records[i].offset < r.offset
      {
        assert records[i].offset in offsets;
      }
    } else {
      var o := if r.offset in offsets then r.offset else offsets[|offsets| - 1];
      assert o in offsets;
      var q :| q in records && q.Home() == r.Home() && q.offset == o;
      var i :| 0 <= i < |records| && records[i] == q;
      assert all[i] == q && all[|records|] == r;
    }
  }

  ghost predicate Registered(contents: map<PartitionKey, Tracked>, lookup: Lookup, records: seq<Record>) {
    PollOrdered(records) && contents == BatchContents(records) && Finds(lookup, records)
  }

  function Insert(lookup: Lookup, r: Record): Lookup {
    var inner := if r.Home() in lookup then lookup[r.Home()] else map[];
    lookup[r.Home() := inner[r.offset := r]]
  }

  lemma RegisterStep(contents: map<PartitionKey, Tracked>, lookup: Lookup, records: seq<Record>, i: nat)
    requires i < |records| && Registered(contents, lookup, records[..i])
    ensures TrackedAt(contents, records[i].Home()).offsets == PartitionOffsets(records[..i], records[i].Home())
    ensures TrackError(PartitionOffsets(records[..i], records[i].Home()), records[i].offset) == NoError ==>
              Registered(AppendAt(contents, records[i].Home(), records[i].offset), Insert(lookup, records[i]), records[..i + 1])
    ensures TrackError(PartitionOffsets(records[..i], records[i].Home()), records[i].offset) != NoError ==> !PollOrdered(records)
  {
    var r := records[i];
    assert records[..i + 1] == records[..i] + [r];
    BatchContentsAppend(records[..i], r);
    RejectedMeansUnordered(records[..i], r);
    if PollOrdered(records[..i + 1]) {
      FindsAppend(lookup, records[..i], r);
    } else {
      PollOrderedPrefix(records, i + 1);
    }
  }

  // Registration succeeds exactly for batches in poll order.
  method TrackBatch(records: seq<Record>) returns (tracker: Tracker, lookup: Lookup, err: TrackerError)
    ensures fresh(tracker) && fresh(tracker.states) && tracker.Valid()
    ensures err == NoError <==> PollOrdered(records)
    ensures err == NoError ==> Registered(tracker.contents, lookup, records)
  {
    tracker := new Tracker();
    lookup := map[];
    var i := 0;
    while i < |records|
      invariant 0 <= i <= |records|
      invariant fresh(tracker) && fresh(tracker.states) && tracker.Valid()
      invariant Registered(tracker.contents, lookup, records[..i])
    {
      var r := records[i];
      RegisterStep(tracker.contents, lookup, records, i);
      err := tracker.Track(r.Home(), r.offset);
      if err != NoError {
        return;
      }
      lookup := Insert(lookup, r);
      i := i + 1;
    }
    assert records[..i] == records;
    err := NoError;
  }

  lemma PollOrderedPrefix(records: seq<Record>, n: nat)
    requires n <= |records| && !PollOrdered(records[..n])
    ensures !PollOrdered(records)
  {
    var i, j :| 0 <= i < j < n && records[..n][i].Home() == records[..n][j].Home() && records[..n][i].offset >= records[..n][j].offset;
    assert records[i] == records[..n][i] && records[j] == records[..n][j];
  }

  lemma FindsAppend(lookup: Lookup, records: seq<Record>, r: Record)
    requires Finds(lookup, records) && PollOrdered(records + [r])
    ensures Finds(Insert(lookup, r), records + [r])
  {
    var all := records + [r];
    forall q | q in all && q.Home() == r.Home() && q.offset == r.offset
      ensures q == r
    {
      PollOrderedUnique(all, q, r);
    }
  }

  // ---- folding completions ----

  ghost function MarkedOffsets(done: set<Record>, p: PartitionKey): set<int> {
    set r | r in done && r.Home() == p :: r.offset
  }

  // How many leading records of p have completed, whatever happened to later ones.
  ghost function PrefixOf(records: seq<Record>, done: set<Record>, p: PartitionKey): nat {
    PrefixLength(PartitionOffsets(records, p), MarkedOffsets(done, p))
  }

  ghost function LastOfPrefix(records: seq<Record>, done: set<Record>, p: PartitionKey): int
    requires PrefixOf(records, done, p) > 0
  {
    PartitionOffsets(records, p)[PrefixOf(records, done, p) - 1]
  }

  // The commit list: for each partition with a completed prefix, that prefix's last record.
  ghost predicate CommitList(records: seq<Record>, done: set<Record>, commit: map<PartitionKey, Record>) {
    && (forall p :: p in commit <==> PrefixOf(records, done, p) > 0)
    && (forall p :: p in commit ==> commit[p] in records && commit[p].Home() == p && commit[p].offset == LastOfPrefix(records, done, p))
  }

  // Committing stays below every gap: all earlier records of the partition are done.
  lemma CommitCoversPrefix(records: seq<Record>, done: set<Record>, commit: map<PartitionKey, Record>, p: PartitionKey, r: Record)
    requires PollOrdered(records) && (forall d :: d in done ==> d in records)
    requires CommitList(records, done, commit) && p in commit
    requires r in records && r.Home() == p && r.offset <= commit[p].offset
    ensures r in done
  {
    var offsets := PartitionOffsets(records, p);
    var n := PrefixOf(records, done, p);
    PartitionOffsetsMembers(records, p);
    PollOrderedOffsets(records, p);
    var i :| 0 <= i < |offsets| && offsets[i] == r.offset;
    assert i < n;
    assert offsets[i] in MarkedOffsets(done, p);
    var d :| d in done && d.Home() == p && d.offset == r.offset;
    PollOrderedUnique(records, d, r);
  }

  // A partition whose records are all done is committed up to its last record.
  lemma CommitReachesEnd(records: seq<Record>, done: set<Record>, commit: map<PartitionKey, Record>, r: Record)
    requires PollOrdered(records) && (forall q :: q in records ==> q in done)
    requires CommitList(records, done, commit) && r in records
    ensures r.Home() in commit && r.offset <= commit[r.Home()].offset
  {
    var p := r.Home();
    var offsets := PartitionOffsets(records, p);
    PartitionOffsetsMembers(records, p);
    PollOrderedOffsets(records, p);
    forall i | 0 <= i < |offsets|
      ensures offsets[i] in MarkedOffsets(done, p)
    {
      assert offsets[i] in offsets;
      var q :| q in records && q.Home() == p && q.offset == offsets[i];
    }
    PrefixLengthUnique(offsets, MarkedOffsets(done, p), |offsets|);
    var i :| 0 <= i < |offsets| && offsets[i] == r.offset;
  }

  ghost function TotalPrefix(keys: seq<PartitionKey>, records: seq<Record>, done: set<Record>): nat {
    if keys == [] then 0 else PrefixOf(records, done, keys[0]) + TotalPrefix(keys[1..], records, done)
  }

  ghost predicate Distinct<T>(s: seq<T>) {
    forall i, j :: 0 <= i < j < |s| ==> s[i] != s[j]
  }

  // Completing one record changes the total by its own partition's advance only.
  lemma {:induction false} TotalPrefixStep(keys: seq<PartitionKey>, records: seq<Record>, done: set<Record>, r: Record, advanced: nat)
    requires Distinct(keys)
    requires PrefixOf(records, done, r.Home()) + advanced == PrefixOf(records, done + {r}, r.Home())
    ensures TotalPrefix(keys, records, done + {r}) ==
            TotalPrefix(keys, records, done) + if r.Home() in keys then advanced else 0
  {
    if keys != [] {
      assert keys[0] != r.Home() ==> MarkedOffsets(done + {r}, keys[0]) == MarkedOffsets(done, keys[0]);
      TotalPrefixStep(keys[1..], records, done, r, advanced);
    }
  }

  datatype Completion = Completion(record: Record, ok: bool)

  ghost function Succeeded(completions: seq<Completion>): set<Record> {
    set c | c in completions && c.ok :: c.record
  }

  ghost predicate TrackerHolds(contents: map<PartitionKey, Tracked>, records: seq<Record>, done: set<Record>) {
    && contents.Keys == Homes(records)
    && (forall p :: p in contents ==> contents[p] == Tracked(PartitionOffsets(records, p), MarkedOffsets(done, p)))
  }

  lemma CommitStep(records: seq<Record>, done: set<Record>, commit: map<PartitionKey, Record>, r: Record, advanced: nat, completedOffset: int, next: Record)
    requires PollOrdered(records) && CommitList(records, done, commit) && r in records
    requires PrefixOf(records, done, r.Home()) + advanced == PrefixOf(records, done + {r}, r.Home())
    requires advanced > 0 ==> completedOffset == LastOfPrefix(records, done + {r}, r.Home())
    requires advanced > 0 ==> next in records && next.Home() == r.Home() && next.offset == completedOffset
    ensures CommitList(records, done + {r}, if advanced == 0 then commit else commit[r.Home() := next])
  {
    hide PrefixLength, PartitionOffsets;
    var after := if advanced == 0 then commit else commit[r.Home() := next];
    MarkKeepsOthers(records, done, r);
    forall p
      ensures p in after <==> PrefixOf(records, done + {r}, p) > 0
      ensures p in after ==> after[p] in records && after[p].Home() == p && after[p].offset == LastOfPrefix(records, done + {r}, p)
    {
      if p != r.Home() {
        assert p in after <==> p in commit;
      }
    }
  }

  // What the collector has established after some completions.
  ghost predicate Folded(contents: map<PartitionKey, Tracked>, committable: map<PartitionKey, Record>, count: nat,
                         keys: seq<PartitionKey>, records: seq<Record>, done: set<Record>)
  {
    && TrackerHolds(contents, records, done)
    && CommitList(records, done, committable)
    && count == TotalPrefix(keys, records, done)
  }

  function Advance(lookup: Lookup, committable: map<PartitionKey, Record>, p: PartitionKey, completedOffset: int, advanced: nat): map<PartitionKey, Record> {
    if advanced == 0 || p !in lookup || completedOffset !in lookup[p] then committable
    else committable[p := lookup[p][completedOffset]]
  }

  lemma FoldStart(keys: seq<PartitionKey>, records: seq<Record>)
    ensures Folded(BatchContents(records), map[], 0, keys, records, {})
  {
    TotalPrefixEmpty(keys, records);
    forall p
      ensures MarkedOffsets({}, p) == {}
    {
    }
  }

  lemma FoldStep(contents: map<PartitionKey, Tracked>, committable: map<PartitionKey, Record>, count: nat,
                 keys: seq<PartitionKey>, records: seq<Record>, done: set<Record>, lookup: Lookup, r: Record,
                 after: map<PartitionKey, Tracked>, completedOffset: int, advanced: nat, err: TrackerError)
    requires Folded(contents, committable, count, keys, records, done)
    requires Registered(BatchContents(records), lookup, records) && r in records
    requires Distinct(keys) && r.Home() in keys
    requires r.Home() in contents && r.Home() in after && after == contents[r.Home() := after[r.Home()]]
    requires Marked(contents[r.Home()], r.offset, after[r.Home()], completedOffset, advanced, err)
    ensures err == NoError
    ensures advanced > 0 ==> r.Home() in lookup && completedOffset in lookup[r.Home()]
    ensures Folded(after, Advance(lookup, committable, r.Home(), completedOffset, advanced), count + advanced, keys, records, done + {r})
  {
    hide PrefixLength, PartitionOffsets, TotalPrefix, CommitList;
    PartitionOffsetsMembers(records, r.Home());
    MarkKeepsOthers(records, done, r);
    assert MarkedOffsets(done + {r}, r.Home()) == MarkedOffsets(done, r.Home()) + {r.offset};
    TotalPrefixStep(keys, records, done, r, advanced);
    if advanced > 0 {
      NextRecord(lookup, records, done, r, completedOffset);
      CommitStep(records, done, committable, r, advanced, completedOffset, lookup[r.Home()][completedOffset]);
    } else {
      CommitStep(records, done, committable, r, advanced, completedOffset, r);
    }
  }

  // The collector.  Whatever order the completions arrive in, the commit list and
  // the count depend only on which records succeeded, and marking never fails.
  method Collect(tracker: Tracker, lookup: Lookup, records: seq<Record>, ghost keys: seq<PartitionKey>, completions: seq<Completion>)
    returns (committable: map<PartitionKey, Record>, count: nat, trackerFailed: bool)
    requires tracker.Valid() && Registered(tracker.contents, lookup, records)
    requires forall c :: c in completions ==> c.record in records
    requires Distinct(keys) && (forall r :: r in records ==> r.Home() in keys)
    modifies tracker`contents, tracker.states
    ensures !trackerFailed
    ensures CommitList(records, Succeeded(completions), committable)
    ensures count == TotalPrefix(keys, records, Succeeded(completions))
  {
    hide PrefixLength, PartitionOffsets, CommitList, TrackerHolds, TotalPrefix, Finds, PollOrdered, PrefixOf;
    committable, count, trackerFailed := map[], 0, false;
    FoldStart(keys, records);
    assert Succeeded(completions[..0]) == {};
    var i := 0;
    while i < |completions|
      invariant 0 <= i <= |completions| && !trackerFailed
      invariant tracker.Valid() && Folded(tracker.contents, committable, count, keys, records, Succeeded(completions[..i]))
    {
      var c := completions[i];
      SucceededStep(completions, i);
      if c.ok {
        ghost var before := tracker.contents;
        var completedOffset, advanced, err := tracker.MarkCompleted(c.record.Home(), c.record.offset);
        FoldStep(before, committable, count, keys, records, Succeeded(completions[..i]), lookup, c.record,
                 tracker.contents, completedOffset, advanced, err);
        if err != NoError {
          trackerFailed := true;
        } else {
          committable := Advance(lookup, committable, c.record.Home(), completedOffset, advanced);
          count := count + advanced;
        }
      }
      i := i + 1;
    }
    assert completions[..i] == completions;
  }

  lemma SucceededStep(completions: seq<Completion>, i: nat)
    requires i < |completions|
    ensures Succeeded(completions[..i + 1]) ==
            if completions[i].ok then Succeeded(completions[..i]) + {completions[i].record} else Succeeded(completions[..i])
  {
    assert completions[..i + 1] == completions[..i] + [completions[i]];
  }

  lemma {:induction false} TotalPrefixEmpty(keys: seq<PartitionKey>, records: seq<Record>)
    ensures TotalPrefix(keys, records, {}) == 0
  {
    if keys != [] {
      TotalPrefixEmpty(keys[1..], records);
    }
  }

  lemma MarkKeepsOthers(records: seq<Record>, done: set<Record>, r: Record)
    ensures forall p :: p != r.Home() ==> MarkedOffsets(done + {r}, p) == MarkedOffsets(done, p)
  {
  }

  // The offset that closed the prefix is the offset of a polled record.
  lemma NextRecord(lookup: Lookup, records: seq<Record>, done: set<Record>, r: Record, completedOffset: int)
    requires Finds(lookup, records)
    requires PrefixOf(records, done + {r}, r.Home()) > 0
    requires completedOffset == LastOfPrefix(records, done + {r}, r.Home())
    ensures r.Home() in lookup && completedOffset in lookup[r.Home()]
    ensures var next := lookup[r.Home()][completedOffset]; next in records && next.Home() == r.Home() && next.offset == completedOffset
  {
    PartitionOffsetsMembers(records, r.Home());
    assert completedOffset in PartitionOffsets(records, r.Home());
    var next :| next in records && next.Home() == r.Home() && next.offset == completedOffset;
  }
}
