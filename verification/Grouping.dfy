// groupRecordsForProcessing and recordProcessingKey of
// internal/adapter/kafka/async_consumer.go.
module Grouping {
  import opened Bytes
  import opened KafkaTypes

  // A keyed record is grouped by topic and key, whatever its partition; records
  // without a key are grouped by partition.
  datatype ProcessingKey = Keyed(topic: string, key: seq<Byte>) | Unkeyed(topic: string, partition: int)

  function KeyOf(r: Record): ProcessingKey {
    if r.key != [] then Keyed(r.topic, r.key) else Unkeyed(r.topic, r.partition)
  }

  // The records of one key, in poll order.
  function RecordsOf(records: seq<Record>, k: ProcessingKey): seq<Record> {
    if records == [] then []
    else
      var front := RecordsOf(records[..|records| - 1], k);
      if KeyOf(records[|records| - 1]) == k then front + [records[|records| - 1]] else front
  }

  lemma {:induction false} RecordsOfMembers(records: seq<Record>, k: ProcessingKey)
    ensures forall r :: r in RecordsOf(records, k) <==> r in records && KeyOf(r) == k
    ensures (forall r :: r in records ==> KeyOf(r) != k) ==> RecordsOf(records, k) == []
  {
    if records != [] {
      var n := |records| - 1;
      assert records == records[..n] + [records[n]];
      RecordsOfMembers(records[..n], k);
    }
  }

  lemma {:induction false} RecordsOfOrdered(records: seq<Record>, k: ProcessingKey)
    requires PollOrdered(records)
    ensures PollOrdered(RecordsOf(records, k))
  {
    if records != [] {
      var n := |records| - 1;
      var front := RecordsOf(records[..n], k);
      RecordsOfOrdered(records[..n], k);
      RecordsOfMembers(records[..n], k);
      forall i | 0 <= i < |front| && front[i].Home() == records[n].Home()
        ensures front[i].offset < records[n].offset
      {
        assert front[i] in records[..n];
        var j :| 0 <= j < n && records[j] == front[i];
      }
    }
  }

  ghost predicate DistinctKeys(order: seq<ProcessingKey>) {
    forall i, j :: 0 <= i < j < |order| ==> order[i] != order[j]
  }

  // One group per key: exactly that key's records in poll order.
  ghost predicate Groups(records: seq<Record>, order: seq<ProcessingKey>, groups: seq<seq<Record>>) {
    && |groups| == |order| <= |records|
    && DistinctKeys(order)
    && (forall r :: r in records ==> KeyOf(r) in order)
    && (forall g :: 0 <= g < |order| ==> groups[g] == RecordsOf(records, order[g]))
  }

  // Every record of the batch sits in exactly the group of its key.
  lemma GroupsPartitionBatch(records: seq<Record>, order: seq<ProcessingKey>, groups: seq<seq<Record>>, r: Record)
    requires Groups(records, order, groups)
    ensures r in records <==> exists g :: 0 <= g < |groups| && r in groups[g]
    ensures forall g, h :: 0 <= g < |groups| && 0 <= h < |groups| && r in groups[g] && r in groups[h] ==> g == h
  {
    forall g | 0 <= g < |groups|
      ensures r in groups[g] <==> r in records && KeyOf(r) == order[g]
    {
      RecordsOfMembers(records, order[g]);
    }
    if r in records {
      var g :| 0 <= g < |order| && order[g] == KeyOf(r);
      assert r in groups[g];
    }
  }

  // A group runs its partition's earlier records of the same key first.
  lemma GroupRunsInOrder(records: seq<Record>, order: seq<ProcessingKey>, groups: seq<seq<Record>>, g: nat, i: nat, q: Record)
    requires Groups(records, order, groups) && PollOrdered(records)
    requires g < |groups| && i < |groups[g]|
    requires q in records && q.Home() == groups[g][i].Home() && KeyOf(q) == KeyOf(groups[g][i]) && q.offset < groups[g][i].offset
    ensures exists j :: 0 <= j < i && groups[g][j] == q
  {
    RecordsOfMembers(records, order[g]);
    RecordsOfOrdered(records, order[g]);
    assert groups[g][i] in groups[g];
    var j :| 0 <= j < |groups[g]| && groups[g][j] == q;
  }

  ghost predicate Grouped(groupsByKey: map<ProcessingKey, seq<Record>>, order: seq<ProcessingKey>, records: seq<Record>) {
    && |order| <= |records|
    && DistinctKeys(order)
    && (forall k :: k in groupsByKey <==> k in order)
    && (forall r :: r in records ==> KeyOf(r) in order)
    && (forall k :: k in groupsByKey ==> groupsByKey[k] == RecordsOf(records, k))
  }

  lemma GroupedStep(groupsByKey: map<ProcessingKey, seq<Record>>, order: seq<ProcessingKey>, records: seq<Record>, i: nat)
    requires i < |records| && Grouped(groupsByKey, order, records[..i])
    ensures var k := KeyOf(records[i]);
            if k in groupsByKey then Grouped(groupsByKey[k := groupsByKey[k] + [records[i]]], order, records[..i + 1])
            else var added := groupsByKey[k := []]; Grouped(added[k := added[k] + [records[i]]], order + [k], records[..i + 1])
  {
    var k := KeyOf(records[i]);
    var added := groupsByKey[k := []];
    assert added[k := added[k] + [records[i]]] == groupsByKey[k := [] + [records[i]]];
    assert records[..i + 1] == records[..i] + [records[i]];
    assert records[..i + 1][..i] == records[..i];
    RecordsOfMembers(records[..i], k);
  }

  lemma GroupedMeansGroups(groupsByKey: map<ProcessingKey, seq<Record>>, order: seq<ProcessingKey>, records: seq<Record>, groups: seq<seq<Record>>)
    requires Grouped(groupsByKey, order, records)
    requires |groups| == |order| && forall g :: 0 <= g < |order| ==> order[g] in groupsByKey && groups[g] == groupsByKey[order[g]]
    ensures Groups(records, order, groups)
  {
    hide RecordsOf, KeyOf;
  }

  lemma GroupedKeys(groupsByKey: map<ProcessingKey, seq<Record>>, order: seq<ProcessingKey>, records: seq<Record>)
    requires Grouped(groupsByKey, order, records)
    ensures forall g :: 0 <= g < |order| ==> order[g] in groupsByKey
  {
    hide RecordsOf, KeyOf;
  }

  method GroupRecords(records: seq<Record>) returns (groups: seq<seq<Record>>, order: seq<ProcessingKey>)
    ensures Groups(records, order, groups)
  {
    assert Grouped(map[], [], records[..0]);
    hide Grouped, RecordsOf, KeyOf;
    var groupsByKey: map<ProcessingKey, seq<Record>> := map[];
    order := [];
    var i := 0;
    while i < |records|
      invariant 0 <= i <= |records| && Grouped(groupsByKey, order, records[..i])
    {
      var r := records[i];
      var key := KeyOf(r);
      GroupedStep(groupsByKey, order, records, i);
      if key !in groupsByKey {
        order := order + [key];
        groupsByKey := groupsByKey[key := []];
      }
      groupsByKey := groupsByKey[key := groupsByKey[key] + [r]];
      i := i + 1;
    }
    assert records[..i] == records;
    GroupedKeys(groupsByKey, order, records);
    groups := [];
    for g := 0 to |order|
      invariant |groups| == g
      invariant forall h :: 0 <= h < g ==> groups[h] == groupsByKey[order[h]]
    {
      groups := groups + [groupsByKey[order[g]]];
    }
    GroupedMeansGroups(groupsByKey, order, records, groups);
  }

  // Two records of a batch are handled by one goroutine exactly when they share topic and
  // key, or have no key and share the partition.
  lemma SameGroupExactly(records: seq<Record>, order: seq<ProcessingKey>, groups: seq<seq<Record>>, r: Record, q: Record)
    requires Groups(records, order, groups) && r in records && q in records
    ensures (exists g :: 0 <= g < |groups| && r in groups[g] && q in groups[g]) <==>
      r.topic == q.topic && r.key == q.key && (r.key == [] ==> r.partition == q.partition)
  {
    GroupsPartitionBatch(records, order, groups, r);
    var g :| 0 <= g < |order| && order[g] == KeyOf(r);
    forall h | 0 <= h < |groups|
      ensures r in groups[h] <==> KeyOf(r) == order[h]
      ensures q in groups[h] <==> KeyOf(q) == order[h]
    {
      RecordsOfMembers(records, order[h]);
    }
    hide RecordsOf;
  }
}
