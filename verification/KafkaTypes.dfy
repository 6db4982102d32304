// Kafka values shared by the consumer models.
module KafkaTypes {
  import opened Bytes

  datatype PartitionKey = PartitionKey(topic: string, partition: int)

  // One polled record.  Offsets of one partition increase but may leave gaps.
  datatype Record = Record(topic: string, partition: int, offset: nat, key: seq<Byte>, value: seq<Byte>) {
    function Home(): PartitionKey { PartitionKey(topic, partition) }
  }

  // The offsets of the records of one partition, in poll order.
  function PartitionOffsets(records: seq<Record>, p: PartitionKey): seq<int> {
    if records == [] then []
    else
      var front := PartitionOffsets(records[..|records| - 1], p);
      if records[|records| - 1].Home() == p then front + [records[|records| - 1].offset] else front
  }

  ghost predicate Increasing(s: seq<int>) {
    forall i, j :: 0 <= i < j < |s| ==> s[i] < s[j]
  }

  // Poll order: within each partition the offsets strictly increase.
  ghost predicate PollOrdered(records: seq<Record>) {
    forall i, j :: 0 <= i < j < |records| && records[i].Home() == records[j].Home() ==> records[i].offset < records[j].offset
  }

  lemma {:induction false} PartitionOffsetsMembers(records: seq<Record>, p: PartitionKey)
    ensures forall r :: r in records && r.Home() == p ==> r.offset in PartitionOffsets(records, p)
    ensures forall o :: o in PartitionOffsets(records, p) ==> exists r :: r in records && r.Home() == p && r.offset == o
  {
    if records != [] {
      var n := |records| - 1;
      assert records == records[..n] + [records[n]];
      PartitionOffsetsMembers(records[..n], p);
    }
  }

  // Poll order is exactly: every partition's offset sequence is strictly increasing.
  lemma {:induction false} PollOrderedOffsets(records: seq<Record>, p: PartitionKey)
    requires PollOrdered(records)
    ensures Increasing(PartitionOffsets(records, p))
  {
    if records != [] {
      var n := |records| - 1;
      var front := PartitionOffsets(records[..n], p);
      PollOrderedOffsets(records[..n], p);
      PartitionOffsetsMembers(records[..n], p);
      forall i | 0 <= i < |front| && records[n].Home() == p
        ensures front[i] < records[n].offset
      {
        assert front[i] in front;
        var r :| r in records[..n] && r.Home() == p && r.offset == front[i];
      }
    }
  }

  // Membership in a batch determines the record: poll order leaves one record per partition and offset.
  lemma PollOrderedUnique(records: seq<Record>, a: Record, b: Record)
    requires PollOrdered(records) && a in records && b in records
    requires a.Home() == b.Home() && a.offset == b.offset
    ensures a == b
  {
    var i :| 0 <= i < |records| && records[i] == a;
    var j :| 0 <= j < |records| && records[j] == b;
  }
}
