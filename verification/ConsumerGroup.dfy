// What the runners rely on from the broker and the consumer-group protocol: an
// append-only log with offset gaps per partition, one committed offset per
// partition, and at most one owner per partition.
module ConsumerGroup {
  import opened KafkaTypes

  type Member = nat

  datatype Broker = Broker(
    log: set<Record>,
    high: map<PartitionKey, nat>,       // every offset below is used up
    start: map<PartitionKey, nat>,      // where the group began
    committed: map<PartitionKey, nat>,  // next offset to consume
    owner: map<PartitionKey, Member>,
    handled: set<Record>)               // the handler returned nil at least once

  // All records of p from the group's start up to the limit have been handled.
  ghost predicate Covered(b: Broker, p: PartitionKey, limit: nat) {
    p in b.start && forall r :: r in b.log && r.Home() == p && b.start[p] <= r.offset < limit ==> r in b.handled
  }

  // One record per partition and offset, below the partition's high watermark.
  ghost predicate LogInv(log: set<Record>, high: map<PartitionKey, nat>) {
    && (forall r :: r in log ==> r.Home() in high && r.offset < high[r.Home()])
    && (forall a, c :: a in log && c in log && a.Home() == c.Home() && a.offset == c.offset ==> a == c)
  }

  ghost predicate BrokerInv(b: Broker) {
    && b.high.Keys == b.start.Keys == b.committed.Keys
    && b.owner.Keys <= b.high.Keys
    && LogInv(b.log, b.high)
    && (forall p :: p in b.committed ==> b.committed[p] <= b.high[p] && Covered(b, p, b.committed[p]))
  }

  // The group starts at its committed offsets; nobody owns anything yet.
  ghost predicate BrokerInit(b: Broker) {
    && b.high.Keys == b.start.Keys && b.committed == b.start
    && b.owner == map[] && b.handled == {}
    && LogInv(b.log, b.high)
    && (forall p :: p in b.start ==> b.start[p] <= b.high[p])
  }

  lemma BrokerInitInv(b: Broker)
    requires BrokerInit(b)
    ensures BrokerInv(b)
  {
  }

  // ---- broker steps ----

  predicate CanAppend(b: Broker, r: Record) {
    r.Home() in b.high && b.high[r.Home()] <= r.offset
  }

  // A producer appends, possibly leaving a gap below the new offset.
  function Append(b: Broker, r: Record): Broker
    requires CanAppend(b, r)
  {
    b.(log := b.log + {r}, high := b.high[r.Home() := r.offset + 1])
  }

  function Assign(b: Broker, p: PartitionKey, m: Member): Broker {
    b.(owner := b.owner[p := m])
  }

  function Unassign(b: Broker, p: PartitionKey): Broker {
    b.(owner := b.owner - {p})
  }

  function Owned(b: Broker, m: Member): set<PartitionKey> {
    set p | p in b.owner && b.owner[p] == m
  }

  function UnassignAll(b: Broker, m: Member): Broker {
    b.(owner := b.owner - Owned(b, m))
  }

  function Handle(b: Broker, r: Record): Broker {
    b.(handled := b.handled + {r})
  }

  // CommitRecords sets a partition's committed offset to its record's offset plus one.
  function Commit(b: Broker, commit: map<PartitionKey, Record>): Broker {
    b.(committed := map p | p in b.committed :: if p in commit then commit[p].offset + 1 else b.committed[p])
  }

  // ---- what each step keeps ----

  // Later broker states, as a session that does not commit sees them.
  ghost predicate Extends(b: Broker, c: Broker) {
    && b.start == c.start && b.high.Keys == c.high.Keys
    && b.log <= c.log && b.handled <= c.handled
    && (forall p :: p in b.high ==> b.high[p] <= c.high[p])
    && (forall r :: r in c.log && r !in b.log && r.Home() in b.high ==> b.high[r.Home()] <= r.offset)
  }

  lemma CoveredExtends(b: Broker, c: Broker, p: PartitionKey, limit: nat)
    requires Extends(b, c) && Covered(b, p, limit) && p in b.high && limit <= b.high[p]
    ensures Covered(c, p, limit)
  {
  }

  lemma LogAppend(log: set<Record>, high: map<PartitionKey, nat>, r: Record)
    requires LogInv(log, high) && r.Home() in high && high[r.Home()] <= r.offset
    ensures LogInv(log + {r}, high[r.Home() := r.offset + 1])
  {
  }

  lemma AppendExtends(b: Broker, r: Record)
    requires BrokerInv(b) && CanAppend(b, r)
    ensures Extends(b, Append(b, r))
  {
    hide LogInv, Covered;
  }

  lemma AppendKeeps(b: Broker, r: Record)
    requires BrokerInv(b) && CanAppend(b, r)
    ensures BrokerInv(Append(b, r)) && Extends(b, Append(b, r))
  {
    hide LogInv, Covered, Extends;
    LogAppend(b.log, b.high, r);
    AppendExtends(b, r);
    var c := Append(b, r);
    forall p | p in c.committed
      ensures c.committed[p] <= c.high[p] && Covered(c, p, c.committed[p])
    {
      CoveredExtends(b, c, p, b.committed[p]);
    }
  }

  lemma HandleKeeps(b: Broker, r: Record)
    requires BrokerInv(b)
    ensures BrokerInv(Handle(b, r)) && Extends(b, Handle(b, r))
  {
    hide LogInv;
    var c := Handle(b, r);
    forall p | p in c.committed
      ensures Covered(c, p, c.committed[p])
    {
      CoveredExtends(b, c, p, b.committed[p]);
    }
  }

  lemma OwnerKeeps(b: Broker, owner: map<PartitionKey, Member>)
    requires BrokerInv(b) && owner.Keys <= b.high.Keys
    ensures BrokerInv(b.(owner := owner)) && Extends(b, b.(owner := owner))
  {
    hide LogInv;
    var c := b.(owner := owner);
    forall p | p in c.committed
      ensures Covered(c, p, c.committed[p])
    {
      CoveredExtends(b, c, p, b.committed[p]);
    }
  }

  // No committed offset moves back.
  ghost predicate NotBack(b: Broker, c: Broker) {
    b.committed.Keys == c.committed.Keys && forall p :: p in b.committed ==> b.committed[p] <= c.committed[p]
  }

  // A commit is safe when everything below it has been handled; it must not move back.
  ghost predicate SafeCommit(b: Broker, p: PartitionKey, next: nat) {
    p in b.committed && p in b.high && b.committed[p] <= next <= b.high[p] && Covered(b, p, next)
  }

  lemma CommitKeeps(b: Broker, commit: map<PartitionKey, Record>)
    requires BrokerInv(b)
    requires forall p :: p in commit ==> SafeCommit(b, p, commit[p].offset + 1)
    ensures BrokerInv(Commit(b, commit)) && Extends(b, Commit(b, commit))
    ensures NotBack(b, Commit(b, commit))
  {
    hide LogInv;
    var c := Commit(b, commit);
    assert c.committed.Keys == b.committed.Keys;
    forall p | p in b.committed
      ensures p in c.high && c.committed[p] <= c.high[p] && Covered(c, p, c.committed[p])
    {
      if p in commit {
        CoveredExtends(b, c, p, commit[p].offset + 1);
      } else {
        CoveredExtends(b, c, p, b.committed[p]);
      }
    }
  }

  // ---- members ----

  // Between windows an owner consumes exactly from its committed offsets.
  ghost predicate InSync(b: Broker, m: Member, positions: map<PartitionKey, nat>) {
    forall p :: p in b.owner && b.owner[p] == m ==> p in positions && p in b.committed && positions[p] == b.committed[p]
  }

  // What member m may rely on while others step: its partitions stay where they are.
  ghost predicate Undisturbed(b: Broker, c: Broker, m: Member) {
    && Extends(b, c)
    && (forall p :: p in c.owner && c.owner[p] == m ==>
          p in b.owner && b.owner[p] == m && (p in b.committed ==> p in c.committed && c.committed[p] == b.committed[p]))
  }

  lemma SameBroker(b: Broker)
    ensures forall n :: Undisturbed(b, b, n)
  {
  }

  lemma OwnerShrinks(b: Broker, owner: map<PartitionKey, Member>)
    requires BrokerInv(b)
    requires forall p :: p in owner ==> p in b.owner && owner[p] == b.owner[p]
    ensures BrokerInv(b.(owner := owner))
    ensures forall n :: Undisturbed(b, b.(owner := owner), n)
  {
    OwnerKeeps(b, owner);
  }
}
