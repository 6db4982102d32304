// What any sequence of saves does to the tables, whatever is duplicated, reordered,
// rolled back or committed without an acknowledgement.
module RepositorySafety {
  import opened Bytes
  import opened ClassificationRun
  import opened Identity
  import opened Messages
  import opened Repository
  import opened ResultCodec
  import opened Uuid
  import opened Wrappers

  // ---- the invariant ----

  ghost predicate UniqueIds(rows: seq<Row>) {
    forall i, j :: 0 <= i < j < |rows| ==> rows[i].run.runID != rows[j].run.runID && rows[i].run.jobID != rows[j].run.jobID
  }

  ghost predicate RowsChecked(rows: seq<Row>) {
    forall i :: 0 <= i < |rows| ==> FitsInteger(rows[i].run) && CheckConstraints(rows[i].run)
  }

  // A referenced row was there first.
  ghost predicate SourcesEarlier(rows: seq<Row>) {
    forall i :: 0 <= i < |rows| ==> SourceExists(rows[..i], rows[i].run)
  }

  predicate ProductionRow(rows: seq<Row>, object_: Text, i: int) {
    0 <= i < |rows| && rows[i].run.objectID == object_ && rows[i].run.executionMode == PRODUCTION
  }

  // The earliest of the rows with the highest revision.
  ghost predicate CurrentRow(rows: seq<Row>, object_: Text, i: int) {
    && ProductionRow(rows, object_, i)
    && forall j :: ProductionRow(rows, object_, j) ==>
         && rows[j].run.lightCurveRevision <= rows[i].run.lightCurveRevision
         && (j < i ==> rows[j].run.lightCurveRevision < rows[i].run.lightCurveRevision)
  }

  ghost predicate CurrentIs(rows: seq<Row>, object_: Text, c: Current) {
    exists i :: CurrentRow(rows, object_, i) && c == Current(rows[i].run.runID, rows[i].run.lightCurveRevision)
  }

  // The current table is a function of the run table.
  ghost predicate CurrentTable(db: Db) {
    && (forall o :: o in db.current ==> CurrentIs(db.rows, o, db.current[o]))
    && (forall i :: 0 <= i < |db.rows| && db.rows[i].run.executionMode == PRODUCTION ==> db.rows[i].run.objectID in db.current)
  }

  ghost predicate ValidDb(db: Db) {
    UniqueIds(db.rows) && RowsChecked(db.rows) && SourcesEarlier(db.rows) && CurrentTable(db)
  }

  lemma EmptyIsValid()
    ensures ValidDb(EmptyDb())
  {
  }

  lemma RowsStayValid(rows: seq<Row>, run: Run, time: int)
    requires UniqueIds(rows) && RowsChecked(rows) && SourcesEarlier(rows)
    requires FitsInteger(run) && CheckConstraints(run) && !Clashes(rows, run.runID, run.jobID) && SourceExists(rows, run)
    ensures var next := rows + [Row(run, time)];
      UniqueIds(next) && RowsChecked(next) && SourcesEarlier(next)
  {
    hide CheckConstraints;
    var next := rows + [Row(run, time)];
    forall i | 0 <= i < |next|
      ensures SourceExists(next[..i], next[i].run)
    {
      if i < |rows| {
        assert next[..i] == rows[..i];
      } else {
        assert next[..i] == rows;
      }
    }
  }

  lemma CurrentStaysFirstMaximum(db: Db, run: Run, time: int)
    requires CurrentTable(db)
    ensures CurrentTable(Inserted(db, run, time))
  {
    var next := Inserted(db, run, time);
    var n := |db.rows|;
    forall o | o in next.current
      ensures CurrentIs(next.rows, o, next.current[o])
    {
      if o == run.objectID && next.current != db.current {
        NewRowIsCurrent(db, run, time);
      } else if o in db.current {
        assert CurrentIs(db.rows, o, db.current[o]);
        var i :| CurrentRow(db.rows, o, i) && db.current[o] == Current(db.rows[i].run.runID, db.rows[i].run.lightCurveRevision);
        assert ProductionRow(next.rows, o, i);
        forall j | ProductionRow(next.rows, o, j)
          ensures next.rows[j].run.lightCurveRevision <= next.rows[i].run.lightCurveRevision
          ensures j < i ==> next.rows[j].run.lightCurveRevision < next.rows[i].run.lightCurveRevision
        {
          assert j < n ==> ProductionRow(db.rows, o, j);
        }
        assert CurrentRow(next.rows, o, i);
      }
    }
  }

  lemma NewRowIsCurrent(db: Db, run: Run, time: int)
    requires CurrentTable(db) && run.executionMode == PRODUCTION && Advances(db.current, run)
    ensures CurrentIs(db.rows + [Row(run, time)], run.objectID, Current(run.runID, run.lightCurveRevision))
  {
    var next, n, o := db.rows + [Row(run, time)], |db.rows|, run.objectID;
    forall j | ProductionRow(next, o, j)
      ensures next[j].run.lightCurveRevision <= run.lightCurveRevision
      ensures j < n ==> next[j].run.lightCurveRevision < run.lightCurveRevision
    {
      if j < n {
        assert ProductionRow(db.rows, o, j) && o in db.current && CurrentIs(db.rows, o, db.current[o]);
      }
    }
    assert CurrentRow(next, o, n);
  }

  // Every save keeps the tables valid and every existing row as it is.
  lemma SaveKeeps(db: Db, run: Run, time: int, fate: Fate)
    requires ValidDb(db)
    ensures var next := Save(db, run, time, fate).0;
      ValidDb(next) && db.rows <= next.rows && |next.rows| <= |db.rows| + 1
  {
    hide CheckConstraints, UniqueIds, RowsChecked, SourcesEarlier, CurrentTable;
    if FitsInteger(run) && CheckConstraints(run) && !Clashes(db.rows, run.runID, run.jobID) && SourceExists(db.rows, run) {
      RowsStayValid(db.rows, run, time);
      CurrentStaysFirstMaximum(db, run, time);
    }
  }

  // ---- sequences of saves ----

  datatype Attempt = Attempt(run: Run, time: int, fate: Fate)

  function SaveAll(db: Db, attempts: seq<Attempt>): Db
    decreases |attempts|
  {
    if attempts == [] then db
    else
      var last := attempts[|attempts| - 1];
      Save(SaveAll(db, attempts[..|attempts| - 1]), last.run, last.time, last.fate).0
  }

  // The answer the k-th caller got.
  function Answer(db: Db, attempts: seq<Attempt>, k: nat): Outcome
    requires k < |attempts|
  {
    Save(SaveAll(db, attempts[..k]), attempts[k].run, attempts[k].time, attempts[k].fate).1
  }

  lemma {:induction false} SaveAllKeeps(db: Db, attempts: seq<Attempt>)
    requires ValidDb(db)
    ensures ValidDb(SaveAll(db, attempts)) && db.rows <= SaveAll(db, attempts).rows
    decreases |attempts|
  {
    if attempts != [] {
      var front, last := attempts[..|attempts| - 1], attempts[|attempts| - 1];
      SaveAllKeeps(db, front);
      SaveKeeps(SaveAll(db, front), last.run, last.time, last.fate);
      hide ValidDb, Save;
    }
  }

  lemma {:induction false} RowsGrow(db: Db, attempts: seq<Attempt>, k: nat)
    requires ValidDb(db) && k <= |attempts|
    ensures SaveAll(db, attempts[..k]).rows <= SaveAll(db, attempts).rows
    decreases |attempts|
  {
    if k == |attempts| {
      assert attempts[..k] == attempts;
    } else {
      var front, last := attempts[..|attempts| - 1], attempts[|attempts| - 1];
      assert front[..k] == attempts[..k];
      RowsGrow(db, front, k);
      SaveAllKeeps(db, front);
      SaveKeeps(SaveAll(db, front), last.run, last.time, last.fate);
      hide ValidDb, Save;
    }
  }

  // ---- identities ----

  ghost function RunsOf(rows: seq<Row>): set<Run> {
    set i | 0 <= i < |rows| :: rows[i].run
  }

  ghost function RunsIn(attempts: seq<Attempt>): set<Run> {
    set k | 0 <= k < |attempts| :: attempts[k].run
  }

  ghost function Identities(runs: set<Run>): set<JobIdentity> {
    set run | run in runs :: IdentityOf(run)
  }

  // Run identifier, job identifier and job identity determine one another.
  ghost predicate SameJobs(runs: set<Run>) {
    forall a, b | a in runs && b in runs ::
      && (a.runID == b.runID <==> IdentityOf(a) == IdentityOf(b))
      && (a.jobID == b.jobID <==> IdentityOf(a) == IdentityOf(b))
  }

  // Derived identifiers have that property wherever the digest does not collide.
  lemma DerivedMeansSameJobs(digest: Digest, runs: set<Run>)
    requires CollisionFree(digest, Identities(runs))
    requires forall run :: run in runs ==> DerivedIdentifiers(digest, run)
    ensures SameJobs(runs)
  {
    hide JobUuid, ValidIdentity, GenerateJobID, GenerateRunID, CollisionFree, CanonicalNonNil;
    forall a, b | a in runs && b in runs
      ensures a.runID == b.runID <==> IdentityOf(a) == IdentityOf(b)
      ensures a.jobID == b.jobID <==> IdentityOf(a) == IdentityOf(b)
    {
      IdentifiersIdentify(digest, Identities(runs), IdentityOf(a), IdentityOf(b));
    }
  }

  lemma SubsetSameJobs(a: set<Run>, b: set<Run>)
    requires a <= b && SameJobs(b)
    ensures SameJobs(a)
  {
  }

  lemma IdentitiesMonotone(a: set<Run>, b: set<Run>)
    requires a <= b
    ensures Identities(a) <= Identities(b)
  {
  }

  lemma IdentitiesOfUnion(a: set<Run>, b: set<Run>)
    ensures Identities(a + b) == Identities(a) + Identities(b)
  {
  }

  lemma PrefixRuns(a: seq<Row>, b: seq<Row>)
    requires a <= b
    ensures RunsOf(a) <= RunsOf(b)
  {
    forall r | r in RunsOf(a)
      ensures r in RunsOf(b)
    {
      var i :| 0 <= i < |a| && a[i].run == r;
      assert b[i].run == r;
    }
  }

  // A save only ever adds the run it was given, and never conflicts.
  lemma SaveAdds(db: Db, run: Run, time: int, fate: Fate)
    requires SameJobs(RunsOf(db.rows) + {run})
    ensures var (next, outcome) := Save(db, run, time, fate);
      && RunsOf(next.rows) <= RunsOf(db.rows) + {run}
      && RunsOf(db.rows) <= RunsOf(next.rows)
      && outcome != Conflict
      && (outcome.Saved? ==> IdentityOf(run) in Identities(RunsOf(next.rows)))
  {
    hide CheckConstraints, SourceExists;
    var (next, outcome) := Save(db, run, time, fate);
    if Clashes(db.rows, run.runID, run.jobID) {
      var i :| 0 <= i < |db.rows| && (db.rows[i].run.runID == run.runID || db.rows[i].run.jobID == run.jobID);
      assert db.rows[i].run in RunsOf(db.rows);
      assert Recorded(db.rows, run.runID, run.jobID);
    }
    PrefixRuns(db.rows, next.rows);
    if outcome.Saved? && outcome.inserted {
      assert next.rows[|db.rows|].run == run;
    }
  }

  ghost predicate Consistent(db: Db, attempts: seq<Attempt>) {
    SameJobs(RunsOf(db.rows) + RunsIn(attempts))
  }

  lemma {:induction false} SaveAllAdds(db: Db, attempts: seq<Attempt>)
    requires Consistent(db, attempts)
    ensures RunsOf(SaveAll(db, attempts).rows) <= RunsOf(db.rows) + RunsIn(attempts)
    decreases |attempts|
  {
    if attempts != [] {
      var front, last := attempts[..|attempts| - 1], attempts[|attempts| - 1];
      assert RunsIn(front) <= RunsIn(attempts) && last.run in RunsIn(attempts) by {
        assert forall k :: 0 <= k < |front| ==> front[k] == attempts[k];
      }
      SaveAllAdds(db, front);
      SaveAdds(SaveAll(db, front), last.run, last.time, last.fate);
      hide Save;
    }
  }

  // Runs with consistent identities never conflict, and an acknowledged save, even one
  // that only found the run already there, leaves its identity in the table for good.
  lemma AcknowledgedIsStored(db: Db, attempts: seq<Attempt>, k: nat)
    requires ValidDb(db) && Consistent(db, attempts) && k < |attempts|
    ensures Answer(db, attempts, k) != Conflict
    ensures Answer(db, attempts, k).Saved? ==> IdentityOf(attempts[k].run) in Identities(RunsOf(SaveAll(db, attempts).rows))
  {
    hide ValidDb, Save, RunsOf, SameJobs;
    var before, after := attempts[..k], attempts[..k + 1];
    assert after[..k] == before && after[k] == attempts[k];
    assert RunsIn(before) <= RunsIn(attempts) && attempts[k].run in RunsIn(attempts) by {
      assert forall i :: 0 <= i < k ==> before[i] == attempts[i];
    }
    SubsetSameJobs(RunsOf(db.rows) + RunsIn(before), RunsOf(db.rows) + RunsIn(attempts));
    SaveAllAdds(db, before);
    SubsetSameJobs(RunsOf(SaveAll(db, before).rows) + {attempts[k].run}, RunsOf(db.rows) + RunsIn(attempts));
    SaveAdds(SaveAll(db, before), attempts[k].run, attempts[k].time, attempts[k].fate);
    RowsGrow(db, attempts, k + 1);
    PrefixRuns(SaveAll(db, after).rows, SaveAll(db, attempts).rows);
  }

  // Some attempt for this identity was acknowledged.
  ghost predicate Acknowledged(db: Db, attempts: seq<Attempt>, id: JobIdentity) {
    exists l :: 0 <= l < |attempts| && IdentityOf(attempts[l].run) == id && Answer(db, attempts, l).Saved?
  }

  // Every identity handed in was acknowledged at least once.
  ghost predicate AllAcknowledged(db: Db, attempts: seq<Attempt>) {
    forall k :: 0 <= k < |attempts| ==> Acknowledged(db, attempts, IdentityOf(attempts[k].run))
  }

  lemma AcknowledgedIdentity(db: Db, attempts: seq<Attempt>, id: JobIdentity)
    requires ValidDb(db) && Consistent(db, attempts) && Acknowledged(db, attempts, id)
    ensures id in Identities(RunsOf(SaveAll(db, attempts).rows))
  {
    hide ValidDb, Consistent, RunsOf, SaveAll, Answer, Identities;
    var l :| 0 <= l < |attempts| && IdentityOf(attempts[l].run) == id && Answer(db, attempts, l).Saved?;
    AcknowledgedIsStored(db, attempts, l);
  }

  lemma AcknowledgedIdentities(db: Db, attempts: seq<Attempt>)
    requires ValidDb(db) && Consistent(db, attempts) && AllAcknowledged(db, attempts)
    ensures Identities(RunsIn(attempts)) <= Identities(RunsOf(SaveAll(db, attempts).rows))
  {
    hide ValidDb, Consistent, RunsOf, SaveAll, Acknowledged;
    forall id | id in Identities(RunsIn(attempts))
      ensures id in Identities(RunsOf(SaveAll(db, attempts).rows))
    {
      AcknowledgedIdentity(db, attempts, id);
    }
  }

  lemma FinalIdentities(db: Db, attempts: seq<Attempt>)
    requires ValidDb(db) && Consistent(db, attempts) && AllAcknowledged(db, attempts)
    ensures Identities(RunsOf(SaveAll(db, attempts).rows)) == Identities(RunsOf(db.rows)) + Identities(RunsIn(attempts))
  {
    hide ValidDb, Consistent, AllAcknowledged, RunsOf, RunsIn, SaveAll, Identities;
    var final := SaveAll(db, attempts).rows;
    SaveAllAdds(db, attempts);
    SaveAllKeeps(db, attempts);
    PrefixRuns(db.rows, final);
    AcknowledgedIdentities(db, attempts);
    IdentitiesMonotone(RunsOf(db.rows), RunsOf(final));
    IdentitiesMonotone(RunsOf(final), RunsOf(db.rows) + RunsIn(attempts));
    IdentitiesOfUnion(RunsOf(db.rows), RunsIn(attempts));
  }

  // The current revisions follow from the identities alone.
  lemma CurrentFollowsIdentities(a: Db, b: Db, object_: Text)
    requires ValidDb(a) && ValidDb(b)
    requires Identities(RunsOf(a.rows)) == Identities(RunsOf(b.rows))
    ensures object_ in a.current ==> object_ in b.current && a.current[object_].revision <= b.current[object_].revision
  {
    hide UniqueIds, RowsChecked, SourcesEarlier;
    if object_ in a.current {
      assert CurrentIs(a.rows, object_, a.current[object_]);
      var i :| CurrentRow(a.rows, object_, i) && a.current[object_] == Current(a.rows[i].run.runID, a.rows[i].run.lightCurveRevision);
      assert a.rows[i].run in RunsOf(a.rows);
      var id := IdentityOf(a.rows[i].run);
      assert id in Identities(RunsOf(a.rows));
      var j :| 0 <= j < |b.rows| && IdentityOf(b.rows[j].run) == id;
      assert ProductionRow(b.rows, object_, j);
      assert CurrentIs(b.rows, object_, b.current[object_]);
    }
  }

  // Two histories that hand in the same identities, in any order and with any
  // duplicates, agree on the stored identities and on every current revision.
  lemma OrderDoesNotMatter(db: Db, a: seq<Attempt>, b: seq<Attempt>)
    requires ValidDb(db)
    requires Consistent(db, a) && AllAcknowledged(db, a)
    requires Consistent(db, b) && AllAcknowledged(db, b)
    requires Identities(RunsIn(a)) == Identities(RunsIn(b))
    ensures Identities(RunsOf(SaveAll(db, a).rows)) == Identities(RunsOf(SaveAll(db, b).rows))
    ensures SaveAll(db, a).current.Keys == SaveAll(db, b).current.Keys
    ensures forall o :: o in SaveAll(db, a).current ==> SaveAll(db, a).current[o].revision == SaveAll(db, b).current[o].revision
  {
    hide ValidDb, SaveAll, Consistent, AllAcknowledged, RunsOf, RunsIn, Identities;
    FinalIdentities(db, a);
    FinalIdentities(db, b);
    SaveAllKeeps(db, a);
    SaveAllKeeps(db, b);
    var x, y := SaveAll(db, a), SaveAll(db, b);
    forall o
      ensures o in x.current <==> o in y.current
      ensures o in x.current ==> x.current[o].revision == y.current[o].revision
    {
      CurrentFollowsIdentities(x, y, o);
      CurrentFollowsIdentities(y, x, o);
    }
  }

  lemma {:induction false} RowsOnlyGrow(db: Db, attempts: seq<Attempt>)
    ensures db.rows <= SaveAll(db, attempts).rows
    decreases |attempts|
  {
    hide CheckConstraints, SourceExists, Clashes, Recorded;
    if attempts != [] {
      RowsOnlyGrow(db, attempts[..|attempts| - 1]);
    }
  }

  // The first row wins.  Once a save applied, acknowledged or not, and whatever was saved
  // in between, any run with the same two identifiers that reaches the table changes
  // nothing and is reported as saved, unless its own fields are refused.
  lemma RepeatIsHarmless(db: Db, run: Run, time: int, fate: Fate, between: seq<Attempt>, replay: Run, again: int, fateAgain: Fate)
    requires Save(db, run, time, fate).0 != db && fateAgain != RolledBack
    requires replay.runID == run.runID && replay.jobID == run.jobID
    ensures var next := SaveAll(Save(db, run, time, fate).0, between);
      Save(next, replay, again, fateAgain) ==
        (next, if FitsInteger(replay) && CheckConstraints(replay) then Saved(false, false) else Rejected)
  {
    hide CheckConstraints, SourceExists;
    var stored := Save(db, run, time, fate).0;
    RowsOnlyGrow(stored, between);
    var next := SaveAll(stored, between);
    assert stored.rows[|db.rows|].run == run && next.rows[|db.rows|].run == run;
  }

  // ---- ties ----

  ghost predicate IsTop(ids: set<JobIdentity>, object_: Text, id: JobIdentity) {
    && id in ids && id.objectID == object_ && id.executionMode == PRODUCTION
    && forall other :: other in ids && other.objectID == object_ && other.executionMode == PRODUCTION ==>
         other.lightCurveRevision <= id.lightCurveRevision
  }

  // No two production identities of the object share its highest revision.
  ghost predicate NoTie(ids: set<JobIdentity>, object_: Text) {
    forall x, y :: IsTop(ids, object_, x) && IsTop(ids, object_, y) ==> x == y
  }

  // The row that is current carries a top identity.
  lemma CurrentIsTop(db: Db, object_: Text)
    requires ValidDb(db) && object_ in db.current
    ensures exists i ::
              && 0 <= i < |db.rows|
              && IsTop(Identities(RunsOf(db.rows)), object_, IdentityOf(db.rows[i].run))
              && db.current[object_] == Current(db.rows[i].run.runID, db.rows[i].run.lightCurveRevision)
  {
    hide UniqueIds, RowsChecked, SourcesEarlier;
    assert CurrentIs(db.rows, object_, db.current[object_]);
    var i :| CurrentRow(db.rows, object_, i) && db.current[object_] == Current(db.rows[i].run.runID, db.rows[i].run.lightCurveRevision);
    assert db.rows[i].run in RunsOf(db.rows);
    var ids, top := Identities(RunsOf(db.rows)), IdentityOf(db.rows[i].run);
    forall other | other in ids && other.objectID == object_ && other.executionMode == PRODUCTION
      ensures other.lightCurveRevision <= top.lightCurveRevision
    {
      var j :| 0 <= j < |db.rows| && IdentityOf(db.rows[j].run) == other;
      assert ProductionRow(db.rows, object_, j);
    }
    assert IsTop(ids, object_, top);
  }

  // Without a tie the identities decide which run is current.
  lemma CurrentFollowsTop(a: Db, b: Db, object_: Text)
    requires ValidDb(a) && ValidDb(b) && SameJobs(RunsOf(a.rows) + RunsOf(b.rows))
    requires Identities(RunsOf(a.rows)) == Identities(RunsOf(b.rows)) && NoTie(Identities(RunsOf(a.rows)), object_)
    ensures object_ in a.current <==> object_ in b.current
    ensures object_ in a.current ==> a.current[object_] == b.current[object_]
  {
    hide ValidDb, Identities, IsTop;
    CurrentFollowsIdentities(a, b, object_);
    CurrentFollowsIdentities(b, a, object_);
    if object_ in a.current {
      CurrentIsTop(a, object_);
      CurrentIsTop(b, object_);
      var i :| 0 <= i < |a.rows| && IsTop(Identities(RunsOf(a.rows)), object_, IdentityOf(a.rows[i].run))
        && a.current[object_] == Current(a.rows[i].run.runID, a.rows[i].run.lightCurveRevision);
      var j :| 0 <= j < |b.rows| && IsTop(Identities(RunsOf(b.rows)), object_, IdentityOf(b.rows[j].run))
        && b.current[object_] == Current(b.rows[j].run.runID, b.rows[j].run.lightCurveRevision);
      assert a.rows[i].run in RunsOf(a.rows) && b.rows[j].run in RunsOf(b.rows);
    }
  }

  // A current row gives way only to a higher revision.
  lemma {:induction false} CurrentMovesUp(db: Db, attempts: seq<Attempt>, object_: Text)
    requires object_ in db.current
    ensures var final := SaveAll(db, attempts).current;
      && object_ in final
      && (final[object_] == db.current[object_] || db.current[object_].revision < final[object_].revision)
    decreases |attempts|
  {
    hide CheckConstraints, SourceExists, Clashes, Recorded;
    if attempts != [] {
      CurrentMovesUp(db, attempts[..|attempts| - 1], object_);
    }
  }

  // The current row is there already and nothing handed in is newer.
  ghost predicate AlreadyCurrent(db: Db, ids: set<JobIdentity>, object_: Text) {
    && object_ in db.current
    && forall id :: id in ids && id.objectID == object_ && id.executionMode == PRODUCTION ==>
         id.lightCurveRevision <= db.current[object_].revision
  }

  lemma AlreadyCurrentStays(db: Db, attempts: seq<Attempt>, object_: Text)
    requires ValidDb(db) && Consistent(db, attempts) && AllAcknowledged(db, attempts)
    requires AlreadyCurrent(db, Identities(RunsIn(attempts)), object_)
    ensures var final := SaveAll(db, attempts).current; object_ in final && final[object_] == db.current[object_]
  {
    hide ValidDb, Consistent, AllAcknowledged, SaveAll, Identities;
    SaveAllKeeps(db, attempts);
    FinalIdentities(db, attempts);
    CurrentMovesUp(db, attempts, object_);
    CurrentIsTop(SaveAll(db, attempts), object_);
    StoredAtMostCurrent(db, object_);
  }

  lemma StoredAtMostCurrent(db: Db, object_: Text)
    requires ValidDb(db) && object_ in db.current
    ensures AlreadyCurrent(db, Identities(RunsOf(db.rows)), object_)
  {
    hide ValidDb, Identities;
    CurrentIsTop(db, object_);
  }

  // Two histories that hand in the same identities also agree on which run is current for
  // an object, unless two of its production identities tie above what was current before.
  lemma OrderDoesNotMatterForCurrent(db: Db, a: seq<Attempt>, b: seq<Attempt>, object_: Text)
    requires ValidDb(db) && SameJobs(RunsOf(db.rows) + RunsIn(a) + RunsIn(b))
    requires AllAcknowledged(db, a) && AllAcknowledged(db, b) && Identities(RunsIn(a)) == Identities(RunsIn(b))
    requires AlreadyCurrent(db, Identities(RunsIn(a)), object_) || NoTie(Identities(RunsOf(db.rows)) + Identities(RunsIn(a)), object_)
    ensures var x, y := SaveAll(db, a).current, SaveAll(db, b).current;
      (object_ in x <==> object_ in y) && (object_ in x ==> x[object_] == y[object_])
  {
    hide ValidDb, SaveAll, AllAcknowledged, RunsOf, RunsIn, Identities, SameJobs, NoTie, AlreadyCurrent;
    var all := RunsOf(db.rows) + RunsIn(a) + RunsIn(b);
    SubsetSameJobs(RunsOf(db.rows) + RunsIn(a), all);
    SubsetSameJobs(RunsOf(db.rows) + RunsIn(b), all);
    if AlreadyCurrent(db, Identities(RunsIn(a)), object_) {
      AlreadyCurrentStays(db, a, object_);
      AlreadyCurrentStays(db, b, object_);
    } else {
      FinalIdentities(db, a);
      FinalIdentities(db, b);
      SaveAllKeeps(db, a);
      SaveAllKeeps(db, b);
      SaveAllAdds(db, a);
      SaveAllAdds(db, b);
      SubsetSameJobs(RunsOf(SaveAll(db, a).rows) + RunsOf(SaveAll(db, b).rows), all);
      CurrentFollowsTop(SaveAll(db, a), SaveAll(db, b), object_);
    }
  }

  // The save goes through.
  ghost predicate Insertable(db: Db, run: Run) {
    FitsInteger(run) && CheckConstraints(run) && !Clashes(db.rows, run.runID, run.jobID) && SourceExists(db.rows, run)
  }

  // Two production runs of one object and revision, above what is current.
  predicate Tie(db: Db, a: Run, b: Run) {
    && a.executionMode == b.executionMode == PRODUCTION
    && a.objectID == b.objectID && a.lightCurveRevision == b.lightCurveRevision
    && Advances(db.current, a)
  }

  // The table after a, then b.
  function BothSaved(db: Db, a: Run, b: Run, time: int, later: int): Db {
    Save(Save(db, a, time, Committed).0, b, later, Committed).0
  }

  // Both orders of two saves leave the same current table exactly when there is no tie.
  lemma OrderMattersExactlyForTies(db: Db, a: Run, b: Run, time: int, later: int)
    requires Insertable(db, a) && Insertable(db, b) && a.runID != b.runID && a.jobID != b.jobID
    ensures BothSaved(db, a, b, time, later).current == BothSaved(db, b, a, time, later).current <==> !Tie(db, a, b)
  {
    hide Save, Insertable;
    SaveBoth(db, a, b, time, later);
    SaveBoth(db, b, a, time, later);
    var x, y := BothSaved(db, a, b, time, later).current, BothSaved(db, b, a, time, later).current;
    if Tie(db, a, b) {
      assert x[a.objectID] != y[a.objectID];
    } else {
      assert forall o :: (o in x <==> o in y) && (o in x ==> x[o] == y[o]);
    }
  }

  lemma SaveBoth(db: Db, a: Run, b: Run, time: int, later: int)
    requires Insertable(db, a) && Insertable(db, b) && a.runID != b.runID && a.jobID != b.jobID
    ensures BothSaved(db, a, b, time, later) == Inserted(Inserted(db, a, time), b, later)
  {
    hide CheckConstraints;
    StillInsertable(db, a, b, time);
  }

  lemma StillInsertable(db: Db, a: Run, b: Run, time: int)
    requires Insertable(db, b) && a.runID != b.runID && a.jobID != b.jobID
    ensures Insertable(Inserted(db, a, time), b)
  {
    hide CheckConstraints;
    if b.coarseSourceRunID.Some? {
      var i :| 0 <= i < |db.rows| && db.rows[i].run.runID == b.coarseSourceRunID.value;
      assert Inserted(db, a, time).rows[i] == db.rows[i];
    }
  }

  // With a tie, whichever run came first is current.
  lemma TiesDependOnOrder(db: Db, a: Run, b: Run, time: int, later: int)
    requires Insertable(db, a) && Insertable(db, b) && a.runID != b.runID && a.jobID != b.jobID && Tie(db, a, b)
    ensures var first, second := BothSaved(db, a, b, time, later).current, BothSaved(db, b, a, time, later).current;
      && a.objectID in first && first[a.objectID] == Current(a.runID, a.lightCurveRevision)
      && a.objectID in second && second[a.objectID] == Current(b.runID, b.lightCurveRevision)
  {
    hide Save, Insertable;
    SaveBoth(db, a, b, time, later);
    SaveBoth(db, b, a, time, later);
  }

  // ---- decoder and constraints agree ----

  // The table refuses an accepted run only when it names itself as its source.
  lemma AcceptedRunsPassConstraints(digest: Digest, run: Run)
    requires AcceptableRun(digest, run)
    ensures FitsInteger(run)
    ensures CheckConstraints(run) <==> run.coarseSourceRunID != Some(run.runID)
  {
    hide GenerateJobID, GenerateRunID, CanonicalNonNil, FirstMaximumIndex, CheckValid, LeafClassAt, CoarseClassAt;
    CleanIsStorable(run.objectID);
    CleanIsStorable(run.modelBundleVersion);
    hide CleanText, StorableText, ValidCoarseClass, ValidLeafClass;
  }

  lemma CleanIsStorable(s: Text)
    ensures CleanText(s) ==> StorableText(s)
  {
  }

  // Every stored row, whoever wrote it, has positive revisions, enough epochs, a known mode
  // and known classes, and a source for an older revision exactly when it did not run the
  // coarse model.
  lemma StoredRowsAreSane(db: Db, i: nat)
    requires ValidDb(db) && i < |db.rows|
    ensures var run := db.rows[i].run;
      && run.objectID != [] && run.modelBundleVersion != [] && 0 !in run.objectID && 0 !in run.modelBundleVersion
      && run.candidateRevision > 0 && run.lightCurveRevision > 0 && run.coarseSourceRevision > 0
      && 3 <= run.effectiveEpochCount < 0x8000_0000 && 3 <= run.coarseSourceEpochCount < 0x8000_0000
      && run.executionMode in {1, 2, 3} && ValidCoarseClass(run.predictedCoarse) && ValidLeafClass(run.predictedLeaf)
      && run.coarseSourceRunID != Some(run.runID)
      && (run.coarseSourceRunID.Some? <==> !run.xgboostExecuted) && (run.coarseSourceRunID.Some? <==> run.coarseSourceType == 2)
      && (run.coarseSourceRunID.Some? ==> run.coarseSourceRevision < run.lightCurveRevision && Referenced(db.rows[..i], run.coarseSourceRunID.value))
      && (run.coarseSourceRunID.None? ==>
            run.coarseSourceRevision == run.lightCurveRevision && run.coarseSourceEpochCount == run.effectiveEpochCount)
  {
    hide UniqueIds, CurrentTable;
    assert FitsInteger(db.rows[i].run) && CheckConstraints(db.rows[i].run) && SourceExists(db.rows[..i], db.rows[i].run);
  }
}
