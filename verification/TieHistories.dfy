// When does the order of whole histories decide which run is current?  Two histories that
// hand in the same runs agree on it exactly when no two production identities tie above
// what was current, provided reused runs name older ones that were computed themselves.
module TieHistories {
  import opened Bytes
  import opened ClassificationRun
  import CoarseReuse
  import opened Identity
  import opened Messages
  import opened Repository
  import opened RepositorySafety
  import opened ResultCodec
  import opened Uuid
  import opened Wrappers

  // ---- a longer table acknowledges whatever a shorter one does ----

  ghost predicate Covers(small: Db, large: Db) {
    Identities(RunsOf(small.rows)) <= Identities(RunsOf(large.rows))
  }

  lemma RowOf(rows: seq<Row>, id: JobIdentity)
    requires id in Identities(RunsOf(rows))
    ensures exists i :: 0 <= i < |rows| && IdentityOf(rows[i].run) == id
  {
  }

  lemma CoveredReference(small: Db, large: Db, runs: set<Run>, id: Text)
    requires Covers(small, large) && SameJobs(runs) && RunsOf(small.rows) <= runs && RunsOf(large.rows) <= runs
    requires Referenced(small.rows, id)
    ensures Referenced(large.rows, id)
  {
    hide Identities;
    var i :| 0 <= i < |small.rows| && small.rows[i].run.runID == id;
    var run := small.rows[i].run;
    assert run in RunsOf(small.rows);
    IdentityIn(RunsOf(small.rows), run);
    RowOf(large.rows, IdentityOf(run));
    var j :| 0 <= j < |large.rows| && IdentityOf(large.rows[j].run) == IdentityOf(run);
    assert large.rows[j].run in RunsOf(large.rows);
  }

  lemma IdentityIn(runs: set<Run>, run: Run)
    requires run in runs
    ensures IdentityOf(run) in Identities(runs)
  {
  }

  // A run is recorded exactly when its identity is.
  lemma RecordedExactly(db: Db, runs: set<Run>, run: Run)
    requires SameJobs(runs) && RunsOf(db.rows) <= runs && run in runs
    ensures Clashes(db.rows, run.runID, run.jobID) <==> IdentityOf(run) in Identities(RunsOf(db.rows))
    ensures Recorded(db.rows, run.runID, run.jobID) <==> IdentityOf(run) in Identities(RunsOf(db.rows))
  {
    hide Identities;
    if Clashes(db.rows, run.runID, run.jobID) {
      var i :| 0 <= i < |db.rows| && (db.rows[i].run.runID == run.runID || db.rows[i].run.jobID == run.jobID);
      assert db.rows[i].run in RunsOf(db.rows);
      IdentityIn(RunsOf(db.rows), db.rows[i].run);
    }
    if IdentityOf(run) in Identities(RunsOf(db.rows)) {
      RowOf(db.rows, IdentityOf(run));
      var i :| 0 <= i < |db.rows| && IdentityOf(db.rows[i].run) == IdentityOf(run);
      assert db.rows[i].run in RunsOf(db.rows);
    }
  }

  // What one save leaves, as far as identities go.
  lemma SavedIdentities(db: Db, runs: set<Run>, run: Run, time: int, fate: Fate)
    requires SameJobs(runs) && RunsOf(db.rows) <= runs && run in runs
    ensures var (next, outcome) := Save(db, run, time, fate);
      var ids := Identities(RunsOf(db.rows));
      && RunsOf(next.rows) <= runs
      && Identities(RunsOf(next.rows)) == (if next == db then ids else ids + {IdentityOf(run)})
      && (outcome.Saved? <==> fate != RolledBack && FitsInteger(run) && CheckConstraints(run)
                              && (IdentityOf(run) in ids || (SourceExists(db.rows, run) && fate == Committed)))
      && (next != db <==> FitsInteger(run) && CheckConstraints(run) && SourceExists(db.rows, run)
                          && IdentityOf(run) !in ids && (fate == Committed || fate == CommitUnknown))
  {
    hide CheckConstraints, SourceExists, Identities;
    RecordedExactly(db, runs, run);
    hide Clashes, Recorded;
    var next := Save(db, run, time, fate).0;
    if next != db {
      assert next.rows == db.rows + [Row(run, time)];
      RunsAppend(db.rows, Row(run, time));
      IdentitiesOfUnion(RunsOf(db.rows), {run});
      OneIdentity(run);
    }
  }

  lemma RunsAppend(rows: seq<Row>, row: Row)
    ensures RunsOf(rows + [row]) == RunsOf(rows) + {row.run}
  {
    var all := rows + [row];
    assert all[|rows|] == row;
    forall run | run in RunsOf(rows)
      ensures run in RunsOf(all)
    {
      var i :| 0 <= i < |rows| && rows[i].run == run;
      assert all[i].run == run;
    }
  }

  lemma OneIdentity(run: Run)
    ensures Identities({run}) == {IdentityOf(run)}
  {
  }

  lemma SaveCovers(small: Db, large: Db, runs: set<Run>, run: Run, time: int, fate: Fate)
    requires Covers(small, large) && SameJobs(runs) && RunsOf(small.rows) <= runs && RunsOf(large.rows) <= runs && run in runs
    ensures Covers(Save(small, run, time, fate).0, Save(large, run, time, fate).0)
    ensures RunsOf(Save(small, run, time, fate).0.rows) <= runs && RunsOf(Save(large, run, time, fate).0.rows) <= runs
    ensures Save(small, run, time, fate).1.Saved? ==> Save(large, run, time, fate).1.Saved?
  {
    hide Save, Identities, RunsOf, Referenced, SameJobs, CheckConstraints;
    SavedIdentities(small, runs, run, time, fate);
    SavedIdentities(large, runs, run, time, fate);
    if SourceExists(small.rows, run) && run.coarseSourceRunID.Some? {
      CoveredReference(small, large, runs, run.coarseSourceRunID.value);
    }
  }

  lemma {:induction false} SaveAllCovers(small: Db, large: Db, runs: set<Run>, h: seq<Attempt>)
    requires Covers(small, large) && SameJobs(runs) && RunsOf(small.rows) <= runs && RunsOf(large.rows) <= runs && RunsIn(h) <= runs
    ensures Covers(SaveAll(small, h), SaveAll(large, h))
    ensures RunsOf(SaveAll(small, h).rows) <= runs && RunsOf(SaveAll(large, h).rows) <= runs
    decreases |h|
  {
    hide Save, Covers, SameJobs, RunsOf;
    if h != [] {
      var front, last := h[..|h| - 1], h[|h| - 1];
      FrontRuns(h, |h| - 1);
      SaveAllCovers(small, large, runs, front);
      SaveCovers(SaveAll(small, front), SaveAll(large, front), runs, last.run, last.time, last.fate);
    }
  }

  lemma FrontRuns(h: seq<Attempt>, k: nat)
    requires k < |h|
    ensures RunsIn(h[..k]) <= RunsIn(h) && h[k].run in RunsIn(h)
  {
    assert forall i :: 0 <= i < k ==> h[..k][i] == h[i];
  }

  lemma AnswersCover(small: Db, large: Db, runs: set<Run>, h: seq<Attempt>, k: nat)
    requires Covers(small, large) && SameJobs(runs) && RunsOf(small.rows) <= runs && RunsOf(large.rows) <= runs && RunsIn(h) <= runs
    requires k < |h|
    ensures Answer(small, h, k).Saved? ==> Answer(large, h, k).Saved?
  {
    hide Save, Covers, SameJobs, RunsOf;
    FrontRuns(h, k);
    SaveAllCovers(small, large, runs, h[..k]);
    SaveCovers(SaveAll(small, h[..k]), SaveAll(large, h[..k]), runs, h[k].run, h[k].time, h[k].fate);
  }

  // ---- putting a history after another ----

  lemma {:induction false} SaveAllAppend(db: Db, p: seq<Attempt>, h: seq<Attempt>)
    ensures SaveAll(db, p + h) == SaveAll(SaveAll(db, p), h)
    decreases |h|
  {
    hide Save;
    if h == [] {
      assert p + h == p;
    } else {
      assert (p + h)[..|p + h| - 1] == p + h[..|h| - 1];
      SaveAllAppend(db, p, h[..|h| - 1]);
    }
  }

  lemma AnswerAppend(db: Db, p: seq<Attempt>, h: seq<Attempt>, k: nat)
    requires k < |h|
    ensures Answer(db, p + h, |p| + k) == Answer(SaveAll(db, p), h, k)
  {
    hide Save, SaveAll;
    assert (p + h)[..|p| + k] == p + h[..k];
    SaveAllAppend(db, p, h[..k]);
  }

  // Running a history again after any of its own runs leaves it acknowledged.
  lemma StillAcknowledged(db: Db, p: seq<Attempt>, h: seq<Attempt>)
    requires ValidDb(db) && Consistent(db, h) && AllAcknowledged(db, h) && RunsIn(p) <= RunsIn(h)
    ensures RunsIn(p + h) == RunsIn(h) && AllAcknowledged(db, p + h)
  {
    hide ValidDb, SaveAll, Answer, SameJobs, RunsOf;
    RunsOfBoth(p, h);
    var runs := RunsOf(db.rows) + RunsIn(h);
    hide RunsIn;
    SubsetSameJobs(RunsOf(db.rows) + RunsIn(p), runs);
    SaveAllAdds(db, p);
    SaveAllKeeps(db, p);
    var large := SaveAll(db, p);
    PrefixRuns(db.rows, large.rows);
    IdentitiesMonotone(RunsOf(db.rows), RunsOf(large.rows));
    forall k | 0 <= k < |p + h|
      ensures Acknowledged(db, p + h, IdentityOf((p + h)[k].run))
    {
      AttemptOfBoth(p, h, k);
      var j :| 0 <= j < |h| && h[j].run == (p + h)[k].run;
      assert Acknowledged(db, h, IdentityOf(h[j].run));
      var l :| 0 <= l < |h| && IdentityOf(h[l].run) == IdentityOf(h[j].run) && Answer(db, h, l).Saved?;
      AnswersCover(db, large, runs, h, l);
      AnswerAppend(db, p, h, l);
      assert (p + h)[|p| + l] == h[l];
    }
  }

  lemma RunsOfBoth(p: seq<Attempt>, h: seq<Attempt>)
    requires RunsIn(p) <= RunsIn(h)
    ensures RunsIn(p + h) == RunsIn(h)
  {
    forall run
      ensures run in RunsIn(p + h) <==> run in RunsIn(h)
    {
      if run in RunsIn(h) {
        var k :| 0 <= k < |h| && h[k].run == run;
        assert (p + h)[|p| + k] == h[k];
      }
      if run in RunsIn(p + h) {
        var k :| 0 <= k < |p + h| && (p + h)[k].run == run;
        AttemptOfBoth(p, h, k);
      }
    }
  }

  lemma AttemptOfBoth(p: seq<Attempt>, h: seq<Attempt>, k: nat)
    requires RunsIn(p) <= RunsIn(h) && k < |p + h|
    ensures exists j :: 0 <= j < |h| && h[j].run == (p + h)[k].run
  {
    if k < |p| {
      assert p[k].run in RunsIn(p);
      var j :| 0 <= j < |h| && h[j].run == p[k].run;
    } else {
      assert h[k - |p|].run == (p + h)[k].run;
    }
  }

  // ---- two histories that disagree ----

  // A source was computed, and for an older revision.
  predicate SourceAt(rows: seq<Row>, j: nat, run: Run) {
    && j < |rows| && run.coarseSourceRunID == Some(rows[j].run.runID)
    && rows[j].run.coarseSourceRunID.None? && rows[j].run.lightCurveRevision < run.lightCurveRevision
  }

  ghost predicate ChainsEnd(rows: seq<Row>) {
    forall i :: 0 <= i < |rows| && rows[i].run.coarseSourceRunID.Some? ==> exists j: nat :: SourceAt(rows, j, rows[i].run)
  }

  // Every database that the pipeline reaches is like that.
  lemma ReachableChainsEnd(digest: Digest, steps: seq<CoarseReuse.Step>)
    requires CoarseReuse.Legal(digest, steps)
    ensures ChainsEnd(CoarseReuse.RunSteps(steps).db.rows)
  {
    hide CoarseReuse.Legal, CoarseReuse.RunSteps, ValidDb, AcceptableRun, CoarseReuse.RunHolds, CoarseReuse.LookupHolds;
    CoarseReuse.RunInv(digest, steps);
    var rows := CoarseReuse.RunSteps(steps).db.rows;
    forall i | 0 <= i < |rows| && rows[i].run.coarseSourceRunID.Some?
      ensures exists j: nat :: SourceAt(rows, j, rows[i].run)
    {
      assert AcceptableRun(digest, rows[i].run);
      ReusedType(digest, rows[i].run);
      ReusedSource(digest, steps, i);
    }
  }

  lemma ReusedSource(digest: Digest, steps: seq<CoarseReuse.Step>, i: nat)
    requires var rows := CoarseReuse.RunSteps(steps).db.rows;
      CoarseReuse.Legal(digest, steps) && i < |rows| && rows[i].run.coarseSourceType == REUSED_PREVIOUS
    ensures var rows := CoarseReuse.RunSteps(steps).db.rows;
      exists j: nat :: SourceAt(rows, j, rows[i].run)
  {
    hide CoarseReuse.Legal, CoarseReuse.RunSteps;
    CoarseReuse.ReuseChainsHaveLengthOne(digest, steps, i);
    var rows := CoarseReuse.RunSteps(steps).db.rows;
    var j :| 0 <= j < |rows| && rows[i].run.coarseSourceRunID == Some(rows[j].run.runID)
      && rows[j].run.lightCurveRevision == rows[i].run.coarseSourceRevision < rows[i].run.lightCurveRevision
      && rows[j].run.coarseSourceRunID.None?;
    assert SourceAt(rows, j, rows[i].run);
  }

  lemma ReusedType(digest: Digest, run: Run)
    requires AcceptableRun(digest, run) && run.coarseSourceRunID.Some?
    ensures run.coarseSourceType == REUSED_PREVIOUS
  {
    hide DerivedIdentifiers, PredictedCoarse, PredictedLeaf, CanonicalNonNil;
  }

  // The history h, its consistent runs and its final table.
  ghost predicate Settled(db: Db, h: seq<Attempt>) {
    ValidDb(db) && Consistent(db, h) && AllAcknowledged(db, h) && ChainsEnd(SaveAll(db, h).rows)
  }

  // A stored row of the history can be saved at any time, its source first.
  lemma SourceFirst(db: Db, h: seq<Attempt>, d: Db, i: nat) returns (p: seq<Attempt>)
    requires Settled(db, h) && i < |SaveAll(db, h).rows|
    requires db.rows <= d.rows && RunsOf(d.rows) <= RunsOf(db.rows) + RunsIn(h)
    ensures var run := SaveAll(db, h).rows[i].run;
      && RunsIn(p) <= RunsIn(h) && SourceExists(SaveAll(d, p).rows, run)
      && forall r :: r in RunsIn(p) ==> r.lightCurveRevision < run.lightCurveRevision
  {
    hide SaveAll, AllAcknowledged, CheckConstraints, SameJobs, UniqueIds, CurrentTable, SourcesEarlier;
    var rows := SaveAll(db, h).rows;
    var run := rows[i].run;
    if SourceExists(d.rows, run) {
      NothingSaved(d);
      return [];
    }
    var j: nat :| SourceAt(rows, j, run);
    var source := rows[j].run;
    assert source in RunsOf(rows);
    SaveAllKeeps(db, h);
    SaveAllAdds(db, h);
    var runs := RunsOf(db.rows) + RunsIn(h);
    RecordedExactly(d, runs, source);
    NotReferenced(db, d, source);
    p := [Attempt(source, 0, Committed)];
    OneSaved(d, source);
    assert SaveAll(d, p).rows[|d.rows|].run == source;
  }

  lemma NothingSaved(d: Db)
    ensures SaveAll(d, []) == d && RunsIn([]) == {}
  {
  }

  lemma OneSaved(d: Db, run: Run)
    requires Insertable(d, run)
    ensures SaveAll(d, [Attempt(run, 0, Committed)]) == Inserted(d, run, 0)
    ensures RunsIn([Attempt(run, 0, Committed)]) == {run}
  {
    hide CheckConstraints;
    var p := [Attempt(run, 0, Committed)];
    assert p[..0] == [];
    assert SaveAll(d, p[..0]) == d;
    assert p[0].run in RunsIn(p);
  }

  lemma NotReferenced(db: Db, d: Db, source: Run)
    requires db.rows <= d.rows && !Referenced(d.rows, source.runID)
    ensures source !in RunsOf(db.rows) && !Recorded(d.rows, source.runID, source.jobID)
  {
  }

  // What was stored before stays below a tie.
  lemma StoredBelowTop(db: Db, ids: set<JobIdentity>, object_: Text, top: JobIdentity)
    requires ValidDb(db) && IsTop(Identities(RunsOf(db.rows)) + ids, object_, top) && !AlreadyCurrent(db, ids, object_)
    ensures forall id :: id in Identities(RunsOf(db.rows)) && id.objectID == object_ && id.executionMode == PRODUCTION ==>
      id.lightCurveRevision < top.lightCurveRevision
  {
    hide UniqueIds, RowsChecked, SourcesEarlier;
    forall id | id in Identities(RunsOf(db.rows)) && id.objectID == object_ && id.executionMode == PRODUCTION
      ensures id.lightCurveRevision < top.lightCurveRevision
    {
      RowOf(db.rows, id);
      var i :| 0 <= i < |db.rows| && IdentityOf(db.rows[i].run) == id;
      hide Identities, CurrentIs;
      assert object_ in db.current;
      StoredAtMostCurrent(db, object_);
    }
  }

  // After any runs of the history that are older, a top row of it can be saved and would
  // become current.
  lemma TopInsertable(db: Db, h: seq<Attempt>, object_: Text, p: seq<Attempt>, i: nat)
    requires Settled(db, h) && !AlreadyCurrent(db, Identities(RunsIn(h)), object_) && i < |SaveAll(db, h).rows|
    requires RunsIn(p) <= RunsIn(h)
    requires var run := SaveAll(db, h).rows[i].run;
      && IsTop(Identities(RunsOf(db.rows)) + Identities(RunsIn(h)), object_, IdentityOf(run))
      && SourceExists(SaveAll(db, p).rows, run)
      && forall r :: r in RunsIn(p) ==> r.lightCurveRevision < run.lightCurveRevision
    ensures var run := SaveAll(db, h).rows[i].run;
      Insertable(SaveAll(db, p), run) && Advances(SaveAll(db, p).current, run) && run in RunsIn(h)
  {
    hide SaveAll, AllAcknowledged, CheckConstraints, SameJobs, ValidDb, ChainsEnd, SourceExists, AlreadyCurrent, RunsOf, RunsIn, Identities, Clashes, Recorded;
    var runs, run, d := RunsOf(db.rows) + RunsIn(h), SaveAll(db, h).rows[i].run, SaveAll(db, p);
    StoredBelowTop(db, Identities(RunsIn(h)), object_, IdentityOf(run));
    RowChecked(db, h, i);
    SaveAllKeeps(db, p);
    SubsetSameJobs(RunsOf(db.rows) + RunsIn(p), runs);
    SaveAllAdds(db, p);
    RecordedExactly(d, runs, run);
    if run in RunsOf(db.rows) {
      IdentityIn(RunsOf(db.rows), run);
    }
    OlderIdentities(db, p, d, object_, IdentityOf(run));
    if object_ in d.current {
      CurrentIsTop(d, object_);
    }
  }

  lemma RowChecked(db: Db, h: seq<Attempt>, i: nat)
    requires Settled(db, h) && i < |SaveAll(db, h).rows|
    ensures var run := SaveAll(db, h).rows[i].run;
      FitsInteger(run) && CheckConstraints(run) && run in RunsOf(db.rows) + RunsIn(h)
  {
    hide SaveAll, AllAcknowledged, CheckConstraints, SameJobs, UniqueIds, CurrentTable, SourcesEarlier, ChainsEnd;
    SaveAllKeeps(db, h);
    SaveAllAdds(db, h);
    assert SaveAll(db, h).rows[i].run in RunsOf(SaveAll(db, h).rows);
  }

  lemma OlderIdentities(db: Db, p: seq<Attempt>, d: Db, object_: Text, top: JobIdentity)
    requires RunsOf(d.rows) <= RunsOf(db.rows) + RunsIn(p)
    requires forall r :: r in RunsIn(p) ==> r.lightCurveRevision < top.lightCurveRevision
    requires forall id :: id in Identities(RunsOf(db.rows)) && id.objectID == object_ && id.executionMode == PRODUCTION ==>
      id.lightCurveRevision < top.lightCurveRevision
    ensures forall id :: id in Identities(RunsOf(d.rows)) && id.objectID == object_ && id.executionMode == PRODUCTION ==>
      id.lightCurveRevision < top.lightCurveRevision
  {
    hide RunsOf, RunsIn;
    forall id | id in Identities(RunsOf(d.rows)) && id.objectID == object_ && id.executionMode == PRODUCTION
      ensures id.lightCurveRevision < top.lightCurveRevision
    {
      var run :| run in RunsOf(d.rows) && IdentityOf(run) == id;
      if run in RunsOf(db.rows) {
        IdentityIn(RunsOf(db.rows), run);
      }
    }
  }

  // Two rows of the final table that tie at the top.
  lemma TiedRows(db: Db, h: seq<Attempt>, object_: Text) returns (i: nat, j: nat)
    requires Settled(db, h) && !NoTie(Identities(RunsOf(db.rows)) + Identities(RunsIn(h)), object_)
    ensures var rows, ids := SaveAll(db, h).rows, Identities(RunsOf(db.rows)) + Identities(RunsIn(h));
      && i < |rows| && j < |rows| && IdentityOf(rows[i].run) != IdentityOf(rows[j].run)
      && IsTop(ids, object_, IdentityOf(rows[i].run)) && IsTop(ids, object_, IdentityOf(rows[j].run))
  {
    hide SaveAll, AllAcknowledged, ValidDb, Consistent, ChainsEnd, Identities;
    FinalIdentities(db, h);
    var ids := Identities(RunsOf(db.rows)) + Identities(RunsIn(h));
    var x, y :| IsTop(ids, object_, x) && IsTop(ids, object_, y) && x != y;
    RowOf(SaveAll(db, h).rows, x);
    RowOf(SaveAll(db, h).rows, y);
    i :| 0 <= i < |SaveAll(db, h).rows| && IdentityOf(SaveAll(db, h).rows[i].run) == x;
    j :| 0 <= j < |SaveAll(db, h).rows| && IdentityOf(SaveAll(db, h).rows[j].run) == y;
  }

  // Older runs of the history that make room for both.
  lemma BothSources(db: Db, h: seq<Attempt>, i: nat, j: nat) returns (p: seq<Attempt>)
    requires Settled(db, h) && i < |SaveAll(db, h).rows| && j < |SaveAll(db, h).rows|
    requires SaveAll(db, h).rows[i].run.lightCurveRevision == SaveAll(db, h).rows[j].run.lightCurveRevision
    ensures var a, b := SaveAll(db, h).rows[i].run, SaveAll(db, h).rows[j].run;
      && RunsIn(p) <= RunsIn(h)
      && SourceExists(SaveAll(db, p).rows, a) && SourceExists(SaveAll(db, p).rows, b)
      && forall r :: r in RunsIn(p) ==> r.lightCurveRevision < a.lightCurveRevision
  {
    hide SaveAll, AllAcknowledged, ValidDb, SameJobs, ChainsEnd;
    var runs := RunsOf(db.rows) + RunsIn(h);
    var first := SourceFirst(db, h, db, i);
    RowsOnlyGrow(db, first);
    SubsetSameJobs(RunsOf(db.rows) + RunsIn(first), runs);
    SaveAllAdds(db, first);
    var second := SourceFirst(db, h, SaveAll(db, first), j);
    RowsOnlyGrow(SaveAll(db, first), second);
    p := first + second;
    SaveAllAppend(db, first, second);
    RunsOfSum(first, second);
    SourceStays(SaveAll(db, first).rows, SaveAll(db, p).rows, SaveAll(db, h).rows[i].run);
  }

  lemma RunsOfSum(p: seq<Attempt>, q: seq<Attempt>)
    ensures RunsIn(p + q) <= RunsIn(p) + RunsIn(q)
  {
    forall run | run in RunsIn(p + q)
      ensures run in RunsIn(p) + RunsIn(q)
    {
      var k :| 0 <= k < |p + q| && (p + q)[k].run == run;
      if k < |p| {
        assert p[k].run == run;
      } else {
        assert q[k - |p|].run == run;
      }
    }
  }

  lemma SourceStays(rows: seq<Row>, next: seq<Row>, run: Run)
    requires rows <= next && SourceExists(rows, run)
    ensures SourceExists(next, run)
  {
    if run.coarseSourceRunID.Some? {
      var i :| 0 <= i < |rows| && rows[i].run.runID == run.coarseSourceRunID.value;
      assert next[i].run.runID == run.coarseSourceRunID.value;
    }
  }

  // Hands in exactly the runs of h and gets everything acknowledged.
  ghost predicate Replays(db: Db, h: seq<Attempt>, x: seq<Attempt>) {
    RunsIn(x) == RunsIn(h) && AllAcknowledged(db, x)
  }

  ghost predicate CurrentAfter(db: Db, x: seq<Attempt>, object_: Text, c: Option<Current>) {
    var current := SaveAll(db, x).current;
    c == if object_ in current then Some(current[object_]) else None
  }

  // A run that ties at the top, saved before the others, stays current to the end.
  lemma FirstStaysCurrent(db: Db, h: seq<Attempt>, object_: Text, p: seq<Attempt>, a: Run, b: Run)
    requires Settled(db, h) && RunsIn(p) <= RunsIn(h) && a in RunsIn(h) && b in RunsIn(h)
    requires IsTop(Identities(RunsOf(db.rows)) + Identities(RunsIn(h)), object_, IdentityOf(a))
    requires var d := SaveAll(db, p); Insertable(d, a) && Insertable(d, b) && Tie(d, a, b) && a.runID != b.runID && a.jobID != b.jobID
    ensures var x := p + [Attempt(a, 0, Committed), Attempt(b, 0, Committed)] + h;
      Replays(db, h, x) && CurrentAfter(db, x, object_, Some(Current(a.runID, a.lightCurveRevision)))
  {
    hide Insertable, SaveAll, AllAcknowledged, ValidDb, SameJobs, ChainsEnd, RunsOf, Identities, Tie, Save;
    var pair := [Attempt(a, 0, Committed), Attempt(b, 0, Committed)];
    var d, runs := SaveAll(db, p), RunsOf(db.rows) + RunsIn(h);
    PairRuns(a, b);
    RunsOfSum(p, pair);
    hide RunsIn;
    TiesDependOnOrder(d, a, b, 0, 0);
    SaveAllPair(d, a, b);
    SaveAllAppend(db, p, pair);
    StillAcknowledged(db, p + pair, h);
    SaveAllAppend(db, p + pair, h);
    CurrentMovesUp(SaveAll(db, p + pair), h, IdentityOf(a).objectID);
    FinalBelowTop(db, h, object_, p + pair + h, IdentityOf(a));
  }

  lemma PairRuns(a: Run, b: Run)
    ensures RunsIn([Attempt(a, 0, Committed), Attempt(b, 0, Committed)]) <= {a, b}
  {
  }

  lemma SaveAllPair(d: Db, a: Run, b: Run)
    ensures SaveAll(d, [Attempt(a, 0, Committed), Attempt(b, 0, Committed)]) == BothSaved(d, a, b, 0, 0)
  {
    hide Save;
    var pair := [Attempt(a, 0, Committed), Attempt(b, 0, Committed)];
    assert pair[..1] == [Attempt(a, 0, Committed)] && pair[..1][..0] == [];
    assert SaveAll(d, pair[..1][..0]) == d;
  }

  // No replay ends above the top.
  lemma FinalBelowTop(db: Db, h: seq<Attempt>, object_: Text, x: seq<Attempt>, top: JobIdentity)
    requires Settled(db, h) && Replays(db, h, x)
    requires IsTop(Identities(RunsOf(db.rows)) + Identities(RunsIn(h)), object_, top)
    ensures object_ in SaveAll(db, x).current ==> SaveAll(db, x).current[object_].revision <= top.lightCurveRevision
  {
    hide SaveAll, ValidDb, SameJobs, ChainsEnd, RunsOf, RunsIn, Identities, AllAcknowledged;
    FinalIdentities(db, x);
    SaveAllKeeps(db, x);
    if object_ in SaveAll(db, x).current {
      CurrentIsTop(SaveAll(db, x), object_);
    }
  }

  // A tie above what was current lets two replays end with different runs.
  lemma TieDisagrees(db: Db, h: seq<Attempt>, object_: Text) returns (x: seq<Attempt>, y: seq<Attempt>, a: Run, b: Run)
    requires Settled(db, h)
    requires !AlreadyCurrent(db, Identities(RunsIn(h)), object_)
    requires !NoTie(Identities(RunsOf(db.rows)) + Identities(RunsIn(h)), object_)
    ensures Replays(db, h, x) && Replays(db, h, y) && a.runID != b.runID
    ensures CurrentAfter(db, x, object_, Some(Current(a.runID, a.lightCurveRevision)))
    ensures CurrentAfter(db, y, object_, Some(Current(b.runID, b.lightCurveRevision)))
  {
    hide SaveAll, AllAcknowledged, ValidDb, ChainsEnd, RunsOf, RunsIn, Identities, AlreadyCurrent, NoTie, Insertable, SourceExists, Replays, CurrentAfter;
    var i, j := TiedRows(db, h, object_);
    a, b := SaveAll(db, h).rows[i].run, SaveAll(db, h).rows[j].run;
    var p := BothSources(db, h, i, j);
    TopInsertable(db, h, object_, p, i);
    TopInsertable(db, h, object_, p, j);
    x := p + [Attempt(a, 0, Committed), Attempt(b, 0, Committed)] + h;
    y := p + [Attempt(b, 0, Committed), Attempt(a, 0, Committed)] + h;
    FirstStaysCurrent(db, h, object_, p, a, b);
    FirstStaysCurrent(db, h, object_, p, b, a);
  }

  // All replays of a history end with the same current run exactly when it was current
  // already or no two production identities tie at the top.
  lemma OrderDecidesExactlyForTies(db: Db, h: seq<Attempt>, object_: Text)
    requires Settled(db, h)
    ensures (forall x, y, c, d :: Replays(db, h, x) && Replays(db, h, y) && CurrentAfter(db, x, object_, c) && CurrentAfter(db, y, object_, d) ==> c == d)
      <==> || AlreadyCurrent(db, Identities(RunsIn(h)), object_)
           || NoTie(Identities(RunsOf(db.rows)) + Identities(RunsIn(h)), object_)
  {
    hide SaveAll, AllAcknowledged, ValidDb, SameJobs, ChainsEnd, RunsOf, RunsIn, Identities, AlreadyCurrent, NoTie;
    if AlreadyCurrent(db, Identities(RunsIn(h)), object_) || NoTie(Identities(RunsOf(db.rows)) + Identities(RunsIn(h)), object_) {
      forall x, y, c, d | Replays(db, h, x) && Replays(db, h, y) && CurrentAfter(db, x, object_, c) && CurrentAfter(db, y, object_, d)
        ensures c == d
      {
        assert RunsOf(db.rows) + RunsIn(x) + RunsIn(y) == RunsOf(db.rows) + RunsIn(h);
        OrderDoesNotMatterForCurrent(db, x, y, object_);
      }
    } else {
      var x, y, a, b := TieDisagrees(db, h, object_);
    }
  }
}
