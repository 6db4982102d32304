// internal/adapter/postgres/classification_repository.go over the tables of
// migrations/00002_create_classification_storage.sql.  One save is one atomic step;
// a commit may report failure after it has applied.
module Repository {
  import opened Bytes
  import opened ClassificationRun
  import opened Identity
  import opened Integers
  import opened Wrappers

  datatype Row = Row(run: Run, persistedAt: int)

  datatype Current = Current(runID: Text, revision: Int64)

  datatype Db = Db(rows: seq<Row>, current: map<Text, Current>)

  function EmptyDb(): Db {
    Db([], map[])
  }

  datatype Outcome = Saved(inserted: bool, advanced: bool) | Conflict | SkippedWithoutConflict | Rejected | Failed

  // What an insert that was skipped ran into.
  datatype IdentityCheck = SameIdentity | OtherIdentity | NoMatch

  // How the transaction ends: a statement fails and it rolls back, the commit fails
  // without applying, the commit applies but reports failure, or the commit succeeds.
  datatype Fate = RolledBack | CommitLost | CommitUnknown | Committed

  // ---- constraints ----

  // btrim removes spaces only; TEXT cannot hold NUL.
  predicate StorableText(s: Text) {
    s != [] && s[0] != 32 && s[|s| - 1] != 32 && 0 !in s
  }

  predicate CheckConstraints(run: Run) {
    && StorableText(run.objectID)
    && run.candidateRevision > 0
    && run.lightCurveRevision > 0
    && run.effectiveEpochCount >= 3
    && run.executionMode in {1, 2, 3}
    && run.coarseSourceRevision > 0
    && run.coarseSourceEpochCount >= 3
    && run.coarseSourceRunID != Some(run.runID)
    && SourceConsistency(run)
    && StorableText(run.modelBundleVersion)
    && ValidCoarseClass(run.predictedCoarse)
    && ValidLeafClass(run.predictedLeaf)
  }

  predicate SourceConsistency(run: Run) {
    || (run.coarseSourceType in {1, 3} && run.xgboostExecuted && run.coarseSourceRunID.None?
        && run.coarseSourceRevision == run.lightCurveRevision && run.coarseSourceEpochCount == run.effectiveEpochCount)
    || (run.coarseSourceType == 2 && !run.xgboostExecuted && run.coarseSourceRunID.Some?
        && run.coarseSourceRevision < run.lightCurveRevision)
  }

  // INTEGER columns hold 32 bits.
  predicate FitsInteger(run: Run) {
    run.effectiveEpochCount <= MAX_INT32 && run.coarseSourceEpochCount <= MAX_INT32
  }

  predicate Clashes(rows: seq<Row>, runID: Text, jobID: Text) {
    exists i :: 0 <= i < |rows| && (rows[i].run.runID == runID || rows[i].run.jobID == jobID)
  }

  predicate Recorded(rows: seq<Row>, runID: Text, jobID: Text) {
    exists i :: 0 <= i < |rows| && rows[i].run.runID == runID && rows[i].run.jobID == jobID
  }

  predicate Referenced(rows: seq<Row>, id: Text) {
    exists i :: 0 <= i < |rows| && rows[i].run.runID == id
  }

  predicate SourceExists(rows: seq<Row>, run: Run) {
    run.coarseSourceRunID.Some? ==> Referenced(rows, run.coarseSourceRunID.value)
  }

  // ---- the transaction as a function ----

  predicate Advances(current: map<Text, Current>, run: Run) {
    run.objectID in current ==> current[run.objectID].revision < run.lightCurveRevision
  }

  function Inserted(db: Db, run: Run, time: int): Db {
    var rows := db.rows + [Row(run, time)];
    if run.executionMode == PRODUCTION && Advances(db.current, run)
    then Db(rows, db.current[run.objectID := Current(run.runID, run.lightCurveRevision)])
    else Db(rows, db.current)
  }

  function Save(db: Db, run: Run, time: int, fate: Fate): (Db, Outcome) {
    if !FitsInteger(run) then (db, Rejected)
    else if fate == RolledBack then (db, Failed)
    else if !CheckConstraints(run) then (db, Rejected)
    else if Clashes(db.rows, run.runID, run.jobID) then (db, if Recorded(db.rows, run.runID, run.jobID) then Saved(false, false) else Conflict)
    else if !SourceExists(db.rows, run) then (db, Rejected)
    else
      match fate
      case CommitLost => (db, Failed)
      case CommitUnknown => (Inserted(db, run, time), Failed)
      case Committed => (Inserted(db, run, time), Saved(true, run.executionMode == PRODUCTION && Advances(db.current, run)))
  }

  // ---- the repository ----

  class Store {
    var rows: seq<Row>
    var current: map<Text, Current>

    constructor ()
      ensures Contents() == EmptyDb()
    {
      rows, current := [], map[];
    }

    function Contents(): Db
      reads this
    {
      Db(rows, current)
    }

    // INSERT ... ON CONFLICT DO NOTHING; an error when a constraint fails.
    method InsertRun(run: Run, time: int) returns (inserted: bool, error: bool)
      modifies `rows
      ensures inserted <==> CheckConstraints(run) && !Clashes(old(rows), run.runID, run.jobID) && SourceExists(old(rows), run)
      ensures error <==> !CheckConstraints(run) || (!Clashes(old(rows), run.runID, run.jobID) && !SourceExists(old(rows), run))
      ensures rows == if inserted then old(rows) + [Row(run, time)] else old(rows)
    {
      if !CheckConstraints(run) {
        return false, true;
      }
      if Clashes(rows, run.runID, run.jobID) {
        return false, false;
      }
      if !SourceExists(rows, run) {
        return false, true;
      }
      rows := rows + [Row(run, time)];
      return true, false;
    }

    // One scan for the three EXISTS.
    method ExistingRunIsIdempotent(runID: Text, jobID: Text) returns (check: IdentityCheck)
      ensures check == SameIdentity <==> Recorded(rows, runID, jobID)
      ensures check == NoMatch <==> !Clashes(rows, runID, jobID)
    {
      var sameIdentity, jobConflict, runConflict := false, false, false;
      for i := 0 to |rows|
        invariant sameIdentity <==> exists j :: 0 <= j < i && rows[j].run.runID == runID && rows[j].run.jobID == jobID
        invariant jobConflict <==> exists j :: 0 <= j < i && rows[j].run.jobID == jobID && rows[j].run.runID != runID
        invariant runConflict <==> exists j :: 0 <= j < i && rows[j].run.runID == runID && rows[j].run.jobID != jobID
      {
        var run := rows[i].run;
        sameIdentity := sameIdentity || (run.runID == runID && run.jobID == jobID);
        jobConflict := jobConflict || (run.jobID == jobID && run.runID != runID);
        runConflict := runConflict || (run.runID == runID && run.jobID != jobID);
      }
      if sameIdentity {
        return SameIdentity;
      }
      return if jobConflict || runConflict then OtherIdentity else NoMatch;
    }

    method AdvanceCurrent(run: Run) returns (advanced: bool)
      modifies `current
      ensures advanced <==> Advances(old(current), run)
      ensures current == if advanced then old(current)[run.objectID := Current(run.runID, run.lightCurveRevision)] else old(current)
    {
      if run.objectID in current && current[run.objectID].revision >= run.lightCurveRevision {
        return false;
      }
      current := current[run.objectID := Current(run.runID, run.lightCurveRevision)];
      return true;
    }

    // The transaction.  In particular the error for a skipped insert without a matching
    // conflict never occurs.
    method SaveRunAndMaybeAdvanceCurrent(run: Run, time: int, fate: Fate) returns (outcome: Outcome)
      modifies this
      ensures (Contents(), outcome) == Save(old(Contents()), run, time, fate)
      ensures outcome != SkippedWithoutConflict
    {
      if run.effectiveEpochCount > MAX_INT32 || run.coarseSourceEpochCount > MAX_INT32 {
        return Rejected;
      }
      if fate == RolledBack {
        return Failed;
      }
      var savedRows, savedCurrent := rows, current;
      var inserted, error := InsertRun(run, time);
      if error {
        return Rejected;
      }
      if !inserted {
        var check := ExistingRunIsIdempotent(run.runID, run.jobID);
        return match check
          case SameIdentity => Saved(false, false)
          case OtherIdentity => Conflict
          case NoMatch => SkippedWithoutConflict;
      }
      var advanced := false;
      if run.executionMode == PRODUCTION {
        advanced := AdvanceCurrent(run);
      }
      match fate
      case CommitLost =>
        rows, current := savedRows, savedCurrent;
        return Failed;
      case CommitUnknown =>
        return Failed;
      case Committed =>
        return Saved(true, advanced);
    }
  }
}
