// The loop through the database: workers look up an older run, publish runs that name
// it, and writers store those runs later, in any order, with other saves in between.
module CoarseReuse {
  import opened AcceptanceChain
  import opened Bytes
  import opened ClassificationRun
  import CommandCodec
  import opened CoarseSelection
  import Identity
  import opened Integers
  import LightCurve
  import opened Messages
  import opened Repository
  import opened RepositorySafety
  import opened ResultCodec
  import RunBuilder
  import opened Uuid
  import opened Wrappers

  // ---- FindLatestCompatibleCoarse ----

  datatype Query = Query(objectID: Text, target: Int64, bundle: Text)

  predicate Eligible(row: Row, q: Query) {
    row.run.objectID == q.objectID && row.run.modelBundleVersion == q.bundle && row.run.xgboostExecuted && row.run.lightCurveRevision < q.target
  }

  predicate TextLess(a: Text, b: Text) {
    b != [] && (a == [] || a[0] < b[0] || (a[0] == b[0] && TextLess(a[1..], b[1..])))
  }

  // ORDER BY light_curve_revision DESC, persisted_at DESC, run_id DESC.
  predicate Before(a: Row, b: Row) {
    || a.run.lightCurveRevision > b.run.lightCurveRevision
    || (a.run.lightCurveRevision == b.run.lightCurveRevision &&
        (a.persistedAt > b.persistedAt || (a.persistedAt == b.persistedAt && TextLess(b.run.runID, a.run.runID))))
  }

  lemma {:induction false} TextLessTransitive(a: Text, b: Text, c: Text)
    requires TextLess(a, b) && TextLess(b, c)
    ensures TextLess(a, c)
  {
    if a != [] && a[0] == b[0] == c[0] {
      TextLessTransitive(a[1..], b[1..], c[1..]);
    }
  }

  lemma BeforeTransitive(a: Row, b: Row, c: Row)
    requires Before(a, b) && Before(b, c)
    ensures Before(a, c)
  {
    if TextLess(b.run.runID, a.run.runID) && TextLess(c.run.runID, b.run.runID) {
      TextLessTransitive(c.run.runID, b.run.runID, a.run.runID);
    }
  }

  function FindLatest(rows: seq<Row>, q: Query): Option<Row> {
    if rows == [] then None
    else
      var last := rows[|rows| - 1];
      var front := FindLatest(rows[..|rows| - 1], q);
      if Eligible(last, q) && (front.None? || Before(last, front.value)) then Some(last) else front
  }

  // The query's answer: some eligible row that no eligible row precedes.
  lemma {:induction false} FindLatestCorrect(rows: seq<Row>, q: Query)
    ensures var r := FindLatest(rows, q);
      && (r.Some? ==> r.value in rows && Eligible(r.value, q))
      && (forall row :: row in rows && Eligible(row, q) ==> r.Some? && !Before(row, r.value))
  {
    if rows != [] {
      var front, last := rows[..|rows| - 1], rows[|rows| - 1];
      FindLatestCorrect(front, q);
      var r, f := FindLatest(rows, q), FindLatest(front, q);
      IrreflexiveBefore(last);
      hide Before, FindLatest;
      forall row | row in rows && Eligible(row, q)
        ensures r.Some? && !Before(row, r.value)
      {
        LatestOfTwo(rows, q);
        if row != last && r == Some(last) && f.Some? && Before(row, last) {
          BeforeTransitive(row, last, f.value);
        }
      }
      LatestOfTwo(rows, q);
    }
  }

  lemma LatestOfTwo(rows: seq<Row>, q: Query)
    requires rows != []
    ensures var last := rows[|rows| - 1];
      var front := FindLatest(rows[..|rows| - 1], q);
      FindLatest(rows, q) == if Eligible(last, q) && (front.None? || Before(last, front.value)) then Some(last) else front
  {
  }

  lemma {:induction false} IrreflexiveText(a: Text)
    ensures !TextLess(a, a)
  {
    if a != [] {
      IrreflexiveText(a[1..]);
    }
  }

  lemma IrreflexiveBefore(a: Row)
    ensures !Before(a, a)
  {
    IrreflexiveText(a.run.runID);
  }

  function FindingFor(rows: seq<Row>, q: Query): Finding {
    match FindLatest(rows, q)
    case None => NotFound
    case Some(row) => Found(CompatibleCoarse(row.run.runID, row.run.lightCurveRevision, row.run.effectiveEpochCount, row.run.coarse))
  }

  // The repository's answer carries the latest eligible row, field by field, and is empty
  // only when there is none.
  lemma FindingExactly(rows: seq<Row>, q: Query)
    ensures !FindingFor(rows, q).Failed?
    ensures FindingFor(rows, q) == NotFound <==> forall row :: row in rows ==> !Usable(row, q)
    ensures FindingFor(rows, q).Found? ==> exists row ::
              && row in rows && Usable(row, q) && Latest(rows, q, row)
              && FindingFor(rows, q).coarse == CompatibleCoarse(row.run.runID, row.run.lightCurveRevision, row.run.effectiveEpochCount, row.run.coarse)
  {
    FindLatestCorrect(rows, q);
  }

  // An older run of the object and bundle that ran the coarse model.
  predicate Usable(row: Row, q: Query) {
    row.run.objectID == q.objectID && row.run.modelBundleVersion == q.bundle && row.run.xgboostExecuted && row.run.lightCurveRevision < q.target
  }

  // No usable row has a higher revision, or the same and was stored later, or both and a
  // greater identifier.
  ghost predicate Latest(rows: seq<Row>, q: Query, row: Row) {
    forall other :: other in rows && Usable(other, q) ==>
      && other.run.lightCurveRevision <= row.run.lightCurveRevision
      && (other.run.lightCurveRevision == row.run.lightCurveRevision ==> other.persistedAt <= row.persistedAt)
      && (other.run.lightCurveRevision == row.run.lightCurveRevision && other.persistedAt == row.persistedAt ==>
            !TextLess(row.run.runID, other.run.runID))
  }

  // ---- the system ----

  datatype Lookup = Lookup(query: Query, finding: Finding)

  datatype State = State(db: Db, lookups: set<Lookup>, published: set<Run>)

  datatype Step = Look(query: Query) | Publish(lookup: Lookup, run: Run) | Store(run: Run, time: int, fate: Fate)

  // A run the worker may build after that lookup.
  predicate FromLookup(run: Run, l: Lookup) {
    && run.objectID == l.query.objectID && run.lightCurveRevision == l.query.target && run.modelBundleVersion == l.query.bundle
    && Provenance(run)
    && (run.coarseSourceRunID.Some? ==>
          && l.finding.Found?
          && run.coarseSourceRunID.value == l.finding.coarse.sourceRunID
          && run.coarseSourceRevision == l.finding.coarse.sourceRevision
          && run.coarseSourceEpochCount == l.finding.coarse.sourceEpochCount)
  }

  predicate Enabled(digest: Digest, s: State, step: Step) {
    match step
    case Look(_) => true
    case Publish(l, run) => l in s.lookups && FromLookup(run, l)
    case Store(run, _, _) => run in s.published && AcceptableRun(digest, run)
  }

  function Apply(s: State, step: Step): State {
    match step
    case Look(q) => s.(lookups := s.lookups + {Lookup(q, FindingFor(s.db.rows, q))})
    case Publish(_, run) => s.(published := s.published + {run})
    case Store(run, time, fate) => s.(db := Save(s.db, run, time, fate).0)
  }

  // The state after the steps, from an empty database.
  function RunSteps(steps: seq<Step>): State
    decreases |steps|
  {
    if steps == [] then State(EmptyDb(), {}, {})
    else Apply(RunSteps(steps[..|steps| - 1]), steps[|steps| - 1])
  }

  predicate Legal(digest: Digest, steps: seq<Step>) {
    forall k :: 0 <= k < |steps| ==> Enabled(digest, RunSteps(steps[..k]), steps[k])
  }

  // What the worker really builds is covered by the publish step.
  lemma WorkerRunsComeFromLookups(digest: Digest, c: CommandCodec.Command, revision: RunBuilder.Revision, s: Surroundings, l: Lookup)
    requires |revision.epochs| <= LightCurve.MAXIMUM_EPOCHS && RunOf(digest, c, revision, s).Some?
    requires l.query == Query(c.objectID, c.lightCurveRevision, c.modelBundleVersion) && l.finding == s.ports.finding
    requires revision.objectID == c.objectID && revision.revision == c.lightCurveRevision
    ensures FromLookup(RunOf(digest, c, revision, s).value, l)
  {
    hide PredictedCoarse, PredictedLeaf, CleanText, Parse;
  }

  // ---- the invariant ----

  // Row i is what the lookup or the run refers to.
  predicate SourceRow(rows: seq<Row>, i: int, id: Text, objectID: Text, bundle: Text, revision: int, epochCount: int) {
    && 0 <= i < |rows|
    && rows[i].run.runID == id
    && rows[i].run.objectID == objectID
    && rows[i].run.modelBundleVersion == bundle
    && rows[i].run.lightCurveRevision == revision
    && rows[i].run.effectiveEpochCount == epochCount
    && rows[i].run.xgboostExecuted
  }

  ghost predicate HasSourceRow(rows: seq<Row>, id: Text, objectID: Text, bundle: Text, revision: int, epochCount: int) {
    exists i :: SourceRow(rows, i, id, objectID, bundle, revision, epochCount)
  }

  // The row that the lookup speaks of, with its own coarse probabilities.
  ghost predicate HasProbabilities(rows: seq<Row>, id: Text, probabilities: CoarseVector) {
    exists i :: 0 <= i < |rows| && rows[i].run.runID == id && rows[i].run.coarse == probabilities
  }

  ghost predicate LookupHolds(rows: seq<Row>, l: Lookup) {
    match l.finding
    case NotFound => true
    case Failed => false
    case Found(c) =>
      && c.sourceRevision < l.query.target
      && HasSourceRow(rows, c.sourceRunID, l.query.objectID, l.query.bundle, c.sourceRevision, c.sourceEpochCount)
      && HasProbabilities(rows, c.sourceRunID, c.probabilities)
  }

  ghost predicate RunHolds(rows: seq<Row>, run: Run) {
    run.coarseSourceRunID.Some? ==>
      run.coarseSourceRevision < run.lightCurveRevision
      && HasSourceRow(rows, run.coarseSourceRunID.value, run.objectID, run.modelBundleVersion, run.coarseSourceRevision, run.coarseSourceEpochCount)
  }

  ghost predicate RowsAccepted(digest: Digest, rows: seq<Row>) {
    forall i :: 0 <= i < |rows| ==> AcceptableRun(digest, rows[i].run) && RunHolds(rows, rows[i].run)
  }

  ghost predicate Inv(digest: Digest, s: State) {
    && ValidDb(s.db)
    && RowsAccepted(digest, s.db.rows)
    && (forall l :: l in s.lookups ==> LookupHolds(s.db.rows, l))
    && (forall run :: run in s.published ==> RunHolds(s.db.rows, run))
  }

  lemma SourceRowsStay(rows: seq<Row>, next: seq<Row>, id: Text, objectID: Text, bundle: Text, revision: int, epochCount: int)
    requires rows <= next && HasSourceRow(rows, id, objectID, bundle, revision, epochCount)
    ensures HasSourceRow(next, id, objectID, bundle, revision, epochCount)
  {
    var i :| SourceRow(rows, i, id, objectID, bundle, revision, epochCount);
    assert SourceRow(next, i, id, objectID, bundle, revision, epochCount);
  }

  lemma RunStays(rows: seq<Row>, next: seq<Row>, run: Run)
    requires rows <= next && RunHolds(rows, run)
    ensures RunHolds(next, run)
  {
    hide HasSourceRow;
    if run.coarseSourceRunID.Some? {
      SourceRowsStay(rows, next, run.coarseSourceRunID.value, run.objectID, run.modelBundleVersion, run.coarseSourceRevision, run.coarseSourceEpochCount);
    }
  }

  lemma LookupStays(rows: seq<Row>, next: seq<Row>, l: Lookup)
    requires rows <= next && LookupHolds(rows, l)
    ensures LookupHolds(next, l)
  {
    hide HasSourceRow;
    if l.finding.Found? {
      var c := l.finding.coarse;
      SourceRowsStay(rows, next, c.sourceRunID, l.query.objectID, l.query.bundle, c.sourceRevision, c.sourceEpochCount);
      var i :| 0 <= i < |rows| && rows[i].run.runID == c.sourceRunID && rows[i].run.coarse == c.probabilities;
      assert next[i] == rows[i];
    }
  }

  lemma LookKeeps(rows: seq<Row>, q: Query)
    ensures LookupHolds(rows, Lookup(q, FindingFor(rows, q)))
  {
    FindLatestCorrect(rows, q);
    hide FindLatest;
    if FindLatest(rows, q).Some? {
      var row := FindLatest(rows, q).value;
      var i :| 0 <= i < |rows| && rows[i] == row;
      assert SourceRow(rows, i, row.run.runID, q.objectID, q.bundle, row.run.lightCurveRevision, row.run.effectiveEpochCount);
    }
  }

  lemma StoreKeeps(digest: Digest, s: State, run: Run, time: int, fate: Fate)
    requires Inv(digest, s) && Enabled(digest, s, Store(run, time, fate))
    ensures Inv(digest, Apply(s, Store(run, time, fate)))
  {
    hide ValidDb, AcceptableRun, RunHolds, LookupHolds;
    var next := Apply(s, Store(run, time, fate));
    SaveKeeps(s.db, run, time, fate);
    SavedRows(s.db, run, time, fate);
    hide Save;
    forall i | 0 <= i < |next.db.rows|
      ensures AcceptableRun(digest, next.db.rows[i].run) && RunHolds(next.db.rows, next.db.rows[i].run)
    {
      assert i < |s.db.rows| ==> next.db.rows[i] == s.db.rows[i];
      RunStays(s.db.rows, next.db.rows, next.db.rows[i].run);
    }
    forall l | l in next.lookups
      ensures LookupHolds(next.db.rows, l)
    {
      LookupStays(s.db.rows, next.db.rows, l);
    }
    forall r | r in next.published
      ensures RunHolds(next.db.rows, r)
    {
      RunStays(s.db.rows, next.db.rows, r);
    }
  }

  lemma SavedRows(db: Db, run: Run, time: int, fate: Fate)
    ensures var rows := Save(db, run, time, fate).0.rows;
      rows == db.rows || rows == db.rows + [Row(run, time)]
  {
    hide CheckConstraints, FitsInteger, Clashes, SourceExists, Recorded;
  }

  lemma StepKeeps(digest: Digest, s: State, step: Step)
    requires Inv(digest, s) && Enabled(digest, s, step)
    ensures Inv(digest, Apply(s, step))
  {
    match step
    case Look(q) =>
      LookKeeps(s.db.rows, q);
    case Publish(l, run) =>
      hide HasSourceRow, ValidDb, RowsAccepted, Provenance;
      assert LookupHolds(s.db.rows, l);
    case Store(run, time, fate) =>
      StoreKeeps(digest, s, run, time, fate);
  }

  lemma {:induction false} RunInv(digest: Digest, steps: seq<Step>)
    requires Legal(digest, steps)
    ensures Inv(digest, RunSteps(steps))
    decreases |steps|
  {
    if steps == [] {
      EmptyIsValid();
    } else {
      var front, last := steps[..|steps| - 1], steps[|steps| - 1];
      assert forall k :: 0 <= k < |front| ==> front[..k] == steps[..k];
      RunInv(digest, front);
      hide Inv, Enabled, Apply;
      StepKeeps(digest, RunSteps(front), last);
    }
  }

  // ---- the guarantees ----

  // In every reachable database a reused run names an existing row of the same object
  // and bundle, of a strictly smaller revision, with the recorded epoch count, that ran
  // the coarse model itself: a chain of reuse is one step long.
  lemma ReuseChainsHaveLengthOne(digest: Digest, steps: seq<Step>, i: nat)
    requires Legal(digest, steps) && i < |RunSteps(steps).db.rows| && RunSteps(steps).db.rows[i].run.coarseSourceType == REUSED_PREVIOUS
    ensures var rows := RunSteps(steps).db.rows;
      var run := rows[i].run;
      exists j :: 0 <= j < |rows|
        && run.coarseSourceRunID == Some(rows[j].run.runID)
        && rows[j].run.objectID == run.objectID && rows[j].run.modelBundleVersion == run.modelBundleVersion
        && rows[j].run.lightCurveRevision == run.coarseSourceRevision < run.lightCurveRevision
        && rows[j].run.effectiveEpochCount == run.coarseSourceEpochCount
        && rows[j].run.xgboostExecuted && rows[j].run.coarseSourceRunID.None?
  {
    hide ValidDb, Legal, RunSteps, DerivedIdentifiers, PredictedCoarse, PredictedLeaf, CanonicalNonNil;
    RunInv(digest, steps);
    var rows := RunSteps(steps).db.rows;
    var run := rows[i].run;
    assert AcceptableRun(digest, run) && RunHolds(rows, run);
    var j :| SourceRow(rows, j, run.coarseSourceRunID.value, run.objectID, run.modelBundleVersion, run.coarseSourceRevision, run.coarseSourceEpochCount);
    assert AcceptableRun(digest, rows[j].run);
  }

  // Every lookup ever answered stays good enough for the selector and for the chain up
  // to the writer, however many saves come in between.
  lemma LookupsStayUsable(digest: Digest, steps: seq<Step>, l: Lookup)
    requires Legal(digest, steps) && l in RunSteps(steps).lookups
    ensures !l.finding.Failed?
    ensures l.finding.Found? ==> ValidCompatibleCoarse(l.query.target, l.finding.coarse) && CanonicalNonNil(l.finding.coarse.sourceRunID)
  {
    hide ValidDb, Legal, RunSteps, PredictedCoarse, PredictedLeaf, CanonicalNonNil;
    RunInv(digest, steps);
    var s := RunSteps(steps);
    assert LookupHolds(s.db.rows, l);
    if l.finding.Found? {
      var c := l.finding.coarse;
      var j :| SourceRow(s.db.rows, j, c.sourceRunID, l.query.objectID, l.query.bundle, c.sourceRevision, c.sourceEpochCount);
      AcceptedIdsAreCanonical(digest, s.db.rows[j].run);
    }
  }

  // What the worker does with an answered lookup, when nothing else gets in its way:
  // bundles resolve, contexts stay live, the model follows the mode, the clock is sane.
  predicate Undisturbed(c: CommandCodec.Command, epochCount: int, s: Surroundings) {
    && s.ports.liveAtStart && s.ports.liveAfterResolve && s.ports.liveAfterFind
    && s.ports.resolved == Some(c.modelBundleVersion) && s.servingBundle == c.modelBundleVersion
    && s.output.xgboostExecuted == !Reuses(epochCount, s.ports)
    && Representable(s.completedAt)
  }

  // The loop closes: with any answer the database ever gave for the command, the worker
  // builds a run that the writer decodes as that very run, and that run may be stored.
  lemma AnsweredLookupsAreAccepted(
      digest: Digest, steps: seq<Step>, l: Lookup, c: CommandCodec.Command, eligible: Uint32,
      raw: seq<LightCurve.Epoch>, revision: RunBuilder.Revision, s: Surroundings, topic: Text)
    requires Legal(digest, steps) && l in RunSteps(steps).lookups && topic != []
    requires l.query == Query(c.objectID, c.lightCurveRevision, c.modelBundleVersion) && l.finding == s.ports.finding
    requires CommandCodec.AcceptableCommand(digest, c) && PreparedFor(c, eligible, raw, revision)
    requires Undisturbed(c, eligible, s)
    ensures |revision.epochs| <= LightCurve.MAXIMUM_EPOCHS
    ensures var run := RunOf(digest, c, revision, s);
      && run.Some?
      && Decode(digest, topic, BuildMessage(topic, run.value, c.trace)) == Ok(Decoded(run.value, c.trace))
      && AcceptableRun(digest, run.value)
      && Enabled(digest, RunSteps(steps), Publish(l, run.value))
  {
    hide Legal, RunSteps, RunOf, AcceptableRun, Decode, BuildMessage, CanonicalNonNil, FromLookup;
    hide CommandCodec.AcceptableCommand, LightCurve.Acceptable, LightCurve.CanonicalForm, Representable, ValidCompatibleCoarse;
    LookupsStayUsable(digest, steps, l);
    WriterAccepts(digest, c, eligible, raw, revision, s, topic);
    var run := RunOf(digest, c, revision, s).value;
    EncodeDecode(digest, topic, run, c.trace);
    WorkerRunsComeFromLookups(digest, c, revision, s, l);
  }

  lemma AcceptedIdsAreCanonical(digest: Digest, run: Run)
    requires AcceptableRun(digest, run)
    ensures CanonicalNonNil(run.runID) && run.runID != [] && run.lightCurveRevision > 0 && EpochsInRange(run.effectiveEpochCount)
  {
    hide PredictedCoarse, PredictedLeaf, CanonicalNonNil;
    Identity.IdentifiersExist(digest, IdentityOf(run));
    Identity.IdentityFields(IdentityOf(run));
    CanonicalIsFormatted(run.runID);
  }

  // The database never turns away a published, accepted run: its source is there, and
  // it is not its own source.
  lemma PublishedRunsAreNeverRejected(digest: Digest, steps: seq<Step>, run: Run, time: int, fate: Fate)
    requires Legal(digest, steps) && run in RunSteps(steps).published && AcceptableRun(digest, run)
    requires SameJobs(RunsOf(RunSteps(steps).db.rows) + {run})
    ensures var outcome := Save(RunSteps(steps).db, run, time, fate).1;
      outcome.Saved? || (outcome == Outcome.Failed && fate != Committed)
  {
    hide Legal, RunSteps, AcceptableRun, CheckConstraints, FitsInteger, SameJobs, ValidDb, RowsAccepted;
    RunInv(digest, steps);
    var s := RunSteps(steps);
    AcceptedRunsPassConstraints(digest, run);
    SaveAdds(s.db, run, time, fate);
    if run.coarseSourceRunID.Some? {
      assert RunHolds(s.db.rows, run);
      NotItsOwnSource(s.db.rows, run);
    }
  }

  lemma NotItsOwnSource(rows: seq<Row>, run: Run)
    requires RunHolds(rows, run) && run.coarseSourceRunID.Some? && SameJobs(RunsOf(rows) + {run})
    ensures run.coarseSourceRunID.value != run.runID && SourceExists(rows, run)
  {
    var j :| SourceRow(rows, j, run.coarseSourceRunID.value, run.objectID, run.modelBundleVersion, run.coarseSourceRevision, run.coarseSourceEpochCount);
    assert rows[j].run in RunsOf(rows);
  }

  // Every found source is a stored run that ran the coarse model, with its own
  // probabilities, and those are what the classifier is handed when the command reuses.
  lemma ReusedProbabilitiesAreStored(
      digest: Digest, steps: seq<Step>, l: Lookup, c: CommandCodec.Command, epochs: seq<LightCurve.Epoch>, ports: Ports)
    requires Legal(digest, steps) && l in RunSteps(steps).lookups && l.finding == ports.finding && |epochs| <= LightCurve.MAXIMUM_EPOCHS
    requires Select(c.objectID, c.lightCurveRevision, |epochs|, c.modelBundleVersion, ports).Ok?
    ensures var selection := Select(c.objectID, c.lightCurveRevision, |epochs|, c.modelBundleVersion, ports).value;
      var input := InputOf(epochs, selection);
      && input.Some? && Columns(input.value, epochs) && input.value.mode == selection.mode
      && (if |epochs| > MAXIMUM_COMPUTE_CURRENT_EPOCHS && l.finding.Found? then
            && input.value.mode == REUSE_PREVIOUS && input.value.reusedProbabilities.Some?
            && HasProbabilities(RunSteps(steps).db.rows, l.finding.coarse.sourceRunID, input.value.reusedProbabilities.value)
          else input.value.reusedProbabilities.None?)
  {
    hide Legal, RunSteps, ValidDb, RowsAccepted, HasSourceRow;
    RunInv(digest, steps);
    assert LookupHolds(RunSteps(steps).db.rows, l);
    SelectSound(c.objectID, c.lightCurveRevision, |epochs|, c.modelBundleVersion, ports);
  }

  lemma FoundSourcesAreRows(digest: Digest, steps: seq<Step>, l: Lookup)
    requires Legal(digest, steps) && l in RunSteps(steps).lookups && l.finding.Found?
    ensures var rows := RunSteps(steps).db.rows;
      exists i ::
        && 0 <= i < |rows|
        && rows[i].run.runID == l.finding.coarse.sourceRunID && rows[i].run.coarse == l.finding.coarse.probabilities
        && rows[i].run.objectID == l.query.objectID && rows[i].run.modelBundleVersion == l.query.bundle
        && rows[i].run.lightCurveRevision == l.finding.coarse.sourceRevision < l.query.target
        && rows[i].run.effectiveEpochCount == l.finding.coarse.sourceEpochCount
        && rows[i].run.xgboostExecuted
  {
    hide Legal, RunSteps, RowsAccepted, RowsChecked, SourcesEarlier, CurrentTable;
    RunInv(digest, steps);
    var rows, c := RunSteps(steps).db.rows, l.finding.coarse;
    assert LookupHolds(rows, l);
    hide LookupHolds, Inv;
    var i :| SourceRow(rows, i, c.sourceRunID, l.query.objectID, l.query.bundle, c.sourceRevision, c.sourceEpochCount);
    var j :| 0 <= j < |rows| && rows[j].run.runID == c.sourceRunID && rows[j].run.coarse == c.probabilities;
    assert UniqueIds(rows);
  }
}
