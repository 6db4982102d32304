// The composed pipeline: the async runner over commands, the serial runner over
// results, the handler stacks between them, the database and the two dead-letter
// topics.  Effects happen in their own steps; a handler may return nil only on the
// effects that its attempts were acknowledged for.
module EndToEnd {
  import opened AcceptanceChain
  import opened Bytes
  import opened ClassificationRun
  import CommandCodec
  import opened CommandHandlers
  import opened ConsumerGroup
  import A = AsyncConsumer
  import AS = AsyncSafety
  import Identity
  import opened KafkaTypes
  import LightCurve
  import opened Messages
  import opened Repository
  import ResultCodec
  import opened ResultHandlers
  import RunBuilder
  import S = SerialConsumer
  import opened Uuid
  import opened WorkerErrors
  import opened Wrappers

  // How the bytes of the records read, and the deployment's topics and digest.
  datatype Env = Env(
    digest: Digest,
    commandTopic: Text,
    resultTopic: Text,
    readCommand: Record -> Inbound<CommandCodec.CommandMessage>,
    readResult: Record -> Inbound<ResultCodec.ResultMessage>)

  datatype World = World(
    commands: A.System,
    results: S.System,
    db: Db,
    saved: set<Run>,                   // saves acknowledged to a writer
    published: set<(Record, Record)>,  // a command and a result published for it
    commandDLQ: set<Record>,
    resultDLQ: set<Record>,
    doneCommands: set<Record>,         // the command stack returned nil
    doneResults: set<Record>)

  ghost predicate Init(w: World) {
    && A.Init(w.commands) && S.Init(w.results)
    && w.saved == {} && w.published == {} && w.commandDLQ == {} && w.resultDLQ == {}
    && w.doneCommands == {} && w.doneResults == {}
  }

  // ---- handler calls ----

  // One call of the worker, with the result record it publishes if it gets that far.
  datatype CommandAttempt = CommandAttempt(stages: Stages, result: Record, wait: Option<ContextError>)

  // The record's own bytes decide whether it decodes.
  function StagesOf(env: Env, r: Record, a: CommandAttempt): Stages {
    var decoded := CommandOf(env, r);
    a.stages.(decode := if decoded.Err? then Some(CommandDecodeFailure(decoded.error)) else None)
  }

  function TurnOf(env: Env, r: Record, a: CommandAttempt): Turn {
    Turn(FirstFailure(StageList(StagesOf(env, r, a))), a.wait)
  }

  function TurnsOf(env: Env, r: Record, attempts: seq<CommandAttempt>): seq<Turn> {
    seq(|attempts|, k requires 0 <= k < |attempts| => TurnOf(env, r, attempts[k]))
  }

  // One call of the writer: how its save ended, if it came to one.
  datatype WriteAttempt = WriteAttempt(outcome: Outcome, cause: Chain, contextAfter: Option<ContextError>, wait: Option<ContextError>)

  function WriteError(env: Env, q: Record, a: WriteAttempt): Option<Chain> {
    var decoded := ResultCodec.Decode(env.digest, env.resultTopic, env.readResult(q));
    if decoded.Err? then Some(DecodeFailure(decoded.error)) else SaveFailure(a.outcome, a.cause)
  }

  function WriteTurns(env: Env, q: Record, attempts: seq<WriteAttempt>): seq<ResultTurn> {
    seq(|attempts|, k requires 0 <= k < |attempts| =>
      ResultTurn(WriteError(env, q, attempts[k]), attempts[k].contextAfter, attempts[k].wait))
  }

  // ---- steps ----

  datatype Step =
    | CommandGroup(commandStep: A.Step)
    | ResultGroup(resultStep: S.Step)
    | PublishResult(command: Record, revision: RunBuilder.Revision, surroundings: Surroundings, result: Record)
    | DeadLetterCommand(command: Record)
    | DeadLetterResult(result: Record)
    | SaveRun(run: Run, time: int, fate: Fate)
    | FinishCommand(command: Record, live: Option<ContextError>, attempts: seq<CommandAttempt>, delivery: Delivery)
    | FinishResult(result: Record, live: Option<ContextError>, writes: seq<WriteAttempt>, delivery: Delivery)

  function CommandOf(env: Env, r: Record): Result<CommandCodec.Command, CommandCodec.CommandError> {
    CommandCodec.Decode(env.digest, env.commandTopic, env.readCommand(r))
  }

  // The worker's own output for that command.
  ghost predicate Produced(env: Env, r: Record, revision: RunBuilder.Revision, s: Surroundings, q: Record) {
    && CommandOf(env, r).Ok?
    && |revision.epochs| <= LightCurve.MAXIMUM_EPOCHS
    && revision.objectID == CommandOf(env, r).value.objectID
    && var c := CommandOf(env, r).value;
       var run := RunOf(env.digest, c, revision, s);
       run.Some? && env.readResult(q) == ResultCodec.BuildMessage(env.resultTopic, run.value, c.trace)
  }

  // An acknowledged publication, save or dead letter did happen.
  ghost predicate HonestCommand(env: Env, w: World, r: Record, attempts: seq<CommandAttempt>, delivery: Delivery) {
    && (forall k :: 0 <= k < |attempts| && ReachesPublish(StagesOf(env, r, attempts[k])) && attempts[k].stages.publish.Acknowledged? ==>
          (r, attempts[k].result) in w.published)
    && (delivery.Acknowledged? ==> r in w.commandDLQ)
  }

  ghost predicate HonestResult(env: Env, w: World, q: Record, writes: seq<WriteAttempt>, delivery: Delivery) {
    && (forall k :: 0 <= k < |writes| && writes[k].outcome.Saved? ==>
          var decoded := ResultCodec.Decode(env.digest, env.resultTopic, env.readResult(q));
          decoded.Ok? ==> decoded.value.run in w.saved)
    && (delivery.Acknowledged? ==> q in w.resultDLQ)
  }

  ghost predicate Enabled(env: Env, w: World, step: Step) {
    match step
    case CommandGroup(s) =>
      && A.Enabled(w.commands, s)
      && (s.HandlerReturn? && s.ok ==> AsyncRecord(w.commands, s) in w.doneCommands)
    case ResultGroup(s) =>
      && S.Enabled(w.results, s)
      && (s.HandlerReturn? && s.ok ==> w.results.sessions[s.m].phase.record in w.doneResults)
    case PublishResult(r, revision, s, q) => Produced(env, r, revision, s, q) && CanAppend(w.results.broker, q)
    case DeadLetterCommand(_) => true
    case DeadLetterResult(_) => true
    case SaveRun(_, _, _) => true
    case FinishCommand(r, live, attempts, delivery) =>
      HonestCommand(env, w, r, attempts, delivery) && StackResult(live, TurnsOf(env, r, attempts), delivery) == Returned(None)
    case FinishResult(q, live, writes, delivery) =>
      HonestResult(env, w, q, writes, delivery) && ResultStack(live, WriteTurns(env, q, writes), delivery) == Returned(None)
  }

  // The record a lane is handling.
  ghost function AsyncRecord(s: A.System, step: A.Step): Record
    requires A.Enabled(s, step) && step.HandlerReturn?
  {
    var work := s.sessions[step.m].phase.work;
    work.groups[step.lane][work.lanes[step.lane].done]
  }

  ghost function AsyncNext(s: A.System, step: A.Step): A.System {
    if A.Enabled(s, step) then A.Apply(s, step) else s
  }

  ghost function SerialNext(s: S.System, step: S.Step): S.System {
    if S.Enabled(s, step) then S.Apply(s, step) else s
  }

  ghost function Apply(w: World, step: Step): World {
    match step
    case CommandGroup(s) => w.(commands := AsyncNext(w.commands, s))
    case ResultGroup(s) => w.(results := SerialNext(w.results, s))
    case PublishResult(r, _, _, q) => w.(results := SerialNext(w.results, S.ProducerAppend(q)), published := w.published + {(r, q)})
    case DeadLetterCommand(r) => w.(commandDLQ := w.commandDLQ + {r})
    case DeadLetterResult(q) => w.(resultDLQ := w.resultDLQ + {q})
    case SaveRun(run, time, fate) =>
      var (db, outcome) := Save(w.db, run, time, fate);
      w.(db := db, saved := if outcome.Saved? then w.saved + {run} else w.saved)
    case FinishCommand(r, _, _, _) => w.(doneCommands := w.doneCommands + {r})
    case FinishResult(q, _, _, _) => w.(doneResults := w.doneResults + {q})
  }

  ghost function RunWorld(env: Env, w: World, steps: seq<Step>): World
    decreases |steps|
  {
    if steps == [] then w else RunWorld(env, if Enabled(env, w, steps[0]) then Apply(w, steps[0]) else w, steps[1..])
  }

  // ---- what a record below the committed offset stands for ----

  // q is a result for command r: it carries the command's job and object.
  ghost predicate ResultFor(env: Env, r: Record, q: Record) {
    && CommandOf(env, r).Ok?
    && env.readResult(q).body.Encoded?
    && env.readResult(q).body.message.jobID == CommandOf(env, r).value.jobID
    && env.readResult(q).body.message.objectID == CommandOf(env, r).value.objectID
  }

  ghost predicate CommandEffect(env: Env, w: World, r: Record) {
    r in w.commandDLQ || exists q :: (r, q) in w.published && q in w.results.broker.log && ResultFor(env, r, q)
  }

  ghost predicate Stored(db: Db, run: Run) {
    Recorded(db.rows, run.runID, run.jobID)
  }

  ghost predicate ResultEffect(env: Env, w: World, q: Record) {
    || q in w.resultDLQ
    || var decoded := ResultCodec.Decode(env.digest, env.resultTopic, env.readResult(q));
       decoded.Ok? && Stored(w.db, decoded.value.run)
  }

  // ---- the invariant ----

  ghost predicate Inv(env: Env, w: World) {
    && AS.Inv(w.commands) && S.Inv(w.results)
    && PublishedInv(env, w)
    && (forall run :: run in w.saved ==> Stored(w.db, run))
    && (forall r :: r in w.doneCommands ==> CommandEffect(env, w, r))
    && (forall q :: q in w.doneResults ==> ResultEffect(env, w, q))
    && w.commands.broker.handled <= w.doneCommands
    && w.results.broker.handled <= w.doneResults
  }

  ghost predicate PublishedInv(env: Env, w: World) {
    forall r, q :: (r, q) in w.published ==> q in w.results.broker.log && ResultFor(env, r, q)
  }

  // Effects are never undone.
  ghost predicate Grows(v: World, w: World) {
    && v.published <= w.published && v.commandDLQ <= w.commandDLQ && v.resultDLQ <= w.resultDLQ
    && v.results.broker.log <= w.results.broker.log
    && v.db.rows <= w.db.rows
  }

  lemma StoredStays(v: Db, w: Db, run: Run)
    requires v.rows <= w.rows && Stored(v, run)
    ensures Stored(w, run)
  {
    var i :| 0 <= i < |v.rows| && v.rows[i].run.runID == run.runID && v.rows[i].run.jobID == run.jobID;
    assert w.rows[i].run == v.rows[i].run;
  }

  lemma CommandEffectStays(env: Env, v: World, w: World, r: Record)
    requires Grows(v, w) && CommandEffect(env, v, r)
    ensures CommandEffect(env, w, r)
  {
    hide ResultFor;
  }

  lemma ResultEffectStays(env: Env, v: World, w: World, q: Record)
    requires Grows(v, w) && ResultEffect(env, v, q)
    ensures ResultEffect(env, w, q)
  {
    hide Stored, ResultCodec.Decode;
    var decoded := ResultCodec.Decode(env.digest, env.resultTopic, env.readResult(q));
    if decoded.Ok? && Stored(v.db, decoded.value.run) {
      StoredStays(v.db, w.db, decoded.value.run);
    }
  }

  // Everything the invariant says about effects carries over to a larger world.
  lemma EffectsStay(env: Env, v: World, w: World)
    requires Inv(env, v) && Grows(v, w)
    requires AS.Inv(w.commands) && S.Inv(w.results) && PublishedInv(env, w)
    requires forall run :: run in w.saved ==> run in v.saved || Stored(w.db, run)
    requires forall r :: r in w.doneCommands ==> r in v.doneCommands || CommandEffect(env, w, r)
    requires forall q :: q in w.doneResults ==> q in v.doneResults || ResultEffect(env, w, q)
    requires w.commands.broker.handled <= w.doneCommands
    requires w.results.broker.handled <= w.doneResults
    ensures Inv(env, w)
  {
    hide AS.Inv, S.Inv, PublishedInv, CommandEffect, ResultEffect, Stored, Grows;
    assert Grows(v, w);
    forall run | run in w.saved
      ensures Stored(w.db, run)
    {
      if run in v.saved {
        GrowsRows(v, w);
        StoredStays(v.db, w.db, run);
      }
    }
    forall r | r in w.doneCommands
      ensures CommandEffect(env, w, r)
    {
      if r in v.doneCommands {
        CommandEffectStays(env, v, w, r);
      }
    }
    forall q | q in w.doneResults
      ensures ResultEffect(env, w, q)
    {
      if q in v.doneResults {
        ResultEffectStays(env, v, w, q);
      }
    }
  }

  lemma GrowsRows(v: World, w: World)
    requires Grows(v, w)
    ensures v.db.rows <= w.db.rows
  {
  }

  // ---- the group steps ----

  lemma CommandHandled(s: A.System, step: A.Step)
    requires A.Enabled(s, step)
    ensures var handled := A.Apply(s, step).broker.handled;
      if step.HandlerReturn? && step.ok then handled == s.broker.handled + {AsyncRecord(s, step)} else handled == s.broker.handled
  {
  }

  lemma ResultHandled(s: S.System, step: S.Step)
    requires S.Enabled(s, step)
    ensures var handled := S.Apply(s, step).broker.handled;
      if step.HandlerReturn? && step.ok then handled == s.broker.handled + {s.sessions[step.m].phase.record} else handled == s.broker.handled
    ensures s.broker.log <= S.Apply(s, step).broker.log
  {
  }

  lemma CommandGroupKeeps(env: Env, w: World, s: A.Step)
    requires Inv(env, w) && Enabled(env, w, CommandGroup(s))
    ensures Inv(env, Apply(w, CommandGroup(s)))
  {
    hide AS.Inv, S.Inv, A.Apply, A.Enabled, CommandEffect, ResultEffect, Stored, ResultFor, AsyncRecord;
    AS.StepInv(w.commands, s);
    CommandHandled(w.commands, s);
    EffectsStay(env, w, Apply(w, CommandGroup(s)));
  }

  lemma ResultGroupKeeps(env: Env, w: World, s: S.Step)
    requires Inv(env, w) && Enabled(env, w, ResultGroup(s))
    ensures Inv(env, Apply(w, ResultGroup(s)))
  {
    hide AS.Inv, S.Inv, S.Apply, CommandEffect, ResultEffect, Stored, ResultFor;
    S.StepInv(w.results, s);
    ResultHandled(w.results, s);
    EffectsStay(env, w, Apply(w, ResultGroup(s)));
  }

  // ---- the effects ----

  lemma ProducedIsResultFor(env: Env, r: Record, revision: RunBuilder.Revision, s: Surroundings, q: Record)
    requires Produced(env, r, revision, s, q)
    ensures ResultFor(env, r, q)
  {
    hide CommandCodec.Decode, LightCurve.CanonicalForm;
    CommandRevision(env, r, revision, s);
  }

  lemma CommandRevision(env: Env, r: Record, revision: RunBuilder.Revision, s: Surroundings)
    requires CommandOf(env, r).Ok? && |revision.epochs| <= LightCurve.MAXIMUM_EPOCHS
    ensures var run := RunOf(env.digest, CommandOf(env, r).value, revision, s);
      run.Some? ==> run.value.jobID == CommandOf(env, r).value.jobID && run.value.objectID == revision.objectID
  {
    hide CommandCodec.Decode, PredictedCoarse, PredictedLeaf, CleanText;
  }

  lemma PublishKeeps(env: Env, w: World, r: Record, revision: RunBuilder.Revision, s: Surroundings, q: Record)
    requires Inv(env, w) && Enabled(env, w, Step.PublishResult(r, revision, s, q))
    ensures Inv(env, Apply(w, Step.PublishResult(r, revision, s, q)))
  {
    hide AS.Inv, S.Inv, CommandEffect, ResultEffect, Stored, ResultFor, Produced;
    S.StepInv(w.results, S.ProducerAppend(q));
    ProducedIsResultFor(env, r, revision, s, q);
    var next := Apply(w, Step.PublishResult(r, revision, s, q));
    EffectsStay(env, w, next);
  }

  lemma SaveRunKeeps(env: Env, w: World, run: Run, time: int, fate: Fate)
    requires Inv(env, w)
    ensures Inv(env, Apply(w, SaveRun(run, time, fate)))
  {
    hide AS.Inv, S.Inv, CommandEffect, ResultEffect, ResultFor, CheckConstraints, SourceExists;
    var next := Apply(w, SaveRun(run, time, fate));
    if Save(w.db, run, time, fate).1.Saved? {
      SavedIsRecorded(w.db, run, time, fate);
    }
    assert w.db.rows <= next.db.rows;
    hide Save, Stored;
    EffectsStay(env, w, next);
  }

  // ---- returning nil ----

  lemma NilMeansPublished(stages: Stages)
    ensures FirstFailure(StageList(stages)).None? <==> ReachesPublish(stages) && stages.publish.Acknowledged?
  {
    FailureAt(StageList(stages), if stages.decode.Some? then 0 else if stages.prepare.Some? then 1 else if stages.resolve.Some? then 2
                                 else if stages.classify.Some? then 3 else if stages.contextAfter.Some? then 4 else if stages.buildRun.Some? then 5
                                 else if stages.buildResult.Some? then 6 else 7);
  }

  // The command stack returns nil only when its effect is in the world.
  lemma NilMeansCommandEffect(env: Env, w: World, r: Record, live: Option<ContextError>, attempts: seq<CommandAttempt>, delivery: Delivery)
    requires Inv(env, w) && Enabled(env, w, FinishCommand(r, live, attempts, delivery))
    ensures CommandEffect(env, w, r)
  {
    hide AS.Inv, S.Inv, ResultFor, StackResult, ResultEffect, Stored, A.Enabled, S.Enabled, AsyncRecord, Produced;
    hide FirstFailure, StageList, HasClass, Structured, Leading;
    var script := TurnsOf(env, r, attempts);
    StackNil(live, script, delivery);
    var k := Leading(script);
    if script[k].error.None? {
      NilMeansPublished(StagesOf(env, r, attempts[k]));
      assert (r, attempts[k].result) in w.published;
    }
  }

  lemma NilMeansResultEffect(env: Env, w: World, q: Record, live: Option<ContextError>, writes: seq<WriteAttempt>, delivery: Delivery)
    requires Inv(env, w) && Enabled(env, w, FinishResult(q, live, writes, delivery))
    ensures ResultEffect(env, w, q)
  {
    hide AS.Inv, S.Inv, ResultFor, ResultStack, CommandEffect, Stored, ResultCodec.Decode, A.Enabled, S.Enabled, AsyncRecord, Produced, DecodeFailure, ResultLeading;
    var script := WriteTurns(env, q, writes);
    ResultStackNil(live, script, delivery);
    var k := ResultLeading(script);
    if script[k].error.None? {
      assert writes[k].outcome.Saved?;
    }
  }

  lemma StepInv(env: Env, w: World, step: Step)
    requires Inv(env, w) && Enabled(env, w, step)
    ensures Inv(env, Apply(w, step))
  {
    hide AS.Inv, S.Inv, CommandEffect, ResultEffect, Stored, ResultFor, A.Enabled, S.Enabled, AsyncRecord, Produced;
    hide AsyncNext, SerialNext, HonestCommand, HonestResult, StackResult, ResultStack, Save;
    match step
    case CommandGroup(s) => CommandGroupKeeps(env, w, s);
    case ResultGroup(s) => ResultGroupKeeps(env, w, s);
    case PublishResult(r, revision, s, q) => PublishKeeps(env, w, r, revision, s, q);
    case SaveRun(run, time, fate) => SaveRunKeeps(env, w, run, time, fate);
    case DeadLetterCommand(r) => EffectsStay(env, w, Apply(w, step));
    case DeadLetterResult(q) => EffectsStay(env, w, Apply(w, step));
    case FinishCommand(r, live, attempts, delivery) =>
      NilMeansCommandEffect(env, w, r, live, attempts, delivery);
      CommandEffectStays(env, w, Apply(w, step), r);
      EffectsStay(env, w, Apply(w, step));
    case FinishResult(q, live, writes, delivery) =>
      NilMeansResultEffect(env, w, q, live, writes, delivery);
      ResultEffectStays(env, w, Apply(w, step), q);
      EffectsStay(env, w, Apply(w, step));
  }

  lemma {:induction false} RunWorldInv(env: Env, w: World, steps: seq<Step>)
    requires Inv(env, w)
    ensures Inv(env, RunWorld(env, w, steps))
    decreases |steps|
  {
    hide Inv, Enabled, Apply;
    if steps != [] {
      if Enabled(env, w, steps[0]) {
        StepInv(env, w, steps[0]);
        RunWorldInv(env, Apply(w, steps[0]), steps[1..]);
      } else {
        RunWorldInv(env, w, steps[1..]);
      }
    }
  }

  lemma InitInv(env: Env, w: World)
    requires Init(w)
    ensures Inv(env, w)
  {
    hide AS.Inv, S.Inv, A.Init, S.Init;
    AS.InitInv(w.commands);
    S.InitInv(w.results);
    NothingHandled(w);
  }

  lemma NothingHandled(w: World)
    requires A.Init(w.commands) && S.Init(w.results)
    ensures w.commands.broker.handled == {} && w.results.broker.handled == {}
  {
  }

  // ---- conservation ----

  // The record lies below its group's committed offset.
  ghost predicate Consumed(b: Broker, r: Record) {
    && r in b.log && r.Home() in b.start && r.Home() in b.committed
    && b.start[r.Home()] <= r.offset < b.committed[r.Home()]
  }

  // Every command below the committed offset has its result published or sits in the
  // command dead-letter topic, and every result below the committed offset has its run
  // identity in the database or sits in the result dead-letter topic.
  lemma Conservation(env: Env, init: World, steps: seq<Step>, r: Record)
    requires Init(init)
    ensures var w := RunWorld(env, init, steps);
      && (Consumed(w.commands.broker, r) ==> CommandEffect(env, w, r))
      && (Consumed(w.results.broker, r) ==> ResultEffect(env, w, r))
  {
    hide RunWorld, CommandEffect, ResultEffect, PublishedInv, Init, LogInv;
    InitInv(env, init);
    RunWorldInv(env, init, steps);
  }

  // End to end: once the commands and all results are consumed, a command has the run of
  // its own job in the database unless a dead letter holds the command or its result.
  lemma CommandsReachTheDatabase(env: Env, init: World, steps: seq<Step>, r: Record)
    requires Init(init)
    requires Consumed(RunWorld(env, init, steps).commands.broker, r)
    requires forall q :: (r, q) in RunWorld(env, init, steps).published ==> Consumed(RunWorld(env, init, steps).results.broker, q)
    ensures var w := RunWorld(env, init, steps);
      || r in w.commandDLQ
      || exists q :: (r, q) in w.published &&
           (q in w.resultDLQ ||
            (CommandOf(env, r).Ok? &&
             var jobID := CommandOf(env, r).value.jobID;
             var runID := Identity.GenerateRunID(env.digest, jobID);
             runID.Some? && Recorded(w.db.rows, runID.value, jobID)))
  {
    hide RunWorld, Init, Consumed, ResultCodec.Decode, Identity.GenerateRunID, CommandOf, Enabled, Apply;
    Conservation(env, init, steps, r);
    var w := RunWorld(env, init, steps);
    if r !in w.commandDLQ {
      var q :| (r, q) in w.published && ResultFor(env, r, q);
      Conservation(env, init, steps, q);
      if q !in w.resultDLQ {
        DecodedJob(env, q);
        ResultForJob(env, r, q);
        assert Stored(w.db, ResultCodec.Decode(env.digest, env.resultTopic, env.readResult(q)).value.run);
      }
    }
  }

  lemma ResultForJob(env: Env, r: Record, q: Record)
    requires ResultFor(env, r, q)
    ensures CommandOf(env, r).Ok? && env.readResult(q).body.Encoded?
    ensures env.readResult(q).body.message.jobID == CommandOf(env, r).value.jobID
  {
    hide CommandCodec.Decode;
  }

  lemma DecodedJob(env: Env, q: Record)
    requires ResultCodec.Decode(env.digest, env.resultTopic, env.readResult(q)).Ok?
    ensures var run := ResultCodec.Decode(env.digest, env.resultTopic, env.readResult(q)).value.run;
      && env.readResult(q).body.Encoded?
      && run.jobID == env.readResult(q).body.message.jobID
      && Identity.GenerateRunID(env.digest, run.jobID) == Some(run.runID)
  {
    hide Identity.GenerateRunID, Identity.GenerateJobID, ResultCodec.ValidateRun, CanonicalNonNil;
  }

  // ---- records that cannot be read ----

  // A command that does not decode never blocks its partition: once its dead letter is
  // written, any single attempt with an acknowledged dead letter finishes it.
  lemma UnreadableCommandsFinish(env: Env, w: World, r: Record, attempt: CommandAttempt)
    requires CommandOf(env, r).Err?
    ensures var v := Apply(w, DeadLetterCommand(r));
      && Enabled(env, w, DeadLetterCommand(r))
      && Enabled(env, v, FinishCommand(r, None, [attempt], Acknowledged))
      && r in Apply(v, FinishCommand(r, None, [attempt], Acknowledged)).doneCommands
      && forall live, attempts, delivery :: Enabled(env, w, FinishCommand(r, live, attempts, delivery)) ==> r in w.commandDLQ
  {
    hide StageList, FirstFailure, Wrap, CommandDecodeFailure, CommandOf;
    var stages := StagesOf(env, r, attempt);
    var turns := TurnsOf(env, r, [attempt]);
    RefusedCommandsAreDeadLettered(stages, CommandOf(env, r).error, attempt.wait, [], Acknowledged);
    assert turns == [TurnOf(env, r, attempt)] + [];
    forall live, attempts, delivery | Enabled(env, w, FinishCommand(r, live, attempts, delivery))
      ensures r in w.commandDLQ
    {
      UnreadableNeedsDeadLetter(env, w, r, live, attempts, delivery);
    }
  }

  lemma UnreadableNeedsDeadLetter(env: Env, w: World, r: Record, live: Option<ContextError>, attempts: seq<CommandAttempt>, delivery: Delivery)
    requires CommandOf(env, r).Err? && Enabled(env, w, FinishCommand(r, live, attempts, delivery))
    ensures r in w.commandDLQ
  {
    hide StageList, FirstFailure, Wrap, CommandDecodeFailure, CommandOf;
    var turns := TurnsOf(env, r, attempts);
    StackNil(live, turns, delivery);
    var stages := StagesOf(env, r, attempts[0]);
    RefusedCommandsAreDeadLettered(stages, CommandOf(env, r).error, attempts[0].wait, turns[1..], delivery);
    assert turns == [turns[0]] + turns[1..];
  }

  // The same for results.
  lemma UnreadableResultsFinish(env: Env, w: World, q: Record, write: WriteAttempt)
    requires env.resultTopic != [] && ResultCodec.Decode(env.digest, env.resultTopic, env.readResult(q)).Err?
    ensures var v := Apply(w, DeadLetterResult(q));
      && Enabled(env, w, DeadLetterResult(q))
      && Enabled(env, v, FinishResult(q, None, [write], Acknowledged))
      && q in Apply(v, FinishResult(q, None, [write], Acknowledged)).doneResults
  {
    hide DecodeFailure, FailureCode, IsPermanent;
    var decoded := ResultCodec.Decode(env.digest, env.resultTopic, env.readResult(q));
    WriterFailuresAreBuildable(decoded.error, Outcome.Failed, [Opaque]);
    NoTopicError(env, q);
    var script := WriteTurns(env, q, [write]);
    ResultLeadingUnique(script, 0);
    ResultStackNil(None, script, Acknowledged);
  }

  lemma NoTopicError(env: Env, q: Record)
    requires env.resultTopic != [] && ResultCodec.Decode(env.digest, env.resultTopic, env.readResult(q)).Err?
    ensures !ResultCodec.Decode(env.digest, env.resultTopic, env.readResult(q)).error.NoExpectedTopic?
  {
    hide ResultCodec.ValidateCoarseSource, PredictedCoarse, PredictedLeaf, Identity.GenerateJobID, Identity.GenerateRunID, CanonicalNonNil, CheckValid;
  }

  // ---- records that can ----

  const AllStagesSucceed := Stages(None, None, None, None, None, None, None, Acknowledged)

  // Once the worker's own result is published, one successful attempt finishes the command.
  lemma PublishedCommandsFinish(env: Env, w: World, r: Record, revision: RunBuilder.Revision, s: Surroundings, q: Record, delivery: Delivery)
    requires Enabled(env, w, Step.PublishResult(r, revision, s, q)) && !delivery.Acknowledged?
    ensures var v := Apply(w, Step.PublishResult(r, revision, s, q));
      var finish := FinishCommand(r, None, [CommandAttempt(AllStagesSucceed, q, None)], delivery);
      && q in v.results.broker.log && (r, q) in v.published
      && Enabled(env, v, finish) && r in Apply(v, finish).doneCommands
  {
    hide CommandOf, RunOf, ResultCodec.BuildMessage, CanAppend;
    var attempt := CommandAttempt(AllStagesSucceed, q, None);
    NilMeansPublished(StagesOf(env, r, attempt));
    var turns := TurnsOf(env, r, [attempt]);
    hide StageList, FirstFailure;
    assert turns[0].error.None?;
    LeadingUnique(turns, 0);
    StackNil(None, turns, delivery);
    hide CanAppend;
    Appended(w.results, q);
  }

  lemma Appended(s: S.System, q: Record)
    requires CanAppend(s.broker, q)
    ensures q in SerialNext(s, S.ProducerAppend(q)).broker.log
  {
  }

  // Once its run is saved, one successful attempt finishes a result.
  lemma SavedResultsFinish(env: Env, w: World, q: Record, time: int, fate: Fate, delivery: Delivery)
    requires ResultCodec.Decode(env.digest, env.resultTopic, env.readResult(q)).Ok? && !delivery.Acknowledged?
    requires Save(w.db, ResultCodec.Decode(env.digest, env.resultTopic, env.readResult(q)).value.run, time, fate).1.Saved?
    ensures var run := ResultCodec.Decode(env.digest, env.resultTopic, env.readResult(q)).value.run;
      var v := Apply(w, SaveRun(run, time, fate));
      var finish := FinishResult(q, None, [WriteAttempt(Save(w.db, run, time, fate).1, [Opaque], None, None)], delivery);
      && Enabled(env, w, SaveRun(run, time, fate))
      && Stored(v.db, run) && Enabled(env, v, finish) && q in Apply(v, finish).doneResults
  {
    hide ResultCodec.Decode;
    var run := ResultCodec.Decode(env.digest, env.resultTopic, env.readResult(q)).value.run;
    SavedIsRecorded(w.db, run, time, fate);
    var outcome := Save(w.db, run, time, fate).1;
    hide Save, StackResult, FailureCode, IsPermanent;
    var script := WriteTurns(env, q, [WriteAttempt(outcome, [Opaque], None, None)]);
    assert script[0].error.None?;
    ResultLeadingUnique(script, 0);
    ResultStackNil(None, script, delivery);
  }
}
