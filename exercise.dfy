/** The exercise grader: the `ExerciseRunner` component's database lifecycle
    (`initializeDb`) and its feedback logic (`runUserQuery`), over an abstract
    SQL engine. */
module Exercise {
  import opened Wrappers
  import opened ResultSets

  /** What `exec` does: the result sets of the statements that yield rows, or
      the engine's error message (`exec` throwing). */
  datatype ExecOutcome = Success(results: seq<ResultSet>) | Failure(message: string)

  /** The embedded engine's behaviour, taken as a deterministic function:
      `engine(applied, sql)` is the outcome of running `sql` on a fresh database
      to which the scripts `applied` were run in order. */
  type Engine = (seq<string>, string) -> ExecOutcome

  /** A database handle, identified by the scripts run on it so far. */
  datatype Database = Database(applied: seq<string>)

  /** Whether loading the engine (`initSqlJs`) succeeded. */
  datatype LoadOutcome = Loaded | LoadFailed(message: string)

  /** The exercise definition the component receives as a prop. */
  datatype ExerciseDetail = ExerciseDetail(
    taskDescription: string,
    schema: string,
    sampleDataSetup: string,
    correctQuery: string,
    initialQuery: Option<string>)

  /** The outcome of one run of the user's query. */
  datatype Verdict = NotLoaded | ExecutionFailed(error: string) | Unverifiable | Correct | Incorrect

  /** The `feedback` state: `isCorrect` is `null`, `true` or `false`. */
  datatype Feedback = Feedback(isCorrect: Option<bool>, message: string)

  const DefaultInitialQuery := "SELECT 'your query here';"
  const InitErrorPrefix := "Error initializing database: "
  const NotLoadedError := "Database not yet loaded. Please wait."
  const ExecErrorPrefix := "Error executing query: "
  const CorrectMessage := "Correct! Well done."
  const IncorrectMessage := "Incorrect. Check your query against the requirements, column names, and expected data."
  const UnverifiableMessage := "Could not verify correctness (missing expected results)."
  const QueryFailedMessage := "Query execution failed. Check your SQL syntax."

  /** The feedback every failed execution shows, whatever the engine said. */
  const QueryFailedFeedback := Feedback(Some(false), QueryFailedMessage)

  /** `exec` on a handle: the engine's outcome, and the handle with `sql` run on it. */
  function Exec(engine: Engine, db: Database, sql: string): (ExecOutcome, Database)
  {
    (engine(db.applied, sql), Database(db.applied + [sql]))
  }

  /** The verdict of a run whose `exec` returned `outcome`, given the stored
      reference results (`None` when the reference query never succeeded). */
  function Grade(outcome: ExecOutcome, reference: Option<seq<ResultSet>>): (v: Verdict)
    ensures v != NotLoaded
    ensures v.ExecutionFailed? <==> outcome.Failure?
    ensures outcome.Failure? ==> v == ExecutionFailed(outcome.message)
    ensures v == Unverifiable <==> outcome.Success? && reference.None?
    ensures v == Correct <==> outcome.Success? && Equivalent(Some(outcome.results), reference)
    ensures v == Incorrect <==> outcome.Success? && reference.Some? && !Equivalent(Some(outcome.results), reference)
  {
    match outcome
    case Failure(msg) => ExecutionFailed(msg)
    case Success(results) =>
      if reference.None? then Unverifiable
      else if Equivalent(Some(results), reference) then Correct
      else Incorrect
  }

  /** The `feedback` state a verdict leaves behind. */
  function FeedbackOf(v: Verdict): (f: Feedback)
    ensures f.isCorrect == Some(true) <==> v == Correct
    ensures f.isCorrect.None? <==> v == NotLoaded
    ensures f.message == "" <==> v == NotLoaded
  {
    match v
    case NotLoaded => Feedback(None, "")
    case ExecutionFailed(_) => QueryFailedFeedback
    case Unverifiable => Feedback(Some(false), UnverifiableMessage)
    case Correct => Feedback(Some(true), CorrectMessage)
    case Incorrect => Feedback(Some(false), IncorrectMessage)
  }

  /** The `error` state a verdict leaves behind. */
  function ErrorOf(v: Verdict): (e: Option<string>)
    ensures e.Some? <==> v == NotLoaded || v.ExecutionFailed?
    ensures v.ExecutionFailed? ==> e == Some(ExecErrorPrefix + v.error)
    ensures v == NotLoaded ==> e == Some(NotLoadedError)
  {
    match v
    case NotLoaded => Some(NotLoadedError)
    case ExecutionFailed(msg) => Some(ExecErrorPrefix + msg)
    case _ => None
  }

  /** A failed execution's error ends with the engine's message, unchanged. */
  lemma ExecErrorEndsWithEngineMessage(message: string)
    ensures var e := ErrorOf(ExecutionFailed(message));
      e.Some? && |message| <= |e.value| && e.value[|e.value| - |message|..] == message
  {
    var e := ErrorOf(ExecutionFailed(message)).value;
    assert e[|ExecErrorPrefix|..] == message;
  }

  /** The feedback never conflates two verdicts: only the error text tells two
      failed executions apart. */
  lemma FeedbackDistinguishesVerdicts(v: Verdict, w: Verdict)
    requires FeedbackOf(v) == FeedbackOf(w)
    ensures v == w || (v.ExecutionFailed? && w.ExecutionFailed?)
  {
  }

  /** Without reference results no run is ever graded correct. */
  lemma NoReferenceNeverCorrect(outcome: ExecOutcome)
    ensures Grade(outcome, None) != Correct
    ensures FeedbackOf(Grade(outcome, None)).isCorrect == Some(false)
  {
  }

  /** The scripts `initializeDb` runs on a fresh database, in order. */
  function SessionStart(d: ExerciseDetail): seq<string>
  {
    [d.schema, d.sampleDataSetup, d.correctQuery]
  }

  /** The engine loads and both the schema and the sample data apply, so that
      `setDb` is reached. */
  predicate DatabaseCreated(engine: Engine, d: ExerciseDetail, load: LoadOutcome)
  {
    load.Loaded? && engine([], d.schema).Success? && engine([d.schema], d.sampleDataSetup).Success?
  }

  /** The outcome of the reference query during initialisation. */
  function ReferenceOutcome(engine: Engine, d: ExerciseDetail): ExecOutcome
  {
    engine([d.schema, d.sampleDataSetup], d.correctQuery)
  }

  class ExerciseRunner {
    const engine: Engine
    const detail: ExerciseDetail
    var db: Option<Database>
    var userQuery: string
    var queryResults: seq<ResultSet>
    var feedback: Feedback
    var error: Option<string>
    var correctResultsForComparison: Option<seq<ResultSet>>

    constructor (engine: Engine, detail: ExerciseDetail)
      ensures this.engine == engine && this.detail == detail
      ensures db.None? && queryResults == [] && error.None? && correctResultsForComparison.None?
      ensures feedback == Feedback(None, "")
      ensures userQuery == if detail.initialQuery.Some? then detail.initialQuery.value else DefaultInitialQuery
    {
      this.engine := engine;
      this.detail := detail;
      db := None;
      userQuery := if detail.initialQuery.Some? then detail.initialQuery.value else DefaultInitialQuery;
      queryResults := [];
      feedback := Feedback(None, "");
      error := None;
      correctResultsForComparison := None;
    }

    /** The editor's `onChange`. */
    method SetUserQuery(q: string)
      modifies this`userQuery
      ensures userQuery == q
    {
      userQuery := q;
    }

    /** `initializeDb`: load the engine, create a database, run the schema and
        the sample data, publish the handle, then run the reference query and
        store its results. The first failure ends the sequence and sets
        `error`; whatever was already published stays. */
    method InitializeDb(load: LoadOutcome)
      modifies this`db, this`error, this`correctResultsForComparison
      ensures !DatabaseCreated(engine, detail, load) ==>
        && db == old(db)
        && correctResultsForComparison == old(correctResultsForComparison)
        && error == Some(InitErrorPrefix +
             if load.LoadFailed? then load.message
             else if engine([], detail.schema).Failure? then engine([], detail.schema).message
             else engine([detail.schema], detail.sampleDataSetup).message)
      ensures DatabaseCreated(engine, detail, load) ==>
        && db == Some(Database(SessionStart(detail)))
        && (ReferenceOutcome(engine, detail).Failure? ==>
              && correctResultsForComparison == old(correctResultsForComparison)
              && error == Some(InitErrorPrefix + ReferenceOutcome(engine, detail).message))
        && (ReferenceOutcome(engine, detail).Success? ==>
              && correctResultsForComparison == Some(ReferenceOutcome(engine, detail).results)
              && error == old(error))
    {
      if load.LoadFailed? {
        error := Some(InitErrorPrefix + load.message);
        return;
      }
      var (schemaRun, afterSchema) := Exec(engine, Database([]), detail.schema);
      if schemaRun.Failure? {
        error := Some(InitErrorPrefix + schemaRun.message);
        return;
      }
      assert afterSchema.applied == [detail.schema];
      var (seedRun, afterSeed) := Exec(engine, afterSchema, detail.sampleDataSetup);
      if seedRun.Failure? {
        error := Some(InitErrorPrefix + seedRun.message);
        return;
      }
      // The handle is published before the reference query runs on it, and
      // that run changes the published handle's state too.
      assert afterSeed.applied == [detail.schema, detail.sampleDataSetup];
      db := Some(afterSeed);
      var (correctRes, afterReference) := Exec(engine, afterSeed, detail.correctQuery);
      assert afterReference.applied == SessionStart(detail);
      db := Some(afterReference);
      if correctRes.Failure? {
        error := Some(InitErrorPrefix + correctRes.message);
        return;
      }
      correctResultsForComparison := Some(correctRes.results);
    }

    /** `runUserQuery`: run the editor's text and resolve the feedback. */
    method RunUserQuery()
      modifies this`db, this`queryResults, this`feedback, this`error
      ensures old(db).None? ==>
        && db.None?
        && error == ErrorOf(NotLoaded) && queryResults == [] && feedback == FeedbackOf(NotLoaded)
      ensures old(db).Some? ==>
        var outcome := engine(old(db).value.applied, userQuery);
        var v := Grade(outcome, correctResultsForComparison);
        && db == Some(Database(old(db).value.applied + [userQuery]))
        && feedback == FeedbackOf(v)
        && error == ErrorOf(v)
        && queryResults == (if outcome.Success? then outcome.results else [])
    {
      if db.None? {
        error := Some(NotLoadedError);
        queryResults := [];
        feedback := Feedback(None, "");
        return;
      }
      error := None;
      feedback := Feedback(None, "");
      var (outcome, newDb) := Exec(engine, db.value, userQuery);
      db := Some(newDb);
      match outcome
      case Failure(msg) =>
        error := Some(ExecErrorPrefix + msg);
        queryResults := [];
        feedback := Feedback(Some(false), QueryFailedMessage);
      case Success(results) =>
        queryResults := results;
        if correctResultsForComparison.Some? {
          var isCorrect := CompareResults(Some(results), correctResultsForComparison);
          if isCorrect {
            feedback := Feedback(Some(true), CorrectMessage);
          } else {
            feedback := Feedback(Some(false), IncorrectMessage);
          }
        } else {
          feedback := Feedback(Some(false), UnverifiableMessage);
        }
    }
  }

  /** The feedback of the `i`-th of `queries` submitted in one session. */
  function SessionFeedback(engine: Engine, d: ExerciseDetail, load: LoadOutcome,
                           queries: seq<string>, i: nat): Feedback
    requires i < |queries|
  {
    if !DatabaseCreated(engine, d, load) then FeedbackOf(NotLoaded)
    else
      var ref := ReferenceOutcome(engine, d);
      FeedbackOf(Grade(engine(SessionStart(d) + queries[..i], queries[i]),
                       if ref.Success? then Some(ref.results) else None))
  }

  /** Once the reference query has failed, every run of the session is either
      "could not verify" or "execution failed", and never correct. */
  lemma ReferenceFailureNeverCorrect(engine: Engine, d: ExerciseDetail, load: LoadOutcome,
                                     queries: seq<string>, i: nat)
    requires DatabaseCreated(engine, d, load) && ReferenceOutcome(engine, d).Failure?
    requires i < |queries|
    ensures SessionFeedback(engine, d, load, queries, i) == FeedbackOf(Unverifiable)
         || SessionFeedback(engine, d, load, queries, i) == QueryFailedFeedback
    ensures SessionFeedback(engine, d, load, queries, i).isCorrect == Some(false)
  {
    NoReferenceNeverCorrect(engine(SessionStart(d) + queries[..i], queries[i]));
  }

  /** One exercise view: mount the component, initialise it, then submit
      `queries` one after another, collecting the feedback each run shows. */
  method RunSession(engine: Engine, d: ExerciseDetail, load: LoadOutcome, queries: seq<string>)
    returns (feedbacks: seq<Feedback>)
    ensures |feedbacks| == |queries|
    ensures forall i :: 0 <= i < |queries| ==> feedbacks[i] == SessionFeedback(engine, d, load, queries, i)
    ensures DatabaseCreated(engine, d, load) && ReferenceOutcome(engine, d).Failure? ==>
      forall i :: 0 <= i < |queries| ==>
        feedbacks[i] == FeedbackOf(Unverifiable) || feedbacks[i] == QueryFailedFeedback
  {
    var runner := new ExerciseRunner(engine, d);
    runner.InitializeDb(load);
    assert SessionStart(d) + queries[..0] == SessionStart(d);
    feedbacks := [];
    for i := 0 to |queries|
      invariant runner.engine == engine && runner.detail == d
      invariant runner.db == if DatabaseCreated(engine, d, load)
                             then Some(Database(SessionStart(d) + queries[..i])) else None
      invariant runner.correctResultsForComparison ==
                  if DatabaseCreated(engine, d, load) && ReferenceOutcome(engine, d).Success?
                  then Some(ReferenceOutcome(engine, d).results) else None
      invariant |feedbacks| == i
      invariant forall k :: 0 <= k < i ==> feedbacks[k] == SessionFeedback(engine, d, load, queries, k)
    {
      runner.SetUserQuery(queries[i]);
      runner.RunUserQuery();
      assert SessionStart(d) + queries[..i + 1] == SessionStart(d) + queries[..i] + [queries[i]];
      assert runner.feedback == SessionFeedback(engine, d, load, queries, i);
      feedbacks := feedbacks + [runner.feedback];
    }
    if DatabaseCreated(engine, d, load) && ReferenceOutcome(engine, d).Failure? {
      forall i | 0 <= i < |queries|
        ensures feedbacks[i] == FeedbackOf(Unverifiable) || feedbacks[i] == QueryFailedFeedback
      {
        ReferenceFailureNeverCorrect(engine, d, load, queries, i);
      }
    }
  }
}
