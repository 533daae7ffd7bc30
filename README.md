# SQL trainer: exercise grader and quiz, modelled in Dafny

This project models the two pieces of logic in the SQL trainer web app that
decide what a learner is told.

- **The exercise grader** (`ExerciseRunner` component). It creates an in-browser
  SQLite database per exercise, runs the schema and the sample data, and runs
  the reference ("correct") query once to keep its results. Each time the
  learner runs a query, it shows one of five outcomes: database not loaded,
  execution failed, could not verify, correct, or incorrect. Correctness is
  decided by `compareResults`, a strict, order-sensitive, fail-fast check.
  Only the first result set of each side is inspected.
- **The quiz** (`QuizPage` component). Six pieces of state change under three
  handlers: select an answer, go to the next question, restart.

## Layout

- `wrappers.dfy`: module `Wrappers`, an `Option` type standing in for `null`.
- `result_sets.dfy`: module `ResultSets`. Holds the cells, rows and result sets
  returned by the engine's `exec`, and JavaScript `===` on cells
  (`StrictEquals`). Holds the declarative specification of the comparison
  (`Equivalent`), the loop that implements it (`CompareResults`), and lemmas
  about the comparison.
- `exercise.dfy`: module `Exercise`. Holds the class `ExerciseRunner` with the
  component's state fields and its `initializeDb` and `runUserQuery` handlers.
  The pure functions `Grade`, `FeedbackOf` and `ErrorOf` say which verdict,
  feedback and error each run produces. `RunSession` plays a whole exercise
  view: mount, initialise, then a series of runs.
- `quiz.dfy`: module `Quiz`. Holds the class `QuizPage` over a read-only list
  of questions, with an invariant `Valid()`, the three handlers and the
  rendered screen (`View`). `PlayThrough` answers every question in turn.

## Modelling decisions

- **The engine is a parameter.** The engine is a total function
  `Engine = (seq<string>, string) -> ExecOutcome`. `engine(applied, sql)` is
  the outcome of running `sql` on a fresh database to which the scripts
  `applied` were run in order. A database handle is the list of scripts run on
  it so far. This makes the engine deterministic: grading relies on the
  same query on the same data giving the same result. `run` (schema, sample
  data) is `exec` with the results thrown away.
- **Loading is an input.** Whether `initSqlJs` resolves is the `LoadOutcome`
  argument of `InitializeDb`.
- **Cells** are `Null`, `Num(Number)`, `Text(string)` or `Blob(bytes)`. The
  engine returns every number as one JavaScript number type, so integer and
  real columns share `Num`. A `Number` is a finite value or one of the two
  infinities (an overflowing REAL such as `1e999`); `Infinity === Infinity`
  holds, as equality on `Number` does. SQLite turns NaN into NULL, so NaN
  never occurs. Values are compared without arithmetic. The
  engine returns each BLOB as a fresh `Uint8Array`, and `===` compares arrays
  by identity. So a BLOB cell never matches a BLOB cell from another `exec`
  result. This is why `Reflexive` and `EquivalentIffFirstSetsEqual` need "no
  BLOB cells" (`BlobFree`), and why `BlobNeverEquivalent` holds.
- **Presence follows JavaScript truthiness.** An empty array is truthy. A
  stored reference result of `[]` therefore counts as present, so it gives
  "correct"/"incorrect" and not "could not verify". Only `null` is absent
  (`None`).
- The check `!userRes || !correctRes` in `compareResults` can never fire: both
  lists have the same, non-zero length at that point. The model leaves it out.
- `handleAnswerSelect` reads `currentQuestion.correctAnswer`. That reference
  fails when there is no current question. Its only callers are the option
  buttons, which exist only on the question screen. So `HandleAnswerSelect`
  requires `AnswerOptionsShown()`: the quiz is not completed and a current
  question exists. `handleNextQuestion` and `handleRestartQuiz` are modelled
  for every state.
- A ghost field `answered` counts the questions answered since the last
  (re)start. It states "the score never exceeds the number of questions
  answered".
- A failing reference query sets the "Error initializing database: …" error
  but leaves the database usable; the first run clears that error.
- `compareResults`'s first test returns false for an absent (`null`)
  argument; it never sees an execution failure, because a failing `exec`
  throws before it is called.
- The engine never returns booleans, so there is no boolean cell.

## Model

| member | source | states |
|---|---|---|
| ResultSets.StrictEquals | src/components/ExerciseRunner.jsx:26 | `===` on cells implies value equality; equal non-BLOB cells match; a BLOB cell never matches (values of different types, e.g. the string "1" and the number 1, never match) |
| ResultSets.CompareResults | src/components/ExerciseRunner.jsx:5-30 | the fail-fast loops over columns, rows and cells return exactly `Equivalent(userResult, correctResult)` |
| ResultSets.AbsentNeverEquivalent | src/components/ExerciseRunner.jsx:6 | a missing (`null`) argument on either side gives false |
| ResultSets.EmptyListsEquivalent | src/components/ExerciseRunner.jsx:7 | two empty result lists are equivalent |
| ResultSets.DifferentCountsNotEquivalent | src/components/ExerciseRunner.jsx:8 | lists with different numbers of result sets are not equivalent |
| ResultSets.OnlyFirstResultSetCompared | src/components/ExerciseRunner.jsx:10-11 | changing any result set after the first, with the counts kept, never changes the verdict |
| ResultSets.ColumnsDifferNotEquivalent | src/components/ExerciseRunner.jsx:16-19 | column lists that differ in length, name or order (swapped or renamed columns) give false |
| ResultSets.RowCountsDifferNotEquivalent | src/components/ExerciseRunner.jsx:22 | different row counts give false, including an empty user result against a non-empty reference |
| ResultSets.CellDiffersNotEquivalent | src/components/ExerciseRunner.jsx:23-27 | one cell that is not `===` to its counterpart gives false |
| ResultSets.BlobNeverEquivalent | src/components/ExerciseRunner.jsx:26 | a BLOB cell in the user's first result set makes the comparison false |
| ResultSets.Symmetric | src/components/ExerciseRunner.jsx:5-30 | swapping the arguments never changes the answer |
| ResultSets.RowMatchesIsEquality | src/components/ExerciseRunner.jsx:24-27 | for rows without BLOB cells, the row check holds exactly when the rows are equal |
| ResultSets.EquivalentIffFirstSetsEqual | src/components/ExerciseRunner.jsx:5-30 | without BLOB cells: equivalent exactly when the counts agree and the first result sets are identical (both directions) |
| ResultSets.Reflexive | src/components/ExerciseRunner.test.jsx:118-162 | identical results without BLOB cells, including ones with columns but no rows, compare true |
| ResultSets.RowOrderMatters | src/components/ExerciseRunner.jsx:22-27 | the same columns with the rows in another order (or otherwise different) are not equivalent |
| Exercise.Grade | src/components/ExerciseRunner.jsx:73-92 | a failed exec is "execution failed" carrying the engine's message unchanged; a successful one is "could not verify" exactly when there is no reference, "correct" exactly when the results are equivalent to it, and "incorrect" otherwise |
| Exercise.FeedbackOf | src/components/ExerciseRunner.jsx:68-91 | `isCorrect` is true exactly for "correct", `null` with an empty message exactly for "not loaded", false otherwise |
| Exercise.ErrorOf | src/components/ExerciseRunner.jsx:66-89 | an error is shown exactly for "not loaded" and "execution failed"; the not-loaded text for the first, and the fixed prefix followed by the engine's own message for the second |
| Exercise.ExecErrorEndsWithEngineMessage | src/components/ExerciseRunner.jsx:89 | the error of a failed execution ends with the engine's message, verbatim |
| Exercise.FeedbackDistinguishesVerdicts | src/components/ExerciseRunner.jsx:80-91 | equal feedback means equal verdicts, apart from two failed executions: "could not verify" never looks like "incorrect" |
| Exercise.NoReferenceNeverCorrect | src/components/ExerciseRunner.jsx:77-86 | without a reference result no run is correct, and `isCorrect` is false |
| Exercise.ExerciseRunner.constructor | src/components/ExerciseRunner.jsx:33-40 | initial state: no database, no results, no error, no reference, empty feedback, editor holding the given or default initial query |
| Exercise.ExerciseRunner.SetUserQuery | src/components/ExerciseRunner.jsx:108 | the editor text becomes the new query |
| Exercise.ExerciseRunner.InitializeDb | src/components/ExerciseRunner.jsx:42-58 | a load, schema or seed failure sets the init error and changes nothing else; otherwise the database is set before the reference query runs, so a failing reference leaves the database set, the reference unset and the init error shown, while a successful one stores its results |
| Exercise.ExerciseRunner.RunUserQuery | src/components/ExerciseRunner.jsx:64-93 | with no database: the not-loaded error, no results, empty feedback; otherwise the query runs on the database and results, error and feedback are those of `Grade` on its outcome; the reference is never changed |
| Exercise.RunSession | src/components/ExerciseRunner.jsx:46-92 | the feedback of each of a session's runs is determined by the engine, the definition and the earlier queries; when the reference query fails, every run is "could not verify" or "execution failed", never correct |
| Exercise.ReferenceFailureNeverCorrect | src/components/ExerciseRunner.jsx:48-56 | once the reference query has failed during initialisation, each run of the session is "could not verify" or "execution failed" and `isCorrect` is false |
| Quiz.QuizPage.constructor | src/pages/QuizPage.jsx:5-10 | index 0, no answer, `isCorrect` null, score 0, both flags false |
| Quiz.QuizPage.HandleAnswerSelect | src/pages/QuizPage.jsx:16-27 | while feedback is shown nothing changes (no double scoring); otherwise the option is recorded, feedback is shown, `isCorrect` tells whether it is the correct answer and the score rises by exactly 1 for it and stays put otherwise |
| Quiz.QuizPage.HandleNextQuestion | src/pages/QuizPage.jsx:30-39 | clears the answer, `isCorrect` and the feedback flag; advances by one unless on the last question, where it sets completion and keeps the index; the invariant (index in range, score at most answered questions) is kept |
| Quiz.QuizPage.HandleRestartQuiz | src/pages/QuizPage.jsx:41-48 | every field returns to its initial value |
| Quiz.QuizPage.View | src/pages/QuizPage.jsx:50-152 | the completed screen shows the current score out of the number of questions, at most that number; an empty list shows "No quiz questions available."; otherwise question k = index + 1 of n with 1 <= k <= n, the current score (at most k), answer feedback exactly while it is shown and telling whether the selected answer is correct; Next is enabled and the options disabled exactly while an answer is shown; "Show Results" exactly on the last question |
| Quiz.CorrectCount | src/pages/QuizPage.jsx:21-23 | the number of correct answers (one point per matching answer) is at most the number of questions |
| Quiz.FullScoreIffAllCorrect | src/pages/QuizPage.jsx:21-23 | the count equals the number of questions exactly when every answer is the correct one (both directions) |
| Quiz.PlayThrough | src/pages/QuizPage.test.jsx:109-131 | answering every question and pressing Next ends on the completed screen with the number of correct answers out of the number of questions (the empty list stays on the no-questions screen) |

## Left out

- The SQLite engine itself (`initSqlJs`, `new SQL.Database()`, `run`, `exec`). It is a WebAssembly library loaded over the network, so it is an abstract deterministic function plus a load outcome.
- The asynchronous `useCallback`/`useEffect` sequencing and React's state batching. `InitializeDb` is one sequential method; each handler's state updates take effect in program order.
- Aliasing of the database handle: the model keeps the handle as a value in one field, and the component holds the only reference.
- `console.error` logging and cell rendering with `toString`, including how numbers are formatted.
- The enabled/disabled Run button (`disabled={!db}`): the "not loaded" path is modelled, but the button's rendering is not.
- QuizPage's question markup (ids, question text, optional SQL snippet, colours, progress bar width), which is presentation only.
- The home page playground, the navigation bar, routing, theming, translations, the SQL editor widget and the static lesson and exercise content. They hold no grading logic.
