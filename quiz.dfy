/** The quiz page: six pieces of component state over a read-only list of
    questions, three handlers that change them, and the screen they select. */
module Quiz {
  import opened Wrappers

  datatype Question = Question(
    id: int,
    questionText: string,
    sqlQuery: Option<string>,
    options: seq<string>,
    correctAnswer: string)

  /** A snapshot of the six state fields. */
  datatype QuizState = QuizState(
    currentQuestionIndex: int,
    selectedAnswer: Option<string>,
    isCorrect: Option<bool>,
    score: int,
    showFeedback: bool,
    quizCompleted: bool)

  /** The state on mount and after a restart. */
  const InitialState := QuizState(0, None, None, 0, false, false)

  datatype NextLabel = NextQuestion | ShowResults

  /** What the page renders. The component's "Loading quiz..." fallback is
      absent: it needs a non-empty list and no current question, which the
      page's invariant rules out. */
  datatype Screen =
    | CompletedScreen(score: int, total: nat)
    | NoQuestionsScreen
    | QuestionScreen(number: nat, total: nat, score: int, question: Question,
                     optionsDisabled: bool, nextEnabled: bool, nextLabel: NextLabel,
                     answerFeedback: Option<bool>)

  class QuizPage {
    const questions: seq<Question>
    var currentQuestionIndex: int
    var selectedAnswer: Option<string>
    var isCorrect: Option<bool>
    var score: int
    var showFeedback: bool
    var quizCompleted: bool
    /** How many questions have been answered since the last (re)start. */
    ghost var answered: nat

    function State(): QuizState
      reads this
    {
      QuizState(currentQuestionIndex, selectedAnswer, isCorrect, score, showFeedback, quizCompleted)
    }

    /** `quizQuestions[currentQuestionIndex]`, `undefined` when out of range. */
    function CurrentQuestion(): Option<Question>
      reads this
    {
      if 0 <= currentQuestionIndex < |questions| then Some(questions[currentQuestionIndex]) else None
    }

    /** The answer buttons exist only on the question screen. */
    predicate AnswerOptionsShown()
      reads this
    {
      !quizCompleted && CurrentQuestion().Some?
    }

    ghost predicate Valid()
      reads this
    {
      // the index stays on a question (or at 0 when there is none)
      && 0 <= currentQuestionIndex
      && (currentQuestionIndex < |questions| || currentQuestionIndex == 0)
      // completion happens on the last question
      && (quizCompleted ==> currentQuestionIndex == if |questions| == 0 then 0 else |questions| - 1)
      // feedback is shown exactly while an answer is recorded, and it is right
      && (showFeedback <==> selectedAnswer.Some?)
      && (showFeedback <==> isCorrect.Some?)
      && (showFeedback ==>
            && !quizCompleted && currentQuestionIndex < |questions|
            && isCorrect == Some(selectedAnswer.value == questions[currentQuestionIndex].correctAnswer))
      // one point at most per answered question, one answer at most per question
      && 0 <= score <= answered <= |questions|
      && answered <= currentQuestionIndex + (if showFeedback || quizCompleted then 1 else 0)
    }

    constructor (questions: seq<Question>)
      ensures Valid() && this.questions == questions
      ensures State() == InitialState
    {
      this.questions := questions;
      currentQuestionIndex, selectedAnswer, isCorrect := 0, None, None;
      score, showFeedback, quizCompleted := 0, false, false;
      answered := 0;
    }

    /** `handleAnswerSelect`: a no-op while feedback is shown; otherwise record
        the option, show feedback, and score a point for the correct answer. */
    method HandleAnswerSelect(option: string)
      requires Valid() && AnswerOptionsShown()
      modifies this
      ensures Valid()
      ensures old(showFeedback) ==> State() == old(State())
      ensures !old(showFeedback) ==>
        var correct := option == questions[currentQuestionIndex].correctAnswer;
        State() == old(State()).(selectedAnswer := Some(option), isCorrect := Some(correct),
                                 score := old(score) + (if correct then 1 else 0),
                                 showFeedback := true)
    {
      if showFeedback {
        return;
      }
      var currentQuestion := questions[currentQuestionIndex];
      selectedAnswer := Some(option);
      showFeedback := true;
      if option == currentQuestion.correctAnswer {
        isCorrect := Some(true);
        score := score + 1;
      } else {
        isCorrect := Some(false);
      }
      answered := answered + 1;
    }

    /** `handleNextQuestion`: clear the answer; advance, or complete the quiz
        on the last question. */
    method HandleNextQuestion()
      requires Valid()
      modifies this
      ensures Valid()
      ensures selectedAnswer.None? && isCorrect.None? && !showFeedback && score == old(score)
      ensures old(currentQuestionIndex) < |questions| - 1 ==>
        currentQuestionIndex == old(currentQuestionIndex) + 1 && quizCompleted == old(quizCompleted)
      ensures !(old(currentQuestionIndex) < |questions| - 1) ==>
        currentQuestionIndex == old(currentQuestionIndex) && quizCompleted
    {
      selectedAnswer := None;
      isCorrect := None;
      showFeedback := false;
      if currentQuestionIndex < |questions| - 1 {
        currentQuestionIndex := currentQuestionIndex + 1;
      } else {
        quizCompleted := true;
      }
    }

    /** `handleRestartQuiz`: every field back to its initial value. */
    method HandleRestartQuiz()
      requires Valid()
      modifies this
      ensures Valid()
      ensures State() == InitialState
    {
      currentQuestionIndex := 0;
      selectedAnswer := None;
      isCorrect := None;
      score := 0;
      showFeedback := false;
      quizCompleted := false;
      answered := 0;
    }

    /** The screen the component renders for the current state. */
    function View(): (s: Screen)
      reads this
      requires Valid()
      ensures s.CompletedScreen? <==> quizCompleted
      ensures s.CompletedScreen? ==> s.score == score && s.total == |questions| && 0 <= s.score <= s.total
      ensures s.NoQuestionsScreen? <==> !quizCompleted && |questions| == 0
      ensures s.NoQuestionsScreen? <==> !quizCompleted && CurrentQuestion().None?
      ensures s.QuestionScreen? ==>
        && 1 <= s.number <= s.total == |questions|
        && s.question == questions[s.number - 1]
        && s.number == currentQuestionIndex + 1
        && s.score == score && 0 <= s.score <= s.number
        && (s.answerFeedback.Some? <==> showFeedback)
        && (s.nextEnabled <==> selectedAnswer.Some?)
        && (s.optionsDisabled <==> selectedAnswer.Some?)
        && (s.nextLabel == ShowResults <==> s.number == s.total)
        && (s.answerFeedback.Some? ==>
              (s.answerFeedback.value <==> selectedAnswer == Some(s.question.correctAnswer)))
    {
      if quizCompleted then
        CompletedScreen(score, |questions|)
      else if |questions| == 0 then
        NoQuestionsScreen
      else
        QuestionScreen(
          currentQuestionIndex + 1, |questions|, score, questions[currentQuestionIndex],
          showFeedback, showFeedback,
          if currentQuestionIndex == |questions| - 1 then ShowResults else NextQuestion,
          if showFeedback then isCorrect else None)
    }
  }

  /** How many of `answers` are the correct answer to the question at the same position. */
  function CorrectCount(questions: seq<Question>, answers: seq<string>): (n: nat)
    requires |answers| == |questions|
    ensures n <= |questions|
  {
    if |questions| == 0 then 0
    else
      var last := |questions| - 1;
      CorrectCount(questions[..last], answers[..last])
        + (if answers[last] == questions[last].correctAnswer then 1 else 0)
  }

  /** A full score means every answer was the correct one, and conversely. */
  lemma {:induction false} FullScoreIffAllCorrect(questions: seq<Question>, answers: seq<string>)
    requires |answers| == |questions|
    ensures CorrectCount(questions, answers) == |questions|
        <==> forall k :: 0 <= k < |questions| ==> answers[k] == questions[k].correctAnswer
  {
    if |questions| > 0 {
      var last := |questions| - 1;
      FullScoreIffAllCorrect(questions[..last], answers[..last]);
      assert forall k :: 0 <= k < last ==> questions[..last][k] == questions[k] && answers[..last][k] == answers[k];
    }
  }

  /** Answer every question in turn, pressing Next after each. The final
      screen shows the number of correct answers out of the number of questions. */
  method PlayThrough(questions: seq<Question>, answers: seq<string>) returns (final: Screen)
    requires |answers| == |questions|
    ensures |questions| == 0 ==> final == NoQuestionsScreen
    ensures |questions| > 0 ==> final == CompletedScreen(CorrectCount(questions, answers), |questions|)
  {
    var page := new QuizPage(questions);
    for i := 0 to |questions|
      invariant page.Valid() && page.questions == questions
      invariant i < |questions| ==> page.currentQuestionIndex == i && !page.quizCompleted
      invariant page.quizCompleted <==> 0 < i == |questions|
      invariant !page.showFeedback
      invariant page.score == CorrectCount(questions[..i], answers[..i])
    {
      page.HandleAnswerSelect(answers[i]);
      page.HandleNextQuestion();
      assert questions[..i + 1][..i] == questions[..i];
      assert answers[..i + 1][..i] == answers[..i];
    }
    assert questions[..|questions|] == questions;
    assert answers[..|answers|] == answers;
    final := page.View();
  }
}
