/** The per-browser session of the quiz: the score counters, the current
    question and the flags the page handlers update. Each button of the
    page becomes a method; a click on a button the page does not display
    in the current state leaves the session as it is. */
module Session {
  import opened Records
  import opened Questions

  /** Every field of the session, as one value. */
  datatype SessionView = SessionView(
    initialized: bool,
    gameMode: QuestionType,
    score: nat,
    totalQuestions: nat,
    showResult: bool,
    questionData: Option<Question>,
    userAnswer: Option<string>,
    isCorrect: Option<bool>,
    generateNextQuestion: bool)

  class SessionState {
    var initialized: bool
    var gameMode: QuestionType
    var score: nat
    var totalQuestions: nat
    var showResult: bool
    var questionData: Option<Question>
    var userAnswer: Option<string>
    var isCorrect: Option<bool>
    var generateNextQuestion: bool

    function View(): SessionView
      reads this
    {
      SessionView(initialized, gameMode, score, totalQuestions, showResult,
                  questionData, userAnswer, isCorrect, generateNextQuestion)
    }

    /** The session invariant: no more correct answers than answers; a
        pending generation has no question on screen; the result view
        always has its question, the recorded choice among that question's
        choices, and the verdict of comparing the two. */
    ghost predicate Valid(): (ok: bool)
      reads this
      ensures ok ==> score <= totalQuestions
      ensures ok && showResult ==> ShowingResult()
    {
      && score <= totalQuestions
      && (generateNextQuestion ==> questionData.None? && !showResult)
      && (userAnswer.None? <==> isCorrect.None?)
      && (showResult ==>
            && questionData.Some?
            && userAnswer.Some?
            && userAnswer.value in questionData.value.choices
            && isCorrect == Some(userAnswer.value == questionData.value.correctAnswer))
    }

    /** The page is showing the result of the last answer. */
    predicate ShowingResult()
      reads this
    {
      showResult && questionData.Some?
    }

    /** A session nothing has been stored in yet. */
    constructor ()
      ensures Valid() && !initialized
    {
      initialized := false;
      gameMode := LowerVerse;
      score, totalQuestions := 0, 0;
      showResult := false;
      questionData, userAnswer, isCorrect := None, None, None;
      generateNextQuestion := false;
    }

    /** Stores the defaults the first time; later calls change nothing. */
    method Initialize()
      requires Valid()
      modifies this
      ensures Valid() && initialized
      ensures old(initialized) ==> View() == old(View())
      ensures !old(initialized) ==>
                View() == SessionView(true, LowerVerse, 0, 0, false, None, None, None, false)
    {
      if !initialized {
        initialized := true;
        gameMode := LowerVerse;
        score := 0;
        totalQuestions := 0;
        showResult := false;
        questionData := None;
        userAnswer := None;
        isCorrect := None;
        generateNextQuestion := false;
      }
    }

    /** The mode selector: picking another mode drops the question on
        screen and its result. */
    method SelectMode(selectedMode: QuestionType)
      requires initialized && Valid()
      modifies this
      ensures Valid() && gameMode == selectedMode
      ensures View() == if selectedMode == old(gameMode) then old(View())
                        else old(View()).(gameMode := selectedMode, showResult := false, questionData := None)
    {
      if selectedMode != gameMode {
        gameMode := selectedMode;
        showResult := false;
        questionData := None;
      }
    }

    /** Generates a question of the current mode. */
    method Generate(data: seq<Poem>, pick: nat, sample: seq<nat>, perm: seq<nat>) returns (r: Result<Question>)
      requires DrawsFit(data, pick, sample, perm)
      ensures r == QuestionFor(data, gameMode, pick, sample, perm)
    {
      if gameMode == LowerVerse {
        r := GenerateLowerVerseQuestion(data, pick, sample, perm);
      } else {
        r := GenerateAuthorQuestion(data, pick, sample, perm);
      }
    }

    /** The automatic generation after "next question": when a generation
        is pending and no result is shown, a new question replaces the
        old one; either way the pending flag is cleared. */
    method GeneratePending(data: seq<Poem>, pick: nat, sample: seq<nat>, perm: seq<nat>)
      requires initialized && Valid() && DrawsFit(data, pick, sample, perm)
      modifies this
      ensures Valid()
      ensures var outcome := QuestionFor(data, old(gameMode), pick, sample, perm);
              View() == if !old(generateNextQuestion) || old(ShowingResult()) then old(View())
                        else if outcome.Ok? then
                          old(View()).(questionData := Some(outcome.value), showResult := false,
                                       generateNextQuestion := false)
                        else old(View()).(generateNextQuestion := false)
    {
      if !ShowingResult() && generateNextQuestion {
        var question := Generate(data, pick, sample, perm);
        if question.Ok? {
          questionData := Some(question.value);
          showResult := false;
          generateNextQuestion := false;
        } else {
          generateNextQuestion := false;
        }
      }
    }

    /** The "new question" button, shown when no result is shown and no
        generation is pending: a new question replaces the old one; a
        failed generation changes nothing. */
    method NewQuestion(data: seq<Poem>, pick: nat, sample: seq<nat>, perm: seq<nat>)
      requires initialized && Valid() && DrawsFit(data, pick, sample, perm)
      modifies this
      ensures Valid()
      ensures var outcome := QuestionFor(data, old(gameMode), pick, sample, perm);
              View() == if old(generateNextQuestion) || old(ShowingResult()) || outcome.Err? then old(View())
                        else old(View()).(questionData := Some(outcome.value), showResult := false)
    {
      if !ShowingResult() && !generateNextQuestion {
        var question := Generate(data, pick, sample, perm);
        if question.Ok? {
          questionData := Some(question.value);
          showResult := false;
        }
      }
    }

    /** A click on choice button `index` of the question on screen: records
        the choice and its verdict, shows the result, counts one more
        answer and, when the choice is the correct answer, one more
        correct answer. */
    method SubmitAnswer(index: nat)
      requires initialized && Valid()
      modifies this
      ensures Valid()
      ensures old(questionData.Some? && !showResult && index < |questionData.value.choices|) ==>
                var choice := old(questionData.value.choices[index]);
                var correct := choice == old(questionData.value.correctAnswer);
                View() == old(View()).(userAnswer := Some(choice), isCorrect := Some(correct),
                                       showResult := true,
                                       totalQuestions := old(totalQuestions) + 1,
                                       score := if correct then old(score) + 1 else old(score))
      ensures !old(questionData.Some? && !showResult && index < |questionData.value.choices|) ==>
                View() == old(View())
    {
      if questionData.Some? && !showResult && index < |questionData.value.choices| {
        var question := questionData.value;
        var choice := question.choices[index];
        var correct := choice == question.correctAnswer;
        userAnswer := Some(choice);
        isCorrect := Some(correct);
        showResult := true;
        totalQuestions := totalQuestions + 1;
        if correct {
          score := score + 1;
        }
      }
    }

    /** The "next question" button of the result view: drops the question,
        the answer and the verdict and asks for a generation. */
    method Next()
      requires initialized && Valid()
      modifies this
      ensures Valid()
      ensures View() == if !old(ShowingResult()) then old(View())
                        else old(View()).(generateNextQuestion := true, showResult := false,
                                          questionData := None, userAnswer := None, isCorrect := None)
    {
      if ShowingResult() {
        generateNextQuestion := true;
        showResult := false;
        questionData := None;
        userAnswer := None;
        isCorrect := None;
      }
    }

    /** The "reset" button: zeroes both counters and drops the question and
        its result; the mode, the last answer and the pending flag stay. */
    method Reset()
      requires initialized && Valid()
      modifies this
      ensures Valid()
      ensures View() == old(View()).(score := 0, totalQuestions := 0, showResult := false, questionData := None)
    {
      score := 0;
      totalQuestions := 0;
      showResult := false;
      questionData := None;
    }

    /** The score pair the sidebar displays. */
    function CurrentScore(): (s: Score)
      reads this
      requires Valid()
      ensures s == Score(score, totalQuestions) && s.correct <= s.total
    {
      Score(score, totalQuestions)
    }
  }

  /** One round on a fresh session in lower-verse mode: start, ask for a
      question, click choice `index`. On a non-empty corpus the round
      counts one answer, and one correct answer exactly when the clicked
      choice is the lower verse of the drawn poem. */
  method PlayOneRound(data: seq<Poem>, pick: nat, sample: seq<nat>, perm: seq<nat>, index: nat)
    returns (score: nat, total: nat, correct: Option<bool>)
    requires data != [] && DrawsFit(data, pick, sample, perm)
    requires index < MaxChoices
    ensures total == 1 && score <= total
    ensures var q := QuestionFor(data, LowerVerse, pick, sample, perm).value;
            correct == Some(q.choices[index] == data[pick].lower)
            && score == (if q.choices[index] == data[pick].lower then 1 else 0)
  {
    var session := new SessionState();
    session.Initialize();
    session.NewQuestion(data, pick, sample, perm);
    session.SubmitAnswer(index);
    score, total, correct := session.score, session.totalQuestions, session.isCorrect;
  }
}
