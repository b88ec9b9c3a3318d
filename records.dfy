/** The records of the quiz: poems, questions, the score pair, and the
    optional and fallible values the game code passes around. */
module Records {

  /** One poem of the corpus, read-only once the corpus is loaded. */
  datatype Poem = Poem(
    id: int,
    author: string,
    upper: string,
    lower: string,
    readingUpper: string,
    readingLower: string,
    description: string)

  /** The two quiz kinds; the session's game mode takes the same two values. */
  datatype QuestionType = LowerVerse | Author

  /** A generated multiple-choice question. */
  datatype Question = Question(
    poem: Poem,
    questionText: string,
    choices: seq<string>,
    correctAnswer: string,
    questionType: QuestionType)

  /** A running score: correct answers out of answered questions. */
  datatype Score = Score(correct: nat, total: nat)

  datatype Option<T> = None | Some(value: T)

  /** The one failure of question generation: the corpus holds no poem. */
  datatype Error = NoPoemData

  datatype Result<T> = Ok(value: T) | Err(error: Error)
}
