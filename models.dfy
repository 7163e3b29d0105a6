/** The two record shapes the game persists. */
module Models {

  /** One finished game. It is appended to the history and never changed afterwards. */
  datatype GameRecord = GameRecord(
    score: nat,
    maxScore: nat,
    date: string,            // ISO timestamp, as written by the UI
    questionsAnswered: nat,
    won: bool)

  /** A question as the UI holds it; the persistence layer never looks inside. */
  datatype Question = Question(payload: string)

  /** The snapshot of a game in progress, kept while the player visits the mini-game. */
  datatype GameState = GameState(
    currentQuestion: nat,
    score: nat,
    lives: nat,
    answered: bool,
    selectedAnswer: int,     // an answer index, or a sentinel for "none selected"
    questions: seq<Question>)
}
