/** The notifications the scene sends to its host over the game's event bus (`GameEvents`). */
module Events {

  datatype GameEvent =
    | ScoreUpdate(score: int)  // SCORE_UPDATE, carrying the new score
    | UnlockAnswer             // UNLOCK_ANSWER, no payload
    | GameOver                 // GAME_OVER, no payload

  /** The number of `GameOver` events in a log. */
  function GameOvers(log: seq<GameEvent>): nat
  {
    if log == [] then 0
    else GameOvers(log[..|log| - 1]) + (if log[|log| - 1] == GameOver then 1 else 0)
  }

  lemma GameOversAppend(log: seq<GameEvent>, e: GameEvent)
    ensures GameOvers(log + [e]) == GameOvers(log) + (if e == GameOver then 1 else 0)
  {
  }
}
