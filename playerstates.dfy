/** Player states. The module that defines them in the repository is not part of
    this model; the seven values and the two classifications below are the ones
    the server relies on (underworld.py:58, :139, :233). */
module PlayerStates {

  datatype PlayerState = NotInitiated | Ready | Thinking | Kicked | Won | Lost | Draw

  /** The end-of-game outcomes assigned by the game engine. */
  predicate IsOutcome(s: PlayerState) {
    s == Won || s == Lost || s == Draw
  }

  /** Final states: once reached, the state may only be re-assigned the same value. */
  predicate IsFinal(s: PlayerState) {
    s == Kicked || IsOutcome(s)
  }

  /** States in which the player's session loop keeps running. */
  predicate InPlay(s: PlayerState) {
    s == Ready || s == Thinking
  }
}
