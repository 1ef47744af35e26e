/** A value that may be absent. */
module Wrappers {
  datatype Option<T> = None | Some(value: T)
}

/** The game's shared vocabulary: session phases, UI languages and the
    authoritative game-state record (types.ts). */
module GameTypes {

  /** Coarse lifecycle phase of a session. */
  datatype GameStatus = Idle | Starting | Playing | LevelComplete | Finished

  /** The two UI languages. */
  datatype Language = Zh | En

  /** The game-state record. The numeric fields carry no bounds of their own:
      every range the game relies on is an invariant of the operations. */
  datatype GameState = GameState(
    score: int,
    timeLeft: int,
    status: GameStatus,
    level: int,
    language: Language)

  /** Every phase, listed once. */
  const AllStatuses: set<GameStatus> := {Idle, Starting, Playing, LevelComplete, Finished}

  /** The five phases are pairwise distinct and no other phase exists. */
  lemma StatusesAreExactlyFive(s: GameStatus)
    ensures |AllStatuses| == 5
    ensures s in AllStatuses
  {
  }

  /** The language switch: flips between the two languages and never leaves them. */
  function Toggle(lang: Language): (r: Language)
    ensures r != lang
    ensures r == Zh || r == En
  {
    if lang == Zh then En else Zh
  }

  /** Switching twice is the identity. */
  lemma ToggleTwice(lang: Language)
    ensures Toggle(Toggle(lang)) == lang
  {
  }
}
