/** The score counters (src/score.rs). */
module Scores {

  datatype Score = Score(currentScore: int, blocksDestroyed: int, gold: int)

  /** `Score::init`: every counter at zero. */
  function Init(): (s: Score)
    ensures s.currentScore == 0 && s.blocksDestroyed == 0 && s.gold == 0
  {
    Score(0, 0, 0)
  }
}
