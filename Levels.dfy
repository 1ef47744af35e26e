/** Per-level tables: the score goal and the time limit in seconds. */
module Levels {

  /** The highest level; clearing it ends the game in victory. */
  const MaxLevel: int := 12

  function Min(a: int, b: int): (r: int)
    ensures r <= a && r <= b && (r == a || r == b)
  {
    if a <= b then a else b
  }

  /** Strokes needed to clear a level: ten per level, capped at 100, except
      the two special levels 11 (500) and 12 (1000). */
  function Goal(level: int): (r: int)
    ensures r <= 1000
    ensures level >= 1 ==> r >= 10
    ensures 1 <= level <= 10 ==> r == 10 * level
    ensures level > MaxLevel ==> r == 100
    ensures level == 11 ==> r == 500
    ensures level == MaxLevel ==> r == 1000
  {
    if level == 11 then 500
    else if level == 12 then 1000
    else Min(level * 10, 100)
  }

  /** Seconds allowed for a level: one minute per level, except the two
      special levels 11 (600) and 12 (1200). */
  function TimeLimit(level: int): (r: int)
    ensures r % 60 == 0
    ensures level >= 1 ==> r >= 60
    ensures 1 <= level <= MaxLevel ==> r <= 1200
    ensures level != 11 && level != 12 ==> r == 60 * level
    ensures level == 11 ==> r == 600
    ensures level == MaxLevel ==> r == 1200
  {
    if level == 11 then 600
    else if level == 12 then 1200
    else level * 60
  }

  /** Across the selectable levels the goal strictly increases. */
  lemma GoalIncreasing(a: int, b: int)
    requires 1 <= a < b <= MaxLevel
    ensures Goal(a) < Goal(b)
  {
  }

  /** Across the selectable levels the time limit never shrinks. */
  lemma TimeLimitNonDecreasing(a: int, b: int)
    requires 1 <= a <= b <= MaxLevel
    ensures TimeLimit(a) <= TimeLimit(b)
  {
  }

  /** Every level can be cleared at one stroke per second. */
  lemma GoalFitsTimeLimit(level: int)
    requires level >= 1
    ensures Goal(level) <= TimeLimit(level)
  {
  }
}
