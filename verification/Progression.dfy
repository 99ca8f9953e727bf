/** back/internal/domain/progression/xp.go over exact integers: what a
    completion pays, and the level curve. */
module Progression {
  import opened Types

  const SUBTASK_PERCENT := 35
  const LEVEL_FACTOR := 45

  function BaseXP(quadrant: Quadrant): int {
    match quadrant
    case ImportantUrgent => 50
    case ImportantNotUrgent => 35
    case NotImportantUrgent => 20
    case NotImportantNotUrgent => 10
  }

  /** Rounds half away from zero, as math.Round does for these positive amounts. */
  function Reward(quadrant: Quadrant, isSubtask: bool): int {
    if isSubtask then (BaseXP(quadrant) * SUBTASK_PERCENT + 50) / 100 else BaseXP(quadrant)
  }

  /** Every completion pays, a subtask less than a task, and by the nearest
      whole number to its share. */
  lemma RewardIsNearestShare(quadrant: Quadrant)
    ensures 0 < Reward(quadrant, true) < Reward(quadrant, false)
    ensures var off := 100 * Reward(quadrant, true) - SUBTASK_PERCENT * BaseXP(quadrant); -50 < off <= 50
  {
    match quadrant
    case ImportantUrgent =>
    case ImportantNotUrgent =>
    case NotImportantUrgent =>
    case NotImportantNotUrgent =>
  }

  function XPForLevel(level: int): int {
    if level <= 1 then 0 else LEVEL_FACTOR * ((level - 1) * (level - 1))
  }

  /** The whole part of the square root. */
  function FloorSqrt(n: nat): nat {
    if n == 0 then 0
    else
      var below := FloorSqrt(n - 1);
      if (below + 1) * (below + 1) <= n then below + 1 else below
  }

  lemma {:induction false} FloorSqrtBrackets(n: nat)
    ensures FloorSqrt(n) * FloorSqrt(n) <= n < (FloorSqrt(n) + 1) * (FloorSqrt(n) + 1)
  {
    if n > 0 {
      FloorSqrtBrackets(n - 1);
      var below := FloorSqrt(n - 1);
      assert (below + 2) * (below + 2) == (below + 1) * (below + 1) + 2 * below + 3;
    }
  }

  function LevelForXP(xp: int): int {
    if xp <= 0 then 1 else FloorSqrt(xp / LEVEL_FACTOR) + 1
  }

  datatype Standing = Standing(level: int, into: int, span: int, remaining: int)

  function Progress(xp: int): Standing {
    var level := LevelForXP(xp);
    var current, next := XPForLevel(level), XPForLevel(level + 1);
    Standing(level, xp - current, if next - current > 1 then next - current else 1, next - xp)
  }

  lemma SquareMonotone(a: nat, b: nat)
    requires a <= b
    ensures a * a <= b * b
  {
    assert b * b == a * a + (b - a) * (a + b);
  }

  lemma CurveMonotone(a: int, b: int)
    requires a <= b
    ensures XPForLevel(a) <= XPForLevel(b)
    ensures 1 <= a < b ==> XPForLevel(a) < XPForLevel(b)
  {
    if a > 1 {
      SquareMonotone(a - 1, b - 1);
    }
    if 1 <= a < b {
      assert (b - 1) * (b - 1) == (a - 1) * (a - 1) + (b - a) * (a + b - 2);
      assert (b - a) * (a + b - 2) >= 1;
    }
  }

  /** The level of an amount of XP is the one level whose threshold it has
      reached and whose next threshold it has not. */
  lemma LevelBracketsXP(xp: nat)
    ensures var level := LevelForXP(xp); level >= 1 && XPForLevel(level) <= xp < XPForLevel(level + 1)
  {
    if xp > 0 {
      var q, r := xp / LEVEL_FACTOR, FloorSqrt(xp / LEVEL_FACTOR);
      FloorSqrtBrackets(q);
      assert LEVEL_FACTOR * (r * r) <= LEVEL_FACTOR * q <= xp;
      assert q + 1 <= (r + 1) * (r + 1);
      assert xp < LEVEL_FACTOR * (q + 1) <= LEVEL_FACTOR * ((r + 1) * (r + 1));
    }
  }

  /** The curve in figures: a level is reached at 45 times the square of the level before it. */
  lemma LevelInFigures(xp: nat)
    ensures var level := LevelForXP(xp); level >= 1 && 45 * ((level - 1) * (level - 1)) <= xp < 45 * (level * level)
  {
    LevelBracketsXP(xp);
  }

  /** XPForLevel and LevelForXP are a Galois pair. */
  lemma GaloisPair(level: int, xp: nat)
    requires level >= 1
    ensures XPForLevel(level) <= xp <==> level <= LevelForXP(xp)
  {
    LevelBracketsXP(xp);
    var reached := LevelForXP(xp);
    if level <= reached {
      CurveMonotone(level, reached);
    } else {
      CurveMonotone(reached + 1, level);
    }
  }

  /** Reaching a threshold is reaching its level; more XP never lowers it. */
  lemma LevelOfThreshold(level: int)
    requires level >= 1
    ensures LevelForXP(XPForLevel(level)) == level
  {
    var xp := XPForLevel(level);
    assert xp >= 0 by {
      CurveMonotone(1, level);
    }
    GaloisPair(level, xp);
    GaloisPair(level + 1, xp);
    CurveMonotone(level, level + 1);
  }

  lemma LevelMonotone(a: int, b: int)
    requires a <= b
    ensures LevelForXP(a) <= LevelForXP(b)
  {
    if a > 0 {
      LevelBracketsXP(a);
      GaloisPair(LevelForXP(a), b);
    }
  }

  /** The progress bar: what is done and what remains make up the whole level,
      and the clamp on the span never bites. */
  lemma ProgressFillsTheLevel(xp: nat)
    ensures var p := Progress(xp);
            && p.into + p.remaining == p.span
            && 0 <= p.into < p.span
            && p.span == XPForLevel(p.level + 1) - XPForLevel(p.level)
  {
    LevelBracketsXP(xp);
  }
}
