/** Experience points and levels of the root-level implementation
    (Experience.cs). As written, GainXP assigns the read-only CurrentXP and
    uses the undeclared XPToNextLevel, Level and CalculateXPForNextLevel; it
    is modelled as evidently meant, over currentXP, currentLevel and
    XPForNextLevel(): while the experience reaches the current threshold,
    pay the threshold and go up one level. */
module RootExperience {

  /** The experience needed to leave `level`: 100 at level 1, then 50 more
      per level. It is at least 100 exactly from level 1 on. */
  function Threshold(level: int): (r: int)
    ensures r >= 100 <==> level >= 1
  {
    100 + (level - 1) * 50
  }

  /** Each level costs 50 more experience to leave than the one below it. */
  lemma ThresholdStep(level: int)
    ensures Threshold(level + 1) == Threshold(level) + 50
  {
  }

  datatype Progress = Progress(xp: int, level: int)

  /** One level-up as GainXP's loop performs it: pay the threshold of the
      level being left, then go up. Paying only what has been reached never
      leaves the experience negative. */
  function LevelUpStep(p: Progress): (r: Progress)
    ensures r.level == p.level + 1
    ensures p.xp >= Threshold(p.level) ==> r.xp >= 0
    ensures r.xp < p.xp <==> Threshold(p.level) > 0
  {
    Progress(p.xp - Threshold(p.level), p.level + 1)
  }

  /** The private LevelUp as written: it goes up first and then pays the
      threshold of the NEW level: it reaches the same level as the loop's
      step but takes 50 experience more, so experience that reached the
      threshold by less than 50 goes negative. */
  function LevelUpAsWritten(p: Progress): (r: Progress)
    ensures r.level == LevelUpStep(p).level
    ensures r.xp == LevelUpStep(p).xp - 50
    ensures 0 <= p.xp - Threshold(p.level) < 50 ==> r.xp < 0 <= LevelUpStep(p).xp
  {
    Progress(p.xp - Threshold(p.level + 1), p.level + 1)
  }

  /** At exactly 100 experience on level 1, the written LevelUp leaves -50
      experience on level 2; paying the threshold actually reached leaves 0. */
  lemma LevelUpOverdraws()
    ensures LevelUpAsWritten(Progress(100, 1)) == Progress(-50, 2)
    ensures LevelUpStep(Progress(100, 1)) == Progress(0, 2)
  {
  }

  /** The end of GainXP's loop from experience xp at `level`. */
  function Settle(xp: int, level: int): Progress
    requires level >= 1
    decreases xp
  {
    if xp >= Threshold(level) then
      var p := LevelUpStep(Progress(xp, level));
      Settle(p.xp, p.level)
    else Progress(xp, level)
  }

  /** The thresholds paid to go from level `lo` up to level `hi`. */
  function ThresholdSum(lo: int, hi: int): int
    decreases hi - lo
  {
    if lo >= hi then 0 else Threshold(lo) + ThresholdSum(lo + 1, hi)
  }

  /** What GainXP promises: the level never goes down; it goes up exactly
      when the experience reaches the current threshold; what remains is
      below the threshold of the level reached (and not negative when the
      experience was not); and no experience is lost: the remainder plus the
      thresholds paid is the experience there was. */
  lemma {:induction false} SettleProperties(xp: int, level: int)
    requires level >= 1
    ensures var r := Settle(xp, level);
      && r.level >= level
      && (r.level > level <==> xp >= Threshold(level))
      && r.xp < Threshold(r.level)
      && (xp >= 0 ==> r.xp >= 0)
      && xp == r.xp + ThresholdSum(level, r.level)
    decreases xp
  {
    if xp >= Threshold(level) {
      var p := LevelUpStep(Progress(xp, level));
      SettleProperties(p.xp, p.level);
    }
  }

  class Experience {
    var currentXP: int
    var currentLevel: int

    /** A new record: no experience, level 1. */
    constructor ()
      ensures currentXP == 0 && currentLevel == 1 && Valid()
    {
      currentXP := 0;
      currentLevel := 1;
    }

    /** Levels start at 1 and only go up. */
    predicate Valid()
      reads this
    {
      currentLevel >= 1
    }

    /** The threshold of the current level; at least 100 on a valid object. */
    function XPForNextLevel(): (r: int)
      reads this
      ensures Valid() ==> r >= 100
    {
      Threshold(currentLevel)
    }

    /** Adds experience and takes every level-up it pays for; reports whether
        there was at least one. */
    method GainXP(amount: int) returns (leveledUp: bool)
      requires Valid()
      modifies this
      ensures Valid()
      ensures Progress(currentXP, currentLevel) == Settle(old(currentXP) + amount, old(currentLevel))
      ensures leveledUp <==> currentLevel > old(currentLevel)
    {
      currentXP := currentXP + amount;
      leveledUp := false;

      while currentXP >= XPForNextLevel()
        invariant currentLevel >= old(currentLevel) >= 1
        invariant Settle(currentXP, currentLevel) == Settle(old(currentXP) + amount, old(currentLevel))
        invariant leveledUp <==> currentLevel > old(currentLevel)
        decreases currentXP
      {
        currentXP := currentXP - XPForNextLevel();
        currentLevel := currentLevel + 1;
        leveledUp := true;
      }
    }

    /** The private LevelUp, as written. */
    method LevelUp()
      requires Valid()
      modifies this
      ensures Valid()
      ensures Progress(currentXP, currentLevel) == LevelUpAsWritten(old(Progress(currentXP, currentLevel)))
    {
      currentLevel := currentLevel + 1;
      currentXP := currentXP - XPForNextLevel();
    }

    method Reset()
      modifies this
      ensures currentXP == 0 && currentLevel == 1 && Valid()
    {
      currentXP := 0;
      currentLevel := 1;
    }
  }
}
