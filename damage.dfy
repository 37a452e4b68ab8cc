/** The damage rule that every TakeDamage in the game applies: the hit is
    reduced by the defender's defense but never below 1, and health stops at 0. */
module DamageRule {
  import opened Basics

  /** Damage that actually lands: `Math.Max(1, damage - Defense)`. */
  function Reduced(damage: int, defense: int): (r: int)
    ensures r >= 1
    ensures r >= damage - defense
    ensures r == 1 || r == damage - defense
  {
    Max(1, damage - defense)
  }

  /** Health after a hit: subtract the reduced damage, then clamp at 0.
      It is never negative, never above the old health when that was not
      negative, takes at least 1 HP from a living defender whatever its
      defense, and is 0 exactly when the landed damage reaches the health. */
  function HealthAfterHit(health: int, damage: int, defense: int): (h: int)
    ensures h >= 0
    ensures health >= 0 ==> h <= health
    ensures health > 0 ==> h < health
    ensures h == 0 <==> Reduced(damage, defense) >= health
  {
    var h := health - Reduced(damage, defense);
    if h < 0 then 0 else h
  }

  /** A harder hit leaves no more health than a softer one. */
  lemma HitMonotone(health: int, d1: int, d2: int, defense: int)
    requires d1 <= d2
    ensures HealthAfterHit(health, d2, defense) <= HealthAfterHit(health, d1, defense)
  {
  }
}
