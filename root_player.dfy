/** The player of the root-level implementation (Player.cs): one hero with
    three equipment slots whose bonuses are swapped by remove-then-apply, the
    shared damage rule, and level-up stats that are recomputed from the level
    alone. The static singleton field is a `PlayerRegistry` object here. */
module RootPlayer {
  import opened Basics
  import opened DamageRule
  import opened RootEquipment
  import RootEnemy

  const BaseHP: int := 100
  const BaseAttack: int := 15
  const BaseDefense: int := 5
  const HPPerLevel: int := 10
  const AttackPerLevel: int := 2
  const DefensePerLevel: int := 1

  /** What an equipment slot adds: nothing when it is empty. */
  function Bonus(slot: Option<Equipment>): Stats
  {
    match slot
    case None => Stats(0, 0, 0)
    case Some(e) => BonusOf(e)
  }

  /** The first half of an Equip method: the bonus of what the slot held is
      removed, and nothing when the slot was empty. */
  function Unequipped(s: Stats, slot: Option<Equipment>): (r: Stats)
    ensures r.Plus(Bonus(slot)) == s
  {
    match slot
    case None => s
    case Some(e) => Removed(s, e)
  }

  /** Stats of a player whose base stats are `base` and who wears the three
      slots. */
  function Worn(base: Stats, weapon: Option<Equipment>, armor: Option<Equipment>, ring: Option<Equipment>): Stats
  {
    base.Plus(Bonus(weapon)).Plus(Bonus(armor)).Plus(Bonus(ring))
  }

  /** Swapping the weapon keeps the stats equal to the base plus what is worn,
      now with the new weapon; the two other slots take no part. */
  lemma SwapWeaponKeepsWorn(base: Stats, weapon: Option<Equipment>, armor: Option<Equipment>, ring: Option<Equipment>, w: Equipment)
    ensures Applied(Unequipped(Worn(base, weapon, armor, ring), weapon), w) == Worn(base, Some(w), armor, ring)
  {
  }

  /** The same for the armor slot. */
  lemma SwapArmorKeepsWorn(base: Stats, weapon: Option<Equipment>, armor: Option<Equipment>, ring: Option<Equipment>, a: Equipment)
    ensures Applied(Unequipped(Worn(base, weapon, armor, ring), armor), a) == Worn(base, weapon, Some(a), ring)
  {
  }

  /** The same for the ring slot. */
  lemma SwapRingKeepsWorn(base: Stats, weapon: Option<Equipment>, armor: Option<Equipment>, ring: Option<Equipment>, r: Equipment)
    ensures Applied(Unequipped(Worn(base, weapon, armor, ring), ring), r) == Worn(base, weapon, armor, Some(r))
  {
  }

  /** Equipping over an occupied slot changes each stat by the new bonus minus
      the old one; equipping the same piece again changes nothing. */
  lemma EquipNetChange(s: Stats, previous: Equipment, e: Equipment)
    ensures var r := Applied(Unequipped(s, Some(previous)), e);
      && r.attack == s.attack + e.attackBonus - previous.attackBonus
      && r.defense == s.defense + e.defenseBonus - previous.defenseBonus
      && r.maxHP == s.maxHP + e.maxHPBonus - previous.maxHPBonus
    ensures Applied(Unequipped(s, Some(e)), e) == s
  {
  }

  /** The stats ApplyLevelUpBonuses sets at `level`, counted from level 1. */
  function LevelStats(level: int): (s: Stats)
    ensures level > 1 ==> s.attack > BaseAttack && s.defense > BaseDefense && s.maxHP > BaseHP
  {
    var levelDifference := level - 1;
    Stats(BaseAttack + levelDifference * AttackPerLevel,
          BaseDefense + levelDifference * DefensePerLevel,
          BaseHP + levelDifference * HPPerLevel)
  }

  /** Each level adds exactly +2 attack, +1 defense and +10 max HP. */
  lemma LevelStatsStep(level: int)
    ensures LevelStats(level + 1) == LevelStats(level).Plus(Stats(AttackPerLevel, DefensePerLevel, HPPerLevel))
  {
  }

  class Player {
    var name: string
    var hp: int
    var maxHP: int
    var attack: int
    var defense: int
    var equippedWeapon: Option<Equipment>
    var equippedArmor: Option<Equipment>
    var equippedRing: Option<Equipment>

    /** The private constructor: "Héros" with 100/100 HP, 15 attack, 5
        defense, and nothing equipped. */
    constructor ()
      ensures IsNew()
    {
      name := "Héros";
      hp := BaseHP;
      maxHP := BaseHP;
      attack := BaseAttack;
      defense := BaseDefense;
      equippedWeapon := None;
      equippedArmor := None;
      equippedRing := None;
    }

    /** The state the constructor leaves. */
    predicate IsNew()
      reads this
    {
      && name == "Héros" && hp == BaseHP && maxHP == BaseHP
      && attack == BaseAttack && defense == BaseDefense
      && equippedWeapon.None? && equippedArmor.None? && equippedRing.None?
    }

    function StatsOf(): Stats
      reads this`attack, this`defense, this`maxHP
    {
      Stats(attack, defense, maxHP)
    }

    /** Applies the damage rule: at least 1 HP is lost, and HP stops at 0. */
    method TakeDamage(damage: int)
      modifies this`hp
      ensures hp == HealthAfterHit(old(hp), damage, defense)
      ensures !IsAlive() <==> Reduced(damage, defense) >= old(hp)
    {
      var reducedDamage := damage - defense;
      if reducedDamage < 1 {
        reducedDamage := 1;
      }
      hp := hp - reducedDamage;
      if hp < 0 {
        hp := 0;
      }
    }

    /** The damage dealt to any target: the player's attack. The target does
        not take part, so it is not a parameter. */
    function CalculateDamage(): int
      reads this`attack
    {
      attack
    }

    /** The enemy takes exactly the player's attack, through its own damage
        rule; nothing of the player changes. */
    method AttackEnemy(enemy: RootEnemy.Enemy)
      modifies enemy`hp
      ensures enemy.hp == HealthAfterHit(old(enemy.hp), attack, enemy.defense)
    {
      var damage := CalculateDamage();
      enemy.TakeDamage(damage);
    }

    /** The private ApplyLevelUpBonuses: the stats are recomputed from the
        level alone (so equipment bonuses are dropped) and HP is refilled. */
    method ApplyLevelUpBonuses(level: int)
      modifies this`hp, this`maxHP, this`attack, this`defense
      ensures StatsOf() == LevelStats(level) && hp == maxHP
    {
      var levelDifference := level - 1;
      maxHP := BaseHP + levelDifference * HPPerLevel;
      attack := BaseAttack + levelDifference * AttackPerLevel;
      defense := BaseDefense + levelDifference * DefensePerLevel;
      hp := maxHP;
    }

    /** GainExperience. The experience system it feeds is not part of this
        model; `levelAfter` is the level that system reports once the
        experience is added. Above level 1 the stats become those of that
        level with full HP; at level 1 nothing changes. */
    method GainExperience(xpAmount: int, levelAfter: int)
      modifies this`hp, this`maxHP, this`attack, this`defense
      ensures levelAfter > 1 ==> StatsOf() == LevelStats(levelAfter) && hp == maxHP
      ensures levelAfter <= 1 ==> StatsOf() == old(StatsOf()) && hp == old(hp)
    {
      if levelAfter > 1 {
        ApplyLevelUpBonuses(levelAfter);
      }
    }

    /** EquipWeapon: the old weapon's bonus comes off, the new one goes on;
        HP and the other slots are untouched. */
    method EquipWeapon(weapon: Equipment)
      modifies this`attack, this`defense, this`maxHP, this`equippedWeapon
      ensures equippedWeapon == Some(weapon)
      ensures StatsOf() == Applied(Unequipped(old(StatsOf()), old(equippedWeapon)), weapon)
    {
      if equippedWeapon.Some? {
        RemoveBonus(equippedWeapon.value, this);
      }
      equippedWeapon := Some(weapon);
      ApplyBonus(weapon, this);
    }

    /** EquipArmor, the same over the armor slot. */
    method EquipArmor(armor: Equipment)
      modifies this`attack, this`defense, this`maxHP, this`equippedArmor
      ensures equippedArmor == Some(armor)
      ensures StatsOf() == Applied(Unequipped(old(StatsOf()), old(equippedArmor)), armor)
    {
      if equippedArmor.Some? {
        RemoveBonus(equippedArmor.value, this);
      }
      equippedArmor := Some(armor);
      ApplyBonus(armor, this);
    }

    /** EquipRing, the same over the ring slot. */
    method EquipRing(ring: Equipment)
      modifies this`attack, this`defense, this`maxHP, this`equippedRing
      ensures equippedRing == Some(ring)
      ensures StatsOf() == Applied(Unequipped(old(StatsOf()), old(equippedRing)), ring)
    {
      if equippedRing.Some? {
        RemoveBonus(equippedRing.value, this);
      }
      equippedRing := Some(ring);
      ApplyBonus(ring, this);
    }

    predicate IsAlive()
      reads this`hp
    {
      hp > 0
    }
  }

  /** Equipment.ApplyBonus: the three bonuses are added; HP is untouched. */
  method ApplyBonus(e: Equipment, player: Player)
    modifies player`attack, player`defense, player`maxHP
    ensures player.StatsOf() == Applied(old(player.StatsOf()), e)
  {
    player.attack := player.attack + e.attackBonus;
    player.defense := player.defense + e.defenseBonus;
    player.maxHP := player.maxHP + e.maxHPBonus;
  }

  /** Equipment.RemoveBonus: the same three bonuses are subtracted. */
  method RemoveBonus(e: Equipment, player: Player)
    modifies player`attack, player`defense, player`maxHP
    ensures player.StatsOf() == Removed(old(player.StatsOf()), e)
  {
    player.attack := player.attack - e.attackBonus;
    player.defense := player.defense - e.defenseBonus;
    player.maxHP := player.maxHP - e.maxHPBonus;
  }

  /** The static instance field behind GetInstance and ResetInstance. */
  class PlayerRegistry {
    var instance: Player?

    constructor ()
      ensures instance == null
    {
      instance := null;
    }

    /** The same player on every call until ResetInstance; a new one when
        there is none. */
    method GetInstance() returns (p: Player)
      modifies this`instance
      ensures old(instance) != null ==> p == old(instance)
      ensures old(instance) == null ==> fresh(p) && p.IsNew()
      ensures instance == p
    {
      if instance == null {
        instance := new Player();
      }
      p := instance;
    }

    method ResetInstance()
      modifies this`instance
      ensures instance == null
    {
      instance := null;
    }
  }
}
