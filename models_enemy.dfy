/** Enemies of the namespaced implementation (Models/Enemy.cs): stats come
    from a per-type table linear in level, rewards are fixed by level, and
    damage follows the shared damage rule. */
module ModelsEnemy {
  import opened Basics
  import opened DamageRule

  datatype EnemyStats = EnemyStats(maxHealth: int, attack: int, defense: int)

  /** The kinds SetStatsByType tells apart; every other name falls to Minor. */
  datatype EnemyKind = Goblin | Orc | Boss | Minor

  /** The switch of SetStatsByType, on the lower-cased type name. */
  function KindOf(enemyType: string): (k: EnemyKind)
    ensures k == Minor <==> ToLower(enemyType) !in {"goblin", "orc", "boss"}
  {
    match ToLower(enemyType)
    case "goblin" => Goblin
    case "orc" => Orc
    case "boss" => Boss
    case _ => Minor
  }

  /** The stat table of SetStatsByType. From level 1 on, every kind has
      positive health and attack and a defense of at least 1. */
  function TypeStats(enemyType: string, level: int): (s: EnemyStats)
    ensures level >= 1 ==> s.maxHealth >= 15 && s.attack >= 6 && s.defense >= 1
    ensures KindOf(enemyType) == Minor ==> s.defense == 1
  {
    match KindOf(enemyType)
    case Goblin => EnemyStats(20 + (level - 1) * 5, 8 + (level - 1) * 2, 2 + (level - 1) * 1)
    case Orc => EnemyStats(40 + (level - 1) * 8, 12 + (level - 1) * 3, 4 + (level - 1) * 1)
    case Boss => EnemyStats(100 + (level - 1) * 20, 20 + (level - 1) * 5, 8 + (level - 1) * 2)
    case Minor => EnemyStats(15 + (level - 1) * 3, 6 + (level - 1) * 1, 1)
  }

  /** What one more level adds, per kind. */
  function LevelStep(kind: EnemyKind): EnemyStats
  {
    match kind
    case Goblin => EnemyStats(5, 2, 1)
    case Orc => EnemyStats(8, 3, 1)
    case Boss => EnemyStats(20, 5, 2)
    case Minor => EnemyStats(3, 1, 0)
  }

  /** The table is linear in level. */
  lemma LevelLinear(enemyType: string, level: int)
    ensures var s, t, d := TypeStats(enemyType, level), TypeStats(enemyType, level + 1), LevelStep(KindOf(enemyType));
      t == EnemyStats(s.maxHealth + d.maxHealth, s.attack + d.attack, s.defense + d.defense)
  {
  }

  /** Type matching is case-insensitive: "ORC", "Orc" and "orc" are the same type. */
  lemma {:induction false} TypeIgnoresCase(enemyType: string, level: int)
    ensures KindOf(enemyType) == KindOf(ToLower(enemyType))
    ensures TypeStats(enemyType, level) == TypeStats(ToLower(enemyType), level)
  {
    ToLowerIdempotent(enemyType);
  }

  class Enemy {
    var id: int
    var name: string
    var enemyType: string
    var maxHealth: int
    var currentHealth: int
    var attack: int
    var defense: int
    var experienceReward: int
    var goldReward: int
    var level: int
    var x: int
    var y: int
    var roomId: int

    function Stats(): EnemyStats
      reads this
    {
      EnemyStats(maxHealth, attack, defense)
    }

    /** A new enemy: stats from the table, full health, and rewards of 10 XP
        and 5 gold per level for every type. The boss rewards that
        SetStatsByType writes are overwritten right after it. `id` is the
        value drawn from `Next(1000, 9999)`. */
    constructor (id: int, name: string, enemyType: string := "Goblin", level: int := 1)
      requires Drawn(id, 1000, 9999)
      ensures this.id == id && this.name == name && this.enemyType == enemyType && this.level == level
      ensures Stats() == TypeStats(enemyType, level)
      ensures currentHealth == maxHealth
      ensures experienceReward == level * 10 && goldReward == level * 5
      ensures x == 0 && y == 0 && roomId == 0
    {
      this.id := id;
      this.name := name;
      this.enemyType := enemyType;
      this.level := level;
      new;
      SetStatsByType(enemyType, level);
      currentHealth := maxHealth;
      experienceReward := level * 10;
      goldReward := level * 5;
      x := 0;
      y := 0;
      roomId := 0;
    }

    /** Sets health, attack and defense from the table; for a boss it also
        sets rewards of 50 XP and 30 gold per level. */
    method SetStatsByType(enemyType: string, level: int)
      modifies this`maxHealth, this`attack, this`defense, this`experienceReward, this`goldReward
      ensures Stats() == TypeStats(enemyType, level)
      ensures KindOf(enemyType) == Boss ==> experienceReward == level * 50 && goldReward == level * 30
      ensures KindOf(enemyType) != Boss ==>
        experienceReward == old(experienceReward) && goldReward == old(goldReward)
    {
      var s := TypeStats(enemyType, level);
      maxHealth, attack, defense := s.maxHealth, s.attack, s.defense;
      if KindOf(enemyType) == Boss {
        experienceReward := level * 50;
        goldReward := level * 30;
      }
    }

    /** Applies the damage rule: at least 1 HP is lost, and health stops at 0. */
    method TakeDamage(damage: int)
      modifies this`currentHealth
      ensures currentHealth == HealthAfterHit(old(currentHealth), damage, defense)
      ensures !IsAlive() <==> Reduced(damage, defense) >= old(currentHealth)
    {
      var actualDamage := Max(1, damage - defense);
      currentHealth := currentHealth - actualDamage;
      if currentHealth < 0 {
        currentHealth := 0;
      }
    }

    predicate IsAlive()
      reads this
    {
      currentHealth > 0
    }
  }
}
