/** The enemy base of the root-level implementation (Enemy.cs): fixed stats
    given at construction, the shared damage rule, and a damage output equal
    to its attack. */
module RootEnemy {
  import opened Basics
  import opened DamageRule

  class Enemy {
    var name: string
    var hp: int
    var maxHP: int
    var attack: int
    var defense: int
    var xpReward: int

    /** Starts at full health: HP and MaxHP are both `hp`; the other values
        are stored as given. */
    constructor (name: string, hp: int, attack: int, defense: int, xpReward: int)
      ensures this.name == name && this.hp == hp && maxHP == hp
      ensures this.attack == attack && this.defense == defense && this.xpReward == xpReward
    {
      this.name := name;
      this.hp := hp;
      maxHP := hp;
      this.attack := attack;
      this.defense := defense;
      this.xpReward := xpReward;
    }

    /** Applies the damage rule: at least 1 HP is lost, and HP stops at 0. */
    method TakeDamage(damage: int)
      modifies this`hp
      ensures hp == HealthAfterHit(old(hp), damage, defense)
      ensures !IsAlive() <==> Reduced(damage, defense) >= old(hp)
    {
      var reducedDamage := damage - defense;
      if reducedDamage < 1 {
        reducedDamage := 1;
      }
      hp := hp - reducedDamage;
      if hp < 0 {
        hp := 0;
      }
    }

    /** The damage dealt to any target: the enemy's attack. The target does
        not take part, so it is not a parameter. */
    function CalculateDamage(): int
      reads this
    {
      attack
    }

    predicate IsAlive()
      reads this
    {
      hp > 0
    }
  }
}
