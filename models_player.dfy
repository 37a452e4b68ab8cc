/** The player of the namespaced implementation (Models/Player.cs): health,
    attack, defense, experience-driven levels, gold, an inventory and a
    position. */
module ModelsPlayer {
  import opened Basics
  import opened DamageRule
  import opened ModelsItem

  /** The part of the player that levelling and rewards change. */
  datatype Vitals = Vitals(level: int, maxHealth: int, currentHealth: int, attack: int, defense: int)

  /** One pass of LevelUp's loop body: +1 level, +10 max health, +3 attack,
      +1 defense, and health refilled to the new maximum. */
  function OneLevel(v: Vitals): Vitals
  {
    Vitals(v.level + 1, v.maxHealth + 10, v.maxHealth + 10, v.attack + 3, v.defense + 1)
  }

  /** n passes of LevelUp's loop body. */
  function LevelUps(v: Vitals, n: nat): Vitals
  {
    if n == 0 then v else OneLevel(LevelUps(v, n - 1))
  }

  /** Each level gained adds exactly 10 max health, 3 attack and 1 defense,
      and after at least one level the player is at full health. */
  lemma {:induction false} LevelUpsClosedForm(v: Vitals, n: nat)
    ensures LevelUps(v, n).level == v.level + n
    ensures LevelUps(v, n).maxHealth == v.maxHealth + 10 * n
    ensures LevelUps(v, n).attack == v.attack + 3 * n
    ensures LevelUps(v, n).defense == v.defense + n
    ensures LevelUps(v, n).currentHealth == if n == 0 then v.currentHealth else v.maxHealth + 10 * n
  {
    if n > 0 {
      LevelUpsClosedForm(v, n - 1);
    }
  }

  /** The level the player reaches after experience has grown to `experience`:
      one level per 100 experience (C# integer division), never lower than before. */
  function LevelFor(level: int, experience: int): (l: int)
    ensures l >= level
    ensures experience >= 0 ==> l == Max(level, experience / 100 + 1)
  {
    Max(level, CsDiv(experience, 100) + 1)
  }

  /** The vitals after GainExperience(exp), from vitals v and experience xp. */
  function AfterExperience(v: Vitals, xp: int, exp: int): Vitals
  {
    LevelUps(v, LevelFor(v.level, xp + exp) - v.level)
  }

  class Player {
    var id: int
    var name: string
    var maxHealth: int
    var currentHealth: int
    var attack: int
    var defense: int
    var experience: int
    var gold: int
    var level: int
    var inventory: seq<Item>
    var currentRoomId: int
    var x: int
    var y: int

    function VitalsOf(): Vitals
      reads this
    {
      Vitals(level, maxHealth, currentHealth, attack, defense)
    }

    /** A new player: 100/100 health, 15 attack, 5 defense, level 1, no
        experience, no gold, an empty inventory, in room 0 at (0, 0). */
    constructor (name: string := "Hero")
      ensures this.name == name && id == 1
      ensures VitalsOf() == Vitals(1, 100, 100, 15, 5)
      ensures experience == 0 && gold == 0 && inventory == []
      ensures currentRoomId == 0 && x == 0 && y == 0
    {
      id := 1;
      this.name := name;
      maxHealth := 100;
      currentHealth := 100;
      attack := 15;
      defense := 5;
      experience := 0;
      gold := 0;
      level := 1;
      inventory := [];
      currentRoomId := 0;
      x := 0;
      y := 0;
    }

    /** Applies the damage rule: at least 1 HP is lost, and health stops at 0. */
    method TakeDamage(damage: int)
      modifies this`currentHealth
      ensures currentHealth == HealthAfterHit(old(currentHealth), damage, defense)
      ensures !IsAlive() <==> Reduced(damage, defense) >= old(currentHealth)
    {
      var actualDamage := Max(1, damage - defense);
      currentHealth := currentHealth - actualDamage;
      if currentHealth < 0 {
        currentHealth := 0;
      }
    }

    /** Heals by `amount`, but never beyond the maximum. */
    method Heal(amount: int)
      modifies this`currentHealth
      ensures currentHealth == Min(maxHealth, old(currentHealth) + amount)
      ensures currentHealth <= maxHealth
      ensures amount >= 0 && old(currentHealth) <= maxHealth ==> currentHealth >= old(currentHealth)
    {
      currentHealth := Min(maxHealth, currentHealth + amount);
    }

    predicate IsAlive()
      reads this
    {
      currentHealth > 0
    }

    /** Adds experience; every full 100 experience is one level, and the
        levels not yet reached are gained through LevelUp. */
    method GainExperience(exp: int)
      modifies this`experience, this`level, this`maxHealth, this`currentHealth, this`attack, this`defense
      ensures experience == old(experience) + exp
      ensures level == LevelFor(old(level), experience)
      ensures VitalsOf() == AfterExperience(old(VitalsOf()), old(experience), exp)
    {
      experience := experience + exp;
      var newLevel := CsDiv(experience, 100) + 1;
      if newLevel > level {
        LevelUp(newLevel - level);
        LevelUpsClosedForm(old(VitalsOf()), newLevel - old(level));
      }
    }

    /** Gains `levels` levels, one loop pass each; nothing for levels <= 0. */
    method LevelUp(levels: int)
      modifies this`level, this`maxHealth, this`currentHealth, this`attack, this`defense
      ensures VitalsOf() == LevelUps(old(VitalsOf()), Max(0, levels))
    {
      var i := 0;
      while i < levels
        invariant 0 <= i <= Max(0, levels)
        invariant VitalsOf() == LevelUps(old(VitalsOf()), i)
      {
        level := level + 1;
        maxHealth := maxHealth + 10;
        currentHealth := maxHealth;
        attack := attack + 3;
        defense := defense + 1;
        i := i + 1;
      }
    }

    method GainGold(amount: int)
      modifies this`gold
      ensures gold == old(gold) + amount
    {
      gold := gold + amount;
    }

    /** Appends the item at the end of the inventory. */
    method AddItem(item: Item)
      modifies this`inventory
      ensures inventory == old(inventory) + [item]
    {
      inventory := inventory + [item];
    }

    /** Moves to (x, y); the room id is left as it is. */
    method MoveTo(x: int, y: int)
      modifies this`x, this`y
      ensures this.x == x && this.y == y
    {
      this.x := x;
      this.y := y;
    }
  }
}
