/** Rewards after a won fight (Systems/RewardSystem.cs): experience and gold
    from the defeated enemy, a 50% chance of one or two loot items, and
    applying all of it to the player, where every item's bonuses take effect
    at once and the stat boosts are added at the end. */
module SystemsReward {
  import opened Basics
  import opened ModelsItem
  import ModelsEnemy
  import opened ModelsPlayer

  /** What a fight yields. Filled in once by CalculateReward and only read
      afterwards, so it is a value here. */
  datatype Reward = Reward(
    experienceGained: int,
    goldGained: int,
    itemsGained: seq<Item>,
    statsBoost: map<string, int>)

  /** The Reward constructor: nothing gained, and a zero boost for "attack",
      "defense" and "health". */
  function NewReward(): (r: Reward)
    ensures r.experienceGained == 0 && r.goldGained == 0 && r.itemsGained == []
    ensures r.statsBoost.Keys == {"attack", "defense", "health"}
    ensures forall k :: k in r.statsBoost ==> r.statsBoost[k] == 0
  {
    Reward(0, 0, [], map["attack" := 0, "defense" := 0, "health" := 0])
  }

  /** The combatant CalculateReward is given: a Models enemy, or any other
      combatant (which yields nothing). */
  datatype Combatant = EnemyCombatant(enemy: ModelsEnemy.Enemy) | OtherCombatant

  /** The item types loot is drawn from. */
  const LootTypes: seq<string> := ["Weapon", "Armor", "Potion", "Ring"]

  /** An item GenerateLootItems can make for this difficulty: one of the four
      types, named after it, with the difficulty capped at 3 as its rarity and
      the bonuses of that type and rarity. */
  predicate IsLoot(it: Item, difficulty: int)
  {
    && it.itemType in LootTypes
    && it.name == it.itemType + " (掉落)"
    && it.rarity == Min(difficulty, 3)
    && it.Bonus() == ItemStats(it.itemType, Min(difficulty, 3))
    && Drawn(it.id, 1000, 9999)
  }

  /** Loot never exceeds what rarity 3 gives: at most +15 attack, +9 defense
      and +70 health, whatever the difficulty. */
  lemma LootCapped(it: Item, difficulty: int)
    requires IsLoot(it, difficulty)
    ensures it.attackBonus <= 15 && it.defenseBonus <= 9 && it.healthBonus <= 70
  {
    CapitalisedKinds();
    var k := KindOf(it.itemType);
    assert k in {Weapon, Armor, Potion, Ring};
  }

  /** One or two loot items for the given difficulty. */
  method GenerateLootItems(difficulty: int) returns (items: seq<Item>)
    ensures 1 <= |items| <= 2
    ensures forall i :: 0 <= i < |items| ==> IsLoot(items[i], difficulty)
  {
    items := [];
    var itemCount := Next(1, 3);
    var rarity := Min(difficulty, 3);
    var i := 0;
    while i < itemCount
      invariant 0 <= i <= itemCount
      invariant |items| == i
      invariant forall j :: 0 <= j < |items| ==> IsLoot(items[j], difficulty)
    {
      var pick := Next(0, |LootTypes|);
      var itemType := LootTypes[pick];
      var id := Next(1000, 9999);
      var item := NewItem(id, itemType + " (掉落)", itemType, rarity);
      items := items + [item];
      i := i + 1;
    }
  }

  /** The reward for defeating a combatant. An enemy yields its experience
      and gold rewards and, on a coin flip, loot of its level; anything else
      yields the empty reward. The boosts are always the zero ones. */
  method CalculateReward(defeated: Combatant) returns (reward: Reward)
    ensures defeated.OtherCombatant? ==> reward == NewReward()
    ensures defeated.EnemyCombatant? ==>
      && reward.experienceGained == defeated.enemy.experienceReward
      && reward.goldGained == defeated.enemy.goldReward
      && reward.statsBoost == NewReward().statsBoost
      && (reward.itemsGained == [] ||
          (1 <= |reward.itemsGained| <= 2 &&
           forall i :: 0 <= i < |reward.itemsGained| ==> IsLoot(reward.itemsGained[i], defeated.enemy.level)))
  {
    reward := NewReward();
    match defeated
    case OtherCombatant =>
    case EnemyCombatant(enemy) =>
      reward := reward.(experienceGained := enemy.experienceReward, goldGained := enemy.goldReward);
      var coin := Next(0, 2);
      if coin == 0 {
        var loot := GenerateLootItems(enemy.level);
        reward := reward.(itemsGained := loot);
      }
  }

  /** One pass of ApplyReward's item loop: the item's attack and defense are
      added, and a positive health bonus raises the maximum and refills health. */
  function WithItem(v: Vitals, it: Item): Vitals
  {
    var w := v.(attack := v.attack + it.attackBonus, defense := v.defense + it.defenseBonus);
    if it.healthBonus > 0
    then w.(maxHealth := w.maxHealth + it.healthBonus, currentHealth := w.maxHealth + it.healthBonus)
    else w
  }

  /** The item loop over the whole list, in order. */
  function WithItems(v: Vitals, items: seq<Item>): Vitals
  {
    if items == [] then v else WithItem(WithItems(v, items[..|items| - 1]), items[|items| - 1])
  }

  /** The stat boosts: each key present adds its value; a "health" key raises
      the maximum and refills health even when its value is 0. */
  function WithBoost(v: Vitals, boost: map<string, int>): Vitals
  {
    var a := if "attack" in boost then v.(attack := v.attack + boost["attack"]) else v;
    var d := if "defense" in boost then a.(defense := a.defense + boost["defense"]) else a;
    if "health" in boost
    then d.(maxHealth := d.maxHealth + boost["health"], currentHealth := d.maxHealth + boost["health"])
    else d
  }

  function SumAttack(items: seq<Item>): int
  {
    if items == [] then 0 else SumAttack(items[..|items| - 1]) + items[|items| - 1].attackBonus
  }

  function SumDefense(items: seq<Item>): int
  {
    if items == [] then 0 else SumDefense(items[..|items| - 1]) + items[|items| - 1].defenseBonus
  }

  /** The health bonuses that count: only the positive ones. */
  function SumHealthGain(items: seq<Item>): int
  {
    if items == [] then 0 else SumHealthGain(items[..|items| - 1]) + Max(0, items[|items| - 1].healthBonus)
  }

  predicate AnyHealthItem(items: seq<Item>)
  {
    exists i :: 0 <= i < |items| && items[i].healthBonus > 0
  }

  /** Items stack: attack and defense grow by the sums of the items' bonuses,
      the maximum health by the sum of the positive health bonuses, the level
      never changes, and health is refilled exactly when some item carries a
      positive health bonus. */
  lemma {:induction false} WithItemsTotals(v: Vitals, items: seq<Item>)
    ensures var w := WithItems(v, items);
      && w.level == v.level
      && w.attack == v.attack + SumAttack(items)
      && w.defense == v.defense + SumDefense(items)
      && w.maxHealth == v.maxHealth + SumHealthGain(items)
      && w.currentHealth == if AnyHealthItem(items) then w.maxHealth else v.currentHealth
  {
    if items != [] {
      var init := items[..|items| - 1];
      WithItemsTotals(v, init);
      var last := items[|items| - 1];
      if AnyHealthItem(init) {
        var i :| 0 <= i < |init| && init[i].healthBonus > 0;
        assert items[i] == init[i];
      }
      if last.healthBonus <= 0 && AnyHealthItem(items) {
        var i :| 0 <= i < |items| && items[i].healthBonus > 0;
        assert init[i] == items[i];
      }
    }
  }

  /** Any reward built by the Reward constructor carries a "health" boost,
      so applying it always leaves the player at full health, even with no
      health bonus at all. */
  lemma DefaultBoostHeals(v: Vitals, r: Reward)
    requires r.statsBoost == NewReward().statsBoost
    ensures WithBoost(v, r.statsBoost) == v.(currentHealth := v.maxHealth)
  {
  }

  /** Applies a reward: experience (with any levels it brings), gold, every
      item into the inventory with its bonuses applied at once, then the
      stat boosts. */
  method ApplyReward(player: Player, reward: Reward)
    modifies player`experience, player`level, player`maxHealth, player`currentHealth,
             player`attack, player`defense, player`gold, player`inventory
    ensures player.experience == old(player.experience) + reward.experienceGained
    ensures player.gold == old(player.gold) + reward.goldGained
    ensures player.inventory == old(player.inventory) + reward.itemsGained
    ensures player.VitalsOf() ==
      WithBoost(WithItems(AfterExperience(old(player.VitalsOf()), old(player.experience), reward.experienceGained),
                          reward.itemsGained),
                reward.statsBoost)
  {
    player.GainExperience(reward.experienceGained);
    player.GainGold(reward.goldGained);
    ghost var start := player.VitalsOf();

    var i := 0;
    while i < |reward.itemsGained|
      invariant 0 <= i <= |reward.itemsGained|
      invariant player.experience == old(player.experience) + reward.experienceGained
      invariant player.gold == old(player.gold) + reward.goldGained
      invariant player.inventory == old(player.inventory) + reward.itemsGained[..i]
      invariant player.VitalsOf() == WithItems(start, reward.itemsGained[..i])
    {
      var item := reward.itemsGained[i];
      player.AddItem(item);
      player.attack := player.attack + item.attackBonus;
      player.defense := player.defense + item.defenseBonus;
      if item.healthBonus > 0 {
        player.maxHealth := player.maxHealth + item.healthBonus;
        player.currentHealth := player.maxHealth;
      }
      assert reward.itemsGained[..i + 1][..i] == reward.itemsGained[..i];
      i := i + 1;
    }
    assert reward.itemsGained[..i] == reward.itemsGained;

    var boost := reward.statsBoost;
    if "attack" in boost {
      player.attack := player.attack + boost["attack"];
    }
    if "defense" in boost {
      player.defense := player.defense + boost["defense"];
    }
    if "health" in boost {
      player.maxHealth := player.maxHealth + boost["health"];
      player.currentHealth := player.maxHealth;
    }
  }
}
