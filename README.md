# Roguelike dungeon simulator, modelled in Dafny

The repository holds two implementations of a small turn-based roguelike.

- The namespaced one (`Models` and `Systems`):
  - a player that levels up every 100 experience;
  - enemies and items whose stats come from per-type tables, chosen by case-insensitive type names;
  - rooms that hold enemies and items and fill themselves at random;
  - a combat loop where the player strikes first and the enemy answers while it still stands;
  - a reward system that turns a defeated enemy into experience, gold and loot and applies it to the player;
  - a dungeon generator that builds a chain of rooms with rising difficulty and a boss room at the end.
- The root-level one:
  - a singleton hero with weapon, armor and ring slots, whose bonuses are swapped by remove-then-apply;
  - equipment with the nine concrete pieces;
  - an abstract equipment factory per rarity;
  - four enemy subclasses, an enemy factory working by enum or by name, and random waves;
  - an experience counter with rising thresholds.

Every module proves its properties of what it models.

Modelling choices:

- Entities that the source changes in place are classes: the players, enemies, rooms and the combat system's log.
- Items and equipment are never changed after they are built, so they are datatypes. A reward is filled in once, inside `CalculateReward`, and never changed after that, so it is a datatype too.
- The fight is defined once as a function, `SystemsCombat.Fight`, and its properties are lemmas. `ExecuteCombat` is then proved to run exactly that fight.
- Randomness is either a value drawn inside a proved range (`Basics.Next`, the `Drawn` predicate) or a parameter.
  - The combat rolls are parameters: one function per side, from round number to raw damage.
- Strings are sequences of characters. Lower-casing covers ASCII letters.
- C#'s truncating integer division is written out as `Basics.CsDiv`.

## Model

| member | source | states |
|---|---|---|
| Basics.CsDiv | RoguelikeDungeonSimulator/Systems/DungeonGenerator.cs:38 | C# integer division truncates toward zero: the remainder a − q·b has the sign of the dividend (or is 0) and is smaller than the divisor in magnitude |
| Basics.CsDivAgrees | RoguelikeDungeonSimulator/Systems/DungeonGenerator.cs:38 | on a non-negative dividend and a positive divisor, C# division gives the same quotient as Euclidean division |
| Basics.CsDivOdd | RoguelikeDungeonSimulator/Systems/DungeonGenerator.cs:38 | negating the dividend or the divisor negates the quotient, as truncation toward zero does and floor division does not |
| Basics.Next | RoguelikeDungeonSimulator/Models/Room.cs:138 | `Random.Next(lo, hi)` returns a value with lo <= n < hi, or lo itself when hi == lo |
| Basics.ToLower | RoguelikeDungeonSimulator/Models/Enemy.cs:72 | lower-casing keeps the length and lowers each character in place |
| Basics.ToLowerIdempotent | RoguelikeDungeonSimulator/Models/Item.cs:64 | lower-casing a lower-cased name changes nothing |
| Basics.RemoveFirst | RoguelikeDungeonSimulator/Models/Room.cs:80-83 | `List.Remove` leaves the list as it is when the element is absent, and otherwise removes exactly one element |
| Basics.RemoveFirstAt | RoguelikeDungeonSimulator/Models/Room.cs:103 | removal takes out the first occurrence and keeps the order of everything else |
| DamageRule.Reduced | RoguelikeDungeonSimulator/Models/Enemy.cs:107 | landed damage is max(1, damage − defense): at least 1, and at least damage − defense |
| DamageRule.HealthAfterHit | RoguelikeDungeonSimulator/Models/Player.cs:58-65 | health after a hit is never negative and never higher than before. A living defender always loses at least 1 HP, and the result is 0 exactly when the landed damage reaches the health |
| DamageRule.HitMonotone | RoguelikeDungeonSimulator/Models/Player.cs:60-64 | a harder hit never leaves more health than a softer one |
| ModelsEnemy.KindOf | RoguelikeDungeonSimulator/Models/Enemy.cs:72-98 | the default (minor) stats are used exactly when the lower-cased type is none of goblin, orc, boss |
| ModelsEnemy.TypeStats | RoguelikeDungeonSimulator/Models/Enemy.cs:74-98 | from level 1 every type has at least 15 HP, 6 attack and 1 defense; the default type always has defense 1 |
| ModelsEnemy.LevelLinear | RoguelikeDungeonSimulator/Models/Enemy.cs:75-97 | each level adds the type's fixed step: goblin +5/+2/+1, orc +8/+3/+1, boss +20/+5/+2, default +3/+1/+0 |
| ModelsEnemy.TypeIgnoresCase | RoguelikeDungeonSimulator/Models/Enemy.cs:72 | type matching is case-insensitive: a name and its lower-cased form give the same stats |
| ModelsEnemy.Enemy.constructor | RoguelikeDungeonSimulator/Models/Enemy.cs:45-62 | a new enemy has the table's stats and full health. Its rewards are 10 XP and 5 gold per level for every type, because they are assigned after SetStatsByType. It sits at (0, 0) in room 0 |
| ModelsEnemy.Enemy.SetStatsByType | RoguelikeDungeonSimulator/Models/Enemy.cs:70-100 | sets health, attack and defense from the table. Only for a boss does it also set 50 XP and 30 gold per level; other rewards are untouched |
| ModelsEnemy.Enemy.TakeDamage | RoguelikeDungeonSimulator/Models/Enemy.cs:105-112 | health becomes HealthAfterHit of the old health, and the enemy is dead afterwards exactly when the landed damage reaches the old health |
| ModelsItem.KindOf | RoguelikeDungeonSimulator/Models/Item.cs:64-90 | the item is unknown exactly when the lower-cased type is none of weapon, armor, potion, ring |
| ModelsItem.ItemStats | RoguelikeDungeonSimulator/Models/Item.cs:62-91 | an unknown type gets no bonus. Attack comes only from weapons and rings, defense only from armor and rings, health only from potions. From rarity 1 no bonus is negative |
| ModelsItem.RarityLinear | RoguelikeDungeonSimulator/Models/Item.cs:67-83 | each rarity step adds the kind's fixed step: weapon +5 attack, armor +3 defense, potion +20 health, ring +2/+2 |
| ModelsItem.StatsIgnoreCase | RoguelikeDungeonSimulator/Models/Item.cs:64 | type matching is case-insensitive |
| ModelsItem.CapitalisedKinds | RoguelikeDungeonSimulator/Systems/RewardSystem.cs:144 | the capitalised type names "Weapon", "Armor", "Potion", "Ring" used by the generators name the four kinds |
| ModelsItem.NewItem | RoguelikeDungeonSimulator/Models/Item.cs:40-52 | name, type and rarity are stored unchanged, the id is drawn from [1000, 9999), and the bonuses are the table's |
| ModelsPlayer.LevelFor | RoguelikeDungeonSimulator/Models/Player.cs:88-95 | the level after gaining experience is never lower than before, and for non-negative experience it is max(old level, experience / 100 + 1) |
| ModelsPlayer.LevelUpsClosedForm | RoguelikeDungeonSimulator/Models/Player.cs:101-111 | n level-ups add exactly n levels, 10n max health, 3n attack and n defense, and after at least one the player is at full health |
| ModelsPlayer.Player.constructor | RoguelikeDungeonSimulator/Models/Player.cs:38-53 | a new player has 100/100 health, 15 attack, 5 defense, level 1, no experience or gold, an empty inventory, and sits at (0, 0) in room 0 |
| ModelsPlayer.Player.TakeDamage | RoguelikeDungeonSimulator/Models/Player.cs:58-65 | health becomes HealthAfterHit of the old health, and the player is dead afterwards exactly when the landed damage reaches the old health |
| ModelsPlayer.Player.Heal | RoguelikeDungeonSimulator/Models/Player.cs:70-73 | health becomes min(max, health + amount), so it never exceeds the maximum. When health was not above the maximum, a non-negative amount never lowers it |
| ModelsPlayer.Player.GainExperience | RoguelikeDungeonSimulator/Models/Player.cs:86-96 | experience grows by the amount, the level becomes LevelFor, and the other stats are those of that many level-ups |
| ModelsPlayer.Player.LevelUp | RoguelikeDungeonSimulator/Models/Player.cs:101-111 | the loop performs exactly max(0, levels) level-ups |
| ModelsPlayer.Player.GainGold | RoguelikeDungeonSimulator/Models/Player.cs:116-119 | gold grows by the amount and nothing else changes |
| ModelsPlayer.Player.AddItem | RoguelikeDungeonSimulator/Models/Player.cs:124-127 | the item is appended at the end of the inventory and nothing else changes |
| ModelsPlayer.Player.MoveTo | RoguelikeDungeonSimulator/Models/Player.cs:132-136 | only X and Y change, to the given values |
| ModelsRoom.FindById | RoguelikeDungeonSimulator/Models/Room.cs:100 | `FirstOrDefault` finds the first item with the id, or reports that there is none |
| ModelsRoom.Room.constructor | RoguelikeDungeonSimulator/Models/Room.cs:48-62 | id, name and difficulty as given; not a boss room, not cleared, no enemies, no items, no links |
| ModelsRoom.Room.AddEnemy | RoguelikeDungeonSimulator/Models/Room.cs:72-75 | the enemy is appended at the end |
| ModelsRoom.Room.RemoveEnemy | RoguelikeDungeonSimulator/Models/Room.cs:80-83 | the first occurrence of the enemy is removed and the order of the rest is kept; an absent enemy leaves the list unchanged |
| ModelsRoom.Room.AddItem | RoguelikeDungeonSimulator/Models/Room.cs:90-93 | the item is appended at the end |
| ModelsRoom.Room.TakeItem | RoguelikeDungeonSimulator/Models/Room.cs:98-106 | nothing is taken exactly when no item has the id. Otherwise the first item with that id is returned and removed, and the rest keep their order |
| ModelsRoom.Room.MarkAsCleared | RoguelikeDungeonSimulator/Models/Room.cs:119-122 | the room is cleared |
| ModelsRoom.Room.SpawnMinions | RoguelikeDungeonSimulator/Models/Room.cs:138-150 | appends max(0, count) new goblins or orcs of the room's difficulty, each placed inside the room and tagged with its id; the old enemies stay in front |
| ModelsRoom.Room.PlaceBoss | RoguelikeDungeonSimulator/Models/Room.cs:153-161 | the enemies are replaced by exactly one new boss, two levels above the room, at full health in the centre of the room |
| ModelsRoom.Room.DropItem | RoguelikeDungeonSimulator/Models/Room.cs:164-170 | at most one item is appended, a weapon, armor or potion with the room's difficulty as rarity; the old items stay in front |
| ModelsRoom.Room.GenerateContent | RoguelikeDungeonSimulator/Models/Room.cs:133-171 | a boss room ends with exactly one new boss of difficulty + 2 at the centre. Any other room gets 1 to difficulty + 1 minions. At most one weapon, armor or potion of the room's difficulty is added. The room always has enemies afterwards |
| SystemsCombat.Opponent | RoguelikeDungeonSimulator/Systems/CombatSystem.cs:97-98 | there is a loser exactly when there is a winner, and it is the other side |
| SystemsCombat.FightDecided | RoguelikeDungeonSimulator/Systems/CombatSystem.cs:79-123 | a fight is decided exactly when both sides start alive. The winner is alive and the loser at 0 health. An undecided fight changes nothing. A fight takes at least one round and at most as many as the enemy has health, so the loop ends |
| SystemsCombat.FightTotals | RoguelikeDungeonSimulator/Systems/CombatSystem.cs:85-111 | the damage totals are sums of raw rolls before defense: every round's player roll, and the enemy roll of every round in which the enemy answered |
| SystemsCombat.FirstBlowEndsFight | RoguelikeDungeonSimulator/Systems/CombatSystem.cs:88-100 | a first blow that kills the enemy ends the fight before it can answer: the player loses no health and the enemy deals nothing |
| SystemsCombat.CombatSystem.constructor | RoguelikeDungeonSimulator/Systems/CombatSystem.cs:47-50 | the log starts empty |
| SystemsCombat.CombatSystem.PlayRound | RoguelikeDungeonSimulator/Systems/CombatSystem.cs:81-122 | one round is the first step of Fight: the player strikes, and the enemy answers if alive. Totals grow by the raw rolls and the enemy's health strictly drops |
| SystemsCombat.CombatSystem.ExecuteCombat | RoguelikeDungeonSimulator/Systems/CombatSystem.cs:64-132 | final healths, winner, loser and damage totals are exactly those of Fight from the starting healths. The log is rebuilt from empty, opening with the matchup and healths and closing with the winner and totals; every entry in between belongs to a round. The result holds a copy of the log |
| SystemsCombat.CombatSystem.GetBattleLog | RoguelikeDungeonSimulator/Systems/CombatSystem.cs:137-140 | returns the current log |
| SystemsCombat.CombatSystem.ClearBattleLog | RoguelikeDungeonSimulator/Systems/CombatSystem.cs:145-148 | the log becomes empty |
| SystemsReward.NewReward | RoguelikeDungeonSimulator/Systems/RewardSystem.cs:19-28 | a new reward has no experience, gold or items, and exactly the boost keys attack, defense and health, all 0 |
| SystemsReward.LootCapped | RoguelikeDungeonSimulator/Systems/RewardSystem.cs:137-148 | loot rarity is capped at 3, so a loot item never has more than 15 attack, 9 defense or 70 health |
| SystemsReward.GenerateLootItems | RoguelikeDungeonSimulator/Systems/RewardSystem.cs:132-152 | one or two items, each of one of the four types, named after it, of rarity min(difficulty, 3) |
| SystemsReward.CalculateReward | RoguelikeDungeonSimulator/Systems/RewardSystem.cs:60-77 | an enemy yields its experience and gold rewards and either no loot or 1–2 loot items of its level. Anything else yields the empty reward |
| SystemsReward.WithItemsTotals | RoguelikeDungeonSimulator/Systems/RewardSystem.cs:97-110 | items stack: attack and defense grow by the sums of the bonuses, max health by the sum of the positive health bonuses. Health is refilled exactly when some item has a positive health bonus |
| SystemsReward.DefaultBoostHeals | RoguelikeDungeonSimulator/Systems/RewardSystem.cs:113-121 | a reward built by the Reward constructor always has a "health" key, so applying it always refills health and changes nothing else |
| SystemsReward.ApplyReward | RoguelikeDungeonSimulator/Systems/RewardSystem.cs:88-122 | experience, gold and inventory grow by the reward. The stats are those of the experience, then the items in order, then the boosts |
| SystemsDungeon.RampRises | RoguelikeDungeonSimulator/Systems/DungeonGenerator.cs:38 | for a non-negative difficulty, room difficulties never drop along the dungeon and never fall below the base. For a positive base they stay below twice the base |
| SystemsDungeon.RampAccepted | RoguelikeDungeonSimulator/Systems/DungeonGenerator.cs:38 | from a base of at least −1, every room difficulty is at least −1, the lowest that room generation accepts |
| SystemsDungeon.GenerateRoom | RoguelikeDungeonSimulator/Systems/DungeonGenerator.cs:57-75 | a new room with the given id and difficulty capped at 5. It is named after a boss from the list, or "room n+1". It is described and populated by GenerateContent, and not linked |
| SystemsDungeon.ConnectRooms | RoguelikeDungeonSimulator/Systems/DungeonGenerator.cs:80-90 | for distinct rooms, every room but the first links back to its predecessor's id, every room but the last links on to its successor's id, and the outer ends are untouched |
| SystemsDungeon.GenerateRooms | RoguelikeDungeonSimulator/Systems/DungeonGenerator.cs:33-42 | max(0, n) new distinct rooms; room i has id i and the ramped difficulty, and only the last is the boss room |
| SystemsDungeon.GenerateDungeon | RoguelikeDungeonSimulator/Systems/DungeonGenerator.cs:31-48 | max(0, n) new distinct rooms with ids 0..n−1, ramped difficulties and the boss room last, linked into a chain from first to last |
| RootEquipment.Applied | RoguelikeDungeonSimulator/Equipment.cs:33-37 | applying a piece's bonus is undone by removing it: removing the bonus again gives back the old stats |
| RootEquipment.Removed | RoguelikeDungeonSimulator/Equipment.cs:44-49 | each stat shrinks by the matching bonus, so adding the bonus back restores it |
| RootEquipment.ApplyRemoveRoundTrip | RoguelikeDungeonSimulator/Equipment.cs:33-49 | apply and remove undo each other exactly, in either order |
| RootEquipment.Catalogue | RoguelikeDungeonSimulator/Equipment.cs:61-112 | weapons only add attack, in rising order; armor always adds defense and only the dragon armor adds HP; no bonus is negative |
| RootEnemy.Enemy.constructor | RoguelikeDungeonSimulator/Enemy.cs:11-19 | HP and MaxHP both start at the given health; the rest is stored as given |
| RootEnemy.Enemy.TakeDamage | RoguelikeDungeonSimulator/Enemy.cs:21-33 | HP becomes HealthAfterHit of the old HP, and the enemy is dead afterwards exactly when the landed damage reaches the old HP |
| RootEnemyTypes.ProfileOf | RoguelikeDungeonSimulator/EnemyTypes.cs:3-29 | only the dungeon lord has more than 40 HP; every kind has positive health and reward and attacks harder than it defends |
| RootEnemyTypes.RewardOrder | RoguelikeDungeonSimulator/EnemyTypes.cs:5-26 | rewards rise rat < warrior < mage < lord, while the mage has less health than the warrior |
| RootEnemyTypes.NewEnemy | RoguelikeDungeonSimulator/EnemyTypes.cs:3-29 | each subclass constructor makes a new enemy at full health with its profile |
| RootEnemyFactory.KindOfType | RoguelikeDungeonSimulator/EnemyFactory.cs:13-23 | only Boss gives the dungeon lord |
| RootEnemyFactory.KindOfTypeInjective | RoguelikeDungeonSimulator/EnemyFactory.cs:13-23 | different enum values make different subclasses, so the enum maps one-to-one onto them |
| RootEnemyFactory.KindOfName | RoguelikeDungeonSimulator/EnemyFactory.cs:26-36 | a name is rejected exactly when its lower-cased form is none of rat, warrior, guerrier, mage, boss, seigneur |
| RootEnemyFactory.NamesAgree | RoguelikeDungeonSimulator/EnemyFactory.cs:26-36 | the English names make the same enemy as the matching enum value |
| RootEnemyFactory.FrenchAliases | RoguelikeDungeonSimulator/EnemyFactory.cs:30-32 | "guerrier" and "seigneur" are aliases of Warrior and Boss |
| RootEnemyFactory.NameIgnoresCase | RoguelikeDungeonSimulator/EnemyFactory.cs:28 | a name and its lower-cased form make the same enemy |
| RootEnemyFactory.CreateEnemy | RoguelikeDungeonSimulator/EnemyFactory.cs:13-23 | a new enemy with the profile of the enum's subclass |
| RootEnemyFactory.CreateEnemyNamed | RoguelikeDungeonSimulator/EnemyFactory.cs:26-36 | an unknown name is an error carrying the source's message with the name; a known one gives a new enemy of its subclass |
| RootEnemyFactory.GenerateEnemyWave | RoguelikeDungeonSimulator/EnemyFactory.cs:39-52 | max(0, count) new, pairwise distinct enemies, each a rat, warrior or mage, so none is the lord and none has more than 40 HP |
| RootExperience.Threshold | RoguelikeDungeonSimulator/Experience.cs:6-9 | the experience needed to leave a level is at least 100 exactly from level 1 on |
| RootExperience.ThresholdStep | RoguelikeDungeonSimulator/Experience.cs:6-9 | each level costs 50 more experience to leave than the one below it |
| RootExperience.LevelUpStep | RoguelikeDungeonSimulator/Experience.cs:17-23 | one level-up pays the threshold of the level being left. The level rises by one, and paying only what was reached never leaves the experience negative |
| RootExperience.LevelUpAsWritten | RoguelikeDungeonSimulator/Experience.cs:28-32 | the private LevelUp reaches the same level as the loop's step but takes 50 experience more. Experience that reached the threshold by less than 50 goes negative, where the loop's step leaves it non-negative |
| RootExperience.LevelUpOverdraws | RoguelikeDungeonSimulator/Experience.cs:28-32 | at 100 XP on level 1, LevelUp as written leaves −50 XP on level 2, where paying the reached threshold leaves 0 |
| RootExperience.SettleProperties | RoguelikeDungeonSimulator/Experience.cs:12-26 | the level never drops. It rises exactly when the experience reaches the current threshold. What remains is below the next threshold and not negative, and remainder plus thresholds paid equals the experience there was |
| RootExperience.Experience.constructor | RoguelikeDungeonSimulator/Experience.cs:3-4 | no experience, level 1 |
| RootExperience.Experience.XPForNextLevel | RoguelikeDungeonSimulator/Experience.cs:6-9 | the threshold of the current level, at least 100 on a valid object |
| RootExperience.Experience.GainXP | RoguelikeDungeonSimulator/Experience.cs:12-26 | the loop ends where Settle does from the old experience plus the amount, and reports a level-up exactly when the level rose |
| RootExperience.Experience.LevelUp | RoguelikeDungeonSimulator/Experience.cs:28-32 | the new level and experience are those of LevelUpAsWritten, and the experience object stays valid |
| RootExperience.Experience.Reset | RoguelikeDungeonSimulator/Experience.cs:33-37 | back to no experience at level 1 |
| RootPlayer.Unequipped | RoguelikeDungeonSimulator/Player.cs:135-138 | taking off what a slot held subtracts exactly its bonus, and nothing for an empty slot |
| RootPlayer.SwapWeaponKeepsWorn | RoguelikeDungeonSimulator/Player.cs:133-142 | if the stats are base plus the three worn bonuses, after a weapon swap they are base plus the bonuses with the new weapon |
| RootPlayer.SwapArmorKeepsWorn | RoguelikeDungeonSimulator/Player.cs:147-156 | the same for the armor slot, independently of the others |
| RootPlayer.SwapRingKeepsWorn | RoguelikeDungeonSimulator/Player.cs:161-170 | the same for the ring slot, independently of the others |
| RootPlayer.EquipNetChange | RoguelikeDungeonSimulator/Player.cs:133-142 | over an occupied slot, each stat changes by the new bonus minus the old one; re-equipping the same piece changes nothing |
| RootPlayer.LevelStats | RoguelikeDungeonSimulator/Player.cs:116-124 | above level 1, attack, defense and max HP are all above their base values |
| RootPlayer.LevelStatsStep | RoguelikeDungeonSimulator/Player.cs:29-32 | each level adds exactly +10 max HP, +2 attack and +1 defense |
| RootPlayer.Player.constructor | RoguelikeDungeonSimulator/Player.cs:34-45 | "Héros" with 100/100 HP, 15 attack, 5 defense and nothing equipped |
| RootPlayer.Player.TakeDamage | RoguelikeDungeonSimulator/Player.cs:78-89 | HP becomes HealthAfterHit of the old HP, and the player is dead afterwards exactly when the landed damage reaches the old HP |
| RootPlayer.Player.AttackEnemy | RoguelikeDungeonSimulator/Player.cs:68-73 | the enemy takes exactly the player's attack through its own damage rule, whatever the target |
| RootPlayer.Player.ApplyLevelUpBonuses | RoguelikeDungeonSimulator/Player.cs:116-128 | the stats become those of the level, discarding any equipment bonus, and HP is refilled |
| RootPlayer.Player.GainExperience | RoguelikeDungeonSimulator/Player.cs:102-111 | above level 1 the stats become those of the level, at full HP; at level 1 no stat changes |
| RootPlayer.Player.EquipWeapon | RoguelikeDungeonSimulator/Player.cs:133-142 | the slot holds the new weapon and the stats are the old ones minus the old weapon's bonus plus the new one's; HP and the other slots are untouched |
| RootPlayer.Player.EquipArmor | RoguelikeDungeonSimulator/Player.cs:147-156 | the same over the armor slot |
| RootPlayer.Player.EquipRing | RoguelikeDungeonSimulator/Player.cs:161-170 | the same over the ring slot |
| RootPlayer.ApplyBonus | RoguelikeDungeonSimulator/Equipment.cs:33-37 | the player's attack, defense and max HP become Applied of the old ones; HP is untouched |
| RootPlayer.RemoveBonus | RoguelikeDungeonSimulator/Equipment.cs:44-49 | the player's attack, defense and max HP become Removed of the old ones; HP is untouched |
| RootPlayer.PlayerRegistry.constructor | RoguelikeDungeonSimulator/Player.cs:5 | there is no instance yet |
| RootPlayer.PlayerRegistry.GetInstance | RoguelikeDungeonSimulator/Player.cs:50-55 | the existing instance is returned unchanged; when there is none, a new player is made and kept |
| RootPlayer.PlayerRegistry.ResetInstance | RoguelikeDungeonSimulator/Player.cs:60-63 | the instance is cleared, so the next GetInstance makes a new player |
| RootEquipmentFactory.GetFactory | RoguelikeDungeonSimulator/EquipmentFactory.cs:7-17 | each rarity gets its own factory, one-to-one |
| RootEquipmentFactory.CreateWeapon | RoguelikeDungeonSimulator/EquipmentFactory.cs:27-50 | the basic and advanced factories make a weapon defined in Equipment.cs; the legendary one does not |
| RootEquipmentFactory.CreateArmor | RoguelikeDungeonSimulator/EquipmentFactory.cs:27-50 | only the basic factory makes an armor defined in Equipment.cs |
| RootEquipmentFactory.CreateRing | RoguelikeDungeonSimulator/EquipmentFactory.cs:27-50 | the basic and advanced factories make a ring defined in Equipment.cs; the legendary one does not |
| RootEquipmentFactory.FactoriesDiffer | RoguelikeDungeonSimulator/EquipmentFactory.cs:27-50 | no two factories make the same weapon, armor or ring |
| RootEquipmentFactory.BasicSet | RoguelikeDungeonSimulator/EquipmentFactory.cs:30-32 | the basic factory makes the rusty blade (+3 attack), light armor (+2 defense) and ring of life (+10 HP) |
| RootEquipmentFactory.AdvancedOutclassesBasic | RoguelikeDungeonSimulator/EquipmentFactory.cs:39-41 | the advanced weapon is the hero's sword (+15 attack, five times the basic one), and the advanced ring the power ring (+3 attack) |
| RootEquipmentFactory.ProductsInCatalogue | RoguelikeDungeonSimulator/EquipmentFactory.cs:27-50 | every product defined in Equipment.cs is a catalogue piece of the slot the factory method names |

The `IsAlive` predicates appear in the `TakeDamage` contracts and the combat loop, and `HasEnemies` in the `GenerateContent` contract. The level-up and fight functions (`ModelsPlayer.OneLevel`, `ModelsPlayer.LevelUps`, `SystemsCombat.Fight`, `RootExperience.Settle`) are used by the contracts above, and `RootPlayer.Player.CalculateDamage` by `AttackEnemy`. `RootEnemy.Enemy.CalculateDamage` is defined as in the source (it returns the enemy's attack), but no member of the root-level model calls it.

## Left out

- Console output and colours are not modelled. The battle log keeps its entries as structured `LogEntry` values, not formatted text.
- `ToDict` and `ToString` serialisation is not modelled; there is nothing to prove beyond copying fields.
- Item descriptions, the text SetItemStats writes next to the bonuses, are not modelled.
- Random distributions are not modelled, only ranges.
  - Every random draw is a nondeterministic choice inside the range `Random.Next` allows.
  - A room's chosen boss name is stated to be one of the seven names.
- `Random.Next` throwing for an inverted range is replaced by preconditions.
  - `GenerateRoom`, `GenerateContent` and `GenerateDungeon` require a difficulty of at least −1.
  - These are the inputs for which the source does not throw.
- ModelsEnemy.Enemy: the floating-point `CalculateDamage` with its random spread is not modelled. The fight takes each side's raw damage per round as a parameter, `playerRoll` and `enemyRoll`.
- SystemsCombat.CombatSystem.ExecuteCombat: the combatants are the Models `Player` and `Enemy` classes, not the `ICombatant` interface.
- SystemsReward.CalculateReward: `ICombatant` is the `Combatant` datatype, either an enemy or something else.
- `RewardSystem`, `DungeonGenerator` and the root `EnemyFactory` hold only a `Random`, so their operations are module-level methods.
- SystemsDungeon.ConnectRooms: links are stated for lists of distinct rooms.
  - `GenerateDungeon` always passes distinct rooms.
  - With a room repeated in the list, later writes overwrite earlier ones, and that case is not stated.
- SystemsDungeon.GenerateDungeon: room links are stated as the neighbours' ids, and the ids are 0..n−1.
- RootPlayer.Player.GainExperience:
  - the `ExperienceSystem` class is not part of this model;
  - the level it reports after the experience is added is a parameter;
  - the experience amount goes to that system and changes nothing else here.
- RootExperience.Experience.GainXP: Experience.cs as written does not compile.
  - It assigns the read-only `CurrentXP` and uses the undeclared `XPToNextLevel`, `Level` and `CalculateXPForNextLevel`.
  - It is modelled as evidently meant: over `currentXP`, `currentLevel` and `XPForNextLevel()`.
- RootEquipmentFactory.CreateArmor: `ReinforcedArmor` is not part of this model. Neither are `LegendarySword`, `LegendaryArmor` and `LegendaryRing`, for `CreateWeapon` and `CreateRing`. Those products are known only by class name.
- RootEquipmentFactory.GetFactory: the throwing arm for an enum value outside Basic, Advanced and Legendary has no counterpart, because the rarity datatype has only those three values.
- RootEnemyFactory.CreateEnemy: the throwing arm for an out-of-range enum value has no counterpart, for the same reason.
- Equipment bonuses do not go through the `IEquipment` interface. They are `RootPlayer.ApplyBonus` and `RootPlayer.RemoveBonus` on the single `Equipment` datatype, because no subclass overrides them.
- ModelsRoom.Room: `Width` and `Height` are settable properties in Room.cs, but no code in this model sets them after the constructor, so they are the constants 10 and 10.
- RootPlayer.Player.EquipWeapon, RootPlayer.Player.EquipArmor, RootPlayer.Player.EquipRing: the argument cannot be null here. With a null argument, Player.cs would remove the old bonus, empty the slot and then throw a NullReferenceException, and that path is not modelled.
- 32-bit overflow of C# `int` is not modelled; all integers are unbounded.
- `ToLower` covers ASCII letters only; culture-specific case mapping is not modelled.
- The entry point (Program.cs), RoomFactory, CombatRoom, BossRoom and the system interfaces are not part of this model.

## Findings

| source | as written | input that shows it | evidently intended | confidence | as-written member | corrected member |
|---|---|---|---|---|---|---|
| RoguelikeDungeonSimulator/Experience.cs:28-32 | `LevelUp` raises the level first and then subtracts `XPForNextLevel()`, which is the threshold of the new level | 100 XP at level 1: the level becomes 2 and XP becomes 100 − 150 = −50 | subtract the threshold just reached, 100, leaving 0 XP, as GainXP's loop does | medium (not executed) | RootExperience.LevelUpOverdraws | RootExperience.LevelUpStep |

The corrected step is the one `RootExperience.Settle` and `RootExperience.Experience.GainXP` use. `RootExperience.SettleProperties` proves its properties: no experience is lost, and the remainder is non-negative.
