/** The four concrete enemies of the root-level implementation
    (EnemyTypes.cs). Each subclass only passes constants to the Enemy
    constructor, so a subclass is a kind here and its constants a profile. */
module RootEnemyTypes {
  import RootEnemy

  datatype EnemyKind = DungeonRat | FallenWarrior | CorruptedMage | DungeonLord

  /** The constructor arguments of a subclass. */
  datatype Profile = Profile(name: string, hp: int, attack: int, defense: int, xpReward: int)

  /** The constants of each subclass. Only the dungeon lord has more than
      40 HP, and every kind attacks harder than it defends. */
  function ProfileOf(kind: EnemyKind): (p: Profile)
    ensures p.hp > 40 <==> kind == DungeonLord
    ensures p.hp > 0 && p.attack > p.defense >= 0 && p.xpReward > 0
  {
    match kind
    case DungeonRat => Profile("Rat des Donjons", 20, 5, 0, 10)
    case FallenWarrior => Profile("Guerrier Déchu", 40, 10, 3, 20)
    case CorruptedMage => Profile("Mage Corrompu", 30, 15, 1, 30)
    case DungeonLord => Profile("Seigneur du Donjon", 120, 20, 5, 100)
  }

  /** The experience reward rises with the kind's health, from the rat to
      the lord, except that the mage is worth more than the sturdier warrior. */
  lemma RewardOrder()
    ensures ProfileOf(DungeonRat).xpReward < ProfileOf(FallenWarrior).xpReward
    ensures ProfileOf(FallenWarrior).xpReward < ProfileOf(CorruptedMage).xpReward
    ensures ProfileOf(CorruptedMage).xpReward < ProfileOf(DungeonLord).xpReward
    ensures ProfileOf(CorruptedMage).hp < ProfileOf(FallenWarrior).hp
  {
  }

  /** An enemy as a subclass constructor leaves it: full health and the
      profile's values. */
  predicate HasProfile(e: RootEnemy.Enemy, p: Profile)
    reads e
  {
    && e.name == p.name && e.hp == p.hp && e.maxHP == p.hp
    && e.attack == p.attack && e.defense == p.defense && e.xpReward == p.xpReward
  }

  /** `new DungeonRat()`, `new FallenWarrior()` and so on. */
  method NewEnemy(kind: EnemyKind) returns (e: RootEnemy.Enemy)
    ensures fresh(e) && HasProfile(e, ProfileOf(kind))
  {
    var p := ProfileOf(kind);
    e := new RootEnemy.Enemy(p.name, p.hp, p.attack, p.defense, p.xpReward);
  }
}
