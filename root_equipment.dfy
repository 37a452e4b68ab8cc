/** Equipment of the root-level implementation (Equipment.cs): a named item
    with attack, defense and max-HP bonuses, and the nine concrete pieces.
    Equipment is never changed after construction, so it is a value here.
    Applying and removing a bonus change three stats of the player; that
    arithmetic is defined here on a stats triple (Applied, Removed), and the
    methods that perform it on a player are RootPlayer.ApplyBonus and
    RootPlayer.RemoveBonus. */
module RootEquipment {

  /** The Equipment constructor: a bonus that is not given is 0. */
  datatype Equipment = Equipment(name: string, attackBonus: int := 0, defenseBonus: int := 0, maxHPBonus: int := 0)

  /** The three stats equipment acts on. */
  datatype Stats = Stats(attack: int, defense: int, maxHP: int)
  {
    function Plus(other: Stats): Stats
    {
      Stats(attack + other.attack, defense + other.defense, maxHP + other.maxHP)
    }
  }

  function BonusOf(e: Equipment): Stats
  {
    Stats(e.attackBonus, e.defenseBonus, e.maxHPBonus)
  }

  /** ApplyBonus: each stat grows by the matching bonus. */
  function Applied(s: Stats, e: Equipment): (r: Stats)
    ensures Removed(r, e) == s
  {
    Stats(s.attack + e.attackBonus, s.defense + e.defenseBonus, s.maxHP + e.maxHPBonus)
  }

  /** RemoveBonus: each stat shrinks by the matching bonus. */
  function Removed(s: Stats, e: Equipment): (r: Stats)
    ensures r.Plus(BonusOf(e)) == s
  {
    Stats(s.attack - e.attackBonus, s.defense - e.defenseBonus, s.maxHP - e.maxHPBonus)
  }

  /** Apply and remove undo each other exactly, in either order. */
  lemma ApplyRemoveRoundTrip(s: Stats, e: Equipment)
    ensures Removed(Applied(s, e), e) == s
    ensures Applied(Removed(s, e), e) == s
  {
  }

  /** Weapons. */
  const RustyBlade: Equipment := Equipment("Épée rouillée", attackBonus := 3)
  const Longsword: Equipment := Equipment("Épée longue", attackBonus := 7)
  const HeroSword: Equipment := Equipment("Épée du héros", attackBonus := 15)

  /** Armor. */
  const LightArmor: Equipment := Equipment("Armure légère", defenseBonus := 2)
  const ChainArmor: Equipment := Equipment("Armure en chaîne", defenseBonus := 5)
  const DragonArmor: Equipment := Equipment("Armure du dragon", defenseBonus := 8, maxHPBonus := 15)

  /** Rings. */
  const LifeRing: Equipment := Equipment("Anneau de vie", maxHPBonus := 10)
  const PowerRing: Equipment := Equipment("Anneau de puissance", attackBonus := 3)
  const RingOfTheAncients: Equipment := Equipment("Anneau des anciens", attackBonus := 5, defenseBonus := 3, maxHPBonus := 10)

  const Weapons: seq<Equipment> := [RustyBlade, Longsword, HeroSword]
  const Armors: seq<Equipment> := [LightArmor, ChainArmor, DragonArmor]
  const Rings: seq<Equipment> := [LifeRing, PowerRing, RingOfTheAncients]

  /** The catalogue: weapons only add attack, in rising order; armor always
      adds defense (and only the dragon armor adds HP); every bonus of every
      piece is non-negative. */
  lemma Catalogue()
    ensures forall w :: w in Weapons ==> w.attackBonus > 0 && w.defenseBonus == 0 && w.maxHPBonus == 0
    ensures RustyBlade.attackBonus < Longsword.attackBonus < HeroSword.attackBonus
    ensures forall a :: a in Armors ==> a.attackBonus == 0 && a.defenseBonus > 0
    ensures forall a :: a in Armors && a.maxHPBonus != 0 ==> a == DragonArmor
    ensures forall e :: e in Weapons + Armors + Rings ==> e.attackBonus >= 0 && e.defenseBonus >= 0 && e.maxHPBonus >= 0
  {
  }
}
