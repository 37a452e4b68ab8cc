/** The abstract factory of the root-level implementation
    (EquipmentFactory.cs): one factory per rarity, each making one fixed
    weapon, armor and ring. ReinforcedArmor and the three legendary pieces
    are not defined in the sources this model covers, so they are products
    known only by their class name. */
module RootEquipmentFactory {
  import opened Basics
  import opened RootEquipment

  datatype EquipmentRarity = Basic | Advanced | Legendary

  /** The three concrete factories. */
  datatype Factory = BasicEquipmentFactory | AdvancedEquipmentFactory | LegendaryEquipmentFactory

  /** What a factory makes: a piece of Equipment.cs, or a class outside this
      model, by name. */
  datatype Product = Known(piece: Equipment) | Unseen(className: string)

  /** GetFactory: each rarity has its own factory. The switch's throwing arm
      is for enum values outside the three names, which this datatype does
      not have. */
  function GetFactory(rarity: EquipmentRarity): (f: Factory)
    ensures f.BasicEquipmentFactory? <==> rarity == Basic
    ensures f.AdvancedEquipmentFactory? <==> rarity == Advanced
    ensures f.LegendaryEquipmentFactory? <==> rarity == Legendary
  {
    match rarity
    case Basic => BasicEquipmentFactory
    case Advanced => AdvancedEquipmentFactory
    case Legendary => LegendaryEquipmentFactory
  }

  /** The weapon a factory makes: one from Equipment.cs except for the
      legendary factory's. */
  function CreateWeapon(f: Factory): (r: Product)
    ensures r.Known? <==> !f.LegendaryEquipmentFactory?
  {
    match f
    case BasicEquipmentFactory => Known(RustyBlade)
    case AdvancedEquipmentFactory => Known(HeroSword)
    case LegendaryEquipmentFactory => Unseen("LegendarySword")
  }

  /** The armor a factory makes: only the basic one is from Equipment.cs. */
  function CreateArmor(f: Factory): (r: Product)
    ensures r.Known? <==> f.BasicEquipmentFactory?
  {
    match f
    case BasicEquipmentFactory => Known(LightArmor)
    case AdvancedEquipmentFactory => Unseen("ReinforcedArmor")
    case LegendaryEquipmentFactory => Unseen("LegendaryArmor")
  }

  /** The ring a factory makes: one from Equipment.cs except for the
      legendary factory's. */
  function CreateRing(f: Factory): (r: Product)
    ensures r.Known? <==> !f.LegendaryEquipmentFactory?
  {
    match f
    case BasicEquipmentFactory => Known(LifeRing)
    case AdvancedEquipmentFactory => Known(PowerRing)
    case LegendaryEquipmentFactory => Unseen("LegendaryRing")
  }

  /** The basic set: +3 attack from the weapon, +2 defense from the armor and
      +10 max HP from the ring, and nothing else. */
  lemma BasicSet()
    ensures CreateWeapon(GetFactory(Basic)) == Known(Equipment("Épée rouillée", 3, 0, 0))
    ensures CreateArmor(GetFactory(Basic)) == Known(Equipment("Armure légère", 0, 2, 0))
    ensures CreateRing(GetFactory(Basic)) == Known(Equipment("Anneau de vie", 0, 0, 10))
  {
  }

  /** The advanced weapon is the hero's sword (+15 attack), five times the
      basic weapon's bonus, and the advanced ring the power ring (+3 attack),
      where the basic ring gives no attack. */
  lemma AdvancedOutclassesBasic()
    ensures CreateWeapon(GetFactory(Advanced)).piece.attackBonus == 15
    ensures CreateWeapon(GetFactory(Advanced)).piece.attackBonus == 5 * CreateWeapon(GetFactory(Basic)).piece.attackBonus
    ensures CreateRing(GetFactory(Advanced)).piece.attackBonus == 3
    ensures CreateRing(GetFactory(Basic)).piece.attackBonus == 0
  {
  }

  /** No two factories make the same weapon, the same armor or the same
      ring. */
  lemma FactoriesDiffer(f1: Factory, f2: Factory)
    ensures f1 != f2 ==> CreateWeapon(f1) != CreateWeapon(f2)
    ensures f1 != f2 ==> CreateArmor(f1) != CreateArmor(f2)
    ensures f1 != f2 ==> CreateRing(f1) != CreateRing(f2)
  {
  }

  /** Every piece a factory makes that Equipment.cs defines is one of its
      catalogue pieces in the matching slot. */
  lemma ProductsInCatalogue(f: Factory)
    ensures CreateWeapon(f).Known? ==> CreateWeapon(f).piece in Weapons
    ensures CreateArmor(f).Known? ==> CreateArmor(f).piece in Armors
    ensures CreateRing(f).Known? ==> CreateRing(f).piece in Rings
  {
  }
}
