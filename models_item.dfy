/** Items of the namespaced implementation (Models/Item.cs): a weapon, armor,
    potion or ring whose bonuses are a table, linear in rarity, chosen by the
    case-insensitive type name. An item is never changed after construction,
    so it is a value here. */
module ModelsItem {
  import opened Basics

  datatype Bonuses = Bonuses(attack: int, defense: int, health: int)
  {
    function Plus(other: Bonuses): Bonuses
    {
      Bonuses(attack + other.attack, defense + other.defense, health + other.health)
    }
  }

  datatype Item = Item(
    id: int,
    name: string,
    itemType: string,
    attackBonus: int,
    defenseBonus: int,
    healthBonus: int,
    rarity: int)
  {
    function Bonus(): Bonuses { Bonuses(attackBonus, defenseBonus, healthBonus) }
  }

  /** The four kinds SetItemStats knows, and everything else. */
  datatype ItemKind = Weapon | Armor | Potion | Ring | Unknown

  /** The switch of SetItemStats: the type name is lower-cased and compared
      with "weapon", "armor", "potion" and "ring". */
  function KindOf(itemType: string): (k: ItemKind)
    ensures k == Unknown <==> ToLower(itemType) !in {"weapon", "armor", "potion", "ring"}
  {
    match ToLower(itemType)
    case "weapon" => Weapon
    case "armor" => Armor
    case "potion" => Potion
    case "ring" => Ring
    case _ => Unknown
  }

  /** SetItemStats: the bonuses of an item of the given type and rarity. An
      unknown type gets no bonus at all, and each bonus belongs only to the
      kinds the table gives it to. */
  function ItemStats(itemType: string, rarity: int): (b: Bonuses)
    ensures KindOf(itemType) == Unknown ==> b == Bonuses(0, 0, 0)
    ensures b.attack != 0 ==> KindOf(itemType) in {Weapon, Ring}
    ensures b.defense != 0 ==> KindOf(itemType) in {Armor, Ring}
    ensures b.health != 0 ==> KindOf(itemType) == Potion
    ensures rarity >= 1 ==> b.attack >= 0 && b.defense >= 0 && b.health >= 0
  {
    match KindOf(itemType)
    case Weapon => Bonuses(5 + (rarity - 1) * 5, 0, 0)
    case Armor => Bonuses(0, 3 + (rarity - 1) * 3, 0)
    case Potion => Bonuses(0, 0, 30 + (rarity - 1) * 20)
    case Ring => Bonuses(2 + (rarity - 1) * 2, 2 + (rarity - 1) * 2, 0)
    case Unknown => Bonuses(0, 0, 0)
  }

  /** What one more point of rarity adds, per kind. */
  function RarityStep(kind: ItemKind): Bonuses
  {
    match kind
    case Weapon => Bonuses(5, 0, 0)
    case Armor => Bonuses(0, 3, 0)
    case Potion => Bonuses(0, 0, 20)
    case Ring => Bonuses(2, 2, 0)
    case Unknown => Bonuses(0, 0, 0)
  }

  /** The table is linear in rarity: each rarity step adds the kind's step. */
  lemma RarityLinear(itemType: string, rarity: int)
    ensures ItemStats(itemType, rarity + 1) == ItemStats(itemType, rarity).Plus(RarityStep(KindOf(itemType)))
  {
  }

  /** Matching is case-insensitive: "Weapon", "WEAPON" and "weapon" get the same bonuses. */
  lemma {:induction false} StatsIgnoreCase(itemType: string, rarity: int)
    ensures KindOf(itemType) == KindOf(ToLower(itemType))
    ensures ItemStats(itemType, rarity) == ItemStats(ToLower(itemType), rarity)
  {
    ToLowerIdempotent(itemType);
  }

  /** The capitalised type names used across the game name the four kinds. */
  lemma CapitalisedKinds()
    ensures KindOf("Weapon") == Weapon && KindOf("Armor") == Armor
    ensures KindOf("Potion") == Potion && KindOf("Ring") == Ring
  {
    assert ToLower("Weapon") == "weapon" && ToLower("Armor") == "armor";
    assert ToLower("Potion") == "potion" && ToLower("Ring") == "ring";
  }

  /** The Item constructor: the id is the value drawn from `Next(1000, 9999)`;
      name, type and rarity are stored unchanged and the bonuses come from
      SetItemStats (all three start at 0 and only the table's entries are set). */
  function NewItem(id: int, name: string, itemType: string, rarity: int := 1): (it: Item)
    requires Drawn(id, 1000, 9999)
    ensures it.id == id && it.name == name && it.itemType == itemType && it.rarity == rarity
    ensures it.Bonus() == ItemStats(itemType, rarity)
  {
    var b := ItemStats(itemType, rarity);
    Item(id, name, itemType, b.attack, b.defense, b.health, rarity)
  }
}
