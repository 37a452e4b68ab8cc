/** A room of the dungeon (Models/Room.cs): a 10×10 container of enemies and
    items, with a cleared flag, links to its neighbours, and a generator that
    fills it according to its difficulty. */
module ModelsRoom {
  import opened Basics
  import opened ModelsItem
  import opened ModelsEnemy

  /** `Items.FirstOrDefault(i => i.Id == itemId)`, as an index: the first item
      carrying the id, or None when no item does. */
  function FindById(items: seq<Item>, itemId: int): (r: Option<nat>)
    ensures r.Some? ==> r.value < |items| && items[r.value].id == itemId
    ensures r.Some? ==> forall j :: 0 <= j < r.value ==> items[j].id != itemId
    ensures r.None? ==> forall j :: 0 <= j < |items| ==> items[j].id != itemId
  {
    if items == [] then None
    else if items[0].id == itemId then Some(0)
    else match FindById(items[1..], itemId)
      case None => None
      case Some(k) => Some(k + 1)
  }

  /** The enemy types GenerateContent draws from, and the item types it drops. */
  const MinionTypes: seq<string> := ["Goblin", "Orc"]
  const DropTypes: seq<string> := ["Weapon", "Armor", "Potion"]

  class Room {
    var id: int
    var name: string
    var description: string
    const width: int := 10
    const height: int := 10
    var enemies: seq<Enemy>
    var items: seq<Item>
    var difficulty: int
    var isBossRoom: bool
    var isCleared: bool
    var nextRoomId: Option<int>
    var previousRoomId: Option<int>

    /** A new room: 10×10, not a boss room, not cleared, empty, unlinked. */
    constructor (id: int, name: string := "Unknown Room", difficulty: int := 1)
      ensures this.id == id && this.name == name && this.difficulty == difficulty
      ensures description == ""
      ensures !isBossRoom && !isCleared
      ensures enemies == [] && items == []
      ensures nextRoomId == None && previousRoomId == None
    {
      this.id := id;
      this.name := name;
      description := "";
      this.difficulty := difficulty;
      isBossRoom := false;
      isCleared := false;
      enemies := [];
      items := [];
      nextRoomId := None;
      previousRoomId := None;
    }

    /** Appends the enemy; the items are untouched. */
    method AddEnemy(enemy: Enemy)
      modifies this`enemies
      ensures enemies == old(enemies) + [enemy]
    {
      enemies := enemies + [enemy];
    }

    /** Removes the first occurrence of this very enemy object; nothing
        happens when it is not in the room. */
    method RemoveEnemy(enemy: Enemy)
      modifies this`enemies
      ensures enemies == RemoveFirst(old(enemies), enemy)
      ensures enemy !in old(enemies) ==> enemies == old(enemies)
      ensures enemy in old(enemies) ==>
        var k := IndexOf(old(enemies), enemy);
        enemies == old(enemies)[..k] + old(enemies)[k + 1..]
    {
      if enemy in enemies {
        RemoveFirstAt(enemies, enemy, IndexOf(enemies, enemy));
      }
      enemies := RemoveFirst(enemies, enemy);
    }

    /** Appends the item; the enemies are untouched. */
    method AddItem(item: Item)
      modifies this`items
      ensures items == old(items) + [item]
    {
      items := items + [item];
    }

    /** Takes the first item with the given id out of the room and returns it;
        returns None and leaves the items alone when no item has that id. */
    method TakeItem(itemId: int) returns (taken: Option<Item>)
      modifies this`items
      ensures taken.None? <==> forall j :: 0 <= j < |old(items)| ==> old(items)[j].id != itemId
      ensures taken.None? ==> items == old(items)
      ensures taken.Some? ==>
        (exists k ::
          && 0 <= k < |old(items)| && old(items)[k] == taken.value && taken.value.id == itemId
          && (forall j :: 0 <= j < k ==> old(items)[j].id != itemId)
          && items == old(items)[..k] + old(items)[k + 1..])
    {
      match FindById(items, itemId)
      case None =>
        taken := None;
      case Some(k) =>
        taken := Some(items[k]);
        RemoveFirstAt(items, items[k], k);
        items := RemoveFirst(items, items[k]);
    }

    predicate HasEnemies()
      reads this
    {
      |enemies| > 0
    }

    /** Sets the cleared flag; doing it twice is the same as doing it once. */
    method MarkAsCleared()
      modifies this`isCleared
      ensures isCleared
    {
      isCleared := true;
    }

    /** An enemy that GenerateContent places in an ordinary room: a Goblin or
        an Orc of the room's difficulty, at full health, inside the room. */
    predicate IsMinion(e: Enemy)
      reads this`id, this`difficulty, e
    {
      && e.enemyType in MinionTypes
      && e.level == difficulty
      && e.Stats() == TypeStats(e.enemyType, difficulty)
      && e.currentHealth == e.maxHealth
      && e.roomId == id
      && 0 <= e.x < width && 0 <= e.y < height
    }

    /** The enemy that GenerateContent leaves in a boss room: a "Boss" two
        levels above the room's difficulty, at full health, in the centre. */
    predicate IsRoomBoss(e: Enemy)
      reads this`id, this`difficulty, e
    {
      && e.enemyType == "Boss"
      && e.level == difficulty + 2
      && e.Stats() == TypeStats("Boss", difficulty + 2)
      && e.currentHealth == e.maxHealth
      && e.roomId == id
      && e.x == width / 2 && e.y == height / 2
    }

    /** An item that GenerateContent drops: a weapon, armor or potion of the
        room's difficulty as rarity. */
    predicate IsDrop(it: Item)
      reads this`difficulty
    {
      && it.itemType in DropTypes
      && it.rarity == difficulty
      && it.Bonus() == ItemStats(it.itemType, difficulty)
    }

    /** The enemy loop of GenerateContent: appends `count` Goblins or Orcs
        of the room's difficulty at random places in the room. */
    method SpawnMinions(count: int)
      modifies this`enemies
      ensures |enemies| == |old(enemies)| + Max(0, count)
      ensures enemies[..|old(enemies)|] == old(enemies)
      ensures forall k :: |old(enemies)| <= k < |enemies| ==> fresh(enemies[k]) && IsMinion(enemies[k])
    {
      var i := 0;
      while i < count
        invariant 0 <= i <= Max(0, count)
        invariant |enemies| == |old(enemies)| + i
        invariant enemies[..|old(enemies)|] == old(enemies)
        invariant forall k :: |old(enemies)| <= k < |enemies| ==> fresh(enemies[k]) && IsMinion(enemies[k])
      {
        var pick := Next(0, |MinionTypes|);
        var t := MinionTypes[pick];
        var eid := Next(1000, 9999);
        var enemy := new Enemy(eid, t + " " + NatToString(i + 1), t, difficulty);
        enemy.x := Next(0, width);
        enemy.y := Next(0, height);
        enemy.roomId := id;
        enemies := enemies + [enemy];
        i := i + 1;
      }
    }

    /** The boss branch of GenerateContent: the enemies are cleared and
        one boss, two levels above the room, is placed at the centre. */
    method PlaceBoss()
      modifies this`enemies
      ensures |enemies| == 1 && fresh(enemies[0]) && IsRoomBoss(enemies[0])
    {
      enemies := [];
      var bid := Next(1000, 9999);
      var boss := new Enemy(bid, "最终Boss", "Boss", difficulty + 2);
      boss.x := width / 2;
      boss.y := height / 2;
      boss.roomId := id;
      enemies := enemies + [boss];
    }

    /** The item branch of GenerateContent: on a coin flip, one weapon,
        armor or potion of the room's difficulty is appended. */
    method DropItem()
      modifies this`items
      ensures |old(items)| <= |items| <= |old(items)| + 1 && items[..|old(items)|] == old(items)
      ensures forall k :: |old(items)| <= k < |items| ==> IsDrop(items[k])
    {
      var coin := Next(0, 2);
      if coin == 0 {
        var pick := Next(0, |DropTypes|);
        var t := DropTypes[pick];
        var iid := Next(1000, 9999);
        var item := NewItem(iid, t + " (Lv." + IntToString(difficulty) + ")", t, difficulty);
        items := items + [item];
      }
    }

    /** Fills the room. An ordinary room gets between 1 and Difficulty + 1 new
        Goblins or Orcs appended; a boss room ends with exactly one boss and
        nothing else. At most one item is added. `Next(1, Difficulty + 2)`
        throws for a difficulty below -1, which the precondition excludes. */
    method GenerateContent()
      requires difficulty >= -1
      modifies this`enemies, this`items
      ensures isBossRoom ==> |enemies| == 1 && fresh(enemies[0]) && IsRoomBoss(enemies[0])
      ensures !isBossRoom ==>
        && |old(enemies)| + 1 <= |enemies| <= |old(enemies)| + Max(1, difficulty + 1)
        && enemies[..|old(enemies)|] == old(enemies)
        && forall k :: |old(enemies)| <= k < |enemies| ==> fresh(enemies[k]) && IsMinion(enemies[k])
      ensures |old(items)| <= |items| <= |old(items)| + 1 && items[..|old(items)|] == old(items)
      ensures forall k :: |old(items)| <= k < |items| ==> IsDrop(items[k])
      ensures HasEnemies()
    {
      var enemyCount := Next(1, difficulty + 2);
      SpawnMinions(enemyCount);
      if isBossRoom {
        PlaceBoss();
      }
      DropItem();
    }
  }
}
