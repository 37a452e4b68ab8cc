/** Dungeon generation (Systems/DungeonGenerator.cs): a line of rooms whose
    difficulty ramps up from the requested one, the last of them a boss room,
    each linked to its neighbours by id. */
module SystemsDungeon {
  import opened Basics
  import opened ModelsRoom

  /** The names GetBossName draws from. */
  const BossNames: seq<string> := ["龙王", "深渊领主", "魔法师之王", "远古巨兽", "影之君主", "腐蚀之主", "暗魔导师"]

  /** The difficulty of room i of n: the requested difficulty plus the
      fraction i/n of it, in C# integer division. */
  function RoomDifficulty(difficulty: int, numberOfRooms: int, i: int): int
    requires numberOfRooms != 0
  {
    difficulty + CsDiv(i * difficulty, numberOfRooms)
  }

  lemma MulNonNegative(x: int, y: int)
    requires x >= 0 && y >= 0
    ensures x * y >= 0
  {
  }

  lemma MulMonotone(x: int, y: int, k: int)
    requires x <= y && k >= 0
    ensures x * k <= y * k
  {
    MulNonNegative(y - x, k);
    assert (y - x) * k == y * k - x * k;
  }

  lemma DivMonotone(a: int, b: int, n: int)
    requires 0 <= a <= b && n > 0
    ensures a / n <= b / n
  {
    var qa, qb := a / n, b / n;
    assert a == qa * n + a % n && b == qb * n + b % n;
    if qa > qb {
      MulMonotone(qb + 1, qa, n);
      assert false;
    }
  }

  /** Below n * d, a quotient by n stays below d. */
  lemma DivBelow(a: int, n: int, d: int)
    requires 0 <= a < n * d && n > 0
    ensures a / n < d
  {
    var q := a / n;
    assert a == q * n + a % n;
    if q >= d {
      MulMonotone(d, q, n);
      assert false;
    }
  }

  /** The ramp's fraction in plain division: i * d / n never goes down as i
      grows, is never negative, and stays below d for i < n. */
  lemma RampFraction(d: int, n: int, i: int, j: int)
    requires d >= 0 && 0 <= i <= j < n
    ensures 0 <= (i * d) / n <= (j * d) / n
    ensures d > 0 ==> (j * d) / n < d
  {
    var a, b := i * d, j * d;
    MulNonNegative(i, d);
    MulMonotone(i, j, d);
    DivMonotone(a, b, n);
    if d > 0 {
      MulMonotone(j + 1, n, d);
      assert (j + 1) * d == b + d;
      DivBelow(b, n, d);
    }
  }

  /** For a non-negative difficulty the ramp never goes down: every room is
      at least as hard as the requested difficulty and as the room before it,
      and (for a positive difficulty) stays below twice the requested one. */
  lemma RampRises(difficulty: int, numberOfRooms: int, i: int, j: int)
    requires difficulty >= 0 && 0 <= i <= j < numberOfRooms
    ensures difficulty <= RoomDifficulty(difficulty, numberOfRooms, i) <= RoomDifficulty(difficulty, numberOfRooms, j)
    ensures difficulty > 0 ==> RoomDifficulty(difficulty, numberOfRooms, j) < 2 * difficulty
  {
    RampFraction(difficulty, numberOfRooms, i, j);
    MulNonNegative(i, difficulty);
    MulNonNegative(j, difficulty);
    CsDivAgrees(i * difficulty, numberOfRooms);
    CsDivAgrees(j * difficulty, numberOfRooms);
  }

  /** A requested difficulty GenerateContent accepts gives room difficulties
      it accepts too: none drops below -1. */
  lemma RampAccepted(difficulty: int, numberOfRooms: int, i: int)
    requires difficulty >= -1 && 0 <= i < numberOfRooms
    ensures RoomDifficulty(difficulty, numberOfRooms, i) >= -1
    ensures difficulty == -1 ==> RoomDifficulty(difficulty, numberOfRooms, i) == -1
  {
    if difficulty >= 0 {
      RampRises(difficulty, numberOfRooms, i, i);
    } else {
      assert i * difficulty == -i;
      assert i / numberOfRooms == 0;
    }
  }

  /** The contents GenerateContent leaves in a new room: one boss in a boss
      room, at least one and at most difficulty + 1 minions otherwise, and at
      most one dropped item. */
  predicate Populated(room: Room)
    reads room`isBossRoom, room`enemies, room`items, room`id, room`difficulty, room.enemies
  {
    && (room.isBossRoom ==> |room.enemies| == 1 && room.IsRoomBoss(room.enemies[0]))
    && (!room.isBossRoom ==>
          && 1 <= |room.enemies| <= Max(1, room.difficulty + 1)
          && forall k :: 0 <= k < |room.enemies| ==> room.IsMinion(room.enemies[k]))
    && |room.items| <= 1
    && forall k :: 0 <= k < |room.items| ==> room.IsDrop(room.items[k])
  }

  /** The middle of GenerateRoom: a new room of the given name, difficulty
      and kind, filled by GenerateContent. */
  method FilledRoom(roomId: int, roomName: string, difficulty: int, isBossRoom: bool) returns (room: Room)
    requires difficulty >= -1
    ensures fresh(room)
    ensures room.id == roomId && room.name == roomName && room.difficulty == difficulty
    ensures room.isBossRoom == isBossRoom && !room.isCleared
    ensures room.nextRoomId == None && room.previousRoomId == None
    ensures Populated(room)
  {
    room := new Room(roomId, roomName, difficulty);
    room.isBossRoom := isBossRoom;
    room.GenerateContent();
  }

  /** A new, filled room. The stored difficulty is capped at 5; the name is
      "地牢房间 n" (n counted from 1) or "Boss房间 - " and one of the boss
      names; the description quotes the uncapped difficulty. A difficulty
      below -1 makes the enemy-count draw throw, so it is excluded. */
  method GenerateRoom(roomId: int, difficulty: int, isBossRoom: bool := false) returns (room: Room)
    requires difficulty >= -1
    ensures fresh(room)
    ensures room.id == roomId && room.difficulty == Min(difficulty, 5) && room.isBossRoom == isBossRoom
    ensures isBossRoom ==> exists k :: 0 <= k < |BossNames| && room.name == "Boss房间 - " + BossNames[k]
    ensures !isBossRoom ==> room.name == "地牢房间 " + IntToString(roomId + 1)
    ensures room.description ==
      if isBossRoom then "一个宏大而危险的房间。可以感受到强大敌人的气息。"
      else "一个充满了危险的地牢房间。难度等级: " + IntToString(difficulty)
    ensures !room.isCleared && room.nextRoomId == None && room.previousRoomId == None
    ensures Populated(room)
  {
    var roomName: string;
    if isBossRoom {
      var k := Next(0, |BossNames|);
      roomName := "Boss房间 - " + BossNames[k];
    } else {
      roomName := "地牢房间 " + IntToString(roomId + 1);
    }

    room := FilledRoom(roomId, roomName, Min(difficulty, 5), isBossRoom);

    room.description :=
      if isBossRoom then "一个宏大而危险的房间。可以感受到强大敌人的气息。"
      else "一个充满了危险的地牢房间。难度等级: " + IntToString(difficulty);
  }

  /** No room appears twice. */
  predicate Distinct(rooms: seq<Room>)
  {
    forall i, j :: 0 <= i < j < |rooms| ==> rooms[i] != rooms[j]
  }

  /** Links every room to its neighbours by id: each room but the first gets
      the previous room's id, each room but the last the next room's id, and
      the two ends keep what they had. Stated for a list without repeats;
      with repeats a later write to the same room wins. */
  method ConnectRooms(rooms: seq<Room>)
    modifies rooms`nextRoomId, rooms`previousRoomId
    ensures Distinct(rooms) ==> forall i :: 0 < i < |rooms| ==> rooms[i].previousRoomId == Some(rooms[i - 1].id)
    ensures Distinct(rooms) ==> forall i :: 0 <= i < |rooms| - 1 ==> rooms[i].nextRoomId == Some(rooms[i + 1].id)
    ensures Distinct(rooms) && |rooms| > 0 ==>
      && rooms[0].previousRoomId == old(rooms[0].previousRoomId)
      && rooms[|rooms| - 1].nextRoomId == old(rooms[|rooms| - 1].nextRoomId)
  {
    var i := 0;
    while i < |rooms|
      invariant 0 <= i <= |rooms|
      invariant Distinct(rooms) ==> forall j :: 0 < j < i ==> rooms[j].previousRoomId == Some(rooms[j - 1].id)
      invariant Distinct(rooms) ==> forall j :: 0 <= j < i && j < |rooms| - 1 ==> rooms[j].nextRoomId == Some(rooms[j + 1].id)
      invariant Distinct(rooms) && |rooms| > 0 ==>
        && rooms[0].previousRoomId == old(rooms[0].previousRoomId)
        && rooms[|rooms| - 1].nextRoomId == old(rooms[|rooms| - 1].nextRoomId)
    {
      if i > 0 {
        rooms[i].previousRoomId := Some(rooms[i - 1].id);
      }
      if i < |rooms| - 1 {
        rooms[i].nextRoomId := Some(rooms[i + 1].id);
      }
      i := i + 1;
    }
  }

  /** Room i of a dungeon of the given difficulty and size, as generated:
      id i, the boss room exactly when it is the last one, the ramped
      difficulty capped at 5, not cleared, and filled. */
  predicate IsDungeonRoom(room: Room, i: int, difficulty: int, numberOfRooms: int)
    requires numberOfRooms != 0
    reads room`id, room`isBossRoom, room`difficulty, room`isCleared, room`enemies, room`items, room.enemies
  {
    && room.id == i
    && room.isBossRoom == (i == numberOfRooms - 1)
    && room.difficulty == Min(RoomDifficulty(difficulty, numberOfRooms, i), 5)
    && !room.isCleared
    && Populated(room)
  }

  /** The room loop of GenerateDungeon: new, unlinked rooms 0 .. n - 1. */
  method GenerateRooms(difficulty: int, numberOfRooms: int) returns (rooms: seq<Room>)
    requires numberOfRooms <= 0 || difficulty >= -1
    ensures |rooms| == Max(0, numberOfRooms) && Distinct(rooms)
    ensures forall i :: 0 <= i < |rooms| ==>
      && fresh(rooms[i])
      && IsDungeonRoom(rooms[i], i, difficulty, numberOfRooms)
      && rooms[i].previousRoomId == None && rooms[i].nextRoomId == None
    ensures forall i :: 0 <= i < |rooms| ==> rooms[i].id == i
  {
    rooms := [];
    var i := 0;
    while i < numberOfRooms
      invariant 0 <= i <= Max(0, numberOfRooms)
      invariant |rooms| == i && Distinct(rooms)
      invariant forall j :: 0 <= j < i ==>
        && fresh(rooms[j])
        && IsDungeonRoom(rooms[j], j, difficulty, numberOfRooms)
        && rooms[j].previousRoomId == None && rooms[j].nextRoomId == None
    {
      var isBossRoom := i == numberOfRooms - 1;
      var roomDifficulty := difficulty + CsDiv(i * difficulty, numberOfRooms);
      RampAccepted(difficulty, numberOfRooms, i);
      var room := GenerateRoom(i, roomDifficulty, isBossRoom);
      rooms := rooms + [room];
      i := i + 1;
    }
  }

  /** Generates the rooms one after another (the last one the boss room),
      each with the ramped difficulty, then links each to its neighbours. */
  method GenerateDungeon(difficulty: int, numberOfRooms: int) returns (rooms: seq<Room>)
    requires numberOfRooms <= 0 || difficulty >= -1
    ensures |rooms| == Max(0, numberOfRooms) && Distinct(rooms)
    ensures forall i :: 0 <= i < |rooms| ==> fresh(rooms[i]) && IsDungeonRoom(rooms[i], i, difficulty, numberOfRooms)
    ensures forall i :: 0 <= i < |rooms| ==> rooms[i].id == i
    ensures forall i :: 0 <= i < |rooms| ==> rooms[i].previousRoomId == (if i > 0 then Some(rooms[i - 1].id) else None)
    ensures forall i :: 0 <= i < |rooms| ==> rooms[i].nextRoomId == (if i < |rooms| - 1 then Some(rooms[i + 1].id) else None)
  {
    rooms := GenerateRooms(difficulty, numberOfRooms);
    ConnectRooms(rooms);
  }
}
