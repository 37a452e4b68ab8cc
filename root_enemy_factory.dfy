/** The enemy factory of the root-level implementation (EnemyFactory.cs):
    creation by enum or by case-insensitive name, and random waves without
    a boss. */
module RootEnemyFactory {
  import opened Basics
  import RootEnemy
  import opened RootEnemyTypes

  datatype EnemyType = Rat | Warrior | Mage | Boss

  /** The switch of CreateEnemy(EnemyType). */
  function KindOfType(t: EnemyType): (k: EnemyKind)
    ensures k == DungeonLord <==> t == Boss
  {
    match t
    case Rat => DungeonRat
    case Warrior => FallenWarrior
    case Mage => CorruptedMage
    case Boss => DungeonLord
  }

  /** Different enum values make different subclasses. */
  lemma KindOfTypeInjective(t1: EnemyType, t2: EnemyType)
    ensures KindOfType(t1) == KindOfType(t2) ==> t1 == t2
  {
  }

  /** The switch of CreateEnemy(string), on the lower-cased name; None for a
      name it does not know. */
  function KindOfName(enemyName: string): (k: Option<EnemyKind>)
    ensures k.None? <==> ToLower(enemyName) !in {"rat", "warrior", "guerrier", "mage", "boss", "seigneur"}
  {
    match ToLower(enemyName)
    case "rat" => Some(DungeonRat)
    case "warrior" => Some(FallenWarrior)
    case "guerrier" => Some(FallenWarrior)
    case "mage" => Some(CorruptedMage)
    case "boss" => Some(DungeonLord)
    case "seigneur" => Some(DungeonLord)
    case _ => None
  }

  /** The English names agree with the enum. */
  lemma NamesAgree()
    ensures KindOfName("rat") == Some(KindOfType(Rat))
    ensures KindOfName("warrior") == Some(KindOfType(Warrior))
    ensures KindOfName("mage") == Some(KindOfType(Mage))
    ensures KindOfName("boss") == Some(KindOfType(Boss))
  {
    LowerIsFixed("rat");
    LowerIsFixed("warrior");
    LowerIsFixed("mage");
    LowerIsFixed("boss");
  }

  /** The French names are aliases of the English ones. */
  lemma FrenchAliases()
    ensures KindOfName("guerrier") == Some(KindOfType(Warrior))
    ensures KindOfName("seigneur") == Some(KindOfType(Boss))
  {
    LowerIsFixed("guerrier");
    LowerIsFixed("seigneur");
  }

  /** The case of the letters does not matter: "RAT", "Rat" and "rat" all
      name the rat. */
  lemma {:induction false} NameIgnoresCase(enemyName: string)
    ensures KindOfName(enemyName) == KindOfName(ToLower(enemyName))
  {
    ToLowerIdempotent(enemyName);
  }

  /** CreateEnemy(EnemyType). */
  method CreateEnemy(t: EnemyType) returns (e: RootEnemy.Enemy)
    ensures fresh(e) && HasProfile(e, ProfileOf(KindOfType(t)))
  {
    e := NewEnemy(KindOfType(t));
  }

  /** CreateEnemy(string): an unknown name is the ArgumentException, here an
      error carrying its message. */
  method CreateEnemyNamed(enemyName: string) returns (r: Result<RootEnemy.Enemy, string>)
    ensures r.Err? <==> KindOfName(enemyName).None?
    ensures r.Err? ==> r.error == "Type d'ennemi inconnu: " + enemyName
    ensures r.Ok? ==> fresh(r.value) && HasProfile(r.value, ProfileOf(KindOfName(enemyName).value))
  {
    match KindOfName(enemyName)
    case None =>
      r := Err("Type d'ennemi inconnu: " + enemyName);
    case Some(kind) =>
      var e := NewEnemy(kind);
      r := Ok(e);
  }

  /** The types a wave draws from. */
  const WaveTypes: seq<EnemyType> := [Rat, Warrior, Mage]

  /** An enemy as a wave makes it: a new rat, warrior or mage. */
  predicate IsWaveEnemy(e: RootEnemy.Enemy)
    reads e
  {
    exists t :: t in WaveTypes && HasProfile(e, ProfileOf(KindOfType(t)))
  }

  /** `count` new enemies (none for a count of 0 or less), each a rat, a
      warrior or a mage; never the boss, so none has more than 40 HP. */
  method GenerateEnemyWave(count: int) returns (enemies: seq<RootEnemy.Enemy>)
    ensures |enemies| == Max(0, count)
    ensures forall i :: 0 <= i < |enemies| ==>
      fresh(enemies[i]) && IsWaveEnemy(enemies[i]) && enemies[i].maxHP <= 40
    ensures forall i, j :: 0 <= i < j < |enemies| ==> enemies[i] != enemies[j]
  {
    enemies := [];
    var i := 0;
    while i < count
      invariant 0 <= i <= Max(0, count) && |enemies| == i
      invariant forall j :: 0 <= j < i ==>
        fresh(enemies[j]) && IsWaveEnemy(enemies[j]) && enemies[j].maxHP <= 40
      invariant forall j, k :: 0 <= j < k < i ==> enemies[j] != enemies[k]
    {
      var pick := Next(0, |WaveTypes|);
      var randomType := WaveTypes[pick];
      var enemy := CreateEnemy(randomType);
      assert IsWaveEnemy(enemy) by {
        assert randomType in WaveTypes;
      }
      enemies := enemies + [enemy];
      i := i + 1;
    }
  }
}
