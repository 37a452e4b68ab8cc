/** The turn-based combat loop (Systems/CombatSystem.cs): the player strikes
    first, the enemy answers only while it still stands, and the first side
    to fall loses. The fight is first defined as a function (Fight) whose
    properties are proved as lemmas; ExecuteCombat is then proved to run
    exactly that fight on the two combatants. */
module SystemsCombat {
  import opened Basics
  import opened DamageRule
  import ModelsPlayer
  import ModelsEnemy

  datatype Side = PlayerSide | EnemySide

  /** The loser that goes with a winner. */
  function Opponent(winner: Option<Side>): (loser: Option<Side>)
    ensures loser.Some? <==> winner.Some?
    ensures winner.Some? ==> loser.value != winner.value
  {
    match winner
    case None => None
    case Some(PlayerSide) => Some(EnemySide)
    case Some(EnemySide) => Some(PlayerSide)
  }

  /** One line of the battle log, kept as structure instead of text. */
  datatype LogEntry =
    | BattleStart                                  // battle start banner
    | Matchup(player: string, enemy: string)       // who fights whom
    | Health(who: string, current: int, max: int)  // opening health
    | Divider                                      // separator
    | RoundStart(round: int)                       // round number
    | Attacks(who: string)                         // the player attacks
    | CounterAttacks(who: string)                  // the enemy answers
    | Deals(who: string, damage: int)              // raw damage dealt
    | Remaining(who: string, current: int, max: int) // health left after a hit
    | Defeated(who: string)                        // who fell
    | BattleEnd                                    // battle end banner
    | WinnerIs(who: string)                        // winner's name, or the unknown marker
    | Totals(player: string, playerDamage: int, enemy: string, enemyDamage: int)

  /** The entries a round writes, between the opening and closing lines. */
  predicate RoundEntry(e: LogEntry)
  {
    e.RoundStart? || e.Attacks? || e.CounterAttacks? || e.Deals? || e.Remaining? || e.Defeated? || e.Divider?
  }

  datatype CombatResult = CombatResult(
    winner: Option<Side>,
    loser: Option<Side>,
    battleLog: seq<LogEntry>,
    playerDamageDealt: int,
    enemyDamageDealt: int)

  /** A new CombatResult: no winner, no loser, an empty log, no damage. */
  const EmptyResult: CombatResult := CombatResult(None, None, [], 0, 0)

  /** How a fight ends: both healths, the winner (None if no round was fought),
      the number of the last round, and the raw damage each side dealt. */
  datatype Outcome = Outcome(
    playerHealth: int,
    enemyHealth: int,
    winner: Option<Side>,
    rounds: nat,
    playerDealt: int,
    enemyDealt: int)

  /** The rest of a fight in which `rounds` rounds have been fought and the
      two sides have dealt pDealt and eDealt so far. The raw damage of each
      side in round r is playerRoll(r) and enemyRoll(r). */
  function Fight(ph: int, pdef: int, eh: int, edef: int, rounds: nat, pDealt: int, eDealt: int,
                 playerRoll: nat -> int, enemyRoll: nat -> int): Outcome
    decreases Max(eh, 0)
  {
    if ph <= 0 || eh <= 0 then Outcome(ph, eh, None, rounds, pDealt, eDealt)
    else
      var r := rounds + 1;
      var pd := playerRoll(r);
      var eh' := HealthAfterHit(eh, pd, edef);
      if eh' <= 0 then Outcome(ph, eh', Some(PlayerSide), r, pDealt + pd, eDealt)
      else
        var ed := enemyRoll(r);
        var ph' := HealthAfterHit(ph, ed, pdef);
        if ph' <= 0 then Outcome(ph', eh', Some(EnemySide), r, pDealt + pd, eDealt + ed)
        else Fight(ph', pdef, eh', edef, r, pDealt + pd, eDealt + ed, playerRoll, enemyRoll)
  }

  /** roll(lo) + ... + roll(hi - 1). */
  function RollSum(roll: nat -> int, lo: nat, hi: nat): int
    decreases hi - lo
  {
    if lo >= hi then 0 else roll(lo) + RollSum(roll, lo + 1, hi)
  }

  /** A fight is decided exactly when both sides start alive. Then exactly one
      side wins: the winner is alive and the loser is at 0 health. It takes at
      least one round and at most as many rounds as the enemy has health, since
      every hit removes at least 1 HP. */
  lemma {:induction false} FightDecided(ph: int, pdef: int, eh: int, edef: int, rounds: nat,
                                         pDealt: int, eDealt: int, playerRoll: nat -> int, enemyRoll: nat -> int)
    ensures var o := Fight(ph, pdef, eh, edef, rounds, pDealt, eDealt, playerRoll, enemyRoll);
      && (o.winner.Some? <==> ph > 0 && eh > 0)
      && (o.winner == Some(PlayerSide) ==> o.enemyHealth == 0 && o.playerHealth > 0)
      && (o.winner == Some(EnemySide) ==> o.playerHealth == 0 && o.enemyHealth > 0)
      && (o.winner.None? ==> o.playerHealth == ph && o.enemyHealth == eh && o.rounds == rounds)
      && (o.winner.Some? ==> rounds < o.rounds <= rounds + eh)
    decreases Max(eh, 0)
  {
    if ph > 0 && eh > 0 {
      var r := rounds + 1;
      var eh' := HealthAfterHit(eh, playerRoll(r), edef);
      var ph' := HealthAfterHit(ph, enemyRoll(r), pdef);
      if eh' > 0 && ph' > 0 {
        FightDecided(ph', pdef, eh', edef, r, pDealt + playerRoll(r), eDealt + enemyRoll(r), playerRoll, enemyRoll);
      }
    }
  }

  /** The damage totals are the sums of the raw rolls, before defense: the
      player's roll of every round fought, and the enemy's roll of every round
      in which it was still alive to answer (all but the last one when the
      player won). */
  lemma {:induction false} FightTotals(ph: int, pdef: int, eh: int, edef: int, rounds: nat,
                                        pDealt: int, eDealt: int, playerRoll: nat -> int, enemyRoll: nat -> int)
    ensures var o := Fight(ph, pdef, eh, edef, rounds, pDealt, eDealt, playerRoll, enemyRoll);
      && o.rounds >= rounds
      && o.playerDealt == pDealt + RollSum(playerRoll, rounds + 1, o.rounds + 1)
      && o.enemyDealt == eDealt + RollSum(enemyRoll, rounds + 1, if o.winner == Some(PlayerSide) then o.rounds else o.rounds + 1)
    decreases Max(eh, 0)
  {
    var o := Fight(ph, pdef, eh, edef, rounds, pDealt, eDealt, playerRoll, enemyRoll);
    if ph > 0 && eh > 0 {
      var r := rounds + 1;
      var eh' := HealthAfterHit(eh, playerRoll(r), edef);
      var ph' := HealthAfterHit(ph, enemyRoll(r), pdef);
      if eh' <= 0 {
        assert RollSum(playerRoll, r, r + 1) == playerRoll(r) + RollSum(playerRoll, r + 1, r + 1);
      } else if ph' <= 0 {
        assert RollSum(playerRoll, r, r + 1) == playerRoll(r) + RollSum(playerRoll, r + 1, r + 1);
        assert RollSum(enemyRoll, r, r + 1) == enemyRoll(r) + RollSum(enemyRoll, r + 1, r + 1);
      } else {
        FightTotals(ph', pdef, eh', edef, r, pDealt + playerRoll(r), eDealt + enemyRoll(r), playerRoll, enemyRoll);
        FightDecided(ph', pdef, eh', edef, r, pDealt + playerRoll(r), eDealt + enemyRoll(r), playerRoll, enemyRoll);
      }
    }
  }

  /** The player strikes first: a first blow that kills the enemy ends the
      fight before the enemy can answer, so the player loses no health. */
  lemma FirstBlowEndsFight(ph: int, pdef: int, eh: int, edef: int, rounds: nat,
                           pDealt: int, eDealt: int, playerRoll: nat -> int, enemyRoll: nat -> int)
    requires ph > 0 && eh > 0
    requires Reduced(playerRoll(rounds + 1), edef) >= eh
    ensures var o := Fight(ph, pdef, eh, edef, rounds, pDealt, eDealt, playerRoll, enemyRoll);
      o.winner == Some(PlayerSide) && o.playerHealth == ph && o.enemyDealt == eDealt && o.rounds == rounds + 1
  {
  }

  /** The lines the log opens with. */
  function Prologue(pname: string, ph: int, pmax: int, ename: string, eh: int, emax: int): seq<LogEntry>
  {
    [BattleStart, Matchup(pname, ename), Health(pname, ph, pmax), Health(ename, eh, emax), Divider]
  }

  /** The lines the log closes with. */
  function Epilogue(winnerName: string, pname: string, pDealt: int, ename: string, eDealt: int): seq<LogEntry>
  {
    [BattleEnd, WinnerIs(winnerName), Totals(pname, pDealt, ename, eDealt)]
  }

  class CombatSystem {
    var battleLog: seq<LogEntry>

    constructor ()
      ensures battleLog == []
    {
      battleLog := [];
    }

    /** One pass of the combat loop, round number `r`, with both sides alive:
        the player strikes; if the enemy survives it answers. The returned
        totals add this round's raw damage to pDealt and eDealt, `winner`
        names the side left standing if one fell, and the fight that was
        still to come before the round is this round followed by the rest. */
    method PlayRound(player: ModelsPlayer.Player, enemy: ModelsEnemy.Enemy, r: nat,
                     pDealt: int, eDealt: int, playerRoll: nat -> int, enemyRoll: nat -> int)
      returns (entries: seq<LogEntry>, pDealt': int, eDealt': int, winner: Option<Side>)
      requires r >= 1 && player.IsAlive() && enemy.IsAlive()
      modifies player`currentHealth, enemy`currentHealth
      ensures Fight(old(player.currentHealth), player.defense, old(enemy.currentHealth), enemy.defense,
                    r - 1, pDealt, eDealt, playerRoll, enemyRoll) ==
        if winner.Some?
        then Outcome(player.currentHealth, enemy.currentHealth, winner, r, pDealt', eDealt')
        else Fight(player.currentHealth, player.defense, enemy.currentHealth, enemy.defense,
                   r, pDealt', eDealt', playerRoll, enemyRoll)
      ensures winner.None? ==> player.IsAlive() && enemy.IsAlive()
      ensures enemy.currentHealth < old(enemy.currentHealth)
      ensures |entries| >= 5 && entries[0] == RoundStart(r) && entries[1] == Attacks(player.name)
      ensures forall k :: 0 <= k < |entries| ==> RoundEntry(entries[k])
    {
      entries := [RoundStart(r)];

      // the player strikes
      var playerDamage := playerRoll(r);
      entries := entries + [Attacks(player.name)];
      enemy.TakeDamage(playerDamage);
      entries := entries + [Deals(player.name, playerDamage), Remaining(enemy.name, enemy.currentHealth, enemy.maxHealth)];
      pDealt', eDealt' := pDealt + playerDamage, eDealt;

      if !enemy.IsAlive() {
        entries := entries + [Defeated(enemy.name)];
        winner := Some(PlayerSide);
        return;
      }

      entries := entries + [Divider];

      // the enemy answers
      var enemyDamage := enemyRoll(r);
      entries := entries + [CounterAttacks(enemy.name)];
      player.TakeDamage(enemyDamage);
      entries := entries + [Deals(enemy.name, enemyDamage), Remaining(player.name, player.currentHealth, player.maxHealth)];
      eDealt' := eDealt + enemyDamage;

      if !player.IsAlive() {
        entries := entries + [Defeated(player.name)];
        winner := Some(EnemySide);
        return;
      }

      entries := entries + [Divider];
      winner := None;
    }

    /** Runs the whole fight. The player's damage in round r is playerRoll(r)
        and the enemy's is enemyRoll(r). The final healths, the winner and
        loser and the damage totals are those of Fight from the starting
        healths; the log starts afresh and the result holds a copy of it. */
    method ExecuteCombat(player: ModelsPlayer.Player, enemy: ModelsEnemy.Enemy,
                         playerRoll: nat -> int, enemyRoll: nat -> int) returns (result: CombatResult)
      modifies this`battleLog, player`currentHealth, enemy`currentHealth
      ensures var o := Fight(old(player.currentHealth), player.defense, old(enemy.currentHealth), enemy.defense,
                             0, 0, 0, playerRoll, enemyRoll);
        && player.currentHealth == o.playerHealth
        && enemy.currentHealth == o.enemyHealth
        && result.winner == o.winner
        && result.loser == Opponent(o.winner)
        && result.playerDamageDealt == o.playerDealt
        && result.enemyDamageDealt == o.enemyDealt
      ensures result.battleLog == battleLog
      ensures |battleLog| >= 8
      ensures forall k :: 5 <= k < |battleLog| - 3 ==> RoundEntry(battleLog[k])
      ensures battleLog[..5] == Prologue(player.name, old(player.currentHealth), player.maxHealth,
                                         enemy.name, old(enemy.currentHealth), enemy.maxHealth)
      ensures battleLog[|battleLog| - 3..] ==
        Epilogue(match result.winner case None => "未知" case Some(PlayerSide) => player.name case Some(EnemySide) => enemy.name,
                 player.name, result.playerDamageDealt, enemy.name, result.enemyDamageDealt)
    {
      ghost var goal := Fight(player.currentHealth, player.defense, enemy.currentHealth, enemy.defense,
                              0, 0, 0, playerRoll, enemyRoll);
      var opening := Prologue(player.name, player.currentHealth, player.maxHealth,
                                    enemy.name, enemy.currentHealth, enemy.maxHealth);
      battleLog := [];
      result := EmptyResult;
      battleLog := battleLog + opening;

      var roundNumber: nat := 0;
      while player.IsAlive() && enemy.IsAlive()
        invariant Fight(player.currentHealth, player.defense, enemy.currentHealth, enemy.defense, roundNumber,
                        result.playerDamageDealt, result.enemyDamageDealt, playerRoll, enemyRoll) == goal
        invariant result.winner == None && result.loser == None
        invariant |battleLog| >= 5 && battleLog[..5] == opening
        invariant forall k :: 5 <= k < |battleLog| ==> RoundEntry(battleLog[k])
        decreases enemy.currentHealth
      {
        roundNumber := roundNumber + 1;
        var entries, pDealt, eDealt, winner :=
          PlayRound(player, enemy, roundNumber, result.playerDamageDealt, result.enemyDamageDealt, playerRoll, enemyRoll);
        battleLog := battleLog + entries;
        result := result.(playerDamageDealt := pDealt, enemyDamageDealt := eDealt);
        if winner.Some? {
          result := result.(winner := winner, loser := Opponent(winner));
          break;
        }
      }

      var winnerName := match result.winner case None => "未知" case Some(PlayerSide) => player.name case Some(EnemySide) => enemy.name;
      battleLog := battleLog + Epilogue(winnerName, player.name, result.playerDamageDealt, enemy.name, result.enemyDamageDealt);
      result := result.(battleLog := battleLog);
    }

    /** A copy of the current log. */
    method GetBattleLog() returns (log: seq<LogEntry>)
      ensures log == battleLog
    {
      log := battleLog;
    }

    method ClearBattleLog()
      modifies this`battleLog
      ensures battleLog == []
    {
      battleLog := [];
    }
  }
}
