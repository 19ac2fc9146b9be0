/** The difficulty table: `LevelSystem.get_params` (tank_game.py:47-56), a pure
    function from a level number to the numbers that shape that level. */
module Levels {

  datatype LevelParams = LevelParams(
    enemies: int,        // bots spawned when the level starts
    enemyHealth: int,    // health and maximum health of each bot
    enemySpeed: real,    // multiplier of the base tank speed
    enemyFireRate: real, // divisor of a bot's 1500 ms fire delay
    playerHeal: int)     // health the player regains per kill

  function Min(a: int, b: int): int { if a <= b then a else b }

  function GetParams(level: int): (r: LevelParams)
    ensures r.enemies <= 15
    ensures level <= 12 ==> r.enemies == 3 + level
    ensures level >= 12 ==> r.enemies == 15
    ensures r.enemyHealth - 50 == 10 * level && r.playerHeal - 20 == 2 * level
    ensures level >= 1 ==> r.enemies >= 4 && r.enemyHealth >= 60 && r.enemyFireRate >= 0.6
  {
    LevelParams(
      Min(3 + level, 15),
      50 + level * 10,
      0.8 + level as real * 0.1,
      0.5 + level as real * 0.1,
      20 + level * 2)
  }

  /** Later levels never field fewer bots, and never weaker or slower ones. */
  lemma Harder(a: int, b: int)
    requires a <= b
    ensures GetParams(a).enemies <= GetParams(b).enemies
    ensures GetParams(a).enemyHealth <= GetParams(b).enemyHealth
    ensures GetParams(a).enemySpeed <= GetParams(b).enemySpeed
    ensures GetParams(a).enemyFireRate <= GetParams(b).enemyFireRate
    ensures GetParams(a).playerHeal <= GetParams(b).playerHeal
  {
  }
}
