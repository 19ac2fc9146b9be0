/** What stays true of a session from frame to frame of the `run` loop
    (tank_game.py:278-311). */
module Invariant {
  import opened Levels
  import opened Geometry
  import opened Tanks
  import opened Progression
  import opened Rules

  /** `random.randint(100, WIDTH - 100)` and `random.randint(100, HEIGHT // 2)`. */
  ghost predicate SpawnsInRange(spawn: nat -> (int, int))
  {
    forall i: nat :: 100 <= spawn(i).0 <= 1180 && 100 <= spawn(i).1 <= 360
  }

  /** Every bullet in the list is inside the field. */
  ghost predicate AllInside(bs: seq<Bullet>)
  {
    forall i :: 0 <= i < |bs| ==> Inside(bs[i])
  }

  /** The session invariant, as it holds between two frames. */
  ghost predicate Inv(s: SessionState)
  {
    s.level >= 1 &&
    PlayerZone(s.player.x, s.player.y) &&
    s.player.params.health <= s.player.params.maxHealth &&
    s.player.params.fireDelay >= 200.0 &&
    s.player.params.damage > 0 && s.player.params.upgrades >= 0 &&
    Harmful(s.player.bullets) && AllInside(s.player.bullets) &&
    BotsAlive(s.enemies) && BotsPlaced(s.enemies) && BotsArmed(s.enemies) &&
    (forall i :: 0 <= i < |s.enemies| ==> AllInside(s.enemies[i].bullets)) &&
    s.kills >= 0 && s.score >= 60 * s.kills
  }

  /** A new session satisfies the invariant. */
  lemma InitialInv(spawn: nat -> (int, int))
    requires SpawnsInRange(spawn)
    ensures Inv(Initial(spawn))
  {
    var s := Initial(spawn);
    forall i | 0 <= i < |s.enemies|
      ensures 0 < s.enemies[i].params.health <= s.enemies[i].params.maxHealth
      ensures BotZone(s.enemies[i].x, s.enemies[i].y)
    {
      assert 100 <= spawn(i).0 <= 1180 && 100 <= spawn(i).1 <= 360;
    }
  }

  /** Firing any number of times within a frame moves nothing and changes no
      weapon parameter; every bullet fired carries the tank's damage. */
  lemma {:induction false} PressedKeeps(t: TankState, presses: nat, now: int, trig: Trig)
    requires t.params.upgrades >= 0 && t.params.damage > 0 && Harmful(t.bullets)
    ensures var r := Pressed(t, presses, now, trig);
      r.x == t.x && r.y == t.y && r.params == t.params && Harmful(r.bullets)
  {
    if presses > 0 {
      var r0 := Pressed(t, presses - 1, now, trig);
      PressedKeeps(t, presses - 1, now, trig);
      ShotEffect(r0, now, trig);
    }
  }

  /** The bullet step keeps the damage of every bullet it keeps. */
  lemma AdvancedHarmful(bs: seq<Bullet>)
    requires Harmful(bs)
    ensures Harmful(Advanced(bs))
  {
    AdvancedKeepsOrder(bs);
  }

  /** Bullets that stay in a list carry the damage they had. */
  lemma SubHarmful(a: seq<Bullet>, b: seq<Bullet>)
    requires Harmful(b) && multiset(a) <= multiset(b)
    ensures Harmful(a)
  {
    forall i | 0 <= i < |a| ensures a[i].damage > 0 {
      assert a[i] in multiset(a);
      assert a[i] in b;
    }
  }

  /** A bot's turn keeps it armed: a shot it fires carries its damage. */
  lemma BotStepArmed(bot: TankState, player: TankState, level: int, roll: real, now: int, trig: Trig)
    requires bot.params.damage > 0 && bot.params.upgrades >= 0 && Harmful(bot.bullets)
    ensures Harmful(BotStep(bot, player, level, roll, now, trig).bullets)
  {
    if SqDist(player.x, player.y, bot.x, bot.y) <= ChaseRangeSq {
      var aimed := bot.(angle := trig.atan2Deg(-(player.y - bot.y), player.x - bot.x));
      ShotEffect(aimed, now, trig);
      var r := Shot(aimed, now, trig);
      forall k | 0 <= k < |r.bullets| ensures r.bullets[k].damage > 0 {
        if k < |bot.bullets| {
          assert r.bullets[k] == r.bullets[..|bot.bullets|][k];
        }
      }
    }
  }

  /** The bullets a bot keeps after the bot-bullet pass carry the damage they had. */
  lemma SparedHarmful(bs: seq<Bullet>, px: real, py: real)
    requires Harmful(bs)
    ensures Harmful(Spared(bs, px, py))
  {
    SparedKeepsOrder(bs, px, py);
  }

  /** The state after the movement phase of a frame, before any hit:
      positions and health bounds hold, bullets may be anywhere. */
  ghost predicate Moving(s: SessionState)
  {
    s.level >= 1 &&
    PlayerZone(s.player.x, s.player.y) &&
    s.player.params.health <= s.player.params.maxHealth &&
    s.player.params.fireDelay >= 200.0 &&
    s.player.params.damage > 0 && s.player.params.upgrades >= 0 &&
    Harmful(s.player.bullets) &&
    BotsAlive(s.enemies) && BotsPlaced(s.enemies) && BotsArmed(s.enemies) &&
    s.kills >= 0 && s.score >= 60 * s.kills
  }

  lemma MovingPhase(s: SessionState, f: Frame, trig: Trig)
    requires Inv(s)
    ensures var s1 := s.(player := Steered(Pressed(s.player, f.presses, f.now, trig), f.keys, trig));
      Moving(BotsUpdated(s1, f.rolls, f.now, trig))
  {
    var p := Pressed(s.player, f.presses, f.now, trig);
    PressedKeeps(s.player, f.presses, f.now, trig);
    SteeredStaysInside(p, f.keys, trig);
    var s1 := s.(player := Steered(p, f.keys, trig));
    BotsStayUp(s1, f.rolls, f.now, trig);
    var r := BotsUpdated(s1, f.rolls, f.now, trig);
    forall i | 0 <= i < |r.enemies| ensures Harmful(r.enemies[i].bullets) {
      BotStepArmed(s1.enemies[i], s1.player, s1.level, f.rolls(i), f.now, trig);
    }
  }

  /** The hit phase (`check_collisions`) keeps everything but the bullets'
      positions in check. */
  lemma HitPhase(s: SessionState)
    requires Moving(s)
    ensures Moving(Collided(s))
  {
    var shots := s.player.bullets;
    var s2 := PlayerPass(s, shots);
    PassKeepsAll(s, shots);
    PassAccounting(s, shots);
    SubHarmful(s2.player.bullets, shots);
    EnemyShotsMiss(s2);
    var r := EnemyShotsPass(s2);
    assert r.player.params.health <= s2.player.params.health;
    forall i | 0 <= i < |r.enemies|
      ensures r.enemies[i].params == s2.enemies[i].params
      ensures r.enemies[i].x == s2.enemies[i].x && r.enemies[i].y == s2.enemies[i].y
      ensures Harmful(r.enemies[i].bullets)
    {
      SparedHarmful(s2.enemies[i].bullets, s2.player.x, s2.player.y);
    }
  }

  /** The end of a frame: bullets step, and a cleared level is replaced by
      the next one. */
  lemma EndPhase(s: SessionState, spawn: nat -> (int, int))
    requires Moving(s) && SpawnsInRange(spawn)
    ensures Inv(LevelAdvanced(BulletsAdvanced(s), spawn))
  {
    var s4 := BulletsAdvanced(s);
    AdvancedHarmful(s.player.bullets);
    assert BotsAlive(s4.enemies) && BotsPlaced(s4.enemies) && BotsArmed(s4.enemies) by {
      forall i | 0 <= i < |s4.enemies|
        ensures s4.enemies[i].params == s.enemies[i].params
        ensures s4.enemies[i].x == s.enemies[i].x && s4.enemies[i].y == s.enemies[i].y
        ensures Harmful(s4.enemies[i].bullets)
      {
        AdvancedHarmful(s.enemies[i].bullets);
      }
    }
    assert forall i :: 0 <= i < |s4.enemies| ==> AllInside(s4.enemies[i].bullets);
    var r := LevelAdvanced(s4, spawn);
    LevelChange(s4, spawn);
    if s4.enemies == [] {
      forall i | 0 <= i < |r.enemies|
        ensures 0 < r.enemies[i].params.health <= r.enemies[i].params.maxHealth
        ensures BotZone(r.enemies[i].x, r.enemies[i].y)
        ensures AllInside(r.enemies[i].bullets)
        ensures r.enemies[i].params.damage > 0 && r.enemies[i].params.upgrades >= 0 && Harmful(r.enemies[i].bullets)
      {
        assert 100 <= spawn(i).0 <= 1180 && 100 <= spawn(i).1 <= 360;
      }
    }
  }

  /** Invariant preservation: a frame of the `run` loop keeps the player in
      [30, 1250] x [30, 690], every bot alive, armed and in the upper half,
      every bullet in the field with positive damage, the player's health within
      its maximum, the fire delay at or above 200 ms, and a score of at least
      60 per kill. */
  lemma TickKeepsInv(s: SessionState, f: Frame, trig: Trig)
    requires Inv(s) && SpawnsInRange(f.spawn)
    ensures Inv(Ticked(s, f, trig))
  {
    var s1 := s.(player := Steered(Pressed(s.player, f.presses, f.now, trig), f.keys, trig));
    var s2 := BotsUpdated(s1, f.rolls, f.now, trig);
    MovingPhase(s, f, trig);
    HitPhase(s2);
    EndPhase(Collided(s2), f.spawn);
  }

  /** The invariant holds at the end of `run()`, however many frames it plays,
      provided every level change spawns its bots where `randint` can. */
  lemma {:induction false} PlayedKeepsInv(s: SessionState, frames: seq<Frame>, trig: Trig)
    requires Inv(s)
    requires forall i :: 0 <= i < |frames| ==> SpawnsInRange(frames[i].spawn)
    ensures Inv(Played(s, frames, trig))
    decreases |frames|
  {
    if frames != [] && s.running && s.player.params.health > 0 {
      TickKeepsInv(s, frames[0], trig);
      PlayedKeepsInv(Ticked(s, frames[0], trig), frames[1..], trig);
    }
  }
}
