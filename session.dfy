/** `GameSession` (tank_game.py:139-311): the level, the player, the list of
    bots, the score and the kill count, updated in place frame by frame. Each
    method is proved to do to the session what the matching function of
    `Rules` says. */
module Session {
  import opened Lists
  import opened Levels
  import opened Geometry
  import opened Tanks
  import opened Progression
  import opened Rules

  /** The states of a list of tanks, in order. */
  function States(ts: seq<Tank>): (r: seq<TankState>)
    reads ts
    ensures |r| == |ts|
    ensures forall i :: 0 <= i < |ts| ==> r[i] == ts[i].State()
  {
    seq(|ts|, i reads ts requires 0 <= i < |ts| => ts[i].State())
  }

  class GameSession {
    var currentLevel: int
    var player: Tank
    var enemies: seq<Tank>
    var running: bool
    var score: int
    var kills: int

    /** Levels count from 1, and the player and the bots are distinct objects. */
    ghost predicate Valid()
      reads this
    {
      currentLevel >= 1 && player !in enemies && Distinct(enemies)
    }

    /** The session as a value. */
    function View(): SessionState
      reads this, player, enemies
    {
      SessionState(currentLevel, player.State(), States(enemies), running, score, kills)
    }

    /** `GameSession()`; `spawn(i)` places bot `i`. */
    constructor (spawn: nat -> (int, int))
      ensures Valid() && View() == Initial(spawn)
      ensures fresh(player) && forall i :: 0 <= i < |enemies| ==> fresh(enemies[i])
    {
      currentLevel := 1;
      player := new Tank(PlayerStartX, PlayerStartY, false, 1);
      enemies := [];
      running := true;
      score := 0;
      kills := 0;
      new;
      InitEnemies(spawn);
    }

    /** `_init_enemies()`: appends the level's number of fresh bots. */
    method InitEnemies(spawn: nat -> (int, int))
      requires Valid()
      modifies this
      ensures Valid() && player == old(player) && currentLevel == old(currentLevel)
      ensures |enemies| >= |old(enemies)| && enemies[..|old(enemies)|] == old(enemies)
      ensures forall i :: |old(enemies)| <= i < |enemies| ==> fresh(enemies[i])
      ensures View() == old(View()).(enemies := old(View()).enemies +
                                      NewBots(currentLevel, spawn, GetParams(currentLevel).enemies))
    {
      var n := GetParams(currentLevel).enemies;
      ghost var bots := NewBots(currentLevel, spawn, n);
      for i := 0 to n
        invariant Valid() && player == old(player) && currentLevel == old(currentLevel)
        invariant |enemies| == |old(enemies)| + i && enemies[..|old(enemies)|] == old(enemies)
        invariant forall j :: |old(enemies)| <= j < |enemies| ==> fresh(enemies[j])
        invariant View() == old(View()).(enemies := old(View()).enemies + bots[..i])
      {
        AddBot(spawn(i).0 as real, spawn(i).1 as real);
        assert bots[..i + 1] == bots[..i] + [bots[i]];
      }
      assert bots[..n] == bots || n <= 0;
    }

    /** `self.enemies.append(Tank(x, y, True, self.current_level))` */
    method AddBot(x: real, y: real)
      requires Valid()
      modifies this
      ensures Valid() && player == old(player) && currentLevel == old(currentLevel)
      ensures |enemies| == |old(enemies)| + 1 && enemies[..|old(enemies)|] == old(enemies)
      ensures fresh(enemies[|old(enemies)|])
      ensures View() == old(View()).(enemies := old(View()).enemies + [Spawned(x, y, true, currentLevel)])
    {
      var t := new Tank(x, y, true, currentLevel);
      ghost var before := enemies;
      enemies := enemies + [t];
      assert Distinct(enemies) by {
        forall j | 0 <= j < |before| ensures enemies[j] != t {
          assert enemies[j] == before[j];
        }
      }
      assert States(enemies) == States(before) + [t.State()];
    }

    /** `move_vec` from the keys held (tank_game.py:166-172). */
    static method ReadKeys(keys: Keys) returns (mx: int, my: int)
      ensures (mx, my) == MoveVector(keys)
    {
      mx, my := 0, 0;
      if keys.left { mx := mx - 1; }
      if keys.right { mx := mx + 1; }
      if keys.up { my := my - 1; }
      if keys.down { my := my + 1; }
    }

    /** The movement part of `handle_input` (tank_game.py:174-181). */
    method MovePlayer(keys: Keys, trig: Trig)
      modifies player
      ensures player.State() == Steered(old(player.State()), keys, trig)
    {
      var mx, my := ReadKeys(keys);
      if (mx, my) != (0, 0) {
        var dir := trig.atan2Deg(my as real, mx as real);
        player.angle := dir - 90.0;
        var speed := player.params.speed;
        player.x := player.x + trig.cosDeg(dir) * speed;
        player.y := player.y + trig.sinDeg(dir) * speed;
        player.x := Clamp(player.x, Margin, Width - Margin);
        player.y := Clamp(player.y, Margin, Height - Margin);
      }
    }

    /** `handle_input()`: one `shoot()` per SPACE key-down, then movement. */
    method HandleInput(presses: nat, keys: Keys, now: int, trig: Trig)
      requires Valid()
      modifies player
      ensures View() == old(View()).(player := Steered(Pressed(old(player.State()), presses, now, trig), keys, trig))
    {
      for i := 0 to presses
        invariant View() == old(View()).(player := Pressed(old(player.State()), i, now, trig))
      {
        player.Shoot(now, trig);
      }
      MovePlayer(keys, trig);
    }

    /** `upgrade_weapon()`, one test at a time on the player's parameters. */
    method UpgradeWeapon()
      requires Valid()
      modifies player
      ensures View() == old(View()).(player := old(player.State()).(params := Upgraded(old(player.params))))
    {
      var p := player.params;
      p := p.(upgrades := p.upgrades + 1);
      if p.upgrades % 2 == 0 {
        p := p.(damage := p.damage + 3);
      }
      if p.upgrades % 3 == 0 {
        p := p.(bulletSpeed := p.bulletSpeed * 1.1);
      }
      if p.upgrades % 5 == 0 {
        p := p.(fireDelay := RMax(p.fireDelay * 0.9, 200.0));
      }
      if p.upgrades % 4 == 0 {
        p := p.(maxHealth := p.maxHealth + 10);
        p := p.(health := Min(p.health + 10, p.maxHealth));
      }
      assert p == Upgraded(old(player.params));
      player.params := p;
    }

    /** One bot's turn of `update_bots()`. */
    method StepBot(bot: Tank, roll: real, now: int, trig: Trig)
      requires bot != player
      modifies bot
      ensures bot.State() == BotStep(old(bot.State()), player.State(), currentLevel, roll, now, trig)
    {
      ghost var b0, p0 := bot.State(), player.State();
      var dx := player.x - bot.x;
      var dy := player.y - bot.y;
      if SqDist(player.x, player.y, bot.x, bot.y) > ChaseRangeSq {
        var a := trig.atan2Deg(dy, dx) + 90.0;
        bot.angle := a;
        bot.x := bot.x + trig.cosDeg(a) * bot.params.speed;
        bot.y := bot.y - trig.sinDeg(a) * bot.params.speed;
        assert bot.State() == Chasing(b0, p0, trig);
      } else {
        bot.angle := trig.atan2Deg(-dy, dx);
        if roll < 0.02 * currentLevel as real {
          bot.Shoot(now, trig);
        }
        assert bot.State() == Aiming(b0, p0, currentLevel, roll, now, trig);
      }
      bot.x := Clamp(bot.x, Margin, Width - Margin);
      bot.y := Clamp(bot.y, Margin, Height / 2.0);
    }

    /** `update_bots()`; `rolls(i)` is bot `i`'s `random.random()` draw. */
    method UpdateBots(rolls: nat -> real, now: int, trig: Trig)
      requires Valid()
      modifies enemies
      ensures View() == BotsUpdated(old(View()), rolls, now, trig)
    {
      ghost var s0 := View();
      for i := 0 to |enemies|
        invariant View().(enemies := s0.enemies) == s0
        invariant |View().enemies| == |s0.enemies|
        invariant forall j :: 0 <= j < i ==>
          View().enemies[j] == BotStep(s0.enemies[j], s0.player, s0.level, rolls(j), now, trig)
        invariant forall j :: i <= j < |enemies| ==> View().enemies[j] == s0.enemies[j]
      {
        StepBot(enemies[i], rolls(i), now, trig);
        assert forall j :: 0 <= j < |enemies| && j != i ==> enemies[j] != enemies[i];
      }
      assert View().enemies == BotsUpdated(s0, rolls, now, trig).enemies;
    }
  
    /** Bullet `b` has hit bot `enemy`, at index `k` (tank_game.py:210-231). */
    method HitEnemy(enemy: Tank, b: Bullet, ghost k: nat)
      requires Valid() && k < |enemies| && enemies[k] == enemy
      modifies this, player, enemy
      ensures Valid() && player == old(player)
      ensures enemies == if old(enemies[k].params.health) - b.damage <= 0
                         then old(enemies[..k] + enemies[k + 1..]) else old(enemies)
      ensures View() == Rules.HitEnemy(old(View()), k, b)
    {
      Damage(enemy, b, k);
      if enemy.params.health <= 0 {
        KillEnemy(enemy, k);
      }
      DropBullet(b);
    }

    /** `self.player.bullets.remove(bullet)` */
    method DropBullet(b: Bullet)
      requires Valid()
      modifies player`bullets
      ensures View() == old(View()).(player := old(View()).player.(bullets := RemoveFirst(old(player.bullets), b)))
    {
      player.bullets := RemoveFirst(player.bullets, b);
    }

    /** The hit itself: the bot at `k` loses the bullet's damage and the score
        gains 10. */
    method Damage(enemy: Tank, b: Bullet, ghost k: nat)
      requires Valid() && k < |enemies| && enemies[k] == enemy
      modifies this, enemy
      ensures Valid() && player == old(player) && enemies == old(enemies)
      ensures enemy.params.health == old(enemy.params.health) - b.damage
      ensures View() == Damaged(old(View()), k, b)
    {
      ghost var s0 := View();
      enemy.params := enemy.params.(health := enemy.params.health - b.damage);
      score := score + 10;
      assert States(enemies) == s0.enemies[k := enemy.State()] by {
        forall j | 0 <= j < |enemies| && j != k ensures enemies[j] != enemy { }
      }
    }

    /** A bot brought to 0 health or below (tank_game.py:214-226): removed by
        identity, which in a list of distinct bots removes it at its index;
        50 more points, a kill, the level's heal and a weapon upgrade. */
    method KillEnemy(enemy: Tank, ghost k: nat)
      requires Valid() && k < |enemies| && enemies[k] == enemy
      modifies this, player
      ensures Valid() && player == old(player)
      ensures enemies == old(enemies[..k] + enemies[k + 1..])
      ensures View() == Killed(old(View()), k)
    {
      RemoveEnemy(enemy, k);
      score := score + 50;
      kills := kills + 1;
      var heal := GetParams(currentLevel).playerHeal;
      player.params := player.params.(health := Min(player.params.health + heal, player.params.maxHealth));
      UpgradeWeapon();
    }

    /** `self.enemies.remove(enemy)` */
    method RemoveEnemy(enemy: Tank, ghost k: nat)
      requires Valid() && k < |enemies| && enemies[k] == enemy
      modifies this
      ensures Valid() && player == old(player)
      ensures enemies == old(enemies[..k] + enemies[k + 1..])
      ensures View() == old(View()).(enemies := old(View()).enemies[..k] + old(View()).enemies[k + 1..])
    {
      ghost var s0 := View();
      RemoveFirstDistinct(enemies, k);
      DistinctWithout(enemies, k);
      enemies := RemoveFirst(enemies, enemy);
      assert States(enemies) == s0.enemies[..k] + s0.enemies[k + 1..];
    }

    /** One turn of the inner loop: bot `j` of the copy, which sits at `k` in
        the live list, is checked against bullet `b`. */
    method ScanOne(b: Bullet, copy: seq<Tank>, j: nat, ghost k: nat) returns (ghost k': nat)
      requires Valid() && j < |copy| && k <= |enemies| && enemies[k..] == copy[j..]
      modifies this, player, copy[j]
      ensures Valid() && player == old(player)
      ensures k' <= |enemies| && enemies[k'..] == copy[j + 1..]
      ensures forall t :: t in enemies ==> t in old(enemies)
      ensures Rules.ScanEnemies(View(), b, k') == Rules.ScanEnemies(old(View()), b, k)
    {
      var enemy := copy[j];
      assert enemies[k..][0] == copy[j..][0];
      assert enemies[k + 1..] == copy[j + 1..] by {
        assert enemies[k + 1..] == enemies[k..][1..] && copy[j + 1..] == copy[j..][1..];
      }
      ghost var pre := View();
      Rules.ScanStep(pre, b, k);
      if Near(b.x, b.y, enemy.x, enemy.y) {
        ghost var dead := enemy.params.health - b.damage <= 0;
        HitEnemy(enemy, b, k);
        k' := if dead then k else k + 1;
      } else {
        k' := k + 1;
      }
    }

    /** The inner loop of the player-bullet pass for bullet `b`: every bot of
        a copy of the list is checked in turn. `k` is where the bot being
        checked sits in the live list; it stays when that bot is removed. */
    method ScanEnemies(b: Bullet)
      requires Valid()
      modifies this, player, set t | t in enemies
      ensures Valid() && player == old(player)
      ensures forall t :: t in enemies ==> t in old(enemies)
      ensures View() == Rules.ScanEnemies(old(View()), b, 0)
    {
      var copy := enemies;
      ghost var k: nat := 0;
      ghost var target := Rules.ScanEnemies(View(), b, 0);
      for j := 0 to |copy|
        invariant Valid() && player == old(player)
        invariant k <= |enemies| && enemies[k..] == copy[j..]
        invariant forall t :: t in enemies ==> t in copy
        invariant Rules.ScanEnemies(View(), b, k) == target
      {
        k := ScanOne(b, copy, j, k);
      }
    }

    /** The player-bullet pass over a copy of the player's bullets. */
    method CheckPlayerShots()
      requires Valid()
      modifies this, player, set t | t in enemies
      ensures Valid() && player == old(player)
      ensures forall t :: t in enemies ==> t in old(enemies)
      ensures View() == PlayerPass(old(View()), old(player.bullets))
    {
      var shots := player.bullets;
      ghost var target := PlayerPass(View(), shots);
      for i := 0 to |shots|
        invariant Valid() && player == old(player)
        invariant forall t :: t in enemies ==> t in old(enemies)
        invariant PlayerPass(View(), shots[i..]) == target
      {
        assert shots[i..][0] == shots[i] && shots[i..][1..] == shots[i + 1..];
        ScanEnemies(shots[i]);
      }
    }

    /** One bullet of bot `e`'s copy: when it hits it costs the player
        `5 + level` and is removed by value, which removes that very bullet. */
    method ResolveOne(e: Tank, copy: seq<Bullet>, j: nat, ghost px: real, ghost py: real)
      requires e != player && j < |copy| && player.x == px && player.y == py
      requires e.bullets == Spared(copy[..j], px, py) + copy[j..]
      modifies player`params, e`bullets
      ensures e.bullets == Spared(copy[..j + 1], px, py) + copy[j + 1..]
      ensures player.params == old(player.params).(health := player.params.health)
      ensures player.params.health ==
                old(player.params.health) - if Strikes(copy[j], px, py) then 5 + currentLevel else 0
    {
      var bullet := copy[j];
      SparedStep(copy, j, px, py);
      if Near(bullet.x, bullet.y, player.x, player.y) {
        player.params := player.params.(health := player.params.health - (5 + currentLevel));
        e.bullets := RemoveFirst(e.bullets, bullet);
      }
    }

    /** The bullets of bot `e` that hit the player (tank_game.py:234-238),
        checked over a copy of its list. */
    method ResolveShotsOf(e: Tank, ghost px: real, ghost py: real)
      requires e != player && player.x == px && player.y == py
      modifies player`params, e`bullets
      ensures e.bullets == Spared(old(e.bullets), px, py)
      ensures player.params == old(player.params).(health := player.params.health)
      ensures player.params.health == old(player.params.health) - Penalty(currentLevel, Struck(old(e.bullets), px, py))
    {
      ghost var h0 := player.params;
      var copy := e.bullets;
      for j := 0 to |copy|
        invariant e.bullets == Spared(copy[..j], px, py) + copy[j..]
        invariant player.params == h0.(health := player.params.health)
        invariant player.params.health == h0.health - Penalty(currentLevel, Struck(copy[..j], px, py))
      {
        SparedSnoc(copy, j, px, py);
        ResolveOne(e, copy, j, px, py);
      }
      assert copy[..|copy|] == copy;
    }

    /** The bot-bullet pass has handled the bots before `i`, taking `hits`
        hits off the player's health; the others are as in `s0`. */
    ghost predicate ResolvedTo(s0: SessionState, i: nat, hits: nat)
      reads this, player, enemies
    {
      i <= |enemies| == |s0.enemies| &&
      (forall j :: 0 <= j < i ==>
         enemies[j].State() == s0.enemies[j].(bullets := Spared(s0.enemies[j].bullets, s0.player.x, s0.player.y))) &&
      (forall j :: i <= j < |enemies| ==> enemies[j].State() == s0.enemies[j]) &&
      player.State() == s0.player.(params := s0.player.params.(health := player.params.health)) &&
      hits == TotalStruck(s0.enemies[..i], s0.player.x, s0.player.y) &&
      player.params.health == s0.player.params.health - Penalty(s0.level, hits)
    }

    /** The bullets of the bot at index `i`; no other bot changes. */
    method ResolveAt(ghost s0: SessionState, i: nat, e: Tank, ghost hits: nat) returns (ghost hits': nat)
      requires Valid() && s0.level == currentLevel && i < |enemies| && enemies[i] == e && ResolvedTo(s0, i, hits)
      modifies player`params, e`bullets
      ensures i + 1 <= |enemies| == |s0.enemies|
      ensures forall j :: 0 <= j < i + 1 ==>
         enemies[j].State() == s0.enemies[j].(bullets := Spared(s0.enemies[j].bullets, s0.player.x, s0.player.y))
      ensures forall j :: i + 1 <= j < |enemies| ==> enemies[j].State() == s0.enemies[j]
      ensures player.State() == s0.player.(params := s0.player.params.(health := player.params.health))
      ensures hits' == TotalStruck(s0.enemies[..i + 1], s0.player.x, s0.player.y)
      ensures player.params.health == s0.player.params.health - Penalty(s0.level, hits')
    {
      ghost var p0 := s0.player;
      ghost var more := Struck(s0.enemies[i].bullets, p0.x, p0.y);
      TotalStruckSnoc(s0.enemies, i, p0.x, p0.y);
      PenaltyAdd(s0.level, hits, more);
      ghost var e0 := e.State();
      assert e0 == s0.enemies[i];
      assert forall j :: 0 <= j < |enemies| && j != i ==> enemies[j] != e;
      ResolveShotsOf(e, p0.x, p0.y);
      assert e.State() == e0.(bullets := Spared(e0.bullets, p0.x, p0.y));
      hits' := hits + more;
    }

    /** The loop of the bot-bullet pass (tank_game.py:233-238), bot by bot. */
    method ResolveAll(ghost s0: SessionState)
      requires Valid() && s0.level == currentLevel && s0.player == player.State()
      requires |s0.enemies| == |enemies| && forall j :: 0 <= j < |enemies| ==> enemies[j].State() == s0.enemies[j]
      modifies player, set t | t in enemies
      ensures ResolvedTo(s0, |enemies|, TotalStruck(s0.enemies, s0.player.x, s0.player.y))
    {
      ghost var hits: nat := 0;
      for i := 0 to |enemies|
        invariant ResolvedTo(s0, i, hits)
      {
        hits := ResolveAt(s0, i, enemies[i], hits);
      }
      assert s0.enemies[..|enemies|] == s0.enemies;
    }

    /** The bot-bullet pass over every bot still in the list. */
    method CheckEnemyShots()
      requires Valid()
      modifies player, set t | t in enemies
      ensures View() == EnemyShotsPass(old(View()))
    {
      ghost var s0 := View();
      ResolveAll(s0);
      assert States(enemies) == EnemyShotsPass(s0).enemies;
    }

    /** `check_collisions()` */
    method CheckCollisions()
      requires Valid()
      modifies this, player, set t | t in enemies
      ensures Valid() && player == old(player)
      ensures forall t :: t in enemies ==> t in old(enemies)
      ensures View() == Collided(old(View()))
    {
      CheckPlayerShots();
      CheckEnemyShots();
    }
  
    /** The bullet step of the frame for the player and every bot
        (tank_game.py:283-288). */
    method StepBullets()
      requires Valid()
      modifies player, set t | t in enemies
      ensures View() == BulletsAdvanced(old(View()))
    {
      ghost var s0 := View();
      player.AdvanceBullets();
      for i := 0 to |enemies|
        invariant player.State() == s0.player.(bullets := Advanced(s0.player.bullets))
        invariant forall j :: 0 <= j < i ==>
          enemies[j].State() == s0.enemies[j].(bullets := Advanced(s0.enemies[j].bullets))
        invariant forall j :: i <= j < |enemies| ==> enemies[j].State() == s0.enemies[j]
      {
        assert forall j :: 0 <= j < |enemies| && j != i ==> enemies[j] != enemies[i];
        enemies[i].AdvanceBullets();
      }
      assert States(enemies) == BulletsAdvanced(s0).enemies;
    }

    /** The level change at the end of a frame (tank_game.py:305-311). */
    method AdvanceLevel(spawn: nat -> (int, int))
      requires Valid()
      modifies this, player
      ensures Valid() && player == old(player)
      ensures forall t :: t in enemies ==> t in old(enemies) || fresh(t)
      ensures View() == LevelAdvanced(old(View()), spawn)
    {
      if |enemies| == 0 {
        currentLevel := currentLevel + 1;
        InitEnemies(spawn);
        player.params := player.params.(health := Min(player.params.health + 20, player.params.maxHealth));
      }
    }

    /** One turn of the `run` loop, drawing left out (tank_game.py:278-311). */
    method Tick(f: Frame, trig: Trig)
      requires Valid()
      modifies this, player, set t | t in enemies
      ensures Valid() && player == old(player)
      ensures forall t :: t in enemies ==> t in old(enemies) || fresh(t)
      ensures View() == Ticked(old(View()), f, trig)
    {
      HandleInput(f.presses, f.keys, f.now, trig);
      UpdateBots(f.rolls, f.now, trig);
      CheckCollisions();
      StepBullets();
      AdvanceLevel(f.spawn);
    }

    /** One frame of `run()`, stated as progress through the frames: `rest`
        holds the frames still to come, the first of them played now. */
    method PlayFrame(rest: seq<Frame>, trig: Trig)
      requires Valid() && rest != [] && running && player.params.health > 0
      modifies this, player, set t | t in enemies
      ensures Valid() && player == old(player)
      ensures forall t :: t in enemies ==> t in old(enemies) || fresh(t)
      ensures Played(View(), rest[1..], trig) == Played(old(View()), rest, trig)
    {
      PlayedStep(View(), rest, trig);
      Tick(rest[0], trig);
    }

    /** `run()` over the frames `frames`: it plays frames until the session is
        quit, the player's health is gone, or the frames run out. */
    method Run(frames: seq<Frame>, trig: Trig)
      requires Valid()
      modifies this, player, set t | t in enemies
      ensures Valid()
      ensures View() == Played(old(View()), frames, trig)
    {
      var rest := frames;
      ghost var target := Played(View(), frames, trig);
      while rest != [] && running && player.params.health > 0
        invariant Valid() && player == old(player)
        invariant forall t :: t in enemies ==> t in old(enemies) || fresh(t)
        invariant Played(View(), rest, trig) == target
        decreases |rest|
      {
        PlayFrame(rest, trig);
        rest := rest[1..];
      }
    }
  }
}
