/** The rules of a game session (`GameSession`, tank_game.py:139-311) as
    functions on a value: the state of the session, and what each step of a
    frame does to it. The `GameSession` class is proved to follow them. */
module Rules {
  import opened Lists
  import opened Levels
  import opened Geometry
  import opened Tanks
  import opened Progression

  /** Everything a session holds that the rules read or write. */
  datatype SessionState = SessionState(
    level: int,
    player: TankState,
    enemies: seq<TankState>,
    running: bool,
    score: int,
    kills: int)

  /** `Tank(WIDTH // 2, HEIGHT - 100)` */
  const PlayerStartX: real := 640.0
  const PlayerStartY: real := 620.0

  // ---------------------------------------------------------------- spawning

  /** The `n` bots of `_init_enemies` for `level`; `spawn(i)` is the pair of
      `random.randint` draws that places bot `i`. */
  function NewBots(level: int, spawn: nat -> (int, int), n: int): (r: seq<TankState>)
    requires level >= 1
    ensures |r| == if n <= 0 then 0 else n
    ensures forall i :: 0 <= i < |r| ==>
      r[i] == Spawned(spawn(i).0 as real, spawn(i).1 as real, true, level)
  {
    if n <= 0 then []
    else seq(n, i requires 0 <= i < n => Spawned(spawn(i).0 as real, spawn(i).1 as real, true, level))
  }

  /** A session as `GameSession()` creates it. */
  function Initial(spawn: nat -> (int, int)): SessionState
  {
    SessionState(1, Spawned(PlayerStartX, PlayerStartY, false, 1),
                 NewBots(1, spawn, GetParams(1).enemies), true, 0, 0)
  }

  /** A new session: level 1, four bots of 60 health, a player with 100. */
  lemma InitialSession(spawn: nat -> (int, int))
    ensures var s := Initial(spawn);
      s.level == 1 && s.score == 0 && s.kills == 0 && |s.enemies| == 4 &&
      s.player.params.health == 100 && s.player.bullets == [] &&
      forall i :: 0 <= i < 4 ==>
        s.enemies[i].params.health == s.enemies[i].params.maxHealth == 60
  {
  }

  // ---------------------------------------------------------------- movement

  /** The A, D, W and S keys as `pygame.key.get_pressed()` reports them. */
  datatype Keys = Keys(left: bool, right: bool, up: bool, down: bool)

  /** `move_vec` of `handle_input` (tank_game.py:167-172). */
  function MoveVector(k: Keys): (int, int)
  {
    ((if k.right then 1 else 0) - (if k.left then 1 else 0),
     (if k.down then 1 else 0) - (if k.up then 1 else 0))
  }

  /** The player's movement of `handle_input` (tank_game.py:174-181): with
      a key held the player turns to the key direction and moves `speed`
      along it (diagonals are not slowed), then is clamped 30 units inside
      the field. */
  function Steered(p: TankState, keys: Keys, trig: Trig): TankState
  {
    var v := MoveVector(keys);
    if v == (0, 0) then p
    else
      var dir := trig.atan2Deg(v.1 as real, v.0 as real);
      var speed := p.params.speed;
      p.(angle := dir - 90.0,
         x := Clamp(p.x + trig.cosDeg(dir) * speed, Margin, Width - Margin),
         y := Clamp(p.y + trig.sinDeg(dir) * speed, Margin, Height - Margin))
  }

  /** Where the player may stand: 30 units inside every edge. */
  predicate PlayerZone(x: real, y: real)
  {
    Margin <= x <= Width - Margin && Margin <= y <= Height - Margin
  }

  /** Moving leaves the player in [30, 1250] x [30, 690]; without a key held
      nothing about the player changes; health, weapon and bullets never do. */
  lemma SteeredStaysInside(p: TankState, keys: Keys, trig: Trig)
    ensures var r := Steered(p, keys, trig);
      r.params == p.params && r.bullets == p.bullets && r.lastShot == p.lastShot &&
      (MoveVector(keys) != (0, 0) ==> PlayerZone(r.x, r.y)) &&
      (MoveVector(keys) == (0, 0) ==> r == p) &&
      (PlayerZone(p.x, p.y) ==> PlayerZone(r.x, r.y))
  {
  }

  // ------------------------------------------------------------------- bots

  /** Where bots may stand: the side margins, and never below the middle of
      the field (`HEIGHT // 2`). */
  predicate BotZone(x: real, y: real)
  {
    Margin <= x <= Width - Margin && Margin <= y <= Height / 2.0
  }

  /** One bot's turn of `update_bots` (tank_game.py:188-204): beyond 400
      units it turns to `atan2(dy, dx) + 90` degrees and drives `speed` along
      that angle; within it, it aims and fires when the roll is below
      `0.02 * level`. Either way it ends clamped to the upper half. */
  function BotStep(bot: TankState, player: TankState, level: int, roll: real, now: int, trig: Trig): TankState
  {
    var b :=
      if SqDist(player.x, player.y, bot.x, bot.y) > ChaseRangeSq then Chasing(bot, player, trig)
      else Aiming(bot, player, level, roll, now, trig);
    b.(x := Clamp(b.x, Margin, Width - Margin), y := Clamp(b.y, Margin, Height / 2.0))
  }

  /** A far bot turns to `atan2(dy, dx) + 90` degrees and drives `speed` along
      that angle, as `(cos a, -sin a)`. */
  function Chasing(bot: TankState, player: TankState, trig: Trig): TankState
  {
    var a := trig.atan2Deg(player.y - bot.y, player.x - bot.x) + 90.0;
    bot.(angle := a,
         x := bot.x + trig.cosDeg(a) * bot.params.speed,
         y := bot.y - trig.sinDeg(a) * bot.params.speed)
  }

  /** A near bot aims and fires when the roll is below `0.02 * level`. */
  function Aiming(bot: TankState, player: TankState, level: int, roll: real, now: int, trig: Trig): TankState
  {
    var aimed := bot.(angle := trig.atan2Deg(-(player.y - bot.y), player.x - bot.x));
    if roll < 0.02 * level as real then Shot(aimed, now, trig) else aimed
  }

  /** `update_bots()`; `rolls(i)` is the `random.random()` draw of bot `i`. */
  function BotsUpdated(s: SessionState, rolls: nat -> real, now: int, trig: Trig): SessionState
  {
    s.(enemies := seq(|s.enemies|, i requires 0 <= i < |s.enemies| =>
                        BotStep(s.enemies[i], s.player, s.level, rolls(i), now, trig)))
  }

  /** After `update_bots` every bot is in [30, 1250] x [30, 360], so never in
      the lower half; no bot appears or disappears and no bot's health or
      weapon changes. */
  lemma BotsStayUp(s: SessionState, rolls: nat -> real, now: int, trig: Trig)
    ensures var r := BotsUpdated(s, rolls, now, trig);
      r.player == s.player && r.level == s.level && r.score == s.score && r.kills == s.kills &&
      |r.enemies| == |s.enemies| &&
      forall i :: 0 <= i < |r.enemies| ==>
        BotZone(r.enemies[i].x, r.enemies[i].y) && r.enemies[i].params == s.enemies[i].params
  {
    var r := BotsUpdated(s, rolls, now, trig);
    forall i | 0 <= i < |r.enemies|
      ensures BotZone(r.enemies[i].x, r.enemies[i].y) && r.enemies[i].params == s.enemies[i].params
    {
      BotStepStays(s.enemies[i], s.player, s.level, rolls(i), now, trig);
    }
  }

  lemma BotStepStays(bot: TankState, player: TankState, level: int, roll: real, now: int, trig: Trig)
    ensures var r := BotStep(bot, player, level, roll, now, trig);
      BotZone(r.x, r.y) && r.params == bot.params
  {
  }

  // ---------------------------------------------------- player's bullets hit

  /** Bullet `b` has hit bot `k` (tank_game.py:210-231): the bot loses the
      bullet's damage and the score gains 10; a bot brought to 0 or below is
      removed, scores 50 more, counts as a kill, heals the player by the
      level's heal amount up to the maximum and upgrades the weapon. Then the
      first bullet equal to `b` leaves the player's list, if one is left. */
  function HitEnemy(s: SessionState, k: nat, b: Bullet): (r: SessionState)
    requires k < |s.enemies|
    ensures |r.enemies| ==
      if s.enemies[k].params.health - b.damage <= 0 then |s.enemies| - 1 else |s.enemies|
    ensures r.level == s.level && r.running == s.running
  {
    var s1 := Damaged(s, k, b);
    var s2 := if s1.enemies[k].params.health <= 0 then Killed(s1, k) else s1;
    s2.(player := s2.player.(bullets := RemoveFirst(s2.player.bullets, b)))
  }

  /** The bot at `k` loses the bullet's damage and the score gains 10. */
  function Damaged(s: SessionState, k: nat, b: Bullet): SessionState
    requires k < |s.enemies|
  {
    var e := s.enemies[k];
    s.(enemies := s.enemies[k := e.(params := e.params.(health := e.params.health - b.damage))],
       score := s.score + 10)
  }

  function Killed(s: SessionState, k: nat): SessionState
    requires k < |s.enemies|
  {
    var heal := GetParams(s.level).playerHeal;
    var p := s.player.params;
    s.(enemies := s.enemies[..k] + s.enemies[k + 1..],
       score := s.score + 50,
       kills := s.kills + 1,
       player := s.player.(params := Upgraded(p.(health := Min(p.health + heal, p.maxHealth)))))
  }

  /** What one hit does, case by case: a bot is removed exactly when the hit
      takes its health to 0 or below, and then the score gains 60 in all, the
      kills one, and the player is healed up to the maximum before the
      weapon upgrade; otherwise the bot stays where it was with less health
      and the score gains 10. Either way the first bullet equal to `b`, if
      any, leaves the player's list and nothing else about the player changes. */
  lemma HitOutcome(s: SessionState, k: nat, b: Bullet)
    requires k < |s.enemies|
    ensures var e := s.enemies[k]; var h := e.params.health - b.damage;
      var r := HitEnemy(s, k, b); var p := s.player.params;
      r.level == s.level && r.running == s.running &&
      r.player == s.player.(params := r.player.params, bullets := RemoveFirst(s.player.bullets, b)) &&
      (h <= 0 ==>
        r.enemies == s.enemies[..k] + s.enemies[k + 1..] &&
        r.score == s.score + 60 && r.kills == s.kills + 1 &&
        r.player.params == Upgraded(p.(health := Min(p.health + GetParams(s.level).playerHeal, p.maxHealth)))) &&
      (h > 0 ==>
        |r.enemies| == |s.enemies| && r.enemies[k] == e.(params := e.params.(health := h)) &&
        (forall j :: 0 <= j < |s.enemies| && j != k ==> r.enemies[j] == s.enemies[j]) &&
        r.score == s.score + 10 && r.kills == s.kills && r.player.params == p)
  {
    var s1 := Damaged(s, k, b);
    assert s1.enemies[..k] + s1.enemies[k + 1..] == s.enemies[..k] + s.enemies[k + 1..];
  }

  /** A bot of 60 health (level 1) hit three times by 20-damage bullets: the
      first two hits leave it in place, the third removes it; the score gains
      10 + 10 + 10 + 50 and the player has one kill and one upgrade more. */
  lemma ThreeHitsKill(s: SessionState, k: nat, b: Bullet)
    requires k < |s.enemies| && s.enemies[k].params.health == 60 && b.damage == 20
    ensures var r1 := HitEnemy(s, k, b); var r2 := HitEnemy(r1, k, b);
      k < |r2.enemies| &&
      var r3 := HitEnemy(r2, k, b);
      r3.enemies == s.enemies[..k] + s.enemies[k + 1..] &&
      r3.score == s.score + 80 && r3.kills == s.kills + 1 &&
      r3.player.params.upgrades == s.player.params.upgrades + 1
  {
    var r1 := HitEnemy(s, k, b);
    HitOutcome(s, k, b);
    var r2 := HitEnemy(r1, k, b);
    HitOutcome(r1, k, b);
    assert r2.enemies[k].params.health == 20;
    HitOutcome(r2, k, b);
    assert r2.enemies[..k] + r2.enemies[k + 1..] == s.enemies[..k] + s.enemies[k + 1..] by {
      assert r2.enemies[..k] == s.enemies[..k];
      assert r2.enemies[k + 1..] == s.enemies[k + 1..];
    }
    UpgradeCounters(r2.player.params.(health := Min(r2.player.params.health + GetParams(r2.level).playerHeal, r2.player.params.maxHealth)));
  }

  /** The inner loop of the player-bullet pass for bullet `b`, from bot `k`
      on. Python walks a copy of the bot list; since only the bot being
      looked at can be removed, that is the live list with an index that
      stays put when the bot at it is removed. */
  function ScanEnemies(s: SessionState, b: Bullet, k: nat): (r: SessionState)
    ensures r.level == s.level && r.running == s.running
    decreases |s.enemies| - k
  {
    if k >= |s.enemies| then s
    else
      var e := s.enemies[k];
      if Near(b.x, b.y, e.x, e.y) then
        var dead := e.params.health - b.damage <= 0;
        ScanEnemies(HitEnemy(s, k, b), b, if dead then k else k + 1)
      else ScanEnemies(s, b, k + 1)
  }

  /** One step of the scan. */
  lemma ScanStep(s: SessionState, b: Bullet, k: nat)
    requires k < |s.enemies|
    ensures var e := s.enemies[k];
      ScanEnemies(s, b, k) ==
        if Near(b.x, b.y, e.x, e.y) then
          ScanEnemies(HitEnemy(s, k, b), b, if e.params.health - b.damage <= 0 then k else k + 1)
        else ScanEnemies(s, b, k + 1)
  {
  }

  /** The player-bullet pass over the copy `shots` of the player's bullets. */
  function PlayerPass(s: SessionState, shots: seq<Bullet>): (r: SessionState)
    ensures r.level == s.level && r.running == s.running
    decreases |shots|
  {
    if shots == [] then s else PlayerPass(ScanEnemies(s, shots[0], 0), shots[1..])
  }

  /** How many (bullet, bot) hits the scan of `b` makes. */
  function ScanHits(s: SessionState, b: Bullet, k: nat): nat
    decreases |s.enemies| - k
  {
    if k >= |s.enemies| then 0
    else
      var e := s.enemies[k];
      if Near(b.x, b.y, e.x, e.y) then
        var dead := e.params.health - b.damage <= 0;
        1 + ScanHits(HitEnemy(s, k, b), b, if dead then k else k + 1)
      else ScanHits(s, b, k + 1)
  }

  /** How many (bullet, bot) hits the whole pass makes. */
  function PassHits(s: SessionState, shots: seq<Bullet>): nat
    decreases |shots|
  {
    if shots == [] then 0
    else ScanHits(s, shots[0], 0) + PassHits(ScanEnemies(s, shots[0], 0), shots[1..])
  }

  /** Score and kill accounting of one bullet's scan. */
  lemma {:induction false} ScanAccounting(s: SessionState, b: Bullet, k: nat)
    ensures var r := ScanEnemies(s, b, k);
      r.level == s.level && r.running == s.running &&
      r.kills - s.kills == |s.enemies| - |r.enemies| &&
      r.score == s.score + 10 * ScanHits(s, b, k) + 50 * (r.kills - s.kills) &&
      s.kills <= r.kills <= s.kills + ScanHits(s, b, k)
    decreases |s.enemies| - k
  {
    if k < |s.enemies| {
      var e := s.enemies[k];
      if Near(b.x, b.y, e.x, e.y) {
        var dead := e.params.health - b.damage <= 0;
        ScanAccounting(HitEnemy(s, k, b), b, if dead then k else k + 1);
      } else {
        ScanAccounting(s, b, k + 1);
      }
    }
  }

  /** Score accounting of the player-bullet pass: the score rises by exactly
      10 per (bullet, bot) hit plus 50 per bot removed, kills rise by the
      number of bots removed, and no bot is killed without a hit. */
  lemma {:induction false} PassAccounting(s: SessionState, shots: seq<Bullet>)
    ensures var r := PlayerPass(s, shots);
      r.level == s.level && r.running == s.running &&
      r.kills - s.kills == |s.enemies| - |r.enemies| &&
      r.score == s.score + 10 * PassHits(s, shots) + 50 * (r.kills - s.kills) &&
      s.kills <= r.kills <= s.kills + PassHits(s, shots)
    decreases |shots|
  {
    if shots != [] {
      ScanAccounting(s, shots[0], 0);
      PassAccounting(ScanEnemies(s, shots[0], 0), shots[1..]);
    }
  }

  /** Every bot alive: health above 0 and at most its maximum. */
  ghost predicate BotsAlive(es: seq<TankState>)
  {
    forall i :: 0 <= i < |es| ==> 0 < es[i].params.health <= es[i].params.maxHealth
  }

  /** What the player-bullet pass keeps: every bot still listed is alive (a
      bot is removed exactly when its health reaches 0 or below), bots in the
      upper half stay there, armed bots stay armed, the player does not move
      and keeps health within its maximum and the 200 ms fire-delay floor, and
      no bullet joins the player's list. */
  ghost predicate PassKeeps(s: SessionState, r: SessionState)
  {
    BotsAlive(r.enemies) &&
    r.player.x == s.player.x && r.player.y == s.player.y &&
    r.player.angle == s.player.angle && r.player.lastShot == s.player.lastShot &&
    r.player.params.health <= r.player.params.maxHealth &&
    r.player.params.fireDelay >= 200.0 &&
    r.player.params.damage >= s.player.params.damage &&
    r.player.params.upgrades >= s.player.params.upgrades &&
    multiset(r.player.bullets) <= multiset(s.player.bullets) &&
    (BotsPlaced(s.enemies) ==> BotsPlaced(r.enemies)) &&
    (BotsArmed(s.enemies) ==> BotsArmed(r.enemies))
  }

  /** Every bot armed: positive damage, a non-negative upgrade count, and
      positive damage on every bullet it has in flight. */
  ghost predicate BotsArmed(es: seq<TankState>)
  {
    forall i :: 0 <= i < |es| ==>
      es[i].params.damage > 0 && es[i].params.upgrades >= 0 && Harmful(es[i].bullets)
  }

  /** Every bot in the upper half, 30 units inside the sides and the top. */
  ghost predicate BotsPlaced(es: seq<TankState>)
  {
    forall i :: 0 <= i < |es| ==> BotZone(es[i].x, es[i].y)
  }

  ghost predicate PassReady(s: SessionState, b: Bullet)
  {
    BotsAlive(s.enemies) && b.damage >= 0 &&
    s.player.params.health <= s.player.params.maxHealth && s.player.params.fireDelay >= 200.0
  }

  lemma HitKeeps(s: SessionState, k: nat, b: Bullet)
    requires k < |s.enemies| && PassReady(s, b)
    requires Near(b.x, b.y, s.enemies[k].x, s.enemies[k].y)
    ensures var r := HitEnemy(s, k, b);
      PassReady(r, b) && PassKeeps(s, r)
  {
    HitPlayer(s, k, b);
    HitBots(s, k, b);
  }

  /** A hit moves neither the player nor its aim, keeps its health bounds,
      only improves its weapon and takes at most one bullet out. */
  lemma HitPlayer(s: SessionState, k: nat, b: Bullet)
    requires k < |s.enemies|
    requires s.player.params.health <= s.player.params.maxHealth && s.player.params.fireDelay >= 200.0
    ensures var r := HitEnemy(s, k, b); var p := r.player;
      p.x == s.player.x && p.y == s.player.y && p.angle == s.player.angle &&
      p.lastShot == s.player.lastShot &&
      p.params.health <= p.params.maxHealth && p.params.fireDelay >= 200.0 &&
      p.params.damage >= s.player.params.damage && p.params.upgrades >= s.player.params.upgrades &&
      multiset(p.bullets) <= multiset(s.player.bullets)
  {
    var s1 := Damaged(s, k, b);
    var p := HitEnemy(s, k, b).player;
    assert p.bullets == RemoveFirst(s.player.bullets, b);
    RemoveFirstShrinks(s.player.bullets, b);
    if s1.enemies[k].params.health <= 0 {
      var healed := s.player.params.(health := Min(s.player.params.health + GetParams(s.level).playerHeal,
                                                   s.player.params.maxHealth));
      assert p.params == Upgraded(healed);
      HealUpgradeBounds(s.player.params, GetParams(s.level).playerHeal);
    } else {
      assert p.params == s.player.params;
    }
  }

  /** The heal and upgrade of a kill keep health within its maximum and the
      fire delay at its floor, and only improve damage and the counter. */
  lemma HealUpgradeBounds(p: Params, heal: int)
    requires p.health <= p.maxHealth && p.fireDelay >= 200.0
    ensures var q := Upgraded(p.(health := Min(p.health + heal, p.maxHealth)));
      q.health <= q.maxHealth && q.fireDelay >= 200.0 && q.damage >= p.damage && q.upgrades >= p.upgrades
  {
    var healed := p.(health := Min(p.health + heal, p.maxHealth));
    UpgradeCounters(healed);
    UpgradeBounds(healed);
  }

  /** A hit leaves every bot alive, in place and armed, or removed. */
  lemma HitBots(s: SessionState, k: nat, b: Bullet)
    requires k < |s.enemies| && BotsAlive(s.enemies) && b.damage >= 0
    ensures var r := HitEnemy(s, k, b);
      BotsAlive(r.enemies) && (BotsPlaced(s.enemies) ==> BotsPlaced(r.enemies)) &&
      (BotsArmed(s.enemies) ==> BotsArmed(r.enemies))
  {
    var e := s.enemies[k];
    var r := HitEnemy(s, k, b);
    var dead := e.params.health - b.damage <= 0;
    var hit := s.enemies[k := e.(params := e.params.(health := e.params.health - b.damage))];
    assert r.enemies == if dead then hit[..k] + hit[k + 1..] else hit;
    forall j | 0 <= j < |r.enemies|
      ensures 0 < r.enemies[j].params.health <= r.enemies[j].params.maxHealth
      ensures BotsPlaced(s.enemies) ==> BotZone(r.enemies[j].x, r.enemies[j].y)
      ensures BotsArmed(s.enemies) ==>
        r.enemies[j].params.damage > 0 && r.enemies[j].params.upgrades >= 0 && Harmful(r.enemies[j].bullets)
    {
      var i := if dead && j >= k then j + 1 else j;
      assert r.enemies[j] == hit[i];
    }
  }

  lemma {:induction false} ScanKeeps(s: SessionState, b: Bullet, k: nat)
    requires PassReady(s, b)
    ensures var r := ScanEnemies(s, b, k); PassReady(r, b) && PassKeeps(s, r)
    decreases |s.enemies| - k
  {
    var r := ScanEnemies(s, b, k);
    if k < |s.enemies| {
      var e := s.enemies[k];
      if Near(b.x, b.y, e.x, e.y) {
        var dead := e.params.health - b.damage <= 0;
        var s1 := HitEnemy(s, k, b);
        HitKeeps(s, k, b);
        ScanKeeps(s1, b, if dead then k else k + 1);
        KeepsTrans(s, s1, r);
      } else {
        ScanKeeps(s, b, k + 1);
      }
    } else {
      KeepsRefl(s);
    }
  }

  lemma KeepsRefl(s: SessionState)
    requires BotsAlive(s.enemies)
    requires s.player.params.health <= s.player.params.maxHealth && s.player.params.fireDelay >= 200.0
    ensures PassKeeps(s, s)
  {
  }

  lemma KeepsTrans(a: SessionState, b: SessionState, c: SessionState)
    requires PassKeeps(a, b) && PassKeeps(b, c)
    ensures PassKeeps(a, c)
  {
  }

  /** The player-bullet pass keeps every bot alive or removes it, keeps the
      player's health within its maximum, and adds no bullet. */
  lemma {:induction false} PassKeepsAll(s: SessionState, shots: seq<Bullet>)
    requires BotsAlive(s.enemies)
    requires s.player.params.health <= s.player.params.maxHealth && s.player.params.fireDelay >= 200.0
    requires forall i :: 0 <= i < |shots| ==> shots[i].damage >= 0
    ensures PassKeeps(s, PlayerPass(s, shots))
    decreases |shots|
  {
    if shots == [] {
      KeepsRefl(s);
    } else {
      var s1 := ScanEnemies(s, shots[0], 0);
      ScanKeeps(s, shots[0], 0);
      PassKeepsAll(s1, shots[1..]);
      KeepsTrans(s, s1, PlayerPass(s1, shots[1..]));
    }
  }

  // ----------------------------------------------------- bots' bullets hit

  /** `math.hypot(bullet['x'] - player.x, bullet['y'] - player.y) < 30` */
  predicate Strikes(b: Bullet, px: real, py: real)
  {
    Near(b.x, b.y, px, py)
  }

  /** The bullets that miss the player, in order. */
  function Spared(bs: seq<Bullet>, px: real, py: real): (r: seq<Bullet>)
    ensures forall i :: 0 <= i < |r| ==> !Strikes(r[i], px, py)
  {
    if bs == [] then []
    else Spared(bs[..|bs| - 1], px, py) + (if Strikes(bs[|bs| - 1], px, py) then [] else [bs[|bs| - 1]])
  }

  /** The positions in `bs` of the bullets that miss the player, in order. */
  ghost function Misses(bs: seq<Bullet>, px: real, py: real): seq<int>
  {
    if bs == [] then []
    else Misses(bs[..|bs| - 1], px, py) + (if Strikes(bs[|bs| - 1], px, py) then [] else [|bs| - 1])
  }

  /** Exactly the bullets that miss the player are kept, in their order: the
      result is the input at strictly increasing positions, and a position is
      among them exactly when its bullet misses. */
  lemma {:induction false} SparedKeepsOrder(bs: seq<Bullet>, px: real, py: real)
    ensures var ix := Misses(bs, px, py);
      |ix| == |Spared(bs, px, py)| &&
      (forall k :: 0 <= k < |ix| ==> 0 <= ix[k] < |bs| && Spared(bs, px, py)[k] == bs[ix[k]]) &&
      (forall k, m :: 0 <= k < m < |ix| ==> ix[k] < ix[m]) &&
      (forall j :: 0 <= j < |bs| ==> (j in ix <==> !Strikes(bs[j], px, py)))
  {
    if bs != [] {
      var init := bs[..|bs| - 1];
      SparedKeepsOrder(init, px, py);
      var ix0 := Misses(init, px, py);
      assert forall k :: 0 <= k < |ix0| ==> ix0[k] < |init|;
      forall j | 0 <= j < |init| ensures bs[j] == init[j] { }
    }
  }

  /** How many bullets hit the player. */
  function Struck(bs: seq<Bullet>, px: real, py: real): nat
  {
    if bs == [] then 0
    else Struck(bs[..|bs| - 1], px, py) + (if Strikes(bs[|bs| - 1], px, py) then 1 else 0)
  }

  /** A bullet either hits or is spared. */
  lemma {:induction false} StruckOrSpared(bs: seq<Bullet>, px: real, py: real)
    ensures Struck(bs, px, py) + |Spared(bs, px, py)| == |bs|
  {
    if bs != [] {
      StruckOrSpared(bs[..|bs| - 1], px, py);
    }
  }

  /** How many bullets of all the bots hit the player. */
  function TotalStruck(es: seq<TankState>, px: real, py: real): nat
  {
    if es == [] then 0 else TotalStruck(es[..|es| - 1], px, py) + Struck(es[|es| - 1].bullets, px, py)
  }

  /** What `hits` bot bullets cost the player at `level`: `5 + level` each. */
  function Penalty(level: int, hits: nat): (r: int)
    ensures level >= -5 ==> r >= 0
  {
    if hits == 0 then 0 else Penalty(level, hits - 1) + 5 + level
  }

  lemma {:induction false} PenaltyIs(level: int, hits: nat)
    ensures Penalty(level, hits) == (5 + level) * hits
  {
    if hits > 0 {
      PenaltyIs(level, hits - 1);
    }
  }

  lemma {:induction false} PenaltyAdd(level: int, a: nat, b: nat)
    ensures Penalty(level, a + b) == Penalty(level, a) + Penalty(level, b)
    decreases b
  {
    if b > 0 {
      PenaltyAdd(level, a, b - 1);
    }
  }

  /** Reference meaning of the bot-bullet pass (tank_game.py:233-238): the
      player loses `5 + level` per bot bullet within 30 units, every such
      bullet leaves its bot's list, and nothing else changes. */
  function EnemyShotsPass(s: SessionState): (r: SessionState)
  {
    var p := s.player;
    s.(player := p.(params := p.params.(health := p.params.health - Penalty(s.level, TotalStruck(s.enemies, p.x, p.y)))),
       enemies := seq(|s.enemies|, i requires 0 <= i < |s.enemies| =>
                        s.enemies[i].(bullets := Spared(s.enemies[i].bullets, p.x, p.y))))
  }

  /** The bot-bullet pass leaves no bullet that hits the player; every bot is
      unchanged apart from the bullets it loses, the player apart from its
      health, and the level, score and kills are kept. */
  lemma EnemyShotsMiss(s: SessionState)
    ensures var r := EnemyShotsPass(s);
      |r.enemies| == |s.enemies| && r.score == s.score && r.kills == s.kills &&
      r.level == s.level && r.running == s.running &&
      r.player == s.player.(params := s.player.params.(health := r.player.params.health)) &&
      (forall i :: 0 <= i < |s.enemies| ==>
        r.enemies[i] == s.enemies[i].(bullets := Spared(s.enemies[i].bullets, s.player.x, s.player.y))) &&
      forall i, j :: 0 <= i < |r.enemies| && 0 <= j < |r.enemies[i].bullets| ==>
        !Strikes(r.enemies[i].bullets[j], s.player.x, s.player.y)
  {
  }

  /** The player's loss is `5 + level` times the number of bullets removed. */
  lemma EnemyShotsDamage(s: SessionState)
    ensures var r := EnemyShotsPass(s);
      s.player.params.health - r.player.params.health ==
        (5 + s.level) * (Count(s.enemies) - Count(r.enemies))
  {
    var es := s.enemies;
    var px, py := s.player.x, s.player.y;
    CountSpared(es, px, py);
    PenaltyIs(s.level, TotalStruck(es, px, py));
    assert EnemyShotsPass(s).enemies ==
      seq(|es|, i requires 0 <= i < |es| => es[i].(bullets := Spared(es[i].bullets, px, py)));
  }

  /** One turn of the loop over a copy `copy` of a bot's bullets, with the
      first `j` already checked: a bullet that hits is the first bullet equal
      to it still in the list, so removing by value removes that bullet. */
  lemma SparedStep(copy: seq<Bullet>, j: nat, px: real, py: real)
    requires j < |copy|
    ensures var cur := Spared(copy[..j], px, py) + copy[j..];
      var next := Spared(copy[..j + 1], px, py) + copy[j + 1..];
      (Strikes(copy[j], px, py) ==>
         RemoveFirst(cur, copy[j]) == next && Struck(copy[..j + 1], px, py) == Struck(copy[..j], px, py) + 1) &&
      (!Strikes(copy[j], px, py) ==>
         cur == next && Struck(copy[..j + 1], px, py) == Struck(copy[..j], px, py))
  {
    var pre := Spared(copy[..j], px, py);
    var b := copy[j];
    SparedSnoc(copy, j, px, py);
    var cur := pre + copy[j..];
    assert copy[j..] == [b] + copy[j + 1..];
    assert cur == pre + [b] + copy[j + 1..];
    if Strikes(b, px, py) {
      assert b !in pre;
      RemoveFirstAt(pre, b, copy[j + 1..]);
    }
  }

  lemma SparedSnoc(copy: seq<Bullet>, j: nat, px: real, py: real)
    requires j < |copy|
    ensures Spared(copy[..j + 1], px, py) ==
      Spared(copy[..j], px, py) + (if Strikes(copy[j], px, py) then [] else [copy[j]])
    ensures Struck(copy[..j + 1], px, py) == Struck(copy[..j], px, py) + (if Strikes(copy[j], px, py) then 1 else 0)
  {
    var q := copy[..j + 1];
    assert q[..|q| - 1] == copy[..j];
    assert q[|q| - 1] == copy[j];
  }

  lemma TotalStruckSnoc(es: seq<TankState>, i: nat, px: real, py: real)
    requires i < |es|
    ensures TotalStruck(es[..i + 1], px, py) == TotalStruck(es[..i], px, py) + Struck(es[i].bullets, px, py)
  {
    assert es[..i + 1][..i] == es[..i];
  }

  /** All the bullets of a list of bots. */
  function Count(es: seq<TankState>): nat
  {
    if es == [] then 0 else Count(es[..|es| - 1]) + |es[|es| - 1].bullets|
  }

  lemma {:induction false} CountSpared(es: seq<TankState>, px: real, py: real)
    ensures var kept := seq(|es|, i requires 0 <= i < |es| => es[i].(bullets := Spared(es[i].bullets, px, py)));
      Count(es) == Count(kept) + TotalStruck(es, px, py)
  {
    var kept := seq(|es|, i requires 0 <= i < |es| => es[i].(bullets := Spared(es[i].bullets, px, py)));
    if es != [] {
      var init := es[..|es| - 1];
      CountSpared(init, px, py);
      var kept0 := seq(|init|, i requires 0 <= i < |init| => init[i].(bullets := Spared(init[i].bullets, px, py)));
      assert kept[..|kept| - 1] == kept0;
      StruckOrSpared(es[|es| - 1].bullets, px, py);
    }
  }

  /** `check_collisions()`: the player's bullets, then the bots'. */
  function Collided(s: SessionState): SessionState
  {
    EnemyShotsPass(PlayerPass(s, s.player.bullets))
  }

  // ------------------------------------------------------------ bullet step

  /** The bullet loop of `run` for the player and every bot. */
  function BulletsAdvanced(s: SessionState): SessionState
  {
    s.(player := s.player.(bullets := Advanced(s.player.bullets)),
       enemies := seq(|s.enemies|, i requires 0 <= i < |s.enemies| =>
                        s.enemies[i].(bullets := Advanced(s.enemies[i].bullets))))
  }

  // ----------------------------------------------------------- level change

  /** The level change at the end of a frame (tank_game.py:305-311): only
      with no bot left, the level goes up, a fresh batch of bots of the new
      level arrives and the player heals 20 up to the maximum. */
  function LevelAdvanced(s: SessionState, spawn: nat -> (int, int)): SessionState
    requires s.level >= 1
  {
    if s.enemies != [] then s
    else
      var l := s.level + 1;
      var p := s.player.params;
      s.(level := l,
         enemies := NewBots(l, spawn, GetParams(l).enemies),
         player := s.player.(params := p.(health := Min(p.health + 20, p.maxHealth))))
  }

  /** The level changes only when the bots are gone; then the new level's
      table decides how many bots there are, each at full health, and score,
      kills, the weapon and the player's bullets are untouched. */
  lemma LevelChange(s: SessionState, spawn: nat -> (int, int))
    requires s.level >= 1
    ensures var r := LevelAdvanced(s, spawn);
      r.score == s.score && r.kills == s.kills && r.player.bullets == s.player.bullets &&
      r.player.params.upgrades == s.player.params.upgrades &&
      r.player.params.damage == s.player.params.damage &&
      r.player.params.maxHealth == s.player.params.maxHealth &&
      (s.enemies != [] ==> r == s) &&
      (s.enemies == [] ==>
        r.level == s.level + 1 &&
        r.player == s.player.(params := s.player.params.(health := Min(s.player.params.health + 20, s.player.params.maxHealth))) &&
        |r.enemies| == GetParams(s.level + 1).enemies &&
        r.player.params.health == Min(s.player.params.health + 20, s.player.params.maxHealth) &&
        forall i :: 0 <= i < |r.enemies| ==>
          r.enemies[i].params.health == r.enemies[i].params.maxHealth == 60 + 10 * s.level)
  {
  }

  // ------------------------------------------------------------------ frame

  /** The inputs of one frame: the clock, the SPACE key-downs, the movement
      keys held, and the random draws of the bots' rolls and of new spawns. */
  datatype Frame = Frame(now: int, presses: nat, keys: Keys, rolls: nat -> real, spawn: nat -> (int, int))

  /** `shoot()` once per SPACE key-down event of the frame. */
  function Pressed(t: TankState, presses: nat, now: int, trig: Trig): TankState
  {
    if presses == 0 then t else Shot(Pressed(t, presses - 1, now, trig), now, trig)
  }

  /** However often SPACE is pressed within one frame, one batch at most is fired. */
  lemma {:induction false} OneBatchPerFrame(t: TankState, presses: nat, now: int, trig: Trig)
    requires presses >= 1 && t.params.fireDelay >= 0.0
    ensures Pressed(t, presses, now, trig) == Shot(t, now, trig)
  {
    if presses > 1 {
      OneBatchPerFrame(t, presses - 1, now, trig);
      ShotTwice(t, now, trig);
    }
  }

  /** One turn of the `run` loop, rendering left out (tank_game.py:278-311). */
  function Ticked(s: SessionState, f: Frame, trig: Trig): (r: SessionState)
    requires s.level >= 1
    ensures r.level >= s.level
  {
    var s1 := s.(player := Steered(Pressed(s.player, f.presses, f.now, trig), f.keys, trig));
    var s2 := BotsUpdated(s1, f.rolls, f.now, trig);
    var s3 := Collided(s2);
    var s4 := BulletsAdvanced(s3);
    LevelAdvanced(s4, f.spawn)
  }

  /** The `run` loop over a sequence of frames: it stops at the first frame
      that finds the session quit or the player's health at 0 or below. */
  function Played(s: SessionState, frames: seq<Frame>, trig: Trig): (r: SessionState)
    requires s.level >= 1
    ensures r.level >= s.level
    decreases |frames|
  {
    if frames == [] || !s.running || s.player.params.health <= 0 then s
    else Played(Ticked(s, frames[0], trig), frames[1..], trig)
  }

  /** One more frame is played while the session runs and the player lives. */
  lemma PlayedStep(s: SessionState, frames: seq<Frame>, trig: Trig)
    requires s.level >= 1 && frames != [] && s.running && s.player.params.health > 0
    ensures Played(s, frames, trig) == Played(Ticked(s, frames[0], trig), frames[1..], trig)
  {
  }
}
