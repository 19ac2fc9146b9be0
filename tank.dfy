/** A tank, player or bot (tank_game.py:73-137): position, facing, weapon
    parameters and the bullets it has fired and that are still in flight. */
module Tanks {
  import opened Lists
  import opened Levels
  import opened Geometry

  const BaseTankSpeed: real := 2.5
  const BaseBulletSpeed: real := 8.0
  /** Degrees between neighbouring bullets of a fan. */
  const Spread: real := 15.0
  /** Bullets appear this far ahead of the tank's centre. */
  const Muzzle: real := 30.0

  /** A bullet dict: position, velocity per frame, and the damage fixed when it was fired. */
  datatype Bullet = Bullet(x: real, y: real, dx: real, dy: real, damage: int)

  /** Every bullet in the list carries positive damage. */
  ghost predicate Harmful(bs: seq<Bullet>)
  {
    forall i :: 0 <= i < |bs| ==> bs[i].damage > 0
  }

  /** The `params` dict of a tank. */
  datatype Params = Params(
    speed: real,
    bulletSpeed: real,
    health: int,
    maxHealth: int,
    fireDelay: real,   // milliseconds between shots
    damage: int,
    upgrades: int)

  /** The whole state of one tank, as a value. */
  datatype TankState = TankState(
    x: real, y: real, angle: real,
    bullets: seq<Bullet>,
    isBot: bool,
    lastShot: int,
    params: Params)

  /** Parameters every tank starts with (tank_game.py:81-89). */
  function BaseParams(bot: bool): Params
  {
    Params(BaseTankSpeed * (if bot then 0.8 else 1.0), BaseBulletSpeed, 100, 100, 600.0, 20, 0)
  }

  /** `_init_bot`: the base parameters overwritten from the level's table (tank_game.py:94-102). */
  function BotParams(p: Params, level: int): Params
    requires GetParams(level).enemyFireRate != 0.0
  {
    var lp := GetParams(level);
    p.(speed := BaseTankSpeed * lp.enemySpeed,
       health := lp.enemyHealth,
       maxHealth := lp.enemyHealth,
       fireDelay := 1500.0 / lp.enemyFireRate,
       bulletSpeed := BaseBulletSpeed * 1.1)
  }

  /** A tank as `Tank(x, y, is_bot, level)` creates it. */
  function Spawned(x: real, y: real, bot: bool, level: int): TankState
    requires bot ==> GetParams(level).enemyFireRate != 0.0
  {
    TankState(x, y, 0.0, [], bot, 0,
              if bot then BotParams(BaseParams(true), level) else BaseParams(false))
  }

  /** What a fresh tank is: a player with full health 100 and a 600 ms fire
      delay, or a bot whose health, delay and speed come from its level. */
  lemma SpawnedStats(x: real, y: real, bot: bool, level: int)
    requires bot ==> level >= 1
    ensures var t := Spawned(x, y, bot, level);
      t.bullets == [] && t.lastShot == 0 && t.params.upgrades == 0 && t.params.damage == 20 &&
      t.params.health == t.params.maxHealth &&
      (!bot ==> t.params.health == 100 && t.params.fireDelay == 600.0 && t.params.speed == 2.5) &&
      (bot ==> t.params.health == 50 + 10 * level && 0.0 < t.params.fireDelay <= 2500.0)
  {
    if bot {
      var rate := GetParams(level).enemyFireRate;
      assert rate >= 0.6;
      assert 1500.0 / rate <= 2500.0 by {
        assert 1500.0 <= 2500.0 * rate;
      }
    }
  }

  /** A bot of a later level shoots at least as often. */
  lemma {:induction false} BotDelayShrinks(a: int, b: int)
    requires 1 <= a <= b
    ensures BotParams(BaseParams(true), b).fireDelay <= BotParams(BaseParams(true), a).fireDelay
  {
    Harder(a, b);
    DivAntitone(1500.0, GetParams(a).enemyFireRate, GetParams(b).enemyFireRate);
  }

  lemma DivAntitone(c: real, p: real, q: real)
    requires 0.0 <= c && 0.0 < p <= q
    ensures c / q <= c / p
  {
    var u, v := c / p, c / q;
    assert u * p == c && v * q == c;
    assert v * p <= v * q;
    assert v * p <= u * p;
  }

  // ---------------------------------------------------------------- shooting

  /** `1 + upgrades // 3`: one extra bullet for every three upgrades. */
  function FanSize(upgrades: int): int
  {
    1 + upgrades / 3
  }

  /** `spread * (i - (bullet_count - 1) / 2)`, true division. */
  function FanOffset(i: int, n: int): real
  {
    Spread * (i as real - (n - 1) as real / 2.0)
  }

  /** Bullet `i` of a fan of `n`, fired by tank `t` (tank_game.py:125-134). */
  function FanBullet(t: TankState, trig: Trig, i: int, n: int): Bullet
  {
    var a := t.angle + FanOffset(i, n);
    Bullet(t.x + trig.cosDeg(a) * Muzzle,
           t.y - trig.sinDeg(a) * Muzzle,
           trig.cosDeg(a) * t.params.bulletSpeed,
           -trig.sinDeg(a) * t.params.bulletSpeed,
           t.params.damage)
  }

  /** The whole fan fired by one call of `shoot`, in firing order. */
  function Fan(t: TankState, trig: Trig): (r: seq<Bullet>)
    ensures |r| == if FanSize(t.params.upgrades) <= 0 then 0 else FanSize(t.params.upgrades)
    ensures forall i :: 0 <= i < |r| ==> r[i] == FanBullet(t, trig, i, |r|)
  {
    var n := FanSize(t.params.upgrades);
    if n <= 0 then [] else seq(n, i requires 0 <= i < n => FanBullet(t, trig, i, n))
  }

  /** Whether `shoot` fires at time `now`: strictly more than `fire_delay` ms since the last shot. */
  predicate Ready(t: TankState, now: int)
  {
    (now - t.lastShot) as real > t.params.fireDelay
  }

  /** The tank after `shoot()` at time `now`. */
  function Shot(t: TankState, now: int, trig: Trig): TankState
  {
    if Ready(t, now) then t.(bullets := t.bullets + Fan(t, trig), lastShot := now) else t
  }

  /** Within the fire delay `shoot` changes nothing; otherwise it keeps the
      bullets in flight, appends exactly `1 + upgrades / 3` bullets, each
      carrying the tank's current damage, and stamps the time. Nothing else
      about the tank changes. */
  lemma ShotEffect(t: TankState, now: int, trig: Trig)
    requires t.params.upgrades >= 0
    ensures var r := Shot(t, now, trig);
      r.x == t.x && r.y == t.y && r.angle == t.angle && r.params == t.params && r.isBot == t.isBot &&
      (!Ready(t, now) ==> r.bullets == t.bullets && r.lastShot == t.lastShot) &&
      (Ready(t, now) ==>
        r.lastShot == now &&
        |r.bullets| == |t.bullets| + 1 + t.params.upgrades / 3 &&
        r.bullets[..|t.bullets|] == t.bullets &&
        forall k :: |t.bullets| <= k < |r.bullets| ==> r.bullets[k].damage == t.params.damage)
  {
    if Ready(t, now) {
      var r := Shot(t, now, trig);
      assert r.bullets[..|t.bullets|] == t.bullets;
    }
  }

  /** The fan is symmetric about the facing direction: bullet `i` and bullet
      `n - 1 - i` are turned by opposite angles, and with an odd count the
      middle bullet flies straight ahead. */
  lemma FanSymmetric(i: int, n: int)
    ensures FanOffset(i, n) == -FanOffset(n - 1 - i, n)
    ensures n % 2 == 1 ==> FanOffset(n / 2, n) == 0.0
  {
  }

  /** Six upgrades give a fan of three bullets at -15, 0 and +15 degrees. */
  lemma ThreeBulletFan(t: TankState, trig: Trig)
    requires t.params.upgrades == 6
    ensures var f := Fan(t, trig);
      |f| == 3 && f[0] == FanBullet(t, trig, 0, 3) && FanOffset(0, 3) == -15.0 &&
      f[1] == FanBullet(t, trig, 1, 3) && FanOffset(1, 3) == 0.0 &&
      f[2] == FanBullet(t, trig, 2, 3) && FanOffset(2, 3) == 15.0
  {
  }

  /** Fire-rate gating: a second `shoot` at the same instant fires nothing,
      whatever the first did (fire delays are never negative). */
  lemma ShotTwice(t: TankState, now: int, trig: Trig)
    requires t.params.fireDelay >= 0.0
    ensures Shot(Shot(t, now, trig), now, trig) == Shot(t, now, trig)
  {
  }

  /** Fire-rate gating in general: once `shoot` has fired at `n1`, a call at
      any `n2` no more than the fire delay later fires nothing. */
  lemma ShotWithinDelay(t: TankState, n1: int, n2: int, trig: Trig)
    requires Ready(t, n1) && n1 <= n2 && (n2 - n1) as real <= t.params.fireDelay
    ensures Shot(Shot(t, n1, trig), n2, trig) == Shot(t, n1, trig)
  {
  }

  // ------------------------------------------------------------ bullet step

  /** `bullet['x'] += bullet['dx']; bullet['y'] += bullet['dy']` */
  function Moved(b: Bullet): Bullet
  {
    b.(x := b.x + b.dx, y := b.y + b.dy)
  }

  predicate Inside(b: Bullet)
  {
    InField(b.x, b.y)
  }

  /** Reference meaning of one frame's bullet step for one tank: every bullet
      moves by its velocity and those that end outside the field are dropped. */
  function Advanced(bs: seq<Bullet>): (r: seq<Bullet>)
    ensures |r| <= |bs|
    ensures forall k :: 0 <= k < |r| ==> Inside(r[k])
  {
    if bs == [] then []
    else
      var last := Moved(bs[|bs| - 1]);
      Advanced(bs[..|bs| - 1]) + (if Inside(last) then [last] else [])
  }

  /** Stepping one more bullet of the copy extends the survivors by at most that bullet. */
  lemma AdvancedSnoc(bs: seq<Bullet>, i: nat)
    requires i < |bs|
    ensures Advanced(bs[..i + 1]) ==
      Advanced(bs[..i]) + (if Inside(Moved(bs[i])) then [Moved(bs[i])] else [])
    ensures Moved(bs[i]) !in Advanced(bs[..i]) || Inside(Moved(bs[i]))
  {
    assert bs[..i + 1][..i] == bs[..i];
  }

  /** One turn of the bullet loop: with the first `i` bullets of the copy
      already stepped (list `cur`), moving bullet `i` in place and removing
      the first bullet equal to it when it has left the field steps `i + 1`
      bullets. */
  lemma StepOne(copy: seq<Bullet>, i: nat, cur: seq<Bullet>, next: seq<Bullet>)
    requires i < |copy| && cur == Advanced(copy[..i]) + copy[i..]
    requires next == Advanced(copy[..i + 1]) + copy[i + 1..]
    ensures var k := |Advanced(copy[..i])|; var b := Moved(copy[i]);
      k < |cur| &&
      (Inside(b) ==> cur[..k] + [b] + cur[k + 1..] == next && |Advanced(copy[..i + 1])| == k + 1) &&
      (!Inside(b) ==> RemoveFirst(cur[..k] + [b] + cur[k + 1..], b) == next && |Advanced(copy[..i + 1])| == k)
  {
    var pre := Advanced(copy[..i]);
    var b := Moved(copy[i]);
    AdvancedSnoc(copy, i);
    assert cur[..|pre|] == pre;
    assert cur[|pre| + 1..] == copy[i + 1..];
    var upd := cur[..|pre|] + [b] + cur[|pre| + 1..];
    assert upd == pre + [b] + copy[i + 1..];
    if !Inside(b) {
      RemoveFirstAt(pre, b, copy[i + 1..]);
    }
  }

  /** The positions in `bs` of the bullets that survive the step, in order. */
  ghost function Survivors(bs: seq<Bullet>): seq<int>
  {
    if bs == [] then []
    else Survivors(bs[..|bs| - 1]) + (if Inside(Moved(bs[|bs| - 1])) then [|bs| - 1] else [])
  }

  /** The step adds no bullet and keeps the survivors' order: the result is the
      moved bullets at strictly increasing positions of the input, and a
      bullet is dropped exactly when it ends outside the field. */
  lemma {:induction false} AdvancedKeepsOrder(bs: seq<Bullet>)
    ensures var ix := Survivors(bs);
      |ix| == |Advanced(bs)| &&
      (forall k :: 0 <= k < |ix| ==> 0 <= ix[k] < |bs| && Advanced(bs)[k] == Moved(bs[ix[k]])) &&
      (forall k, m :: 0 <= k < m < |ix| ==> ix[k] < ix[m]) &&
      (forall j :: 0 <= j < |bs| ==> (j in ix <==> Inside(Moved(bs[j]))))
  {
    if bs != [] {
      var init := bs[..|bs| - 1];
      AdvancedKeepsOrder(init);
      var ix0 := Survivors(init);
      assert forall k :: 0 <= k < |ix0| ==> ix0[k] < |init|;
      forall j | 0 <= j < |init| ensures bs[j] == init[j] { }
    }
  }

  // ----------------------------------------------------------------- class

  class Tank {
    var x: real
    var y: real
    var angle: real
    var bullets: seq<Bullet>
    const isBot: bool
    var lastShot: int
    var params: Params

    function State(): TankState
      reads this
    {
      TankState(x, y, angle, bullets, isBot, lastShot, params)
    }

    /** `Tank(x, y, is_bot, level)` */
    constructor (x0: real, y0: real, bot: bool, level: int)
      requires bot ==> GetParams(level).enemyFireRate != 0.0
      ensures State() == Spawned(x0, y0, bot, level)
    {
      x, y, angle := x0, y0, 0.0;
      bullets := [];
      isBot := bot;
      lastShot := 0;
      params := BaseParams(bot);
      new;
      if bot {
        InitBot(level);
      }
    }

    /** `_init_bot(level)` */
    method InitBot(level: int)
      requires GetParams(level).enemyFireRate != 0.0
      modifies this
      ensures State() == old(State()).(params := BotParams(old(params), level))
    {
      var lp := GetParams(level);
      params := params.(speed := BaseTankSpeed * lp.enemySpeed,
                        health := lp.enemyHealth,
                        maxHealth := lp.enemyHealth,
                        fireDelay := 1500.0 / lp.enemyFireRate,
                        bulletSpeed := BaseBulletSpeed * 1.1);
    }

    /** `shoot()`, with the clock reading `now` and the trigonometry passed in. */
    method Shoot(now: int, trig: Trig)
      modifies this
      ensures State() == Shot(old(State()), now, trig)
    {
      if (now - lastShot) as real > params.fireDelay {
        ghost var t := State();
        ghost var fan := Fan(t, trig);
        var n := FanSize(params.upgrades);
        var i := 0;
        while i < n
          invariant 0 <= i <= |fan| && |fan| == if n <= 0 then 0 else n
          invariant x == t.x && y == t.y && angle == t.angle && params == t.params && lastShot == t.lastShot
          invariant bullets == t.bullets + fan[..i]
        {
          var a := angle + FanOffset(i, n);
          var b := Bullet(x + trig.cosDeg(a) * Muzzle,
                          y - trig.sinDeg(a) * Muzzle,
                          trig.cosDeg(a) * params.bulletSpeed,
                          -trig.sinDeg(a) * params.bulletSpeed,
                          params.damage);
          assert b == fan[i];
          assert fan[..i + 1] == fan[..i] + [b];
          bullets := bullets + [b];
          i := i + 1;
        }
        assert fan[..i] == fan;
        lastShot := now;
      }
    }

    /** One turn of the bullet loop: move bullet `i` of the copy, which sits
        at position `kept` of the list, and remove it by value if it left the field. */
    method AdvanceOne(copy: seq<Bullet>, i: nat, kept: nat) returns (kept': nat)
      requires i < |copy| && kept == |Advanced(copy[..i])|
      requires bullets == Advanced(copy[..i]) + copy[i..]
      modifies this
      ensures kept' == |Advanced(copy[..i + 1])|
      ensures bullets == Advanced(copy[..i + 1]) + copy[i + 1..]
      ensures State() == old(State()).(bullets := bullets)
    {
      StepOne(copy, i, bullets, Advanced(copy[..i + 1]) + copy[i + 1..]);
      var b := Moved(copy[i]);
      var moved := bullets[..kept] + [b] + bullets[kept + 1..];
      if InField(b.x, b.y) {
        bullets, kept' := moved, kept + 1;
      } else {
        bullets, kept' := RemoveFirst(moved, b), kept;
      }
    }

    /** The bullet loop of the frame for this tank (tank_game.py:284-288):
        each bullet of a copy of the list is moved in place and, when it has
        left the field, `bullets.remove(bullet)` takes out the first bullet
        equal to it, which is always the bullet itself. */
    method AdvanceBullets()
      modifies this
      ensures State() == old(State()).(bullets := Advanced(old(bullets)))
    {
      var copy := bullets;
      var kept := 0;
      for i := 0 to |copy|
        invariant kept == |Advanced(copy[..i])|
        invariant bullets == Advanced(copy[..i]) + copy[i..]
        invariant State() == old(State()).(bullets := bullets)
      {
        kept := AdvanceOne(copy, i, kept);
      }
      assert copy[..|copy|] == copy;
    }
  }
}
