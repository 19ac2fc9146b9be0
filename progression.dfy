/** The weapon progression the player earns with every kill:
    `GameSession.upgrade_weapon` (tank_game.py:240-260). */
module Progression {
  import opened Levels
  import opened Tanks

  function RMax(a: real, b: real): real { if a >= b then a else b }

  /** The player's parameters after one `upgrade_weapon()`: the counter goes
      up, then four independent tests on the new count, in the source's order. */
  function Upgraded(p: Params): Params
  {
    var u := p.upgrades + 1;
    var p1 := p.(upgrades := u);
    var p2 := if u % 2 == 0 then p1.(damage := p1.damage + 3) else p1;
    var p3 := if u % 3 == 0 then p2.(bulletSpeed := p2.bulletSpeed * 1.1) else p2;
    var p4 := if u % 5 == 0 then p3.(fireDelay := RMax(p3.fireDelay * 0.9, 200.0)) else p3;
    if u % 4 == 0 then
      p4.(maxHealth := p4.maxHealth + 10, health := Min(p4.health + 10, p4.maxHealth + 10))
    else p4
  }

  /** One upgrade, field by field: each improvement happens exactly at the
      multiples the source tests for, independently of the others, and the
      movement speed never changes. */
  lemma UpgradeEffect(p: Params)
    ensures var q := Upgraded(p); var u := p.upgrades + 1;
      q.upgrades == u && q.speed == p.speed &&
      q.damage == p.damage + (if u % 2 == 0 then 3 else 0) &&
      q.bulletSpeed == (if u % 3 == 0 then p.bulletSpeed * 1.1 else p.bulletSpeed) &&
      q.maxHealth == p.maxHealth + (if u % 4 == 0 then 10 else 0) &&
      q.health == (if u % 4 == 0 then Min(p.health + 10, p.maxHealth + 10) else p.health) &&
      q.fireDelay == (if u % 5 == 0 then RMax(0.9 * p.fireDelay, 200.0) else p.fireDelay)
  {
  }

  /** The fire delay never drops below the 200 ms floor and never rises from
      at or above it; player health stays within its maximum. */
  lemma UpgradeBounds(p: Params)
    ensures p.fireDelay >= 200.0 ==> 200.0 <= Upgraded(p).fireDelay <= p.fireDelay
    ensures p.health <= p.maxHealth ==>
      p.health <= Upgraded(p).health <= Upgraded(p).maxHealth
  {
  }

  /** The parameters after `n` kills in a row. */
  function UpgradedN(p: Params, n: nat): Params
  {
    if n == 0 then p else Upgraded(UpgradedN(p, n - 1))
  }

  /** `x` multiplied `k` times by 1.1: the bullet speed after `k` boosts. */
  function Boosted(x: real, k: int): real
    decreases k
  {
    if k <= 0 then x else Boosted(x, k - 1) * 1.1
  }

  /** `x` multiplied `k` times by 0.9: the fire delay after `k` cuts, before the floor. */
  function Shortened(x: real, k: int): real
    decreases k
  {
    if k <= 0 then x else Shortened(x, k - 1) * 0.9
  }

  /** How many multiples of `m` lie in `(u, u + n]`, counted one kill at a time. */
  function Multiples(u: int, n: int, m: int): (r: int)
    requires m > 0
    ensures 0 <= r && (n >= 0 ==> r <= n)
    decreases n
  {
    if n <= 0 then 0
    else Multiples(u, n - 1, m) + if (u + n) % m == 0 then 1 else 0
  }

  /** The count in closed form, for the moduli the upgrades test. */
  lemma {:induction false} MultiplesClosedForm(u: int, n: nat, m: int)
    requires m == 2 || m == 3 || m == 4 || m == 5
    ensures Multiples(u, n, m) == (u + n) / m - u / m
  {
    if n > 0 {
      MultiplesClosedForm(u, n - 1, m);
      if m == 2 {
        assert (u + n) / 2 - (u + n - 1) / 2 == if (u + n) % 2 == 0 then 1 else 0;
      } else if m == 3 {
        assert (u + n) / 3 - (u + n - 1) / 3 == if (u + n) % 3 == 0 then 1 else 0;
      } else if m == 4 {
        assert (u + n) / 4 - (u + n - 1) / 4 == if (u + n) % 4 == 0 then 1 else 0;
      } else {
        assert (u + n) / 5 - (u + n - 1) / 5 == if (u + n) % 5 == 0 then 1 else 0;
      }
    }
  }

  /** The counter fields of `UpgradeEffect` on their own, so that the
      inductions over kills below see only what each of them needs. */
  lemma UpgradeCounters(p: Params)
    ensures var q := Upgraded(p); var u := p.upgrades + 1;
      q.upgrades == u && q.speed == p.speed &&
      q.damage == p.damage + (if u % 2 == 0 then 3 else 0) &&
      q.maxHealth == p.maxHealth + (if u % 4 == 0 then 10 else 0)
  {
    UpgradeEffect(p);
  }

  /** Upgrade determinism, counters: after `n` kills the counter, damage and
      maximum health are fixed by how many multiples of 2 and 4 the counter
      passed, and the movement speed is untouched. */
  lemma {:induction false} KillsCounters(p: Params, n: nat)
    ensures var q := UpgradedN(p, n); var u := p.upgrades;
      q.upgrades == u + n && q.speed == p.speed &&
      q.damage == p.damage + 3 * Multiples(u, n, 2) &&
      q.maxHealth == p.maxHealth + 10 * Multiples(u, n, 4)
  {
    if n > 0 {
      KillsCounters(p, n - 1);
      KillsCount(p, n - 1);
      UpgradeCounters(UpgradedN(p, n - 1));
    }
  }

  lemma {:induction false} KillsCount(p: Params, n: nat)
    ensures UpgradedN(p, n).upgrades == p.upgrades + n
  {
    if n > 0 {
      KillsCount(p, n - 1);
    }
  }

  /** The bullet-speed field of `UpgradeEffect` on its own. */
  lemma UpgradeBulletSpeed(p: Params)
    ensures Upgraded(p).bulletSpeed ==
      if (p.upgrades + 1) % 3 == 0 then p.bulletSpeed * 1.1 else p.bulletSpeed
  {
    UpgradeEffect(p);
  }

  /** The fire-delay field of `UpgradeEffect` on its own. */
  lemma UpgradeFireDelay(p: Params)
    ensures Upgraded(p).fireDelay ==
      if (p.upgrades + 1) % 5 == 0 then RMax(p.fireDelay * 0.9, 200.0) else p.fireDelay
  {
    UpgradeEffect(p);
  }

  /** Upgrade determinism, bullet speed: multiplied by 1.1 once per multiple of 3. */
  lemma {:induction false} KillsBulletSpeed(p: Params, n: nat)
    ensures UpgradedN(p, n).bulletSpeed == Boosted(p.bulletSpeed, Multiples(p.upgrades, n, 3))
  {
    if n > 0 {
      var q0 := UpgradedN(p, n - 1);
      KillsBulletSpeed(p, n - 1);
      KillsCount(p, n - 1);
      UpgradeBulletSpeed(q0);
      assert UpgradedN(p, n).bulletSpeed == Upgraded(q0).bulletSpeed;
      var k0 := Multiples(p.upgrades, n - 1, 3);
      assert k0 >= 0 && q0.upgrades + 1 == p.upgrades + n;
      if (p.upgrades + n) % 3 == 0 {
        assert Boosted(p.bulletSpeed, k0 + 1) == Boosted(p.bulletSpeed, k0) * 1.1;
      }
    }
  }

  /** Upgrade determinism, fire delay: multiplied by 0.9 once per multiple of
      5 passed, floored at 200 as soon as there was one. */
  lemma {:induction false} KillsFireDelay(p: Params, n: nat)
    ensures var k := Multiples(p.upgrades, n, 5);
      UpgradedN(p, n).fireDelay ==
        if k == 0 then p.fireDelay else RMax(Shortened(p.fireDelay, k), 200.0)
  {
    if n > 0 {
      var q0 := UpgradedN(p, n - 1);
      KillsFireDelay(p, n - 1);
      KillsCount(p, n - 1);
      assert q0.upgrades + 1 == p.upgrades + n;
      FireDelayStep(q0, p.fireDelay, Multiples(p.upgrades, n - 1, 5));
      assert UpgradedN(p, n).fireDelay == Upgraded(q0).fireDelay;
    }
  }

  /** One kill in the fire-delay induction: `k` cuts so far, one more when the
      new count is a multiple of 5. */
  lemma FireDelayStep(q: Params, x: real, k: int)
    requires k >= 0
    requires q.fireDelay == if k == 0 then x else RMax(Shortened(x, k), 200.0)
    ensures var k' := k + if (q.upgrades + 1) % 5 == 0 then 1 else 0;
      Upgraded(q).fireDelay == if k' == 0 then x else RMax(Shortened(x, k'), 200.0)
  {
    UpgradeFireDelay(q);
    if (q.upgrades + 1) % 5 == 0 {
      var c := Shortened(x, k);
      assert Shortened(x, k + 1) == c * 0.9;
      if k > 0 {
        FloorTwice(c);
      }
    }
  }

  /** Flooring at 200 before a cut by 10% changes nothing once the result is floored again. */
  lemma FloorTwice(c: real)
    ensures RMax(RMax(c, 200.0) * 0.9, 200.0) == RMax(c * 0.9, 200.0)
  {
  }

  /** Kills never lower the player's health, and it stays within its maximum. */
  lemma {:induction false} KillsHealth(p: Params, n: nat)
    requires p.health <= p.maxHealth
    ensures p.health <= UpgradedN(p, n).health <= UpgradedN(p, n).maxHealth
  {
    if n > 0 {
      KillsHealth(p, n - 1);
      UpgradeBounds(UpgradedN(p, n - 1));
    }
  }

  /** Kills in two runs make the same weapon as one run of them all. */
  lemma {:induction false} UpgradedNAdd(p: Params, a: nat, b: nat)
    ensures UpgradedN(p, a + b) == UpgradedN(UpgradedN(p, a), b)
  {
    if b > 0 {
      UpgradedNAdd(p, a, b - 1);
    }
  }

  /** The first six kills from the player's starting weapon. */
  lemma SixKills()
    ensures UpgradedN(BaseParams(false), 6) == Params(2.5, 9.68, 110, 110, 540.0, 29, 6)
  {
    var p := BaseParams(false);
    assert UpgradedN(p, 1) == Params(2.5, 8.0, 100, 100, 600.0, 20, 1);
    assert UpgradedN(p, 2) == Params(2.5, 8.0, 100, 100, 600.0, 23, 2);
    assert UpgradedN(p, 3) == Params(2.5, 8.8, 100, 100, 600.0, 23, 3);
    assert UpgradedN(p, 4) == Params(2.5, 8.8, 110, 110, 600.0, 26, 4);
    assert UpgradedN(p, 5) == Params(2.5, 8.8, 110, 110, 540.0, 26, 5);
  }

  /** Kills seven to twelve, from the weapon six kills make. */
  lemma NextSixKills()
    ensures UpgradedN(Params(2.5, 9.68, 110, 110, 540.0, 29, 6), 6) ==
      Params(2.5, 11.7128, 130, 130, 486.0, 38, 12)
  {
    var q := Params(2.5, 9.68, 110, 110, 540.0, 29, 6);
    assert UpgradedN(q, 1) == Params(2.5, 9.68, 110, 110, 540.0, 29, 7);
    assert UpgradedN(q, 2) == Params(2.5, 9.68, 120, 120, 540.0, 32, 8);
    assert UpgradedN(q, 3) == Params(2.5, 10.648, 120, 120, 540.0, 32, 9);
    assert UpgradedN(q, 4) == Params(2.5, 10.648, 120, 120, 486.0, 35, 10);
    assert UpgradedN(q, 5) == Params(2.5, 10.648, 120, 120, 486.0, 35, 11);
  }

  /** The table of the first twelve kills, from the player's starting weapon:
      damage 38, bullet speed 8 * 1.1^4, fire delay 600 * 0.9^2, maximum and
      current health 130. */
  lemma TwelveKills()
    ensures UpgradedN(BaseParams(false), 12) ==
      Params(2.5, 11.7128, 130, 130, 486.0, 38, 12)
  {
    SixKills();
    NextSixKills();
    UpgradedNAdd(BaseParams(false), 6, 6);
  }

  /** Starting from the player's weapon, the fire delay stays in [200, 600]
      forever, damage and maximum health only grow, and health stays within
      its maximum. */
  lemma PlayerWeaponBounds(n: nat)
    ensures var q := UpgradedN(BaseParams(false), n);
      200.0 <= q.fireDelay <= 600.0 && q.damage >= 20 && q.maxHealth >= 100 &&
      q.health <= q.maxHealth && q.upgrades == n
  {
    var p := BaseParams(false);
    KillsCounters(p, n);
    KillsHealth(p, n);
    KillsFireDelay(p, n);
    Shrinks(600.0, Multiples(0, n, 5));
  }

  lemma {:induction false} Shrinks(x: real, k: int)
    requires 0.0 <= x
    ensures 0.0 <= Shortened(x, k) <= x
  {
    if k > 0 {
      Shrinks(x, k - 1);
    }
  }
}
