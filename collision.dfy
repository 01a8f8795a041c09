/**
 * The damage rule shared by the balloon, moving platform and rotating beam
 * obstacles: each instance keeps `lastHitTime` (starting at 0) and deals
 * damage on a collision only when more than 2 seconds of clock time have
 * passed since the last damaging hit. The store's `takeDamage` is not defined
 * in the repository, so damage goes to an event log instead.
 */
module Collision {
  import opened RealMath

  const DAMAGE_COOLDOWN := 2.0

  /** `now - lastHitTime > 2`. */
  predicate CooledDown(lastHitTime: real, now: real)
  {
    now - lastHitTime > DAMAGE_COOLDOWN
  }

  /** `lastHitTime` after collisions at the clock times `hits`, oldest first. */
  function LastHitTime(hits: seq<real>): (r: real)
    ensures r == 0.0 || r in hits
  {
    if hits == [] then 0.0
    else
      var before := LastHitTime(hits[..|hits| - 1]);
      if CooledDown(before, Last(hits)) then Last(hits) else before
  }

  /** The clock times of those collisions in `hits` that dealt damage. */
  function DamageTimes(hits: seq<real>): (d: seq<real>)
    ensures |d| <= |hits|
    ensures forall i :: 0 <= i < |d| ==> d[i] in hits
  {
    if hits == [] then []
    else
      var before := hits[..|hits| - 1];
      DamageTimes(before) + (if CooledDown(LastHitTime(before), Last(hits)) then [Last(hits)] else [])
  }

  /** `lastHitTime` is the time of the latest damaging collision, or 0 if there was none. */
  lemma {:induction false} LastHitTimeIsLastDamage(hits: seq<real>)
    ensures LastHitTime(hits) == if DamageTimes(hits) == [] then 0.0 else Last(DamageTimes(hits))
  {
    if hits != [] {
      LastHitTimeIsLastDamage(hits[..|hits| - 1]);
    }
  }

  /**
   * Damage is never dealt in the first 2 seconds, and two damaging collisions
   * of one obstacle are always more than 2 seconds apart.
   */
  lemma {:induction false} DamageSpaced(hits: seq<real>)
    ensures forall j :: 0 <= j < |DamageTimes(hits)| ==> DamageTimes(hits)[j] > DAMAGE_COOLDOWN
    ensures forall i, j :: 0 <= i < j < |DamageTimes(hits)| ==>
              DamageTimes(hits)[j] - DamageTimes(hits)[i] > DAMAGE_COOLDOWN
  {
    if hits != [] {
      var before := hits[..|hits| - 1];
      DamageSpaced(before);
      LastHitTimeIsLastDamage(before);
    }
  }

  /** With `lastHitTime` starting at 0, no collision up to clock time 2 deals damage. */
  lemma NoDamageUntilCooldown(hits: seq<real>)
    requires forall i :: 0 <= i < |hits| ==> hits[i] <= DAMAGE_COOLDOWN
    ensures DamageTimes(hits) == []
  {
    DamageSpaced(hits);
  }

  /** Collisions that all fall within one 2-second window deal damage at most once. */
  lemma AtMostOneDamageWithinCooldown(hits: seq<real>, t0: real)
    requires forall i :: 0 <= i < |hits| ==> t0 <= hits[i] <= t0 + DAMAGE_COOLDOWN
    ensures |DamageTimes(hits)| <= 1
  {
    DamageSpaced(hits);
    FirstTwoWithin(DamageTimes(hits), hits, t0);
  }

  lemma FirstTwoWithin(d: seq<real>, hits: seq<real>, t0: real)
    requires forall i :: 0 <= i < |d| ==> d[i] in hits
    requires forall i :: 0 <= i < |hits| ==> t0 <= hits[i] <= t0 + DAMAGE_COOLDOWN
    ensures |d| >= 2 ==> d[1] - d[0] <= DAMAGE_COOLDOWN
  {
  }

  /** Two consecutive collisions at most 2 seconds apart add at most one damage event. */
  lemma TwoHitsOneDamage(earlier: seq<real>, a: real, b: real)
    requires b - a <= DAMAGE_COOLDOWN
    ensures |DamageTimes(earlier + [a, b])| <= |DamageTimes(earlier)| + 1
  {
    var h1 := earlier + [a];
    assert (earlier + [a, b])[..|earlier + [a, b]| - 1] == h1;
    assert h1[..|h1| - 1] == earlier;
    if CooledDown(LastHitTime(earlier), a) {
      assert LastHitTime(h1) == a;
    }
  }

  /** The damage sink: every `takeDamage(amount)` call, in order. */
  class DamageLog {
    var events: seq<int>

    constructor ()
      ensures events == []
    {
      events := [];
    }

    method TakeDamage(amount: int)
      modifies this
      ensures events == old(events) + [amount]
    {
      events := events + [amount];
    }
  }

  /** One obstacle's `lastHitTime` ref, with the collision times seen so far. */
  class Cooldown {
    var lastHitTime: real
    ghost var hits: seq<real>

    ghost predicate Valid()
      reads this
    {
      lastHitTime == LastHitTime(hits)
    }

    constructor ()
      ensures Valid() && hits == [] && lastHitTime == 0.0
    {
      lastHitTime := 0.0;
      hits := [];
    }

    /** A collision at clock time `now` that would deal `amount`. */
    method Hit(now: real, amount: int, log: DamageLog)
      requires Valid()
      modifies this, log
      ensures Valid() && hits == old(hits) + [now]
      ensures CooledDown(old(lastHitTime), now) ==>
                lastHitTime == now && log.events == old(log.events) + [amount]
      ensures !CooledDown(old(lastHitTime), now) ==>
                lastHitTime == old(lastHitTime) && log.events == old(log.events)
      ensures DamageTimes(hits)
              == DamageTimes(old(hits)) + (if CooledDown(old(lastHitTime), now) then [now] else [])
    {
      hits := hits + [now];
      assert hits[..|hits| - 1] == old(hits);
      if now - lastHitTime > DAMAGE_COOLDOWN {
        log.TakeDamage(amount);
        lastHitTime := now;
      }
    }
  }
}
