/// `Health`, hit invincibility, and the damage and death rules of the
/// `HealthManager`. Health amounts and times are reals.
module Healths {
  import opened Common

  /// The `Health` component.
  datatype Health = Health(amount: real, maxHealth: real, destroyOnDeath: bool)
  {
    /// `is_dead`
    predicate IsDead()
    {
      amount <= 0.0
    }
  }

  /// `Health::new`: full health, kept after death.
  function NewHealth(maxHealth: real): (h: Health)
    ensures h.amount == h.maxHealth == maxHealth && !h.destroyOnDeath
    ensures h.IsDead() <==> maxHealth <= 0.0
  {
    Health(maxHealth, maxHealth, false)
  }

  /// `Health::new_destroy_on_death`: full health, despawned at death.
  function NewDestroyOnDeath(maxHealth: real): (h: Health)
    ensures h.amount == h.maxHealth == maxHealth && h.destroyOnDeath
    ensures h.IsDead() <==> maxHealth <= 0.0
  {
    Health(maxHealth, maxHealth, true)
  }

  /// The `HealthHitInvincibilityTime` component.
  datatype Invincibility = Invincibility(invincibilityTime: real, lastHitTime: Option<real>)

  /// `HealthHitInvincibilityTime::new`: never hit yet.
  function NewInvincibility(invincibilityTime: real): (v: Invincibility)
    ensures v.invincibilityTime == invincibilityTime && v.lastHitTime.None?
  {
    Invincibility(invincibilityTime, None)
  }

  /// Events written by `damage`.
  datatype DamageTaken = DamageTaken(entity: Entity, amount: real, newHp: real)
  datatype Death = Death(entity: Entity)

  /// A hit at time `now` is ignored: the entity is already dead, or it was
  /// hit no longer than its invincibility time ago.
  predicate Shielded(h: Health, inv: Option<Invincibility>, now: real)
  {
    || h.IsDead()
    || (inv.Some? && inv.value.lastHitTime.Some?
        && now <= inv.value.lastHitTime.value + inv.value.invincibilityTime)
  }

  /// The effect of one call of `damage` on one entity's components.
  datatype Hit = Hit(dealt: Option<real>, health: Health, invincibility: Option<Invincibility>,
                     damageTaken: Option<DamageTaken>, death: Option<Death>)

  /// One call of `damage(entity, amount)` at time `now`, as a function of
  /// the entity's components.
  function HitOf(entity: Entity, h: Health, inv: Option<Invincibility>, now: real, amount: real): Hit
  {
    if h.amount <= 0.0 then Hit(None, h, inv, None, None)
    else if inv.Some? && inv.value.lastHitTime.Some?
         && now <= inv.value.lastHitTime.value + inv.value.invincibilityTime then
      Hit(None, h, inv, None, None)
    else
      var inv' := if inv.Some? then Some(inv.value.(lastHitTime := Some(now))) else None;
      var h' := h.(amount := h.amount - amount);
      if h'.IsDead() then Hit(Some(amount), h', inv', None, Some(Death(entity)))
      else Hit(Some(amount), h', inv', Some(DamageTaken(entity, amount, h'.amount)), None)
  }

  /// What a hit does: a shielded entity is left exactly as it was and no
  /// event is sent; otherwise the full amount is taken off, the hit time is
  /// recorded when the entity has an invincibility window, and exactly one
  /// event is sent: `Death` when the new amount is at most zero, otherwise
  /// `DamageTaken` with the new amount.
  lemma HitEffect(entity: Entity, h: Health, inv: Option<Invincibility>, now: real, amount: real)
    ensures var o := HitOf(entity, h, inv, now, amount);
      && (o.dealt.None? <==> Shielded(h, inv, now))
      && (o.dealt.None? ==> o.health == h && o.invincibility == inv && o.damageTaken.None? && o.death.None?)
      && (o.dealt.Some? ==>
            && o.dealt.value == amount
            && o.health == h.(amount := h.amount - amount)
            && o.invincibility.Some? == inv.Some?
            && (inv.Some? ==> o.invincibility.value == inv.value.(lastHitTime := Some(now)))
            && (o.death.Some? <==> o.health.IsDead())
            && (o.death.Some? ==> o.death.value == Death(entity) && o.damageTaken.None?)
            && (o.death.None? ==> o.damageTaken == Some(DamageTaken(entity, amount, o.health.amount))))
  {
  }

  /// A dead entity takes no more hits, so it sends `Death` at most once
  /// while no hit heals it.
  lemma {:induction false} DeadStaysDead(entity: Entity, h: Health, inv: Option<Invincibility>,
                                         hits: seq<(real, real)>)
    requires h.IsDead()
    ensures var o := HitsOf(entity, h, inv, hits);
      o.0 == h && o.1 == inv && o.2 == []
  {
    if hits != [] {
      DeadStaysDead(entity, h, inv, hits[..|hits| - 1]);
    }
  }

  /// A sequence of `(time, amount)` hits on one entity: final health,
  /// final invincibility and the `Death` events sent, in order.
  function HitsOf(entity: Entity, h: Health, inv: Option<Invincibility>, hits: seq<(real, real)>)
    : (Health, Option<Invincibility>, seq<Death>)
  {
    if hits == [] then (h, inv, [])
    else
      var before := HitsOf(entity, h, inv, hits[..|hits| - 1]);
      var last := hits[|hits| - 1];
      var o := HitOf(entity, before.0, before.1, last.0, last.1);
      (o.health, o.invincibility, before.2 + if o.death.Some? then [o.death.value] else [])
  }

  /// Whatever the amounts, `Death` is sent at most once per entity: a dead
  /// entity ignores every later hit.
  lemma {:induction false} DeathSentAtMostOnce(entity: Entity, h: Health, inv: Option<Invincibility>,
                                               hits: seq<(real, real)>)
    ensures |HitsOf(entity, h, inv, hits).2| <= 1
    ensures |HitsOf(entity, h, inv, hits).2| == 1 ==> HitsOf(entity, h, inv, hits).0.IsDead()
  {
    if hits != [] {
      var prefix := hits[..|hits| - 1];
      DeathSentAtMostOnce(entity, h, inv, prefix);
      var before := HitsOf(entity, h, inv, prefix);
      if |before.2| == 1 {
        assert before.0.IsDead();
      }
    }
  }

  /// The invincibility window: right after a landed hit at `t`, a hit at
  /// any `t'` with `t' <= t + invincibilityTime` is ignored, and one after
  /// the window lands on a living entity.
  lemma InvincibilityWindow(entity: Entity, h: Health, v: Invincibility, t: real, a: real, t': real, a': real)
    requires !Shielded(h, Some(v), t)
    ensures var first := HitOf(entity, h, Some(v), t, a);
      var second := HitOf(entity, first.health, first.invincibility, t', a');
      && (t' <= t + v.invincibilityTime ==> second.dealt.None?)
      && (t' > t + v.invincibilityTime && !first.health.IsDead() ==> second.dealt == Some(a'))
  {
  }

  /// Two landed hits take off the sum of their amounts.
  lemma DamageAccumulates(entity: Entity, h: Health, t: real, a: real, t': real, a': real)
    requires !h.IsDead() && h.amount - a > 0.0
    ensures var first := HitOf(entity, h, None, t, a);
      HitOf(entity, first.health, None, t', a').health.amount == h.amount - (a + a')
  {
  }

  /// The `HealthManager` system parameter: the health components, the
  /// optional invincibility components, the clock and the two event queues.
  class HealthManager {
    var healths: map<Entity, Health>
    var invincibilities: map<Entity, Invincibility>
    var elapsed: real
    var damageTakenEvents: seq<DamageTaken>
    var deathEvents: seq<Death>

    constructor(healths: map<Entity, Health>, invincibilities: map<Entity, Invincibility>, elapsed: real)
      ensures this.healths == healths && this.invincibilities == invincibilities
      ensures this.elapsed == elapsed && damageTakenEvents == [] && deathEvents == []
    {
      this.healths := healths;
      this.invincibilities := invincibilities;
      this.elapsed := elapsed;
      damageTakenEvents := [];
      deathEvents := [];
    }

    /// `damage`: panics when the entity has no `Health`; otherwise applies
    /// `HitOf` at the current time to the entity's components and sends its
    /// event. Returns the amount dealt, or `None` for an ignored hit.
    method Damage(entity: Entity, amount: real) returns (r: Outcome<Option<real>>)
      modifies this
      ensures r.Panic? <==> entity !in old(healths)
      ensures r.Panic? ==> r.reason == NoHealthComponent && unchanged(this)
      ensures r.Ok? ==>
        var inv := if entity in old(invincibilities) then Some(old(invincibilities)[entity]) else None;
        var o := HitOf(entity, old(healths)[entity], inv, old(elapsed), amount);
        && r.value == o.dealt
        && healths == old(healths)[entity := o.health]
        && invincibilities == (if o.invincibility.Some? then old(invincibilities)[entity := o.invincibility.value]
                               else old(invincibilities))
        && damageTakenEvents == old(damageTakenEvents) + (if o.damageTaken.Some? then [o.damageTaken.value] else [])
        && deathEvents == old(deathEvents) + (if o.death.Some? then [o.death.value] else [])
        && elapsed == old(elapsed)
    {
      if entity !in healths {
        return Panic(NoHealthComponent);
      }
      var health := healths[entity];
      if health.amount <= 0.0 {
        return Ok(None);
      }
      if entity in invincibilities {
        var invincibility := invincibilities[entity];
        if invincibility.lastHitTime.Some?
           && elapsed <= invincibility.lastHitTime.value + invincibility.invincibilityTime {
          return Ok(None);
        } else {
          invincibilities := invincibilities[entity := invincibility.(lastHitTime := Some(elapsed))];
        }
      }
      health := health.(amount := health.amount - amount);
      healths := healths[entity := health];
      if health.IsDead() {
        deathEvents := deathEvents + [Death(entity)];
      } else {
        damageTakenEvents := damageTakenEvents + [DamageTaken(entity, amount, health.amount)];
      }
      return Ok(Some(amount));
    }
  }

  // ---------------------------------------------------------------------------
  // handle_death_events

  /// The entities despawned for a queue of `Death` events: those that still
  /// have a `Health` marked destroy-on-death, in event order.
  function Despawned(deaths: seq<Death>, healths: map<Entity, Health>): seq<Entity>
  {
    if deaths == [] then []
    else
      var rest := Despawned(deaths[..|deaths| - 1], healths);
      var e := deaths[|deaths| - 1].entity;
      if e in healths && healths[e].destroyOnDeath then rest + [e] else rest
  }

  /// An entity is despawned exactly when one of its deaths was reported and
  /// its health asks to be destroyed on death.
  lemma {:induction false} DespawnedExactly(deaths: seq<Death>, healths: map<Entity, Health>, e: Entity)
    ensures e in Despawned(deaths, healths) <==>
      Death(e) in deaths && e in healths && healths[e].destroyOnDeath
  {
    if deaths != [] {
      var prefix := deaths[..|deaths| - 1];
      DespawnedExactly(prefix, healths, e);
      assert deaths == prefix + [deaths[|deaths| - 1]];
    }
  }

  /// `handle_death_events`: reads the queued deaths and despawns the
  /// entities that are to be destroyed; events for entities without a
  /// `Health` are skipped.
  method HandleDeathEvents(deaths: seq<Death>, healths: map<Entity, Health>) returns (despawned: seq<Entity>)
    ensures despawned == Despawned(deaths, healths)
  {
    despawned := [];
    for k := 0 to |deaths|
      invariant despawned == Despawned(deaths[..k], healths)
    {
      assert deaths[..k + 1][..k] == deaths[..k];
      var death := deaths[k];
      if death.entity !in healths {
        continue;
      }
      var health := healths[death.entity];
      if health.destroyOnDeath {
        despawned := despawned + [death.entity];
      }
    }
    assert deaths[..|deaths|] == deaths;
  }
}
