/** The Explode component: a fuse started at Start, checked every Update, and
    a detonation that pushes every rigidbody in range and sends linear-falloff
    damage to every collider whose centre lies within the radius. */
module Explosives {
  import opened Engine
  import Rounding
  import Contact

  /** The inspector fields of Explode. */
  datatype Settings = Settings(
    radius: real,
    power: real,
    upwards: real,
    timer: real,
    damage: int,
    effectLifetime: real)

  /** The field initialisers of Explode. */
  const Defaults: Settings := Settings(20.0, 300.0, 3.0, 5.0, 50, 4.0)

  /** An Explode component added at runtime by a thrower: timer 3, radius 5
      and power 300, the other fields at their initialisers. */
  const Scripted: Settings := Defaults.(timer := 3.0, radius := 5.0, power := 300.0)

  /** The parts of a grenade prefab that matter to the combat core: a
      rigidbody, an Explode component with its settings, and a GrenadeContact
      component with its impact-speed threshold. */
  datatype Grenade = Grenade(hasRigidbody: bool, explode: Option<Settings>, contactThreshold: Option<real>)

  /** A grenade object in the scene. Its GrenadeContact, if any, has run
      Awake and so knows whether an Explode was present at that moment. */
  datatype Spawned = Spawned(hasRigidbody: bool, explode: Option<Settings>, contact: Option<Contact.GrenadeContact>)

  /** Instantiate: Awake runs on the copy at once, so a contact that came
      with the prefab sees exactly the prefab's own Explode. */
  function Instantiated(p: Grenade): Spawned
  {
    Spawned(
      p.hasRigidbody,
      p.explode,
      if p.contactThreshold.Some? then Some(Contact.GrenadeContact(p.contactThreshold.value, p.explode.Some?)) else None)
  }

  /** Damage at distance `dist` from the centre:
      max(0, RoundToInt(damage * (1 - dist / radius))). */
  function Falloff(damage: int, dist: real, radius: real): (dmg: int)
    requires radius > 0.0
    ensures dmg >= 0
    ensures dist == 0.0 && damage >= 0 ==> dmg == damage
    ensures dist == radius ==> dmg == 0
    ensures 0.0 <= dist && damage >= 0 ==> dmg <= damage
  {
    ScaledBounds(damage, dist, radius);
    ClampedRound(damage as real * (1.0 - dist / radius))
  }

  /** Mathf.Max(0, Mathf.RoundToInt(x)). */
  function ClampedRound(x: real): int
  {
    var r := Rounding.RoundToInt(x);
    if r < 0 then 0 else r
  }

  lemma ClampedRoundMonotone(x: real, y: real)
    requires x <= y
    ensures ClampedRound(x) <= ClampedRound(y)
  {
    Rounding.RoundToIntMonotone(x, y);
  }

  lemma ScaledBounds(damage: int, dist: real, radius: real)
    requires radius > 0.0
    ensures var r := Rounding.RoundToInt(damage as real * (1.0 - dist / radius));
      && (dist == 0.0 ==> r == damage)
      && (dist == radius ==> r == 0)
      && (0.0 <= dist && damage >= 0 ==> r <= damage)
  {
    var scaled := damage as real * (1.0 - dist / radius);
    if dist == 0.0 {
      assert scaled == damage as real;
      Rounding.RoundToIntOfInt(damage);
    }
    if dist == radius {
      assert scaled == 0.0;
      Rounding.RoundToIntOfInt(0);
    }
    if 0.0 <= dist && damage >= 0 {
      assert 0.0 <= dist / radius;
      MulMonotone(damage as real, 1.0 - dist / radius, 1.0);
      Rounding.RoundToIntMonotone(scaled, damage as real);
      Rounding.RoundToIntOfInt(damage);
    }
  }

  /** "Closer = more damage": the falloff never grows with the distance. */
  lemma FalloffNonIncreasing(damage: int, d1: real, d2: real, radius: real)
    requires radius > 0.0 && damage >= 0
    requires 0.0 <= d1 <= d2
    ensures Falloff(damage, d1, radius) >= Falloff(damage, d2, radius)
  {
    var x1, x2 := damage as real * (1.0 - d1 / radius), damage as real * (1.0 - d2 / radius);
    ScaledNonIncreasing(damage as real, d1, d2, radius);
    ClampedRoundMonotone(x2, x1);
  }

  /** A scripted grenade (radius 5, damage 50) deals half its damage at half
      its radius. */
  lemma ScriptedFalloffAtHalfRadius()
    ensures Falloff(Scripted.damage, 2.5, Scripted.radius) == 25
  {
    assert 50.0 * (1.0 - 2.5 / 5.0) == 25.0;
    Rounding.RoundToIntOfInt(25);
  }

  /** An exact half goes to the even neighbour: 2.5 rounds down to 2, 3.5 up
      to 4. */
  lemma FalloffTiesToEven()
    ensures Falloff(5, 1.0, 2.0) == 2
    ensures Falloff(7, 1.0, 2.0) == 4
  {
    assert 5.0 * (1.0 - 1.0 / 2.0) == 2.5;
    assert 7.0 * (1.0 - 1.0 / 2.0) == 3.5;
    Rounding.RoundToIntUnique(2.5, 2);
    Rounding.RoundToIntUnique(3.5, 4);
  }

  lemma ScaledNonIncreasing(k: real, d1: real, d2: real, radius: real)
    requires radius > 0.0 && k >= 0.0 && d1 <= d2
    ensures k * (1.0 - d2 / radius) <= k * (1.0 - d1 / radius)
  {
    DivMonotone(d1, d2, radius);
    MulMonotone(k, 1.0 - d2 / radius, 1.0 - d1 / radius);
  }

  lemma DivMonotone(a: real, b: real, r: real)
    requires a <= b && r > 0.0
    ensures a / r <= b / r
  {
    assert b / r - a / r == (b - a) / r;
  }

  lemma MulMonotone(k: real, a: real, b: real)
    requires 0.0 <= k && a <= b
    ensures k * a <= k * b
  {
    assert k * b - k * a == k * (b - a);
  }

  /** The requests a detonation makes for one overlapped collider: the force
      when it has a rigidbody, then the damage message when damage is enabled
      and the collider's centre is within the radius. */
  function ColliderRequests(s: Settings, c: Collider): seq<Request>
    requires s.radius > 0.0
  {
    (if c.hasRigidbody then [ApplyExplosionForce(c.id)] else [])
    + (if s.damage > 0 && c.distance <= s.radius
       then [SendTakeDamage(c.id, Falloff(s.damage, c.distance, s.radius))]
       else [])
  }

  /** The requests of the loop over all overlapped colliders, in overlap order. */
  function BlastRequests(s: Settings, cols: seq<Collider>): seq<Request>
    requires s.radius > 0.0
  {
    if cols == [] then []
    else BlastRequests(s, cols[..|cols| - 1]) + ColliderRequests(s, cols[|cols| - 1])
  }

  /** The requests made before the overlap query: the optional visual effect
      and the optional sound. */
  function EffectRequests(hasEffect: bool, hasSound: bool): seq<Request>
  {
    (if hasEffect then [SpawnExplosionEffect] else [])
    + (if hasSound then [PlayClip(ExplosionSound)] else [])
  }

  /** A force request for every collider that carries a rigidbody, in
      overlap order. */
  function WithRigidbody(cols: seq<Collider>): seq<Request>
  {
    if cols == [] then []
    else WithRigidbody(cols[..|cols| - 1])
         + (if cols[|cols| - 1].hasRigidbody then [ApplyExplosionForce(cols[|cols| - 1].id)] else [])
  }

  /** One damage message for every collider whose centre is within the
      radius, each computed from that collider's own distance. */
  function InRangeDamage(s: Settings, cols: seq<Collider>): seq<Request>
    requires s.radius > 0.0
  {
    if cols == [] then []
    else
      var c := cols[|cols| - 1];
      InRangeDamage(s, cols[..|cols| - 1])
      + (if c.distance <= s.radius then [SendTakeDamage(c.id, Falloff(s.damage, c.distance, s.radius))] else [])
  }

  /** Every overlapped collider with a rigidbody is pushed, exactly once and in
      overlap order, whatever the damage settings. */
  lemma {:induction false} BlastForces(s: Settings, cols: seq<Collider>)
    requires s.radius > 0.0
    ensures Select(BlastRequests(s, cols), IsForce) == WithRigidbody(cols)
    decreases |cols|
  {
    if cols != [] {
      var init, c := cols[..|cols| - 1], cols[|cols| - 1];
      BlastForces(s, init);
      ColliderSelections(s, c);
      SelectAppend(BlastRequests(s, init), ColliderRequests(s, c), IsForce);
    }
  }

  /** Damage messages are sent only when damage is enabled: then exactly one
      per collider within the radius, in overlap order, with that collider's
      own falloff. */
  lemma {:induction false} BlastDamage(s: Settings, cols: seq<Collider>)
    requires s.radius > 0.0
    ensures Select(BlastRequests(s, cols), IsDamage) == if s.damage > 0 then InRangeDamage(s, cols) else []
    decreases |cols|
  {
    if cols != [] {
      var init, c := cols[..|cols| - 1], cols[|cols| - 1];
      BlastDamage(s, init);
      ColliderSelections(s, c);
      SelectAppend(BlastRequests(s, init), ColliderRequests(s, c), IsDamage);
    }
  }

  lemma ColliderSelections(s: Settings, c: Collider)
    requires s.radius > 0.0
    ensures Select(ColliderRequests(s, c), IsForce)
         == if c.hasRigidbody then [ApplyExplosionForce(c.id)] else []
    ensures Select(ColliderRequests(s, c), IsDamage)
         == if s.damage > 0 && c.distance <= s.radius
            then [SendTakeDamage(c.id, Falloff(s.damage, c.distance, s.radius))] else []
  {
    var f := if c.hasRigidbody then [ApplyExplosionForce(c.id)] else [];
    var d := if s.damage > 0 && c.distance <= s.radius
             then [SendTakeDamage(c.id, Falloff(s.damage, c.distance, s.radius))] else [];
    SelectAppend(f, d, IsForce);
    SelectAppend(f, d, IsDamage);
    if f != [] { SelectSingle(f[0], IsForce); SelectSingle(f[0], IsDamage); }
    if d != [] { SelectSingle(d[0], IsForce); SelectSingle(d[0], IsDamage); }
  }

  /** Every damage amount sent lies between 0 and the damage setting, and is
      sent to a collider within the radius. */
  lemma {:induction false} BlastDamageBounded(s: Settings, cols: seq<Collider>, k: nat)
    requires s.radius > 0.0
    requires k < |BlastRequests(s, cols)| && BlastRequests(s, cols)[k].SendTakeDamage?
    ensures 0 <= BlastRequests(s, cols)[k].amount <= s.damage
    ensures exists c :: c in cols && c.id == BlastRequests(s, cols)[k].target && c.distance <= s.radius
    decreases |cols|
  {
    var init, c := cols[..|cols| - 1], cols[|cols| - 1];
    var prefix := BlastRequests(s, init);
    if k < |prefix| {
      BlastDamageBounded(s, init, k);
      var w :| w in init && w.id == prefix[k].target && w.distance <= s.radius;
      assert w in cols;
    } else {
      assert c in cols;
    }
  }

  /** The Explode component. */
  class Explode {
    var settings: Settings
    var timeLimit: real
    var hasEffect: bool   // explosionEffect assigned
    var hasSound: bool    // explosionSound assigned

    constructor ()
      ensures settings == Defaults && !hasEffect && !hasSound && timeLimit == 0.0
    {
      settings := Defaults;
      timeLimit := 0.0;
      hasEffect, hasSound := false, false;
    }

    /** Start: the fuse runs out `timer` seconds from now. */
    method Start(now: real)
      modifies this`timeLimit
      ensures timeLimit == now + settings.timer
    {
      timeLimit := now + settings.timer;
    }

    /** Update: detonates exactly when the fuse has run out (the comparison is
        inclusive) and does nothing before. */
    method Update(now: real, overlap: real -> seq<Collider>) returns (rs: seq<Request>)
      requires settings.radius > 0.0
      ensures now >= timeLimit ==>
        rs == EffectRequests(hasEffect, hasSound) + BlastRequests(settings, overlap(settings.radius)) + [DestroySelf]
      ensures rs != [] <==> now >= timeLimit
    {
      rs := [];
      if now >= timeLimit {
        rs := Detonate(overlap);
      }
    }

    /** Detonate: the effect and sound, then for each collider found by the
        overlap query at `radius` its force and damage, then destruction of the
        grenade itself. `overlap` stands for Physics.OverlapSphere around the
        grenade's position. */
    method Detonate(overlap: real -> seq<Collider>) returns (rs: seq<Request>)
      requires settings.radius > 0.0
      ensures rs == EffectRequests(hasEffect, hasSound) + BlastRequests(settings, overlap(settings.radius)) + [DestroySelf]
      ensures rs[|rs| - 1] == DestroySelf
    {
      rs := EffectRequests(hasEffect, hasSound);
      ghost var pre := rs;
      var colliders := overlap(settings.radius);
      var i := 0;
      while i < |colliders|
        invariant 0 <= i <= |colliders|
        invariant rs == pre + BlastRequests(settings, colliders[..i])
      {
        var col := colliders[i];
        if col.hasRigidbody {
          rs := rs + [ApplyExplosionForce(col.id)];
        }
        if settings.damage > 0 {
          var dist := col.distance;
          if dist <= settings.radius {
            var dmg := Falloff(settings.damage, dist, settings.radius);
            rs := rs + [SendTakeDamage(col.id, dmg)];
          }
        }
        assert colliders[..i + 1][..i] == colliders[..i];
        i := i + 1;
      }
      assert colliders[..i] == colliders;
      rs := rs + [DestroySelf];
    }
  }
}
