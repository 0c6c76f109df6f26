/** Mine: anyone who qualifies entering the trigger schedules a blast; the
    blast damages players by a flat amount, asks every collider it reaches to
    ragdoll, and destroys the mine. */
module Mines {
  import opened Engine

  /** Physics.OverlapSphere(transform.position, 2): the blast radius is a
      constant, not a field. */
  const BlastRadius: real := 2.0

  /** The inspector fields of Mine (`hasExplosion`: the explosion prefab is
      assigned), and whether it carries an AudioSource. */
  datatype Mine = Mine(hasExplosion: bool, explodeTime: real, damage: int, hasAudio: bool)

  /** The field initialisers (explodeTime 1, damage 10). */
  const DefaultExplodeTime: real := 1.0
  const DefaultDamage: int := 10

  /** A trigger entry qualifies when the collider is tagged Player or Enemy,
      or carries an EnemyGrenadeThrower. */
  predicate Qualifies(other: Collider)
  {
    other.tag == "Player" || other.tag == "Enemy" || other.hasThrower
  }

  /** OnTriggerEnter: play the mine's sound if it has one and schedule Explode
      after explodeTime; ignore everyone else. */
  function OnTriggerEnter(m: Mine, other: Collider): (rs: seq<Request>)
    ensures rs != [] <==> Qualifies(other)
    ensures Qualifies(other) ==> rs[|rs| - 1] == ScheduleExplode(m.explodeTime)
    ensures Qualifies(other) ==> (PlayClip(MineSound) in rs <==> m.hasAudio)
    ensures |Select(rs, IsSchedule)| == if Qualifies(other) then 1 else 0
  {
    SelectSingle(ScheduleExplode(m.explodeTime), IsSchedule);
    SelectSingle(PlayClip(MineSound), IsSchedule);
    SelectAppend([PlayClip(MineSound)], [ScheduleExplode(m.explodeTime)], IsSchedule);
    if Qualifies(other) then
      (if m.hasAudio then [PlayClip(MineSound)] else []) + [ScheduleExplode(m.explodeTime)]
    else []
  }

  /** The requests of a run of trigger entries, one after the other. */
  function OnTriggerEnters(m: Mine, others: seq<Collider>): seq<Request>
  {
    if others == [] then []
    else OnTriggerEnters(m, others[..|others| - 1]) + OnTriggerEnter(m, others[|others| - 1])
  }

  function QualifyingCount(others: seq<Collider>): nat
  {
    if others == [] then 0
    else QualifyingCount(others[..|others| - 1]) + (if Qualifies(others[|others| - 1]) then 1 else 0)
  }

  /** There is no armed guard: every qualifying entry schedules one more
      Explode, however many were scheduled before. */
  lemma {:induction false} EveryEntrySchedules(m: Mine, others: seq<Collider>)
    ensures |Select(OnTriggerEnters(m, others), IsSchedule)| == QualifyingCount(others)
    decreases |others|
  {
    if others != [] {
      var init := others[..|others| - 1];
      EveryEntrySchedules(m, init);
      SelectAppend(OnTriggerEnters(m, init), OnTriggerEnter(m, others[|others| - 1]), IsSchedule);
    }
  }

  /** The requests of the blast for one collider: flat damage for a player,
      then the ragdoll message for everyone. */
  function HitRequests(m: Mine, c: Collider): seq<Request>
  {
    (if c.tag == "Player" then [SendTakeDamage(c.id, m.damage)] else []) + [SendEnterRagdoll(c.id)]
  }

  function BlastRequests(m: Mine, cols: seq<Collider>): seq<Request>
  {
    if cols == [] then []
    else BlastRequests(m, cols[..|cols| - 1]) + HitRequests(m, cols[|cols| - 1])
  }

  /** Reference: flat damage to exactly the Player-tagged colliders, in order. */
  function PlayerDamage(m: Mine, cols: seq<Collider>): seq<Request>
  {
    if cols == [] then []
    else
      var c := cols[|cols| - 1];
      PlayerDamage(m, cols[..|cols| - 1]) + (if c.tag == "Player" then [SendTakeDamage(c.id, m.damage)] else [])
  }

  /** Reference: one ragdoll message per collider, in order. */
  function RagdollAll(cols: seq<Collider>): seq<Request>
  {
    if cols == [] then []
    else RagdollAll(cols[..|cols| - 1]) + [SendEnterRagdoll(cols[|cols| - 1].id)]
  }

  lemma HitSelections(m: Mine, c: Collider)
    ensures Select(HitRequests(m, c), IsDamage)
         == if c.tag == "Player" then [SendTakeDamage(c.id, m.damage)] else []
    ensures Select(HitRequests(m, c), IsRagdollMessage) == [SendEnterRagdoll(c.id)]
  {
    var d := if c.tag == "Player" then [SendTakeDamage(c.id, m.damage)] else [];
    SelectAppend(d, [SendEnterRagdoll(c.id)], IsDamage);
    SelectAppend(d, [SendEnterRagdoll(c.id)], IsRagdollMessage);
    SelectSingle(SendEnterRagdoll(c.id), IsDamage);
    SelectSingle(SendEnterRagdoll(c.id), IsRagdollMessage);
    if d != [] { SelectSingle(d[0], IsDamage); SelectSingle(d[0], IsRagdollMessage); }
  }

  /** Only players are damaged, each by the flat damage setting with no
      falloff; every collider reached gets the ragdoll message. */
  lemma {:induction false} BlastTargets(m: Mine, cols: seq<Collider>)
    ensures Select(BlastRequests(m, cols), IsDamage) == PlayerDamage(m, cols)
    ensures Select(BlastRequests(m, cols), IsRagdollMessage) == RagdollAll(cols)
    decreases |cols|
  {
    if cols != [] {
      var init, c := cols[..|cols| - 1], cols[|cols| - 1];
      BlastTargets(m, init);
      HitSelections(m, c);
      SelectAppend(BlastRequests(m, init), HitRequests(m, c), IsDamage);
      SelectAppend(BlastRequests(m, init), HitRequests(m, c), IsRagdollMessage);
    }
  }

  /** Explode: the explosion prefab, the overlap query at the constant radius,
      the per-collider messages, and destruction of the mine. `overlap`
      stands for Physics.OverlapSphere around the mine's position. Without an
      explosion prefab, Instantiate throws before anything else happens: no
      blast, and the mine stays. */
  method Explode(m: Mine, overlap: real -> seq<Collider>) returns (rs: seq<Request>)
    ensures !m.hasExplosion ==> rs == []
    ensures m.hasExplosion ==> rs == [SpawnExplosionEffect] + BlastRequests(m, overlap(BlastRadius)) + [DestroySelf]
  {
    if !m.hasExplosion {
      return [];
    }
    rs := [SpawnExplosionEffect];
    var cols := overlap(2.0);
    var i := 0;
    while i < |cols|
      invariant 0 <= i <= |cols|
      invariant rs == [SpawnExplosionEffect] + BlastRequests(m, cols[..i])
    {
      var col := cols[i];
      if col.tag == "Player" {
        rs := rs + [SendTakeDamage(col.id, m.damage)];
      }
      rs := rs + [SendEnterRagdoll(col.id)];
      assert cols[..i + 1][..i] == cols[..i];
      i := i + 1;
    }
    assert cols[..i] == cols;
    rs := rs + [DestroySelf];
  }
}
