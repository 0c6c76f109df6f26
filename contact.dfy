/** GrenadeContact: what a grenade does when it touches something. An enemy
    hit ragdolls the enemy and detonates at any speed; any other collision
    detonates only at or above the impact-speed threshold; a trigger entry
    applies the enemy rule alone. */
module Contact {
  import opened Engine

  /** The component's state after Awake: the threshold field and whether an
      Explode component was found on the grenade. */
  datatype GrenadeContact = GrenadeContact(impactSpeedThreshold: real, hasExplode: bool)

  /** The field initialiser of impactSpeedThreshold. */
  const DefaultImpactSpeedThreshold: real := 1.0

  /** What the grenade touched. */
  datatype Touch = Touch(
    throwerInParents: bool,   // GetComponentInParent<EnemyGrenadeThrower>() != null
    colliderTaggedEnemy: bool,
    rootTaggedEnemy: bool,
    relativeSpeed: NonNeg)    // collision.relativeVelocity.magnitude

  predicate IsEnemyHit(t: Touch)
  {
    t.throwerInParents || t.colliderTaggedEnemy || t.rootTaggedEnemy
  }

  /** The ragdoll request for an enemy hit: a direct call when the component
      was found, a message to the root otherwise. */
  function RagdollRequest(t: Touch): Request
  {
    if t.throwerInParents then CallEnterRagdoll else SendEnterRagdollToRoot
  }

  /** Detonation, or destruction of the grenade when it has no Explode. */
  function EndRequest(g: GrenadeContact): Request
  {
    if g.hasExplode then Detonate else DestroySelf
  }

  predicate Ends(r: Request)
  {
    r == Detonate || r == DestroySelf
  }

  predicate Ragdolls(r: Request)
  {
    r == CallEnterRagdoll || r == SendEnterRagdollToRoot
  }

  /** OnCollisionEnter. */
  function OnCollisionEnter(g: GrenadeContact, t: Touch): (rs: seq<Request>)
    // an enemy hit: ragdoll first, then end, at any speed
    ensures IsEnemyHit(t) ==> |rs| == 2 && Ragdolls(rs[0]) && Ends(rs[1])
    ensures IsEnemyHit(t) && t.throwerInParents ==> rs[0] == CallEnterRagdoll
    ensures IsEnemyHit(t) && !t.throwerInParents ==> rs[0] == SendEnterRagdollToRoot
    // anything else: end iff the speed reaches the threshold, never ragdoll
    ensures !IsEnemyHit(t) ==> |rs| <= 1 && forall r :: r in rs ==> Ends(r)
    ensures !IsEnemyHit(t) ==> (rs != [] <==> t.relativeSpeed >= g.impactSpeedThreshold)
    // at most one end request, detonation exactly when an Explode exists
    ensures |Select(rs, Ends)| <= 1
    ensures |Select(rs, Ends)| == 1 <==> IsEnemyHit(t) || t.relativeSpeed >= g.impactSpeedThreshold
    ensures g.hasExplode ==> DestroySelf !in rs
    ensures !g.hasExplode ==> Detonate !in rs
  {
    if IsEnemyHit(t) then
      [RagdollRequest(t), EndRequest(g)]
    else if t.relativeSpeed >= g.impactSpeedThreshold then
      [EndRequest(g)]
    else
      []
  }

  /** OnTriggerEnter: the enemy rule only. */
  function OnTriggerEnter(g: GrenadeContact, t: Touch): (rs: seq<Request>)
    ensures IsEnemyHit(t) ==> rs == OnCollisionEnter(g, t)
    ensures !IsEnemyHit(t) ==> rs == []
  {
    if IsEnemyHit(t) then [RagdollRequest(t), EndRequest(g)] else []
  }

  /** An enemy hit detonates whatever the relative speed, even at rest. */
  lemma EnemyHitIgnoresSpeed(g: GrenadeContact, t: Touch, speed: NonNeg)
    requires IsEnemyHit(t)
    ensures OnCollisionEnter(g, t.(relativeSpeed := speed)) == OnCollisionEnter(g, t)
    ensures OnTriggerEnter(g, t.(relativeSpeed := speed)) == OnTriggerEnter(g, t)
  {
  }

  /** A trigger entry never depends on the speed. */
  lemma TriggerIgnoresSpeed(g: GrenadeContact, t: Touch, speed: NonNeg)
    ensures OnTriggerEnter(g, t.(relativeSpeed := speed)) == OnTriggerEnter(g, t)
  {
  }
}
