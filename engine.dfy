/** The engine as the combat core sees it: colliders handed over by a physics
    query, and the calls and messages the core asks the engine to perform. */
module Engine {

  datatype Option<T> = None | Some(value: T)

  /** Identifies one collider returned by a physics query. */
  type ColliderId = nat

  /** A distance or a speed magnitude: never negative. */
  type NonNeg = x: real | 0.0 <= x

  /** One collider found by an overlap query. `distance` is the distance of
      the collider's transform from the centre of the query. */
  datatype Collider = Collider(
    id: ColliderId,
    tag: string,
    hasRigidbody: bool,   // GetComponent<Rigidbody>() != null
    hasThrower: bool,     // GetComponent<EnemyGrenadeThrower>() != null
    distance: NonNeg)

  /** The audio clips the core plays. */
  datatype Clip =
    | ExplosionSound | MineSound
    | ShootSound | DryFireSound | HitSound
    | PickAmmoSound | PickHealthSound | PickSound

  /** A request from the core to the engine, in the order it is made. */
  datatype Request =
    // physics and messaging
    | ApplyExplosionForce(target: ColliderId)          // rb.AddExplosionForce(power, origin, radius, upwards)
    | SendTakeDamage(target: ColliderId, amount: int)  // SendMessage("TakeDamage", amount)
    | SendTakeDamageNoAmount(target: ColliderId)       // SendMessage("TakeDamage") without an argument
    | SendEnterRagdoll(target: ColliderId)             // SendMessage("EnterRagdoll")
    | SendEnterRagdollToRoot                           // root.SendMessage("EnterRagdoll") on the contact's root
    | CallEnterRagdoll                                 // direct EnemyGrenadeThrower.EnterRagdoll() on the contact
    | Detonate                                         // Explode.Detonate() on this grenade
    | DestroySelf                                      // Destroy(gameObject)
    | DestroyComponent                                 // Destroy(this)
    // presentation
    | SpawnExplosionEffect
    | PlayClip(clip: Clip)
    | InstantiateRifle
    | ItemUpdate(itemName: string)
    | HealthUpdate(health: int)
    | AmmoUpdate(ammo: int)
    // scheduling
    | ScheduleExplode(delay: real)                     // Invoke("Explode", delay)
    | ScheduleSpawnAndThrow(delay: real)               // coroutine resumes after WaitForSeconds(delay)
    // enemy movement and animation
    | SetDestination                                   // agent.SetDestination(player.position)
    | StepTowardPlayer                                 // fallback MoveTowards step and heading
    | SnapToGround                                     // fallback downward ground probe
    | SetBool(name: string, b: bool)
    | SetFloat(name: string, f: real)
    | SetTrigger(name: string)
    | AddImpulseToFirstBody                            // rbs[0].AddForce(up * 3, Impulse)
    | AddRootRigidbody                                 // fallback ragdoll body on the root
    | AddRootBoxCollider

  /** The requests of `rs` that satisfy `p`, in order. */
  function Select(rs: seq<Request>, p: Request -> bool): (sel: seq<Request>)
    ensures |sel| <= |rs|
    ensures forall r :: r in sel ==> r in rs && p(r)
  {
    if rs == [] then []
    else Select(rs[..|rs| - 1], p) + (if p(rs[|rs| - 1]) then [rs[|rs| - 1]] else [])
  }

  lemma {:induction false} SelectAppend(a: seq<Request>, b: seq<Request>, p: Request -> bool)
    ensures Select(a + b, p) == Select(a, p) + Select(b, p)
    decreases |b|
  {
    if b == [] {
      assert a + b == a;
    } else {
      assert (a + b)[..|a + b| - 1] == a + b[..|b| - 1];
      SelectAppend(a, b[..|b| - 1], p);
    }
  }

  lemma SelectSingle(r: Request, p: Request -> bool)
    ensures Select([r], p) == if p(r) then [r] else []
  {
    assert [r][..0] == [];
  }

  predicate IsForce(r: Request) { r.ApplyExplosionForce? }
  predicate IsDamage(r: Request) { r.SendTakeDamage? }
  predicate IsRagdollMessage(r: Request) { r.SendEnterRagdoll? }
  predicate IsSchedule(r: Request) { r.ScheduleExplode? }
}
