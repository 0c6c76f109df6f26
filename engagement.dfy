/** EnemyGrenadeThrower: an enemy that, while the player is within its
    detection radius, follows the player (with a navigation agent, or by
    direct steering when no path existed at Start) and throws a grenade
    whenever the cooldown since the last throw has elapsed; EnterRagdoll ends
    all of this for good. */
module Engagement {
  import opened Engine
  import opened Explosives

  // ---------------------------------------------------------------------
  // Engine components the enemy reads and writes.

  datatype ParameterType = FloatParameter | IntParameter | BoolParameter | TriggerParameter
  datatype AnimatorParameter = AnimatorParameter(name: string, kind: ParameterType)

  datatype Animator = Animator(enabled: bool, applyRootMotion: bool, parameters: seq<AnimatorParameter>)

  datatype Agent = Agent(enabled: bool, isStopped: bool, stoppingDistance: real, acceleration: real, speed: real)

  /** The agent settings Start writes. */
  function Configured(a: Agent): Agent
  {
    a.(stoppingDistance := 1.2, acceleration := 8.0, speed := 3.5)
  }

  /** A NavMeshAgent just added with AddComponent: enabled, running, and with
      the engine's defaults. */
  const AddedAgent: Agent := Agent(true, false, 0.0, 8.0, 3.5)

  /** The inspector fields of EnemyGrenadeThrower that the core uses. */
  datatype Config = Config(
    detectionRadius: real,
    cooldown: real,
    throwDelay: real,
    throwTrigger: string,
    speedParameter: string,
    walkParameter: string,
    movementSpeed: real)

  /** The field initialisers. */
  const DefaultConfig: Config := Config(10.0, 5.0, 0.5, "Grenade", "Speed", "isWalking", 3.5)

  /** lastThrowTime before the first throw. */
  const InitialLastThrowTime: real := -999.0

  // ---------------------------------------------------------------------
  // The pure decisions inside Start, Update, DoThrowRoutine and SpawnAndThrow.

  /** Start's choice of movement mode. An agent already on the enemy is kept
      unless the player exists and no path to it is found; none is
      added unless the player exists and a path is found. A kept or
      added agent is configured. */
  function ChooseAgent(existing: Option<Agent>, hasPlayer: bool, pathFound: bool): (agent: Option<Agent>)
    ensures agent.Some? <==>
      (existing.Some? && (!hasPlayer || pathFound)) || (existing.None? && hasPlayer && pathFound)
    ensures agent.Some? ==>
      agent.value.stoppingDistance == 1.2 && agent.value.acceleration == 8.0 && agent.value.speed == 3.5
    ensures agent.Some? && existing.Some? ==> agent.value == Configured(existing.value)
    ensures agent.Some? && existing.None? ==> agent.value.enabled && !agent.value.isStopped
  {
    if existing.Some? then
      if hasPlayer && !pathFound then None else Some(Configured(existing.value))
    else if hasPlayer && pathFound then Some(Configured(AddedAgent))
    else None
  }

  /** The walking flag: agent speed above 0.1 when following an agent, a
      horizontal offset above 0.01 when steering directly. */
  predicate Walking(agentMode: bool, agentSpeed: real, moveMag: real)
  {
    if agentMode then agentSpeed > 0.1 else moveMag > 0.01
  }

  /** The value written to the speed parameter: the agent's speed, or the
      configured movement speed while steering directly. */
  function AnimatedSpeed(c: Config, agentMode: bool, agentSpeed: real, moveMag: real): real
  {
    if agentMode then agentSpeed else if Walking(false, agentSpeed, moveMag) then c.movementSpeed else 0.0
  }

  /** The movement and animation requests of one pursuit tick. */
  function PursuitRequests(c: Config, agentMode: bool, hasAnimator: bool, hasSpeedParam: bool,
                           agentSpeed: NonNeg, moveMag: NonNeg): (rs: seq<Request>)
    ensures |rs| >= 1
    ensures agentMode ==> rs[0] == SetDestination && StepTowardPlayer !in rs && SnapToGround !in rs
    ensures !agentMode ==> SetDestination !in rs && SnapToGround in rs
    ensures !agentMode ==> (StepTowardPlayer in rs <==> moveMag > 0.01)
    ensures hasAnimator ==> SetBool(c.walkParameter, Walking(agentMode, agentSpeed, moveMag)) in rs
    ensures forall r :: r in rs && r.SetBool? ==>
      hasAnimator && r == SetBool(c.walkParameter, Walking(agentMode, agentSpeed, moveMag))
    ensures hasAnimator && hasSpeedParam ==> SetFloat(c.speedParameter, AnimatedSpeed(c, agentMode, agentSpeed, moveMag)) in rs
    ensures forall r :: r in rs && r.SetFloat? ==>
      hasAnimator && hasSpeedParam && r == SetFloat(c.speedParameter, AnimatedSpeed(c, agentMode, agentSpeed, moveMag))
  {
    var anim :=
      if !hasAnimator then []
      else [SetBool(c.walkParameter, Walking(agentMode, agentSpeed, moveMag))]
           + (if !hasSpeedParam then []
              else [SetFloat(c.speedParameter, AnimatedSpeed(c, agentMode, agentSpeed, moveMag))]);
    if agentMode then [SetDestination] + anim
    else (if moveMag > 0.01 then [StepTowardPlayer] else []) + [SnapToGround] + anim
  }

  /** DoThrowRoutine up to its suspension: the throw trigger when there is an
      animator and a non-empty trigger name, then the release after
      throwDelay. */
  function ThrowRoutine(c: Config, hasAnimator: bool): (rs: seq<Request>)
    ensures |rs| >= 1 && rs[|rs| - 1] == ScheduleSpawnAndThrow(c.throwDelay)
    ensures forall r :: r in rs && r.SetTrigger? ==>
      hasAnimator && c.throwTrigger != "" && r == SetTrigger(c.throwTrigger)
    ensures hasAnimator && c.throwTrigger != "" ==> rs == [SetTrigger(c.throwTrigger), ScheduleSpawnAndThrow(c.throwDelay)]
  {
    (if hasAnimator && c.throwTrigger != "" then [SetTrigger(c.throwTrigger)] else [])
    + [ScheduleSpawnAndThrow(c.throwDelay)]
  }

  /** The grenade SpawnAndThrow releases: the prefab, given a rigidbody if it
      lacks one; without a prefab a sphere with a rigidbody and a scripted
      Explode, and no GrenadeContact. A contact that came with the prefab
      detonates exactly when the prefab has its own Explode. */
  function EnemyGrenade(prefab: Option<Grenade>): (g: Spawned)
    ensures g.hasRigidbody
    ensures prefab.Some? ==> g.explode == prefab.value.explode
    ensures prefab.Some? ==> (g.contact.Some? <==> prefab.value.contactThreshold.Some?)
    ensures prefab.Some? && g.contact.Some? ==>
      g.contact.value.impactSpeedThreshold == prefab.value.contactThreshold.value
      && (g.contact.value.hasExplode <==> prefab.value.explode.Some?)
    ensures prefab.None? ==> g.explode == Some(Scripted) && g.contact.None?
  {
    if prefab.Some? then Instantiated(prefab.value).(hasRigidbody := true)
    else Spawned(true, Some(Scripted), None)
  }

  /** The throws recorded so far are at least `cooldown` apart, one after the
      next. */
  ghost predicate Spaced(times: seq<real>, cooldown: real)
  {
    forall i :: 0 < i < |times| ==> times[i] - times[i - 1] >= cooldown
  }

  /** Throws recorded so far are then at least (j - i) cooldowns apart. */
  lemma {:induction false} SpacedPairwise(times: seq<real>, cooldown: real, i: nat, j: nat)
    requires Spaced(times, cooldown)
    requires i <= j < |times|
    ensures times[j] - times[i] >= (j - i) as real * cooldown
    decreases j - i
  {
    if i < j {
      SpacedPairwise(times, cooldown, i, j - 1);
      assert times[j] - times[j - 1] >= cooldown;
    }
  }

  class EnemyGrenadeThrower {
    const config: Config
    const grenadePrefab: Option<Grenade>
    /** isKinematic of each child rigidbody. */
    const bodyKinematic: array<bool>
    /** enabled of each child collider. */
    const colliderEnabled: array<bool>
    const rootHasCollider: bool

    var hasPlayer: bool
    var animator: Option<Animator>
    var animatorHasSpeedParam: bool
    var agent: Option<Agent>
    var lastThrowTime: real
    var isDead: bool

    /** The times at which a throw was scheduled, oldest first. */
    ghost var throwTimes: seq<real>

    ghost predicate Valid()
      reads this
    {
      && bodyKinematic != colliderEnabled
      && Spaced(throwTimes, config.cooldown)
      && (throwTimes == [] ==> lastThrowTime == InitialLastThrowTime)
      && (throwTimes != [] ==> lastThrowTime == throwTimes[|throwTimes| - 1])
    }

    /** The enemy before Start: no player, and no throw yet. */
    constructor (config: Config, grenadePrefab: Option<Grenade>, animator: Option<Animator>,
                 bodies: seq<bool>, colliders: seq<bool>, rootHasCollider: bool)
      ensures Valid() && fresh(bodyKinematic) && fresh(colliderEnabled)
      ensures this.config == config && this.grenadePrefab == grenadePrefab && this.animator == animator
      ensures bodyKinematic[..] == bodies && colliderEnabled[..] == colliders
      ensures this.rootHasCollider == rootHasCollider
      ensures !hasPlayer && agent.None? && !animatorHasSpeedParam && !isDead
      ensures lastThrowTime == InitialLastThrowTime && throwTimes == []
    {
      this.config := config;
      this.grenadePrefab := grenadePrefab;
      this.animator := animator;
      bodyKinematic := new bool[|bodies|](i requires 0 <= i < |bodies| => bodies[i]);
      colliderEnabled := new bool[|colliders|](i requires 0 <= i < |colliders| => colliders[i]);
      this.rootHasCollider := rootHasCollider;
      hasPlayer := false;
      agent := None;
      animatorHasSpeedParam := false;
      lastThrowTime := InitialLastThrowTime;
      isDead := false;
      throwTimes := [];
    }

    /** Start, given what the engine finds: whether a Player-tagged object
        exists, the animator on the enemy or its children, the agent already on
        the enemy, and whether NavMesh.CalculatePath finds a path to the player. The
        movement mode chosen here is never revisited. */
    method Start(playerFound: bool, foundAnimator: Option<Animator>, existingAgent: Option<Agent>,
                 pathFound: bool)
      requires Valid()
      modifies this`hasPlayer, this`animator, this`agent, this`animatorHasSpeedParam
      ensures Valid()
      ensures hasPlayer == playerFound
      ensures agent == ChooseAgent(existingAgent, playerFound, pathFound)
      ensures animator.Some? <==> old(animator).Some? || foundAnimator.Some?
      ensures animator.Some? ==> !animator.value.applyRootMotion
      ensures animator.Some? && old(animator).Some? ==>
        animator.value == old(animator).value.(applyRootMotion := false)
      ensures animator.Some? && old(animator).None? ==>
        animator.value == foundAnimator.value.(applyRootMotion := false)
      ensures animatorHasSpeedParam <==>
        old(animatorHasSpeedParam)
        || (animator.Some? && HasParameter(animator.value.parameters, config.speedParameter, FloatParameter))
    {
      hasPlayer := playerFound;
      if animator.None? {
        animator := foundAnimator;
      }
      if animator.Some? && animator.value.applyRootMotion {
        animator := Some(animator.value.(applyRootMotion := false));
      }
      agent := ChooseAgent(existingAgent, hasPlayer, pathFound);
      if animator.Some? {
        var found := FindParameter(animator.value.parameters, config.speedParameter, FloatParameter);
        if found {
          animatorHasSpeedParam := true;
        }
      }
    }

    /** Update, given the current time, the distance to the player, the
        agent's speed and the horizontal offset to the player. */
    method Update(now: real, dist: NonNeg, agentSpeed: NonNeg, moveMag: NonNeg) returns (rs: seq<Request>)
      requires Valid()
      modifies this`lastThrowTime, this`agent, this`throwTimes
      ensures Valid()
      // the movement mode is never re-evaluated
      ensures agent.Some? <==> old(agent).Some?
      // no player, or dead: nothing at all
      ensures !hasPlayer || isDead ==>
        rs == [] && agent == old(agent) && lastThrowTime == old(lastThrowTime) && throwTimes == old(throwTimes)
      // out of range: the agent is stopped, no throw
      ensures hasPlayer && !isDead && dist > config.detectionRadius ==>
        rs == [] && agent == (if old(agent).Some? then Some(old(agent).value.(isStopped := true)) else None)
        && lastThrowTime == old(lastThrowTime) && throwTimes == old(throwTimes)
      // in range (inclusive): pursue, and throw once the cooldown has passed
      ensures hasPlayer && !isDead && dist <= config.detectionRadius ==>
        var due := now - old(lastThrowTime) >= config.cooldown;
        && agent == (if old(agent).Some? then Some(old(agent).value.(isStopped := false)) else None)
        && rs == PursuitRequests(config, agent.Some?, animator.Some?, animatorHasSpeedParam, agentSpeed, moveMag)
                 + (if due then ThrowRoutine(config, animator.Some?) else [])
        && lastThrowTime == (if due then now else old(lastThrowTime))
        && throwTimes == (if due then old(throwTimes) + [now] else old(throwTimes))
    {
      rs := [];
      if !hasPlayer || isDead {
        return;
      }
      if dist <= config.detectionRadius {
        if agent.Some? {
          agent := Some(agent.value.(isStopped := false));
        }
        rs := PursuitRequests(config, agent.Some?, animator.Some?, animatorHasSpeedParam, agentSpeed, moveMag);
        if now - lastThrowTime >= config.cooldown {
          rs := rs + ThrowRoutine(config, animator.Some?);
          lastThrowTime := now;
          throwTimes := throwTimes + [now];
        }
      } else {
        if agent.Some? {
          agent := Some(agent.value.(isStopped := true));
        }
      }
    }

    /** SpawnAndThrow: nothing once dead; otherwise the grenade released. */
    method SpawnAndThrow() returns (g: Option<Spawned>)
      ensures isDead ==> g.None?
      ensures !isDead ==> g == Some(EnemyGrenade(grenadePrefab))
    {
      if isDead {
        return None;
      }
      g := Some(EnemyGrenade(grenadePrefab));
    }

    /** EnterRagdoll: the first call kills the enemy for good: the agent is
        stopped and disabled, the animator disabled, every child rigidbody made
        physical and every child collider enabled; then an impulse (or, with
        no child body, a root body and, if needed, a root collider) and the
        removal of this component. Any later call does nothing. */
    method EnterRagdoll() returns (rs: seq<Request>)
      requires Valid()
      modifies this`isDead, this`agent, this`animator, bodyKinematic, colliderEnabled
      ensures Valid()
      ensures old(isDead) ==>
        rs == [] && isDead && agent == old(agent) && animator == old(animator)
        && bodyKinematic[..] == old(bodyKinematic[..]) && colliderEnabled[..] == old(colliderEnabled[..])
      ensures !old(isDead) ==>
        && isDead
        && agent == (if old(agent).Some? then Some(old(agent).value.(isStopped := true, enabled := false)) else None)
        && animator == (if old(animator).Some? then Some(old(animator).value.(enabled := false)) else None)
        && (forall k :: 0 <= k < bodyKinematic.Length ==> !bodyKinematic[k])
        && (forall k :: 0 <= k < colliderEnabled.Length ==> colliderEnabled[k])
        && rs == (if bodyKinematic.Length > 0 then [AddImpulseToFirstBody]
                  else [AddRootRigidbody] + (if rootHasCollider then [] else [AddRootBoxCollider]))
                 + [DestroyComponent]
    {
      if isDead {
        return [];
      }
      isDead := true;
      if agent.Some? {
        agent := Some(agent.value.(isStopped := true, enabled := false));
      }
      if animator.Some? {
        animator := Some(animator.value.(enabled := false));
      }
      ghost var agent', animator' := agent, animator;
      var i := 0;
      while i < bodyKinematic.Length
        invariant isDead && agent == agent' && animator == animator'
        invariant 0 <= i <= bodyKinematic.Length
        invariant forall k :: 0 <= k < i ==> !bodyKinematic[k]
        invariant colliderEnabled[..] == old(colliderEnabled[..])
      {
        bodyKinematic[i] := false;
        i := i + 1;
      }
      var j := 0;
      while j < colliderEnabled.Length
        invariant isDead && agent == agent' && animator == animator'
        invariant 0 <= j <= colliderEnabled.Length
        invariant forall k :: 0 <= k < j ==> colliderEnabled[k]
        invariant forall k :: 0 <= k < bodyKinematic.Length ==> !bodyKinematic[k]
      {
        colliderEnabled[j] := true;
        j := j + 1;
      }
      if bodyKinematic.Length > 0 {
        rs := [AddImpulseToFirstBody];
      } else {
        rs := [AddRootRigidbody];
        if !rootHasCollider {
          rs := rs + [AddRootBoxCollider];
        }
      }
      rs := rs + [DestroyComponent];
    }
  }

  predicate HasParameter(ps: seq<AnimatorParameter>, name: string, kind: ParameterType)
  {
    exists p :: p in ps && p.kind == kind && p.name == name
  }

  /** The scan of animator.parameters in Start, stopping at the first match. */
  method FindParameter(ps: seq<AnimatorParameter>, name: string, kind: ParameterType) returns (found: bool)
    ensures found <==> HasParameter(ps, name, kind)
  {
    found := false;
    var i := 0;
    while i < |ps|
      invariant 0 <= i <= |ps|
      invariant !found
      invariant forall k :: 0 <= k < i ==> !(ps[k].kind == kind && ps[k].name == name)
    {
      if ps[i].kind == kind && ps[i].name == name {
        found := true;
        break;
      }
      i := i + 1;
    }
  }

  /** lastThrowTime starts at -999: an enemy with the default settings and no
      animator throws on its first tick in range as soon as now + 999 reaches
      the cooldown, and that throw is released after throwDelay. */
  method FirstTickInRange(now: real, dist: NonNeg, moveMag: NonNeg) returns (rs: seq<Request>)
    requires dist <= DefaultConfig.detectionRadius
    ensures rs != [] && (rs[|rs| - 1] == ScheduleSpawnAndThrow(DefaultConfig.throwDelay) <==> now + 999.0 >= DefaultConfig.cooldown)
    ensures SnapToGround in rs
  {
    var enemy := new EnemyGrenadeThrower(DefaultConfig, None, None, [], [], false);
    enemy.Start(true, None, None, false);
    rs := enemy.Update(now, dist, 0.0, moveMag);
  }
}
