# Combat core of a third-person survival arena

This project models the game logic of a Unity combat prototype and proves
properties of it:

- the timed grenade (`Explode`) and its linear-falloff blast;
- the grenade's contact policy (`GrenadeContact`);
- the grenade-throwing enemy (`EnemyGrenadeThrower`);
- the player's health, ammunition and item bookkeeping (`Player`);
- the proximity mine (`Mine`);
- the terminal-screen singleton and the level-end trigger (`VictoryManager`, `VictoryTrigger`).

The engine is abstracted away.

- **Inputs.** Whatever the engine would report is an input: the current time, distances, tags, the colliders an overlap query returns, and whether a path was found.
- **Outputs.** Whatever the core asks the engine to do is returned as an ordered sequence of `Engine.Request` values: a force, a `TakeDamage` message, a ragdoll call, a sound, a scheduled call, an animator write, a destruction.
- **Overlap queries.** A physics overlap query is a function parameter `overlap: real -> seq<Collider>`, so a contract can say which radius was asked for.
- **Floats.** Floats are `real`. `Mathf.RoundToInt` is `Rounding.RoundToInt`, which rounds to the nearest integer with halves to even.

Modules:

| module | file | models |
|---|---|---|
| `Engine` | engine.dfy | colliders, requests, and the `Select` filter used to state projections |
| `Rounding` | rounding.dfy | `Mathf.RoundToInt` |
| `Explosives` | explosives.dfy | Assets/Explode.cs (class `Explode`) and the damage formula |
| `Contact` | contact.dfy | Assets/Scripts/GrenadeContact.cs (pure decisions) |
| `Engagement` | engagement.dfy | Assets/Scripts/EnemyGrenadeThrower.cs (class `EnemyGrenadeThrower`) |
| `PlayerCombat` | player_combat.dfy | Assets/Scripts/Player.cs (class `Player`) |
| `Mines` | mines.dfy | Assets/Scripts/Mine.cs |
| `Screens` | screens.dfy | Assets/Scripts/VictoryManager.cs (classes `VictoryManager`, `Runtime`) |
| `VictoryTriggers` | victory_triggers.dfy | Assets/Scripts/VictoryTrigger.cs |
| `Scenarios` | scenarios.dfy | whole-level sequences through Player.cs, VictoryTrigger.cs and VictoryManager.cs |

Engine state that the core writes is modelled as fields of `Screens.Runtime`: the static `Instance`, `Time.timeScale`, the cursor, and the scenes loaded. Components whose fields are updated in place are classes, and their methods carry `modifies` clauses.

The damage expression, the contact rules and the mine's rules are functions. Each loop in the source is a method with loop invariants, proved against a specification function.

## Model

| member | source | states |
|---|---|---|
| Rounding.RoundToInt | Assets/Explode.cs:91 | the result is within one half of x and is even on an exact half |
| Explosives.Falloff | Assets/Explode.cs:91 | damage is never negative, equals `damage` at distance 0, is 0 at distance exactly `radius`, and never exceeds `damage` |
| Explosives.FalloffNonIncreasing | Assets/Explode.cs:85-91 | closer means more damage: at a larger distance the falloff is no greater |
| Explosives.ScriptedFalloffAtHalfRadius | Assets/Explode.cs:91 | a grenade with radius 5 and damage 50 deals 25 at distance 2.5 |
| Explosives.FalloffTiesToEven | Assets/Explode.cs:91 | 2.5 rounds to 2 and 3.5 rounds to 4 (ties go to even) |
| Explosives.BlastForces | Assets/Explode.cs:77-83 | the force requests are exactly one per overlapped collider that has a rigidbody, in overlap order, whatever the damage settings |
| Explosives.BlastDamage | Assets/Explode.cs:85-94 | with `damage <= 0` no damage message is sent; otherwise exactly one per collider within the radius (inclusive), in overlap order, each from that collider's own distance |
| Explosives.BlastDamageBounded | Assets/Explode.cs:86-93 | every damage amount sent is between 0 and `damage` and goes to an overlapped collider within the radius |
| Explosives.Explode.constructor | Assets/Explode.cs:9-25 | the field initialisers: radius 20, power 300, upwards 3, timer 5, damage 50, effect lifetime 4 |
| Explosives.Explode.Start | Assets/Explode.cs:30-33 | the fuse runs out at start time plus `timer` |
| Explosives.Explode.Update | Assets/Explode.cs:38-42 | requests come exactly when the time has reached the fuse limit (inclusive), and they are the full detonation |
| Explosives.Explode.Detonate | Assets/Explode.cs:47-100 | effect, then sound, then per-collider force and damage for the colliders found at `radius`, and finally self-destruction |
| Contact.OnCollisionEnter | Assets/Scripts/GrenadeContact.cs:16-55 | an enemy hit (thrower in parents, or collider or root tagged Enemy) gives ragdoll then end at any speed; the ragdoll is a direct call when the thrower exists and a root message otherwise; anything else ends iff speed reaches the threshold; at most one end request; destroy instead of detonate without an Explode |
| Contact.OnTriggerEnter | Assets/Scripts/GrenadeContact.cs:57-81 | only the enemy rule: the same requests as a collision for an enemy hit, nothing otherwise |
| Contact.EnemyHitIgnoresSpeed | Assets/Scripts/GrenadeContact.cs:22-45 | an enemy hit's requests do not depend on the relative speed |
| Contact.TriggerIgnoresSpeed | Assets/Scripts/GrenadeContact.cs:57-81 | a trigger entry never depends on the speed |
| Engagement.ChooseAgent | Assets/Scripts/EnemyGrenadeThrower.cs:69-120 | an existing agent is kept unless the player exists and no path is found; one is added only if the player exists and a path is found; a kept or added agent gets stopping distance 1.2, acceleration 8, speed 3.5 |
| Engagement.FindParameter | Assets/Scripts/EnemyGrenadeThrower.cs:133-140 | the scan finds the speed parameter iff a float parameter of that name exists |
| Engagement.PursuitRequests | Assets/Scripts/EnemyGrenadeThrower.cs:154-212 | agent mode sets the destination; fallback mode steps iff the offset is above 0.01 and snaps to ground; the walking flag is agent speed above 0.1 or offset above 0.01, written iff there is an animator; the speed float is written iff the parameter exists |
| Engagement.ThrowRoutine | Assets/Scripts/EnemyGrenadeThrower.cs:227-239 | the trigger is set only with an animator and a non-empty name; the release always follows after `throwDelay` |
| Engagement.EnemyGrenade | Assets/Scripts/EnemyGrenadeThrower.cs:259-291 | the released grenade always has a rigidbody; the prefab's own components are kept, and a prefab's contact detonates iff the prefab has its own Explode; without a prefab it has an Explode with timer 3, radius 5, power 300, and no contact component |
| Engagement.SpacedPairwise | Assets/Scripts/EnemyGrenadeThrower.cs:214-218 | throws at least `cooldown` apart one after the next are at least (j - i) cooldowns apart overall |
| Engagement.EnemyGrenadeThrower.constructor | Assets/Scripts/EnemyGrenadeThrower.cs:28-40 | no player, no agent, not dead, and `lastThrowTime` = -999 before Start |
| Engagement.EnemyGrenadeThrower.Start | Assets/Scripts/EnemyGrenadeThrower.cs:47-142 | player lookup, animator lookup, root motion off, the agent choice of `ChooseAgent`, and the speed-parameter flag iff the parameter exists |
| Engagement.EnemyGrenadeThrower.Update | Assets/Scripts/EnemyGrenadeThrower.cs:144-225 | nothing without a player or once dead; out of range, the agent is stopped and nothing else happens; in range (inclusive), it pursues and throws iff `now - lastThrowTime >= cooldown`, then sets `lastThrowTime` to now; the mode is never re-evaluated; throws stay `cooldown` apart |
| Engagement.EnemyGrenadeThrower.SpawnAndThrow | Assets/Scripts/EnemyGrenadeThrower.cs:242-298 | nothing once dead; otherwise the grenade of `EnemyGrenade` |
| Engagement.EnemyGrenadeThrower.EnterRagdoll | Assets/Scripts/EnemyGrenadeThrower.cs:301-348 | the first call sets the latch, stops and disables the agent, disables the animator, makes every child body non-kinematic and enables every child collider, then asks for the impulse (or a root body and box collider) and self-removal; later calls change nothing |
| Engagement.FirstTickInRange | Assets/Scripts/EnemyGrenadeThrower.cs:28 | with -999 as the initial throw time, the first in-range tick ends with a throw iff now + 999 >= cooldown |
| Mines.OnTriggerEnter | Assets/Scripts/Mine.cs:13-22 | requests iff the entrant is tagged Player or Enemy or carries a thrower; then the sound iff there is an audio source, and exactly one `Explode` scheduled after `explodeTime` |
| Mines.EveryEntrySchedules | Assets/Scripts/Mine.cs:16-20 | no armed guard: a run of entries schedules one Explode per qualifying entry |
| Mines.BlastTargets | Assets/Scripts/Mine.cs:28-36 | only Player-tagged colliders get `TakeDamage(damage)` (flat, in order); every overlapped collider gets the ragdoll message |
| Mines.Explode | Assets/Scripts/Mine.cs:24-38 | effect, then the overlap query at the constant radius 2 and its messages, then self-destruction; without an explosion prefab nothing happens |
| Screens.VictoryManager.constructor | Assets/Scripts/VictoryManager.cs:10-12 | a new manager has shown nothing |
| Screens.VictoryManager.Awake | Assets/Scripts/VictoryManager.cs:14-25 | the first manager becomes the instance; a later one destroys itself and leaves the instance alone |
| Screens.VictoryManager.Show | Assets/Scripts/VictoryManager.cs:29-35 | the shared latch: once shown nothing changes; otherwise the overlay is set, time stops and the cursor is freed |
| Screens.VictoryManager.ShowVictory | Assets/Scripts/VictoryManager.cs:27-126 | through the latch, the victory overlay with the given texts; a first victory overlay offers no Restart (no buttons, line 125) |
| Screens.VictoryManager.ShowDefeat | Assets/Scripts/VictoryManager.cs:129-236 | through the latch, the defeat overlay with the given texts; a first defeat overlay offers Restart (lines 207-221) |
| Screens.RestartAfterVictory | Assets/Scripts/VictoryManager.cs:125 | once the victory screen is up, a Restart click changes nothing: the game stays paused and no scene is reloaded |
| Screens.VictoryManager.PressRestart | Assets/Scripts/VictoryManager.cs:218-221 | the Restart button sets timeScale to 1 and reloads the active scene; the manager survives with its latch still set |
| Screens.VictoryManager.PressRestartRearming | Assets/Scripts/VictoryManager.cs:218-221 | as PressRestart, and the latch is cleared |
| Screens.InstanceOrNew | Assets/Scripts/VictoryTrigger.cs:15-21 | the existing instance, or a fresh registered manager that has shown nothing |
| Screens.DefeatAfterRestart | Assets/Scripts/VictoryManager.cs:218-221 | after Restart, a second defeat shows no overlay and the game keeps running |
| Screens.DefeatAfterRearmedRestart | Assets/Scripts/VictoryManager.cs:218-221 | with the re-arming Restart, a second defeat shows the defeat overlay and pauses |
| VictoryTriggers.OnContact | Assets/Scripts/VictoryTrigger.cs:11-36 | trigger and collision entry alike: a non-player contact changes nothing; a player contact creates a manager if none exists and shows the victory overlay with the configured texts, unless a screen was already shown |
| VictoryTriggers.ContactTwice | Assets/Scripts/VictoryTrigger.cs:21 | repeated player contacts leave the overlay of the first one |
| PlayerCombat.ThrownGrenade | Assets/Scripts/Player.cs:144-209 | the thrown grenade always has a rigidbody, an Explode and a contact component; the prefab's own are kept; a missing Explode gets timer 3, radius 5, power 300, and a missing contact gets threshold 1; the contact detonates unless it came with a prefab that had no Explode, because its Awake ran inside Instantiate (line 152) before the Explode was added |
| PlayerCombat.PrefabContactWithoutExplodeNeverDetonates | Assets/Scripts/GrenadeContact.cs:11-14 | for a prefab with a contact but no Explode, no collision or trigger of the thrown grenade requests Detonate, and an enemy hit destroys it instead |
| PlayerCombat.Player.constructor | Assets/Scripts/Player.cs:40-44 | full health (100), no ammunition, no weapon, key or items |
| PlayerCombat.Player.TakeDamage | Assets/Scripts/Player.cs:350-372 | subtracts; at or below 0 it clamps to exactly 0, shows the defeat screen (creating the manager if missing) and disables the controller and the component; when a screen is already shown, the manager, timeScale and cursor stay as they were; the hit sound and health event follow either way |
| PlayerCombat.Player.RecoverHealth | Assets/Scripts/Player.cs:377-389 | nothing at full health; otherwise adds `healAmount`, capped at 100 |
| PlayerCombat.Player.TakeAmmo | Assets/Scripts/Player.cs:395-404 | adds, capped at 250, and reports the count |
| PlayerCombat.Player.Shoot | Assets/Scripts/Player.cs:284-335 | nothing without weapon or press; dry fire only, with no ray, when ammo <= 0; otherwise exactly one round spent and reported, the view kicks, and what the ray hits is sent TakeDamage |
| PlayerCombat.Player.GetRifle | Assets/Scripts/Player.cs:409-420 | sets the weapon flag and grants 20 rounds through the 250 cap |
| PlayerCombat.Player.GetItem | Assets/Scripts/Player.cs:426-451 | Key sets the key; Rifle, Health and Ammo dispatch as named, with the new state and the sounds and events of GetRifle, RecoverHealth and TakeAmmo; any other name is appended (repeats kept) and announced; nothing else changes |
| Scenarios.WinThenDie | Assets/Scripts/Player.cs:357-362 | after the victory screen, a lethal hit leaves the victory overlay up and the game paused |
| Scenarios.DieRestartDie | Assets/Scripts/VictoryManager.cs:218-221 | as written: die, Restart, die again, and no overlay is up while the game runs at normal speed |
| Scenarios.DieRearmedRestartDie | Assets/Scripts/VictoryManager.cs:218-221 | with the re-arming Restart, the second death shows the defeat overlay and pauses the game |

## Left out

- Floating point is modelled as exact `real` arithmetic, with no single-precision rounding, NaN or infinity. For this reason `Falloff`, `Detonate` and `Update` of `Explode` require `radius > 0`. With radius 0 the source would compute NaN or infinity.
- Integer overflow: `curHealth`, `curAmmo` and the damage product are unbounded `int`. The 32-bit wrap-around of the source is not modelled.
- Player input, mouse-look, movement, the jump, walking sounds, the pause key, the editor `Bypass`, and random audio pitch (Player.cs:125-279). These are device input and kinematics.
- Engine physics: `OverlapSphere` and `Raycast` are inputs. The shape of `AddExplosionForce`, ground snapping, `Slerp` rotation and the throw-velocity vectors are also left out. They appear only as the requests `ApplyExplosionForce`, `SnapToGround` and `StepTowardPlayer`.
- Coroutine and `Invoke` timing: the delayed throw and the delayed mine blast are the requests `ScheduleSpawnAndThrow` and `ScheduleExplode`. What runs later is modelled by `SpawnAndThrow` and `Mines.Explode`.
- The actual delay between the schedule and the call is not modelled.
- No at-most-once detonation is proved. `Detonate` has no guard of its own. `Destroy(gameObject)` takes effect at the end of the frame, so a fuse and a contact `Detonate` (GrenadeContact.cs:37, 51, 77) in the same frame, or several contacts in that frame, each detonate. The source does not promise one detonation.
- UI construction: the canvas, panel, fonts, anchors and shadows, and the unused `CreateButton`. An overlay is modelled by its kind, texts and buttons.
- Particle and effect lifetime, `Resources.Load` fallbacks for effects and sounds, the hand transform, and spawn positions.
- Whether a `SendMessage` finds a receiver is left out. So is what the receiver then does.
- Player.Shoot: the shot sends `TakeDamage` with no argument (Player.cs:328), as the code is written, and the model follows the code rather than any fixed amount. What Unity does with a missing argument is not modelled.
- PlayerCombat.Player.GetRifle: without a weapon slot, reading `weaponSlot.position` throws (Player.cs:413). Without a rifle prefab, `Instantiate` throws. Both are modelled as stopping after the pickup sound.
- Mines.Explode: without an explosion prefab, `Instantiate` throws before the blast. This is modelled as no requests at all.
- Engagement.EnemyGrenadeThrower.Start: a disabled agent left on the object when no path is found is not tracked, because the source drops its reference.
- Engagement.EnemyGrenadeThrower.Start: the animator found by the two lookups appears as a single input.
- Engagement.EnemyGrenadeThrower.SpawnAndThrow: the throw velocity toward the player is not modelled. So is the null reference it would hit if called with no player.
- `Debug.Log` and `Debug.LogWarning` calls (GrenadeContact.cs:26, 31, 67, 72; EnemyGrenadeThrower.cs:65, 81, 117, 131; Player.cs:98, 115) are left out: they only write to the console.
- Assets/Scripts/CameraChangeLogger.cs is not part of this model: it only builds and logs strings.

## Findings

| source | as written | input that shows it | evidently intended | confidence | as-written member | corrected member |
|---|---|---|---|---|---|---|
| Assets/Scripts/VictoryManager.cs:218-221 | Restart reloads the scene, but the manager survives the reload (`DontDestroyOnLoad`, line 19) with `shown` still true. | Die, press Restart, die again: `ShowDefeat` returns at once, so no screen is built and timeScale stays 1. | The reloaded level can show its own victory or defeat screen. | medium, not executed | Screens.DefeatAfterRestart and Scenarios.DieRestartDie (over Screens.VictoryManager.PressRestart) | Screens.DefeatAfterRearmedRestart and Scenarios.DieRearmedRestartDie (over Screens.VictoryManager.PressRestartRearming) |
