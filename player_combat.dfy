/** Player: the integer bookkeeping of health, ammunition, the key and picked
    items; the shot (dry fire when out of ammunition); the grenade it throws;
    and the death transition to the defeat screen. */
module PlayerCombat {
  import opened Engine
  import opened Explosives
  import Contact
  import Screens

  const MaxHealth: int := 100
  const MaxAmmo: int := 250

  /** The ammunition that comes with the rifle. */
  const RifleAmmo: int := 20

  /** The defeat texts the player passes to the manager. */
  const DeathTitle: string := "You Died"
  const DeathSubtitle: string := "Press Restart to try again"

  function Min(a: int, b: int): int { if a <= b then a else b }

  /** ThrowGrenade: the thrown object always ends up with a rigidbody, an
      Explode and a GrenadeContact. Components the prefab already has are
      kept; a missing Explode is added with the scripted settings and a
      missing GrenadeContact with the default threshold. Without a prefab a
      bare sphere is used. A contact that came with the prefab ran Awake
      inside Instantiate, before a missing Explode was added, so it destroys
      the grenade instead of detonating it; an added contact comes after the
      Explode and detonates. */
  function ThrownGrenade(prefab: Option<Grenade>): (g: Spawned)
    ensures g.hasRigidbody && g.explode.Some? && g.contact.Some?
    ensures prefab.Some? && prefab.value.explode.Some? ==> g.explode == prefab.value.explode
    ensures (prefab.None? || prefab.value.explode.None?) ==> g.explode == Some(Scripted)
    ensures prefab.Some? && prefab.value.contactThreshold.Some? ==>
      g.contact.value.impactSpeedThreshold == prefab.value.contactThreshold.value
    ensures (prefab.None? || prefab.value.contactThreshold.None?) ==>
      g.contact.value.impactSpeedThreshold == Contact.DefaultImpactSpeedThreshold
    ensures !g.contact.value.hasExplode <==>
      prefab.Some? && prefab.value.contactThreshold.Some? && prefab.value.explode.None?
  {
    var spawned := if prefab.Some? then Instantiated(prefab.value) else Spawned(false, None, None);
    var explode := if spawned.explode.Some? then spawned.explode else Some(Scripted);
    Spawned(
      true,
      explode,
      if spawned.contact.Some? then spawned.contact
      else Some(Contact.GrenadeContact(Contact.DefaultImpactSpeedThreshold, true)))
  }

  /** With a prefab that has a GrenadeContact but no Explode, no contact of
      the thrown grenade ever detonates it: an enemy hit or a hard impact
      destroys it instead, and only the fuse is left to explode it. */
  lemma PrefabContactWithoutExplodeNeverDetonates(prefab: Grenade, t: Contact.Touch)
    requires prefab.contactThreshold.Some? && prefab.explode.None?
    ensures Detonate !in Contact.OnCollisionEnter(ThrownGrenade(Some(prefab)).contact.value, t)
    ensures Detonate !in Contact.OnTriggerEnter(ThrownGrenade(Some(prefab)).contact.value, t)
    ensures Contact.IsEnemyHit(t) ==>
      DestroySelf in Contact.OnCollisionEnter(ThrownGrenade(Some(prefab)).contact.value, t)
  {
    var c := ThrownGrenade(Some(prefab)).contact.value;
    assert !c.hasExplode;
  }

  class Player {
    var curHealth: int
    var curAmmo: int
    var gotWeapon: bool
    var gotKey: bool
    var gotItems: seq<string>
    var camPitch: real           // camRotation.x
    var enabled: bool            // this MonoBehaviour
    var controllerEnabled: bool  // its CharacterController
    const healAmount: int
    const ammoAmount: int
    const hasWeaponSlot: bool
    const hasRiflePrefab: bool

    /** Health never drops below zero and ammunition never exceeds its cap. */
    ghost predicate Valid()
      reads this
    {
      0 <= curHealth && curAmmo <= MaxAmmo && 0 <= healAmount
    }

    /** The state after Awake, with the inspector ranges of healAmount
        (5 to 50) and ammoAmount (20 to 100). */
    constructor (healAmount: int, ammoAmount: int, hasWeaponSlot: bool, hasRiflePrefab: bool)
      requires 5 <= healAmount <= 50 && 20 <= ammoAmount <= 100
      ensures Valid()
      ensures curHealth == MaxHealth && curAmmo == 0 && !gotWeapon && !gotKey && gotItems == []
      ensures camPitch == 0.0 && enabled && controllerEnabled
      ensures this.healAmount == healAmount && this.ammoAmount == ammoAmount
      ensures this.hasWeaponSlot == hasWeaponSlot && this.hasRiflePrefab == hasRiflePrefab
    {
      curHealth, curAmmo := MaxHealth, 0;
      gotWeapon, gotKey, gotItems := false, false, [];
      camPitch := 0.0;
      enabled, controllerEnabled := true, true;
      this.healAmount, this.ammoAmount := healAmount, ammoAmount;
      this.hasWeaponSlot, this.hasRiflePrefab := hasWeaponSlot, hasRiflePrefab;
    }

    /** TakeDamage: subtract, and at zero or below stop at exactly zero, ask
        the manager (created if missing) for the defeat screen and disable the
        controller and the component. The hit sound and the health event
        follow either way. */
    method TakeDamage(rt: Screens.Runtime, amount: int) returns (rs: seq<Request>)
      requires Valid()
      requires rt.instance != null ==> rt.instance.Valid()
      modifies this`curHealth, this`enabled, this`controllerEnabled, rt, rt.instance
      ensures Valid()
      ensures rt.instance != null ==> rt.instance.Valid()
      ensures old(curHealth) - amount > 0 ==>
        curHealth == old(curHealth) - amount
        && enabled == old(enabled) && controllerEnabled == old(controllerEnabled)
        && unchanged(rt) && (old(rt.instance) != null ==> unchanged(old(rt.instance)))
      ensures old(curHealth) - amount <= 0 ==>
        curHealth == 0 && !enabled && !controllerEnabled
        && rt.instance != null && rt.instance.shown
        && (old(rt.instance) != null ==> rt.instance == old(rt.instance))
      ensures old(curHealth) - amount <= 0 && (old(rt.instance) == null || !old(rt.instance.shown)) ==>
        rt.instance.Shows(rt, Screens.Built(Screens.Defeat, DeathTitle, DeathSubtitle))
      ensures old(curHealth) - amount <= 0 && old(rt.instance) == null ==> fresh(rt.instance)
      // a screen already shown stays as it is: ShowDefeat returns at once
      ensures old(curHealth) - amount <= 0 && old(rt.instance) != null && old(rt.instance.shown) ==>
        unchanged(old(rt.instance)) && rt.timeScale == old(rt.timeScale)
        && rt.cursorVisible == old(rt.cursorVisible) && rt.cursorLocked == old(rt.cursorLocked)
      ensures rt.loadedScenes == old(rt.loadedScenes)
      ensures rs == [PlayClip(HitSound), HealthUpdate(curHealth)]
    {
      curHealth := curHealth - amount;
      if curHealth <= 0 {
        curHealth := 0;
        var m := Screens.InstanceOrNew(rt);
        m.ShowDefeat(rt, DeathTitle, DeathSubtitle);
        controllerEnabled := false;
        enabled := false;
      }
      rs := [PlayClip(HitSound), HealthUpdate(curHealth)];
    }

    /** RecoverHealth: nothing at full health; otherwise add healAmount,
        capped at MaxHealth. */
    method RecoverHealth() returns (rs: seq<Request>)
      requires Valid()
      modifies this`curHealth
      ensures Valid()
      ensures old(curHealth) == MaxHealth ==> curHealth == MaxHealth && rs == []
      ensures old(curHealth) != MaxHealth ==>
        curHealth == Min(old(curHealth) + healAmount, MaxHealth)
        && rs == [PlayClip(PickHealthSound), HealthUpdate(curHealth)]
    {
      if curHealth == MaxHealth {
        return [];
      }
      curHealth := curHealth + healAmount;
      if curHealth > MaxHealth {
        curHealth := MaxHealth;
      }
      rs := [PlayClip(PickHealthSound), HealthUpdate(curHealth)];
    }

    /** TakeAmmo: add, capped at MaxAmmo. */
    method TakeAmmo(amount: int) returns (rs: seq<Request>)
      requires Valid()
      modifies this`curAmmo
      ensures Valid()
      ensures curAmmo == Min(old(curAmmo) + amount, MaxAmmo)
      ensures rs == [PlayClip(PickAmmoSound), AmmoUpdate(curAmmo)]
    {
      curAmmo := curAmmo + amount;
      if curAmmo > MaxAmmo {
        curAmmo := MaxAmmo;
      }
      rs := [PlayClip(PickAmmoSound), AmmoUpdate(curAmmo)];
    }

    /** Shoot, given whether Fire was pressed this frame and what the ray
        would hit. Without the weapon or the press nothing happens; with no
        ammunition only the dry-fire sound plays and no ray is cast; otherwise
        one round is spent, the view kicks up and the collider hit is sent
        TakeDamage (with no amount). */
    method Shoot(firePressed: bool, rayHit: Option<ColliderId>) returns (rs: seq<Request>)
      requires Valid()
      modifies this`curAmmo, this`camPitch
      ensures Valid()
      ensures !gotWeapon || !firePressed ==>
        rs == [] && curAmmo == old(curAmmo) && camPitch == old(camPitch)
      ensures gotWeapon && firePressed && old(curAmmo) <= 0 ==>
        rs == [PlayClip(DryFireSound)] && curAmmo == old(curAmmo) && camPitch == old(camPitch)
      ensures gotWeapon && firePressed && old(curAmmo) > 0 ==>
        curAmmo == old(curAmmo) - 1 && camPitch == old(camPitch) - 2.0
        && rs == [PlayClip(ShootSound), AmmoUpdate(curAmmo)]
                 + (if rayHit.Some? then [SendTakeDamageNoAmount(rayHit.value)] else [])
    {
      if !gotWeapon || !firePressed {
        return [];
      }
      if curAmmo <= 0 {
        return [PlayClip(DryFireSound)];
      }
      curAmmo := curAmmo - 1;
      rs := [PlayClip(ShootSound), AmmoUpdate(curAmmo)];
      camPitch := camPitch - 2.0;
      if rayHit.Some? {
        rs := rs + [SendTakeDamageNoAmount(rayHit.value)];
      }
    }

    /** GetRifle: the pickup sound, then the rifle is instantiated under the
        weapon slot; the weapon flag is set and 20 rounds go through the
        TakeAmmo cap. Without a weapon slot, reading its position throws;
        without a rifle prefab, Instantiate throws; either way nothing after
        the pickup sound happens. */
    method GetRifle() returns (rs: seq<Request>)
      requires Valid()
      modifies this`gotWeapon, this`curAmmo
      ensures Valid()
      ensures hasWeaponSlot && hasRiflePrefab ==>
        gotWeapon && curAmmo == Min(old(curAmmo) + RifleAmmo, MaxAmmo)
        && rs == [PlayClip(PickAmmoSound), InstantiateRifle, PlayClip(PickAmmoSound), AmmoUpdate(curAmmo)]
      ensures !(hasWeaponSlot && hasRiflePrefab) ==>
        gotWeapon == old(gotWeapon) && curAmmo == old(curAmmo) && rs == [PlayClip(PickAmmoSound)]
    {
      rs := [PlayClip(PickAmmoSound)];
      if !hasWeaponSlot || !hasRiflePrefab {
        return;
      }
      rs := rs + [InstantiateRifle];
      gotWeapon := true;
      var more := TakeAmmo(RifleAmmo);
      rs := rs + more;
    }

    /** GetItem: "Key" sets the key flag, "Rifle" equips the rifle, "Health"
        heals, "Ammo" adds ammoAmount; any other name is appended to the item
        list (repeats included) and announced. */
    method GetItem(itemName: string) returns (rs: seq<Request>)
      requires Valid()
      modifies this`gotKey, this`gotWeapon, this`curAmmo, this`curHealth, this`gotItems
      ensures Valid()
      ensures itemName == "Key" ==>
        gotKey && rs == [PlayClip(PickSound)]
        && gotWeapon == old(gotWeapon) && curAmmo == old(curAmmo)
        && curHealth == old(curHealth) && gotItems == old(gotItems)
      ensures itemName == "Rifle" ==>
        gotKey == old(gotKey) && curHealth == old(curHealth) && gotItems == old(gotItems)
        && (hasWeaponSlot && hasRiflePrefab ==>
              gotWeapon && curAmmo == Min(old(curAmmo) + RifleAmmo, MaxAmmo)
              && rs == [PlayClip(PickAmmoSound), InstantiateRifle, PlayClip(PickAmmoSound), AmmoUpdate(curAmmo)])
        && (!(hasWeaponSlot && hasRiflePrefab) ==>
              gotWeapon == old(gotWeapon) && curAmmo == old(curAmmo) && rs == [PlayClip(PickAmmoSound)])
      ensures itemName == "Health" ==>
        (old(curHealth) == MaxHealth ==> curHealth == MaxHealth && rs == [])
        && (old(curHealth) != MaxHealth ==>
              curHealth == Min(old(curHealth) + healAmount, MaxHealth)
              && rs == [PlayClip(PickHealthSound), HealthUpdate(curHealth)])
        && gotKey == old(gotKey) && gotWeapon == old(gotWeapon) && curAmmo == old(curAmmo)
        && gotItems == old(gotItems)
      ensures itemName == "Ammo" ==>
        curAmmo == Min(old(curAmmo) + ammoAmount, MaxAmmo)
        && rs == [PlayClip(PickAmmoSound), AmmoUpdate(curAmmo)]
        && gotKey == old(gotKey) && gotWeapon == old(gotWeapon) && curHealth == old(curHealth)
        && gotItems == old(gotItems)
      ensures itemName !in {"Key", "Rifle", "Health", "Ammo"} ==>
        gotItems == old(gotItems) + [itemName] && rs == [PlayClip(PickSound), ItemUpdate(itemName)]
        && gotKey == old(gotKey) && gotWeapon == old(gotWeapon) && curAmmo == old(curAmmo)
        && curHealth == old(curHealth)
    {
      if itemName == "Key" {
        gotKey := true;
        rs := [PlayClip(PickSound)];
      } else if itemName == "Rifle" {
        rs := GetRifle();
      } else if itemName == "Health" {
        rs := RecoverHealth();
      } else if itemName == "Ammo" {
        rs := TakeAmmo(ammoAmount);
      } else {
        gotItems := gotItems + [itemName];
        rs := [PlayClip(PickSound), ItemUpdate(itemName)];
      }
    }
  }
}
