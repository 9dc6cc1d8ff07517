/**
 * The attack half of a magazine-fed weapon: gating an attack, firing it,
 * the delayed (pump or bolt feel) attack and the bolt-back sequence that
 * follows a shot. Timed sequences are suspended continuations in `pending`;
 * the host resumes one when its wait has passed, and every resumption first
 * re-validates the (active weapon, instance id) token captured at its start.
 */
module WeaponBaseAttack {
  import opened Wrappers
  import opened AttackRules

  /** Which of the weapon's two clips an attack uses. */
  datatype Slot = PrimarySlot | SecondarySlot

  /** The identity captured by a timed sequence: the owner's active weapon and this weapon's instance id. */
  datatype Token = Token(activeWeapon: int, instanceID: int)

  /** A suspended timed sequence and the wait it is suspended in. */
  datatype Continuation =
    | BoltBack(token: Token, phase: BoltPhase, wait: real)
    | DelayedFire(token: Token, clip: ClipInfo, wait: real)

  /** One call of ShootBullet: its spread, force, damage and bullet size. */
  datatype ShotRequest = ShotRequest(spread: real, force: real, damage: real, bulletSize: real)

  /** Side effects outside the weapon that the model records. */
  datatype Effect = DryFireSound | ReloadRequested | ShellEject | BarrelSmoke | BoltBackAnim | BoltBackEject

  /** The per-weapon configuration an attack reads. */
  datatype WeaponConfig = WeaponConfig(
    primary: ClipInfo,
    secondary: Option<ClipInfo>,
    primaryDelay: real,
    secondaryDelay: real,
    boltBackTime: real,
    boltBackEjectDelay: real,
    isShotgun: bool,
    barrelSmoking: bool,
    autoReload: int)

  /** The number of times a volley of `bullets` calls ShootBullet: its for loop runs no times for a non-positive count. */
  function Volley(bullets: int): nat
  {
    if bullets > 0 then bullets else 0
  }

  /** `n` copies of `x`. */
  function Repeat<T>(x: T, n: nat): (r: seq<T>)
    ensures |r| == n
  {
    if n == 0 then [] else Repeat(x, n - 1) + [x]
  }

  /** The damage dealt by the `count` bullets whose global shot numbers start at `first`, `world` giving each bullet's trace result. */
  function VolleyDamage(world: nat -> TraceResult, first: nat, count: nat, damage: real, force: real): seq<DamageEvent>
  {
    if count == 0 then []
    else VolleyDamage(world, first, count - 1, damage, force) + HitDamage(TraceBullet(world(first + count - 1)), damage, force)
  }

  /** `s` without its element at `i`. */
  function RemoveAt<T>(s: seq<T>, i: nat): (r: seq<T>)
    requires i < |s|
    ensures |r| == |s| - 1
  {
    s[..i] + s[i + 1..]
  }

  /** The wait a bolt-back sequence is suspended in at `phase`. */
  function BoltWait(cfg: WeaponConfig, firstDelay: real, phase: BoltPhase): real
  {
    match phase
    case AwaitStart => firstDelay
    case AwaitEject => cfg.boltBackEjectDelay
    case AwaitFinish => cfg.boltBackTime - cfg.boltBackEjectDelay
  }

  class Weapon {
    const cfg: WeaponConfig
    /** GetRealRPM: the interval between rounds for an RPM value. */
    const realRPM: int -> real
    /** GetRealSpread: the spread a delayed shot uses for a clip's spread. */
    const realSpread: real -> real
    /** The trace result of the n-th bullet this weapon shoots (random spread and physics). */
    const world: nat -> TraceResult

    // State kept by the rest of the weapon, the owner and the input system.
    var isAnimating: bool
    var ownerValid: bool
    var ownerIsPlayer: bool
    var ownerActiveChild: int
    var instanceID: int
    var isRunning: bool
    var shouldTuck: bool
    var isZooming: bool
    var isServer: bool
    /** GetAvailableAmmo: the owner's ammunition available to this weapon. */
    var availableAmmo: int

    // Attack state.
    var primaryAmmo: nat
    var secondaryAmmo: nat
    var timeSincePrimaryAttack: real
    var timeSinceSecondaryAttack: real
    var timeSinceFired: real
    var burstCount: nat
    var inBoltBack: bool
    var doRecoil: bool
    var barrelHeat: nat
    var pending: seq<Continuation>
    var shots: seq<ShotRequest>
    var damageDealt: seq<DamageEvent>
    ghost var effects: seq<Effect>

    constructor (cfg: WeaponConfig, realRPM: int -> real, realSpread: real -> real, world: nat -> TraceResult,
                 instanceID: int, isServer: bool, primaryAmmo: nat, secondaryAmmo: nat)
      ensures this.cfg == cfg && this.realRPM == realRPM && this.realSpread == realSpread && this.world == world
      ensures this.instanceID == instanceID && this.isServer == isServer
      ensures this.primaryAmmo == primaryAmmo && this.secondaryAmmo == secondaryAmmo
      ensures burstCount == 0 && !inBoltBack && !doRecoil && barrelHeat == 0
      ensures pending == [] && shots == [] && damageDealt == [] && effects == []
    {
      this.cfg, this.realRPM, this.realSpread, this.world := cfg, realRPM, realSpread, world;
      this.instanceID, this.isServer := instanceID, isServer;
      this.primaryAmmo, this.secondaryAmmo := primaryAmmo, secondaryAmmo;
      isAnimating, ownerValid, ownerIsPlayer, ownerActiveChild := false, true, true, instanceID;
      isRunning, shouldTuck, isZooming, availableAmmo := false, false, false, 0;
      timeSincePrimaryAttack, timeSinceSecondaryAttack, timeSinceFired := 0.0, 0.0, 0.0;
      burstCount, inBoltBack, doRecoil, barrelHeat := 0, false, false, 0;
      pending, shots, damageDealt, effects := [], [], [], [];
    }

    /** The clip an attack from `slot` uses; a weapon may have no secondary clip. */
    function Clip(slot: Slot): Option<ClipInfo>
    {
      if slot == PrimarySlot then Some(cfg.primary) else cfg.secondary
    }

    /** The rounds left in the clip of `slot`. */
    function ClipAmmo(slot: Slot): nat
      reads this`primaryAmmo, this`secondaryAmmo
    {
      if slot == PrimarySlot then primaryAmmo else secondaryAmmo
    }

    /** The token a timed sequence captures when it starts. */
    function CurrentToken(): Token
      reads this`ownerActiveChild, this`instanceID
    {
      Token(ownerActiveChild, instanceID)
    }

    /**
     * IsAsyncValid: the owner is valid and still holds the weapon instance the
     * token was captured from. A token captured now is valid exactly while the
     * owner is; a switch of active weapon or a new instance id makes it stale.
     */
    function IsAsyncValid(token: Token): (ok: bool)
      reads this`ownerValid, this`ownerActiveChild, this`instanceID
      ensures token == CurrentToken() ==> (ok <==> ownerValid)
      ensures token.activeWeapon != ownerActiveChild || token.instanceID != instanceID ==> !ok
    {
      ownerValid && token == CurrentToken()
    }

    /** Whether the attack of `clip` may fire now; a burst clip counts every round it lets through. */
    method CanAttack(clip: Option<ClipInfo>, lastAttackTime: real, trigger: Trigger) returns (ok: bool)
      modifies this`burstCount
      ensures var v := CanAttackRule(isAnimating, inBoltBack, clip, ownerValid, trigger, lastAttackTime, realRPM, old(burstCount));
              ok == v.fire && burstCount == v.burstCount
    {
      if isAnimating || inBoltBack { return false; }
      if clip.None? || !ownerValid || !trigger.down { return false; }
      if clip.value.firingType == Semi && !trigger.pressed { return false; }
      if clip.value.firingType == Burst {
        if burstCount > 2 { return false; }
        if trigger.down && lastAttackTime > realRPM(clip.value.rpm) {
          burstCount := burstCount + 1;
          return true;
        }
        return false;
      }
      if clip.value.rpm <= 0 { return true; }
      return lastAttackTime > realRPM(clip.value.rpm);
    }

    /** Whether the primary attack may fire, timed by the time since the last primary attack. */
    method CanPrimaryAttack(attack1: Trigger) returns (ok: bool)
      modifies this`burstCount
      ensures var v := CanAttackRule(isAnimating, inBoltBack, Some(cfg.primary), ownerValid, attack1, timeSincePrimaryAttack, realRPM, old(burstCount));
              ok == v.fire && burstCount == v.burstCount
    {
      ok := CanAttack(Some(cfg.primary), timeSincePrimaryAttack, attack1);
    }

    /** Whether the secondary attack may fire; never for a weapon without a secondary clip. */
    method CanSecondaryAttack(attack2: Trigger) returns (ok: bool)
      modifies this`burstCount
      ensures var v := CanAttackRule(isAnimating, inBoltBack, cfg.secondary, ownerValid, attack2, timeSinceSecondaryAttack, realRPM, old(burstCount));
              ok == v.fire && burstCount == v.burstCount
      ensures cfg.secondary.None? ==> !ok && burstCount == old(burstCount)
    {
      ok := CanAttack(cfg.secondary, timeSinceSecondaryAttack, attack2);
    }

    /** TakeAmmo: takes `amount` rounds from the primary clip when it holds that many. */
    method TakeAmmo(amount: nat) returns (ok: bool)
      modifies this`primaryAmmo
      ensures ok == (old(primaryAmmo) >= amount)
      ensures primaryAmmo == if ok then old(primaryAmmo) - amount else old(primaryAmmo)
    {
      if primaryAmmo < amount { return false; }
      primaryAmmo := primaryAmmo - amount;
      return true;
    }

    /** Shoots one bullet: records the request and applies its damage to the valid entities its trace hits. */
    method ShootBullet(spread: real, force: real, damage: real, bulletSize: real)
      modifies this`shots, this`damageDealt
      ensures shots == old(shots) + [ShotRequest(spread, force, damage, bulletSize)]
      ensures damageDealt == old(damageDealt) + HitDamage(TraceBullet(world(|old(shots)|)), damage, force)
    {
      var trs := TraceBullet(world(|shots|));
      shots := shots + [ShotRequest(spread, force, damage, bulletSize)];
      var k := 0;
      while k < |trs|
        invariant 0 <= k <= |trs|
        invariant shots == old(shots) + [ShotRequest(spread, force, damage, bulletSize)]
        invariant damageDealt == old(damageDealt) + HitDamage(trs[..k], damage, force)
      {
        assert trs[..k + 1][..k] == trs[..k];
        var tr := trs[k];
        if tr.entityValid {
          damageDealt := damageDealt + [DamageEvent(tr.entity, damage, 100.0 * force)];
        }
        k := k + 1;
      }
      assert trs[..k] == trs;
    }

    /** Calls ShootBullet once per bullet of the clip, with the given spread. */
    method ShootBullets(clip: ClipInfo, spread: real)
      modifies this`shots, this`damageDealt
      ensures shots == old(shots) + Repeat(ShotRequest(spread, clip.force, clip.damage, clip.bulletSize), Volley(clip.bullets))
      ensures damageDealt == old(damageDealt) + VolleyDamage(world, |old(shots)|, Volley(clip.bullets), clip.damage, clip.force)
    {
      var req := ShotRequest(spread, clip.force, clip.damage, clip.bulletSize);
      ghost var first := |shots|;
      var i := 0;
      while i < clip.bullets
        invariant 0 <= i <= Volley(clip.bullets)
        invariant |shots| == first + i
        invariant shots == old(shots) + Repeat(req, i)
        invariant damageDealt == old(damageDealt) + VolleyDamage(world, first, i, clip.damage, clip.force)
      {
        ghost var before := damageDealt;
        ghost var sbefore := shots;
        ShootBullet(spread, clip.force, clip.damage, clip.bulletSize);
        assert damageDealt == before + HitDamage(TraceBullet(world(first + i)), clip.damage, clip.force);
        assert shots == (old(shots) + Repeat(req, i)) + [req];
        assert shots == old(shots) + (Repeat(req, i) + [req]);
        assert damageDealt == old(damageDealt) + (VolleyDamage(world, first, i, clip.damage, clip.force) + HitDamage(TraceBullet(world(first + i)), clip.damage, clip.force));
        i := i + 1;
      }
    }

    /** Reload, which lives outside the attack code: the model records the request. */
    method Reload()
      modifies this`effects
      ensures effects == old(effects) + [ReloadRequested]
    {
      effects := effects + [ReloadRequested];
    }

    /**
     * The synchronous start of AsyncBoltBack: captures the token, sets the
     * bolt-in-progress flag to `force` and suspends for `boltBackDelay`. With an
     * owner that is not a player the asynchronous sequence faults before any of that.
     */
    method AsyncBoltBack(boltBackDelay: real, force: bool)
      modifies this`inBoltBack, this`pending
      ensures ownerIsPlayer ==> inBoltBack == force
      ensures ownerIsPlayer ==> pending == old(pending) + [BoltBack(CurrentToken(), AwaitStart, boltBackDelay)]
      ensures !ownerIsPlayer ==> inBoltBack == old(inBoltBack) && pending == old(pending)
    {
      if !ownerIsPlayer { return; }
      var token := CurrentToken();
      inBoltBack := force;
      pending := pending + [BoltBack(token, AwaitStart, boltBackDelay)];
    }

    /**
     * Resumes the bolt-back sequence `pending[i]` after its wait. A failed
     * validation drops it with the bolt flag untouched; otherwise it plays the
     * bolt-back animation, then ejects the shell, then clears the flag.
     */
    method ResumeBoltBack(i: nat)
      requires i < |pending| && pending[i].BoltBack?
      modifies this`pending, this`inBoltBack, this`effects
      ensures var c := old(pending[i]);
              var step := ResumeBolt(c.phase, IsAsyncValid(c.token));
              && (step.Advance? ==> pending == old(pending)[i := BoltBack(c.token, step.next, BoltWait(cfg, c.wait, step.next))])
              && (!step.Advance? ==> pending == RemoveAt(old(pending), i))
              && inBoltBack == (if step.Finish? then false else old(inBoltBack))
      ensures var step := ResumeBolt(old(pending[i]).phase, IsAsyncValid(old(pending[i]).token));
              && (step.Advance? ==> effects == old(effects) + [if step.next == AwaitEject then BoltBackAnim else BoltBackEject])
              && (!step.Advance? ==> effects == old(effects))
      ensures !IsAsyncValid(old(pending[i]).token) ==> inBoltBack == old(inBoltBack) && effects == old(effects)
    {
      var c := pending[i];
      var step := ResumeBolt(c.phase, IsAsyncValid(c.token));
      match step
      case Abort =>
        pending := RemoveAt(pending, i);
      case Advance(next) =>
        effects := effects + [if next == AwaitEject then BoltBackAnim else BoltBackEject];
        pending := pending[i := BoltBack(c.token, next, BoltWait(cfg, c.wait, next))];
      case Finish =>
        inBoltBack := false;
        pending := RemoveAt(pending, i);
    }

    /** The dry-fire path of an attack whose round could not be taken: the dry-fire sound and, with auto reload on, timers at 999 and a reload. */
    method DryFire()
      modifies this`timeSincePrimaryAttack, this`timeSinceSecondaryAttack, this`timeSinceFired, this`effects
      ensures cfg.autoReload > 0 ==>
                timeSincePrimaryAttack == 999.0 && timeSinceSecondaryAttack == 999.0 && timeSinceFired == 999.0
                && effects == old(effects) + [DryFireSound, ReloadRequested]
      ensures cfg.autoReload <= 0 ==>
                timeSincePrimaryAttack == old(timeSincePrimaryAttack) && timeSinceSecondaryAttack == old(timeSinceSecondaryAttack)
                && timeSinceFired == old(timeSinceFired) && effects == old(effects) + [DryFireSound]
    {
      effects := effects + [DryFireSound];
      if cfg.autoReload > 0 {
        timeSincePrimaryAttack := 999.0;
        timeSinceSecondaryAttack := 999.0;
        timeSinceFired := 999.0;
        Reload();
      }
    }

    /** A shotgun ejects its shell on the server right after the shot. */
    method EjectShell()
      modifies this`effects
      ensures effects == old(effects) + (if cfg.isShotgun && isServer then [ShellEject] else [])
    {
      if cfg.isShotgun && isServer {
        effects := effects + [ShellEject];
      }
    }

    /** Barrel smoke: on the server, a smoking barrel heats by one unit per shot and smokes once the heat reaches three quarters of the clip size. */
    method HeatBarrel(clip: ClipInfo)
      modifies this`barrelHeat, this`effects
      ensures barrelHeat == old(barrelHeat) + (if isServer && cfg.barrelSmoking then 1 else 0)
      ensures effects == old(effects) + (if isServer && cfg.barrelSmoking && barrelHeat as real >= clip.clipSize as real * 0.75
                                         then [BarrelSmoke] else [])
    {
      if isServer && cfg.barrelSmoking {
        barrelHeat := barrelHeat + 1;
        if barrelHeat as real >= clip.clipSize as real * 0.75 {
          effects := effects + [BarrelSmoke];
        }
      }
    }

    /** Shoots the bullets of an immediate attack: on the server only, each with the shotgun or zoom spread. */
    method FireVolley(clip: ClipInfo)
      modifies this`shots, this`damageDealt
      ensures var req := ShotRequest(ShotSpread(cfg.isShotgun, isZooming, clip.spread), clip.force, clip.damage, clip.bulletSize);
              && shots == (if isServer then old(shots) + Repeat(req, Volley(clip.bullets)) else old(shots))
              && damageDealt == (if isServer then old(damageDealt) + VolleyDamage(world, |old(shots)|, Volley(clip.bullets), clip.damage, clip.force)
                   else old(damageDealt))
    {
      var spread := ShotSpread(cfg.isShotgun, isZooming, clip.spread);
      if isServer {
        ShootBullets(clip, spread);
      }
    }

    /** Boltback: on the server, a weapon with a bolt-back time whose clip still holds a round starts a forced bolt-back, first waiting GetRealRPM of the clip's RPM. */
    method BoltBackAfterShot(slot: Slot)
      requires Clip(slot).Some?
      modifies this`inBoltBack, this`pending
      ensures var bolt := isServer && ownerIsPlayer && ClipAmmo(slot) > 0 && cfg.boltBackTime > -1.0;
              && (bolt ==> inBoltBack && pending == old(pending) + [BoltBack(CurrentToken(), AwaitStart, realRPM(Clip(slot).value.rpm))])
              && (!bolt ==> inBoltBack == old(inBoltBack) && pending == old(pending))
    {
      if ClipAmmo(slot) > 0 && cfg.boltBackTime > -1.0 {
        if isServer {
          AsyncBoltBack(realRPM(Clip(slot).value.rpm), true);
        }
      }
    }

    /**
     * The rest of an attack once its round is taken: maybe a bolt-back (on the
     * server, while the clip still holds a round and the weapon has a bolt-back
     * time), the shotgun shell eject, barrel heat, the volley on the server with
     * the shotgun or zoom spread, and recoil.
     */
    method Discharge(slot: Slot)
      requires Clip(slot).Some?
      modifies this`inBoltBack, this`pending, this`barrelHeat, this`shots, this`damageDealt, this`doRecoil, this`effects
      ensures doRecoil
      ensures var clip := Clip(slot).value;
              var req := ShotRequest(ShotSpread(cfg.isShotgun, isZooming, clip.spread), clip.force, clip.damage, clip.bulletSize);
              && shots == (if isServer then old(shots) + Repeat(req, Volley(clip.bullets)) else old(shots))
              && damageDealt == (if isServer then old(damageDealt) + VolleyDamage(world, |old(shots)|, Volley(clip.bullets), clip.damage, clip.force)
                   else old(damageDealt))
      ensures var bolt := isServer && ownerIsPlayer && ClipAmmo(slot) > 0 && cfg.boltBackTime > -1.0;
              && (bolt ==> inBoltBack && pending == old(pending) + [BoltBack(CurrentToken(), AwaitStart, realRPM(Clip(slot).value.rpm))])
              && (!bolt ==> inBoltBack == old(inBoltBack) && pending == old(pending))
      ensures barrelHeat == old(barrelHeat) + (if isServer && cfg.barrelSmoking then 1 else 0)
      ensures effects == old(effects) + (if cfg.isShotgun && isServer then [ShellEject] else [])
                         + (if isServer && cfg.barrelSmoking && barrelHeat as real >= Clip(slot).value.clipSize as real * 0.75
                            then [BarrelSmoke] else [])
    {
      var clip := Clip(slot).value;
      ghost var ammo, token, effects0 := ClipAmmo(slot), CurrentToken(), effects;

      BoltBackAfterShot(slot);
      ghost var inBoltBack1, pending1 := inBoltBack, pending;
      assert effects == effects0;

      EjectShell();
      ghost var effects2 := effects;

      HeatBarrel(clip);
      ghost var barrelHeat1, effects3 := barrelHeat, effects;

      FireVolley(clip);

      doRecoil := true;
      assert inBoltBack == inBoltBack1 && pending == pending1 && barrelHeat == barrelHeat1 && effects == effects3;
      assert ClipAmmo(slot) == ammo && CurrentToken() == token;
    }

    /**
     * What an immediate attack from `slot` leaves behind, against the state
     * before it: nothing at all while the owner runs or the weapon is tucked.
     * Otherwise the fire timers reset to 0, and then either the dry-fire path
     * runs (the primary clip is empty: no shot, no recoil, no bolt-back) or a
     * round is taken and the shot is discharged.
     */
    twostate predicate Fired(slot: Slot)
      requires Clip(slot).Some?
      reads this
    {
      && (old(isRunning) || old(shouldTuck) ==> unchanged(this))
      && (!old(isRunning) && !old(shouldTuck) && old(primaryAmmo) == 0 ==>
            && primaryAmmo == 0
            && (var t := if cfg.autoReload > 0 then 999.0 else 0.0;
                timeSincePrimaryAttack == t && timeSinceSecondaryAttack == t && timeSinceFired == t)
            && effects == old(effects) + [DryFireSound] + (if cfg.autoReload > 0 then [ReloadRequested] else [])
            && shots == old(shots) && damageDealt == old(damageDealt) && doRecoil == old(doRecoil)
            && inBoltBack == old(inBoltBack) && pending == old(pending) && barrelHeat == old(barrelHeat))
      && (!old(isRunning) && !old(shouldTuck) && old(primaryAmmo) > 0 ==>
            && primaryAmmo == old(primaryAmmo) - 1
            && timeSincePrimaryAttack == 0.0 && timeSinceSecondaryAttack == 0.0 && timeSinceFired == 0.0
            && doRecoil
            && (var clip := Clip(slot).value;
                var req := ShotRequest(ShotSpread(cfg.isShotgun, isZooming, clip.spread), clip.force, clip.damage, clip.bulletSize);
                && shots == (if isServer then old(shots) + Repeat(req, Volley(clip.bullets)) else old(shots))
                && damageDealt == (if isServer then old(damageDealt) + VolleyDamage(world, |old(shots)|, Volley(clip.bullets), clip.damage, clip.force)
                     else old(damageDealt))
                && effects == old(effects) + (if cfg.isShotgun && isServer then [ShellEject] else [])
                              + (if isServer && cfg.barrelSmoking && barrelHeat as real >= clip.clipSize as real * 0.75
                                 then [BarrelSmoke] else []))
            && (var bolt := isServer && ownerIsPlayer && ClipAmmo(slot) > 0 && cfg.boltBackTime > -1.0;
                && (bolt ==> inBoltBack && pending == old(pending) + [BoltBack(CurrentToken(), AwaitStart, realRPM(Clip(slot).value.rpm))])
                && (!bolt ==> inBoltBack == old(inBoltBack) && pending == old(pending)))
            && barrelHeat == old(barrelHeat) + (if isServer && cfg.barrelSmoking then 1 else 0))
    }

    /**
     * Fires a shot unless the owner is running or the weapon is tucked: resets
     * the fire timers, then either takes the dry-fire path or consumes a round
     * and discharges.
     */
    method Attack(slot: Slot)
      requires Clip(slot).Some?
      modifies this`timeSincePrimaryAttack, this`timeSinceSecondaryAttack, this`timeSinceFired, this`primaryAmmo
      modifies this`inBoltBack, this`pending, this`barrelHeat, this`shots, this`damageDealt, this`doRecoil, this`effects
      ensures Fired(slot)
    {
      if isRunning || shouldTuck { return; }

      timeSincePrimaryAttack := 0.0;
      timeSinceSecondaryAttack := 0.0;
      timeSinceFired := 0.0;

      var took := TakeAmmo(1);
      if !took {
        DryFire();
        return;
      }
      Discharge(slot);
    }

    /**
     * What starting a delayed attack of `clip` leaves behind, against the
     * state before it: nothing without available ammo; otherwise both attack
     * timers rewound by `delay` and, for a player owner, the delayed shot
     * queued with the token captured now.
     */
    twostate predicate DelayStarted(clip: ClipInfo, delay: real)
      reads this
    {
      && (old(availableAmmo) <= 0 ==>
            timeSincePrimaryAttack == old(timeSincePrimaryAttack) && timeSinceSecondaryAttack == old(timeSinceSecondaryAttack)
            && pending == old(pending))
      && (old(availableAmmo) > 0 ==>
            timeSincePrimaryAttack == old(timeSincePrimaryAttack) - delay
            && timeSinceSecondaryAttack == old(timeSinceSecondaryAttack) - delay
            && pending == old(pending) + (if ownerIsPlayer then [DelayedFire(CurrentToken(), clip, delay)] else []))
    }

    /**
     * The synchronous start of AsyncAttack: nothing without available ammo;
     * otherwise rewinds both attack timers by `delay` and, for a player owner,
     * captures the token and suspends for `delay`.
     */
    method AsyncAttack(clip: ClipInfo, delay: real)
      modifies this`timeSincePrimaryAttack, this`timeSinceSecondaryAttack, this`pending
      ensures DelayStarted(clip, delay)
    {
      if availableAmmo <= 0 { return; }

      timeSincePrimaryAttack := timeSincePrimaryAttack - delay;
      timeSinceSecondaryAttack := timeSinceSecondaryAttack - delay;

      if !ownerIsPlayer { return; }
      var token := CurrentToken();
      pending := pending + [DelayedFire(token, clip, delay)];
    }

    /**
     * Resumes the delayed attack `pending[i]` after its wait. With a stale
     * token it ends without touching ammo or bullets. Otherwise it takes a round
     * (its result unused) and, on the server, shoots the clip's bullets with
     * GetRealSpread of the clip's spread.
     */
    method ResumeDelayedFire(i: nat)
      requires i < |pending| && pending[i].DelayedFire?
      modifies this`pending, this`primaryAmmo, this`shots, this`damageDealt
      ensures pending == RemoveAt(old(pending), i)
      ensures !IsAsyncValid(old(pending[i]).token) ==>
                primaryAmmo == old(primaryAmmo) && shots == old(shots) && damageDealt == old(damageDealt)
      ensures IsAsyncValid(old(pending[i]).token) ==>
                && primaryAmmo == (if old(primaryAmmo) >= 1 then old(primaryAmmo) - 1 else old(primaryAmmo))
                && var clip := old(pending[i]).clip;
                   var req := ShotRequest(realSpread(clip.spread), clip.force, clip.damage, clip.bulletSize);
                   && shots == (if isServer then old(shots) + Repeat(req, Volley(clip.bullets)) else old(shots))
                   && damageDealt == (if isServer then old(damageDealt) + VolleyDamage(world, |old(shots)|, Volley(clip.bullets), clip.damage, clip.force)
                        else old(damageDealt))
    {
      var c := pending[i];
      pending := RemoveAt(pending, i);
      if !IsAsyncValid(c.token) { return; }

      var _ := TakeAmmo(1);
      if isServer {
        ShootBullets(c.clip, realSpread(c.clip.spread));
      }
    }

    /** DelayedAttack: whatever clip and delay it is given, starts a delayed attack of the primary clip with the primary delay. */
    method DelayedAttack(slot: Slot, delay: real)
      modifies this`timeSincePrimaryAttack, this`timeSinceSecondaryAttack, this`pending
      ensures DelayStarted(cfg.primary, cfg.primaryDelay)
    {
      AsyncAttack(cfg.primary, cfg.primaryDelay);
    }

    /** The primary attack: delayed when the primary delay is positive, immediate otherwise. */
    method AttackPrimary()
      modifies this`timeSincePrimaryAttack, this`timeSinceSecondaryAttack, this`timeSinceFired, this`primaryAmmo
      modifies this`inBoltBack, this`pending, this`barrelHeat, this`shots, this`damageDealt, this`doRecoil, this`effects
      ensures cfg.primaryDelay > 0.0 ==>
                && DelayStarted(cfg.primary, cfg.primaryDelay)
                && unchanged(this`timeSinceFired, this`primaryAmmo, this`inBoltBack, this`barrelHeat)
                && unchanged(this`shots, this`damageDealt, this`doRecoil, this`effects)
      ensures cfg.primaryDelay <= 0.0 ==> Fired(PrimarySlot)
    {
      if cfg.primaryDelay > 0.0 {
        DelayedAttack(PrimarySlot, cfg.primaryDelay);
      } else {
        Attack(PrimarySlot);
      }
    }

    /**
     * The secondary attack, only for a weapon with a secondary clip: a positive
     * secondary delay starts a delayed attack (of the primary clip), otherwise
     * the secondary clip fires at once.
     */
    method AttackSecondary()
      modifies this`timeSincePrimaryAttack, this`timeSinceSecondaryAttack, this`timeSinceFired, this`primaryAmmo
      modifies this`inBoltBack, this`pending, this`barrelHeat, this`shots, this`damageDealt, this`doRecoil, this`effects
      ensures cfg.secondary.None? ==> unchanged(this)
      ensures cfg.secondary.Some? && cfg.secondaryDelay > 0.0 ==>
                && DelayStarted(cfg.primary, cfg.primaryDelay)
                && unchanged(this`timeSinceFired, this`primaryAmmo, this`inBoltBack, this`barrelHeat)
                && unchanged(this`shots, this`damageDealt, this`doRecoil, this`effects)
      ensures cfg.secondary.Some? && cfg.secondaryDelay <= 0.0 ==> Fired(SecondarySlot)
    {
      if cfg.secondary.Some? {
        if cfg.secondaryDelay > 0.0 {
          DelayedAttack(SecondarySlot, cfg.secondaryDelay);
        } else {
          Attack(SecondarySlot);
        }
        return;
      }
    }
  }
}
