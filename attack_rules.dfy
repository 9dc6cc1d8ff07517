/**
 * The decisions behind a weapon's attack, as values: whether an attack may
 * fire, which spread a volley uses, how a bolt-back sequence advances, and
 * which bullet hits deal damage. The class in module WeaponBaseAttack runs
 * these decisions step by step over its fields.
 */
module AttackRules {
  import opened Wrappers

  /** How a clip fires while its button is held. */
  datatype FiringType = Semi | Automatic | Burst

  /** The immutable attack information of one clip (primary or secondary). */
  datatype ClipInfo = ClipInfo(
    firingType: FiringType,
    rpm: int,
    bullets: int,
    spread: real,
    force: real,
    damage: real,
    bulletSize: real,
    clipSize: int)

  /** The state of an attack's input button in the current tick. */
  datatype Trigger = Trigger(down: bool, pressed: bool)

  /** Whether an attack fires, and the burst counter afterwards. */
  datatype Verdict = Verdict(fire: bool, burstCount: nat)

  /** Every gate before the firing type is consulted: no animation or bolt lock, a clip, a valid owner, the button held and, for semi firing, pressed this tick. */
  predicate TriggerReady(isAnimating: bool, inBoltBack: bool, clip: Option<ClipInfo>, ownerValid: bool, trigger: Trigger)
  {
    && !isAnimating && !inBoltBack
    && clip.Some? && ownerValid && trigger.down
    && (clip.value.firingType == Semi ==> trigger.pressed)
  }

  /**
   * Whether an attack may fire. `lastAttackTime` is the time since this attack
   * last fired and `realRPM` the weapon's interval between rounds for an RPM
   * value. A burst clip fires while its counter is at most 2 and counts every
   * round it fires; other clips are rate limited only when their RPM is positive.
   */
  function CanAttackRule(isAnimating: bool, inBoltBack: bool, clip: Option<ClipInfo>, ownerValid: bool,
                         trigger: Trigger, lastAttackTime: real, realRPM: int -> real, burstCount: nat): (v: Verdict)
    ensures isAnimating || inBoltBack ==> !v.fire
    ensures clip.None? || !ownerValid || !trigger.down ==> !v.fire
    ensures clip.Some? && clip.value.firingType == Semi && !trigger.pressed ==> !v.fire
    ensures clip.Some? && clip.value.firingType == Burst && burstCount > 2 ==> !v.fire
    ensures TriggerReady(isAnimating, inBoltBack, clip, ownerValid, trigger) && clip.value.firingType == Burst ==>
              (v.fire <==> burstCount <= 2 && lastAttackTime > realRPM(clip.value.rpm))
    ensures TriggerReady(isAnimating, inBoltBack, clip, ownerValid, trigger) && clip.value.firingType != Burst ==>
              (v.fire <==> clip.value.rpm <= 0 || lastAttackTime > realRPM(clip.value.rpm))
    ensures v.burstCount == if v.fire && clip.Some? && clip.value.firingType == Burst then burstCount + 1 else burstCount
  {
    if !TriggerReady(isAnimating, inBoltBack, clip, ownerValid, trigger) then Verdict(false, burstCount)
    else
      var c := clip.value;
      match c.firingType
      case Burst =>
        if burstCount <= 2 && lastAttackTime > realRPM(c.rpm) then Verdict(true, burstCount + 1)
        else Verdict(false, burstCount)
      case _ =>
        Verdict(c.rpm <= 0 || lastAttackTime > realRPM(c.rpm), burstCount)
  }

  /** The circumstances of one call of CanAttack: the locks, the owner, the button and the time since the attack last fired. */
  datatype Attempt = Attempt(isAnimating: bool, inBoltBack: bool, ownerValid: bool, trigger: Trigger, lastAttackTime: real)

  /** How many of consecutive CanAttack calls on one clip fire, the burst counter carried from each call to the next. */
  function ShotsFired(clip: ClipInfo, realRPM: int -> real, attempts: seq<Attempt>, burstCount: nat): nat
  {
    if attempts == [] then 0
    else
      var a := attempts[0];
      var v := CanAttackRule(a.isAnimating, a.inBoltBack, Some(clip), a.ownerValid, a.trigger, a.lastAttackTime, realRPM, burstCount);
      (if v.fire then 1 else 0) + ShotsFired(clip, realRPM, attempts[1..], v.burstCount)
  }

  /** A burst clip fires at most three times, in whatever circumstances, until something outside the attack code resets its counter. */
  lemma {:induction false} BurstFiresAtMostThree(clip: ClipInfo, realRPM: int -> real, attempts: seq<Attempt>, burstCount: nat)
    requires clip.firingType == Burst
    ensures ShotsFired(clip, realRPM, attempts, burstCount) <= if burstCount >= 3 then 0 else 3 - burstCount
  {
    if attempts != [] {
      var a := attempts[0];
      var v := CanAttackRule(a.isAnimating, a.inBoltBack, Some(clip), a.ownerValid, a.trigger, a.lastAttackTime, realRPM, burstCount);
      BurstFiresAtMostThree(clip, realRPM, attempts[1..], v.burstCount);
    }
  }

  /** The spread a volley uses: a shotgun keeps its clip's spread, any other weapon quarters it while zooming. */
  function ShotSpread(isShotgun: bool, isZooming: bool, spread: real): (r: real)
    ensures isShotgun || !isZooming ==> r == spread
    ensures !isShotgun && isZooming ==> 4.0 * r == spread
  {
    if isShotgun then spread
    else if isZooming then spread / 4.0 else spread
  }

  /** The wait a bolt-back sequence is suspended in. */
  datatype BoltPhase = AwaitStart | AwaitEject | AwaitFinish

  /** What resuming a bolt-back sequence does. */
  datatype BoltStep = Abort | Advance(next: BoltPhase) | Finish

  /** One resumption of a bolt-back sequence: a failed validation ends it, a passed one moves to the next wait, and passing the last wait finishes it. */
  function ResumeBolt(phase: BoltPhase, valid: bool): (r: BoltStep)
    ensures r == Abort <==> !valid
    ensures r == Finish <==> valid && phase == AwaitFinish
    ensures r.Advance? ==> r.next != AwaitStart && r.next != phase
  {
    if !valid then Abort
    else match phase
      case AwaitStart => Advance(AwaitEject)
      case AwaitEject => Advance(AwaitFinish)
      case AwaitFinish => Finish
  }

  /** The bolt-in-progress flag after a bolt-back sequence suspended at `phase` is resumed once per validation result in `checks`. */
  function BoltRun(phase: BoltPhase, checks: seq<bool>, inBoltBack: bool): (r: bool)
    ensures r ==> inBoltBack
    ensures checks == [] || !checks[0] ==> r == inBoltBack
    decreases |checks|
  {
    if checks == [] then inBoltBack
    else match ResumeBolt(phase, checks[0])
      case Abort => inBoltBack
      case Finish => false
      case Advance(next) => BoltRun(next, checks[1..], inBoltBack)
  }

  /** A bolt-back sequence clears the bolt-in-progress flag only when all three waits pass their validation; any failure leaves the flag as it was. */
  lemma {:induction false} BoltBackClearsOnlyAfterThreeValidations(checks: seq<bool>, inBoltBack: bool)
    ensures BoltRun(AwaitStart, checks, inBoltBack)
              == if |checks| >= 3 && checks[0] && checks[1] && checks[2] then false else inBoltBack
  {
    if |checks| >= 1 && checks[0] {
      var c1 := checks[1..];
      if |c1| >= 1 && c1[0] {
        var c2 := c1[1..];
        assert BoltRun(AwaitEject, c1, inBoltBack) == BoltRun(AwaitFinish, c2, inBoltBack);
      }
      assert BoltRun(AwaitStart, checks, inBoltBack) == BoltRun(AwaitEject, c1, inBoltBack);
    }
  }

  /** What one bullet trace returns: the entity it hit, whether that entity is valid. */
  datatype TraceResult = TraceResult(entity: nat, entityValid: bool)

  /** Damage applied to one entity by one bullet. The impulse is the factor that scales the unit shot direction into the force vector. */
  datatype DamageEvent = DamageEvent(target: nat, amount: real, impulse: real)

  /** The results of tracing one bullet: exactly the single ray cast's result. */
  function TraceBullet(hit: TraceResult): (trs: seq<TraceResult>)
    ensures |trs| == 1 && trs[0] == hit
  {
    [hit]
  }

  /** The valid results among `trs`, in order. */
  function ValidHits(trs: seq<TraceResult>): seq<TraceResult>
  {
    if trs == [] then []
    else ValidHits(trs[..|trs| - 1]) + (if trs[|trs| - 1].entityValid then [trs[|trs| - 1]] else [])
  }

  /** The damage a bullet deals for its trace results, in order: one event per valid hit entity, none for an invalid one. */
  function HitDamage(trs: seq<TraceResult>, damage: real, force: real): (ds: seq<DamageEvent>)
    ensures |ds| == |ValidHits(trs)|
  {
    if trs == [] then []
    else
      var last := trs[|trs| - 1];
      HitDamage(trs[..|trs| - 1], damage, force)
        + (if last.entityValid then [DamageEvent(last.entity, damage, 100.0 * force)] else [])
  }

  /** Damage goes to valid hit entities only, one event for each valid result in the trace, with the shot's damage and impulse. */
  lemma {:induction false} HitDamageOnlyValidHits(trs: seq<TraceResult>, damage: real, force: real)
    ensures var ds := HitDamage(trs, damage, force);
            && |ds| <= |trs|
            && (forall d :: d in ds ==> d.amount == damage && d.impulse == 100.0 * force)
            && (forall d :: d in ds ==> exists t :: t in trs && t.entityValid && t.entity == d.target)
            && (forall t :: t in trs && t.entityValid ==> DamageEvent(t.entity, damage, 100.0 * force) in ds)
  {
    if trs != [] {
      var init := trs[..|trs| - 1];
      HitDamageOnlyValidHits(init, damage, force);
      assert trs == init + [trs[|trs| - 1]];
    }
  }
}
