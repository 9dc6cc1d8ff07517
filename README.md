# Simple Weapon Base: attack sequence and view-model animation state

This project models two per-tick components of the Simple Weapon Base (SWB)
weapon framework for s&box. It states their behaviour as Dafny contracts and
lemmas, and Dafny proves them.

- **The attack half of `WeaponBase`** (`WeaponBase.Attack.cs`), in modules
  `AttackRules` (the decisions, as values) and `WeaponBaseAttack` (class
  `Weapon`, whose methods update the weapon's fields). It covers:
  - the `CanAttack` gate and its burst counter;
  - the immediate `Attack`, with its timers, dry fire and auto reload, bolt-back
    start, shotgun shell, barrel heat, spread choice, bullet volley and recoil;
  - the delayed attack (`AsyncAttack` / `DelayedAttack`) and the choice
    between the delayed and immediate paths in `AttackPrimary` and
    `AttackSecondary`;
  - the bolt-back sequence (`AsyncBoltBack`);
  - bullet damage over an abstract trace.

  The timed sequences are suspended continuations in the field `pending`. Each
  one holds the (active weapon, instance id) token captured when it started
  and the wait it is in. `ResumeBoltBack` and `ResumeDelayedFire` are the code
  that runs after each wait. Each first re-validates the token, as
  `IsAsyncValid` does.
- **`ViewModelHandler`** (`ViewModelHandler.cs`), in modules `ViewModelRules`
  (each animation modifier as a function on the pair of target accumulators)
  and `ViewModel` (class `ViewModelHandler`, whose methods update its fields).
  It covers:
  - the first-person gate;
  - the -1 field-of-view sentinel;
  - the easing of the final values;
  - the per-frame reset of the targets;
  - the six modifiers (idle, walk, sway, iron sights, sprint, jump), with their
    guards, the walk lean, the sway clamps, the aim-time latch, the field-of-view
    overrides, the jump and landing timers and the jump phase.

  Trigonometry, Bezier curves, lerps, vector lengths and angle conversions are
  the fields of a `Numerics` value. Their results are left unconstrained, so
  every property holds whatever they return.

The helpers the attack code calls but does not define are modelled as follows:
- `GetRealRPM`, `GetRealSpread` and the bullet trace are function-valued
  constants of the weapon (`realRPM`, `realSpread`, `world`). `world` gives the
  trace result of the n-th bullet the weapon shoots.
- `TakeAmmo` draws from the primary clip.
- `GetAvailableAmmo` is the field `availableAmmo`.
- `AddBarrelHeat` adds one unit.
- `Reload` records a request in the ghost effect log.
- The owner, input, server/client and running/tuck state are fields set by the
  rest of the game.

## Model

| member | source | states |
|---|---|---|
| AttackRules.CanAttackRule | code/swb_base/WeaponBase.Attack.cs:21-42 | No shot while animating or in bolt-back, without a clip, a valid owner or the button held, or for semi fire without a press this tick. Once those gates pass: a burst clip fires iff its counter is at most 2 and the rate interval has passed; any other clip fires iff its RPM is not positive or the interval has passed. The counter grows by exactly one on a burst shot and is otherwise unchanged. |
| AttackRules.BurstFiresAtMostThree | code/swb_base/WeaponBase.Attack.cs:26-37 | Over any run of CanAttack calls on a burst clip, at most 3 − burstCount shots fire, and none once the counter is 3 or more. |
| AttackRules.ShotSpread | code/swb_base/WeaponBase.Attack.cs:129-138 | A shotgun keeps the clip spread; any other weapon uses a quarter of it while zooming and all of it otherwise. |
| AttackRules.ResumeBolt | code/swb_base/WeaponBase.Attack.cs:330-342 | A resumption aborts iff its validation fails, finishes iff it passes at the last wait, and otherwise moves forward to a later wait, never back to the start. |
| AttackRules.BoltRun | code/swb_base/WeaponBase.Attack.cs:322-343 | Resuming a bolt-back sequence never sets the bolt flag, and a first validation that fails leaves it as it was. |
| AttackRules.BoltBackClearsOnlyAfterThreeValidations | code/swb_base/WeaponBase.Attack.cs:322-343 | Resuming a bolt-back sequence clears the bolt flag iff its first three validations all pass. Any earlier failure leaves the flag as it was. |
| AttackRules.TraceBullet | code/swb_base/WeaponBase.Attack.cs:245-262 | A bullet trace yields exactly one result, the ray cast's. |
| AttackRules.HitDamage | code/swb_base/WeaponBase.Attack.cs:279-293 | A bullet deals exactly one damage event per valid result of its trace. |
| AttackRules.HitDamageOnlyValidHits | code/swb_base/WeaponBase.Attack.cs:279-293 | Damage events go only to valid hit entities, each with the shot's damage and the impulse factor 100 × force that scales the unit shot direction. Every valid hit gets one, and there are no more events than trace results. |
| WeaponBaseAttack.Weapon.CanAttack | code/swb_base/WeaponBase.Attack.cs:21-42 | The early-return method's result and new burst counter are exactly CanAttackRule's verdict. |
| WeaponBaseAttack.Weapon.CanPrimaryAttack | code/swb_base/WeaponBase.Attack.cs:47-50 | The verdict for the primary clip, timed by the time since the last primary attack. |
| WeaponBaseAttack.Weapon.CanSecondaryAttack | code/swb_base/WeaponBase.Attack.cs:55-58 | The verdict for the secondary clip. A weapon without one never fires it and keeps its burst counter. |
| WeaponBaseAttack.Weapon.IsAsyncValid | code/swb_base/WeaponBase.Attack.cs:331-341 | A token captured now is valid exactly while the owner is valid. A switch of active weapon or a new instance id makes any earlier token stale. |
| WeaponBaseAttack.Weapon.TakeAmmo | code/swb_base/WeaponBase.Attack.cs:73 | Succeeds iff the primary clip holds the amount, and then removes exactly that amount; on failure the clip is unchanged. |
| WeaponBaseAttack.Weapon.ShootBullet | code/swb_base/WeaponBase.Attack.cs:267-294 | Records one shot request and appends exactly the valid-hit damage of this bullet's single trace result. |
| WeaponBaseAttack.Weapon.ShootBullets | code/swb_base/WeaponBase.Attack.cs:140-146 | The loop shoots exactly max(Bullets, 0) identical requests and appends their damage in shot order. |
| WeaponBaseAttack.Weapon.Reload | code/swb_base/WeaponBase.Attack.cs:83 | A reload request is recorded. |
| WeaponBaseAttack.Weapon.DryFire | code/swb_base/WeaponBase.Attack.cs:73-86 | The dry-fire sound plays. With auto reload on, all three timers become 999 and a reload follows; otherwise the timers are untouched. |
| WeaponBaseAttack.Weapon.BoltBackAfterShot | code/swb_base/WeaponBase.Attack.cs:88-95 | A bolt-back starts iff on the server, the clip still holds a round, the bolt-back time is above -1 and the owner is a player. It then sets the flag and queues the first wait of GetRealRPM(RPM); otherwise the flag and queue are unchanged. |
| WeaponBaseAttack.Weapon.EjectShell | code/swb_base/WeaponBase.Attack.cs:97-104 | A shotgun on the server ejects a shell; nothing else does. |
| WeaponBaseAttack.Weapon.HeatBarrel | code/swb_base/WeaponBase.Attack.cs:115-123 | A smoking barrel on the server heats by one, and smokes iff the heat reaches three quarters of the clip size. |
| WeaponBaseAttack.Weapon.FireVolley | code/swb_base/WeaponBase.Attack.cs:128-146 | On the server, exactly max(Bullets, 0) shots with the ShotSpread spread; on a client, no shots and no damage. |
| WeaponBaseAttack.Weapon.Discharge | code/swb_base/WeaponBase.Attack.cs:88-149 | After a round is taken: the bolt-back decision, the barrel heat, the volley and recoil set. The effect log gains exactly the shotgun shell and, once the heat reaches three quarters of the clip size, the barrel smoke. |
| WeaponBaseAttack.Weapon.Attack | code/swb_base/WeaponBase.Attack.cs:65-150 | Fired: running or tucked, nothing changes. Otherwise the timers reset to 0. With an empty clip, only the dry-fire path runs: timers 999 with auto reload and 0 without, no shot, no recoil, no bolt-back. With a round, it is taken and Discharge's outcome follows, effects included. |
| WeaponBaseAttack.Weapon.AsyncBoltBack | code/swb_base/WeaponBase.Attack.cs:322-330 | For a player owner, sets the bolt flag to `force` and queues the first wait with the captured token. For any other owner, nothing changes. |
| WeaponBaseAttack.Weapon.ResumeBoltBack | code/swb_base/WeaponBase.Attack.cs:330-343 | A stale token ends the sequence with the flag and effects untouched. A valid resumption records the bolt-back animation after the first wait and the shell eject after the second, then clears the flag after the third; the sequence leaves the queue when it ends. |
| WeaponBaseAttack.Weapon.AsyncAttack | code/swb_base/WeaponBase.Attack.cs:158-175 | DelayStarted: no available ammo, nothing changes. Otherwise both attack timers rewind by the delay, and a player owner queues the delayed shot with its token. |
| WeaponBaseAttack.Weapon.ResumeDelayedFire | code/swb_base/WeaponBase.Attack.cs:175-199 | A stale token ends with no ammo taken and no bullet shot. A valid one takes a round if there is one and, on the server, shoots the clip's bullets with GetRealSpread. |
| WeaponBaseAttack.Weapon.DelayedAttack | code/swb_base/WeaponBase.Attack.cs:202-205 | Whatever slot and delay it is given, starts the primary clip's delayed attack with the primary delay. |
| WeaponBaseAttack.Weapon.AttackPrimary | code/swb_base/WeaponBase.Attack.cs:210-220 | A positive primary delay gives DelayedAttack's outcome (timers rewound, shot queued) and leaves ammo, recoil, bolt flag, heat, shots, damage and effects as they were. Otherwise the outcome is Attack's (Fired) for the primary clip. |
| WeaponBaseAttack.Weapon.AttackSecondary | code/swb_base/WeaponBase.Attack.cs:225-239 | Without a secondary clip nothing changes. A positive secondary delay gives DelayedAttack's outcome for the primary clip and delay and leaves ammo, recoil, bolt flag, heat, shots, damage and effects as they were. Otherwise the outcome is Attack's (Fired) for the secondary clip. |
| ViewModelRules.Clamp | code/swb_base/ViewModelHandler.cs:179-180 | The result lies in [lo, hi], equals the input inside it and the nearer bound outside it. |
| ViewModelRules.IdleStep | code/swb_base/ViewModelHandler.cs:108-122 | Nothing while aiming. Otherwise breathing never moves position y, which therefore moves by exactly −1 crouched on the ground and by 0 otherwise. |
| ViewModelRules.MaxWalkSpeed | code/swb_base/ViewModelHandler.cs:129-142 | 100 iff sprinting, 200 otherwise. |
| ViewModelRules.WalkLean | code/swb_base/ViewModelHandler.cs:144-148 | At most one of roll and yaw is non-zero. Yaw is non-zero iff not aiming and moving left, and it is never positive. Roll is non-zero iff moving sideways while aiming or moving right, and it opposes the movement. |
| ViewModelRules.WalkRollBound | code/swb_base/ViewModelHandler.cs:159 | The walk cycle's x rotation is at most 0.6 × the walk-speed fraction in magnitude, whatever the cosine returns. |
| ViewModelRules.WalkCycle | code/swb_base/ViewModelHandler.cs:157-159 | The cycle moves only position x. Its rotation z is the lean's roll and its rotation x the bounded walk roll. |
| ViewModelRules.WalkStep | code/swb_base/ViewModelHandler.cs:125-160 | Nothing while airborne. While aimed and fired within 0.1 s on the ground, only rotation z changes, by the lean's roll. On the ground rotation z always loses the roll. Position y and z never move. |
| ViewModelRules.WalkTiltBounded | code/swb_base/ViewModelHandler.cs:125-160 | In every case the walk modifier tilts rotation x by at most 0.6 × the walk-speed fraction. |
| ViewModelRules.SwaySpeed | code/swb_base/ViewModelHandler.cs:165-169 | 20 iff aiming, 5 otherwise. |
| ViewModelRules.SwayAngles | code/swb_base/ViewModelHandler.cs:175-176 | The pitch is the camera's minus the lagged eye's, and the roll is dropped. |
| ViewModelRules.SwayOffset | code/swb_base/ViewModelHandler.cs:178-180 | Position x and z lie in [-1.5, 1.5] and y is 0. Rotation x and y lie in [-4, 4] and z is 0. |
| ViewModelRules.SwayOnlyWhenAnglesDiffer | code/swb_base/ViewModelHandler.cs:178-180 | The sway is zero iff pitch and yaw differences are both zero, and position x and z lean the way yaw and pitch do. |
| ViewModelRules.SwayStep | code/swb_base/ViewModelHandler.cs:178-180 | The sway moves position x and z by at most 1.5 and rotation x and y by at most 4, and leaves position y and rotation z alone. |
| ViewModelRules.AimLatch | code/swb_base/ViewModelHandler.cs:186-221 | Set to now on an aiming frame that finds it 0, kept on a later aiming frame, 0 on any non-aiming frame. |
| ViewModelRules.AimTimeLatchesStreakStart | code/swb_base/ViewModelHandler.cs:186-221 | For a run of frames whose current aiming streak starts at frame k, where k is the first frame with a cleared latch or follows a non-aiming frame, the aim time is frame k's time, provided that time is not 0. A streak starting at time 0 collides with the 0 sentinel and latches the next frame's time instead. |
| ViewModelRules.TargetPlayerFOV | code/swb_base/ViewModelHandler.cs:206-207 | The aiming player FOV overrides the default 90 only while aiming with a positive value. |
| ViewModelRules.TargetWeaponFOV | code/swb_base/ViewModelHandler.cs:212-220 | The aiming weapon FOV overrides the weapon's FOV only while aiming with a positive value. The result is the -1 sentinel only if the weapon's FOV is -1, so initialisation does not recur otherwise. |
| ViewModelRules.IronStep | code/swb_base/ViewModelHandler.cs:186-204 | Nothing unless aiming. While aiming, the aim pose's position is added. |
| ViewModelRules.SprintStep | code/swb_base/ViewModelHandler.cs:229-236 | The targets change only when the weapon runs with a non-zero run pose, and then gain its position. |
| ViewModelRules.StepJumpTimers | code/swb_base/ViewModelHandler.cs:250-268 | As a case table: a jump starts (jump end at now + 0.31, landing 0) iff the button is held and the jump timer is clear or was just cleared. An elapsed non-zero landing on the ground clears both. An airborne frame only pushes landing to now + 0.31. Anything else leaves both. |
| ViewModelRules.AirborneFramesRiseOrFall | code/swb_base/ViewModelHandler.cs:250-295 | An airborne frame plays only the jump curve or the fall shake, with landing at 0 or now + 0.31. A jump that starts plays the jump curve. |
| ViewModelRules.PhaseOf | code/swb_base/ViewModelHandler.cs:271-295 | Settled iff the jump has ended, the player is on the ground and the landing has ended. Landing happens only on the ground, and an airborne frame is always rising or falling. |
| ViewModelRules.JumpCurve | code/swb_base/ViewModelHandler.cs:273-308 | The curves never move position y, and the fall shake turns rotation z by −1.25. |
| ViewModelRules.JumpStep | code/swb_base/ViewModelHandler.cs:270-311 | While aiming, only position z moves, by the vertical velocity over 1000 clamped to [-1, 1]. Otherwise position y never moves, nothing changes once settled, and falling turns rotation z by −1.25. |
| ViewModelRules.JumpAnim | code/swb_base/ViewModelHandler.cs:270-308 | The animation speed becomes 20 iff a curve plays without aiming; otherwise it is kept. |
| ViewModelRules.LocalVelocity | code/swb_base/ViewModelHandler.cs:97-98 | The eye-space velocity keeps the world's vertical component. |
| ViewModelRules.FramePoseA | code/swb_base/ViewModelHandler.cs:100-102 | After the idle, walk and sway modifiers from zero, position y is −1 when crouched on the ground without aiming, and 0 otherwise. |
| ViewModelRules.FramePoseB | code/swb_base/ViewModelHandler.cs:103-105 | The iron-sight, sprint and jump modifiers move position y only by the aim pose while aiming and by the run pose while it applies. |
| ViewModelRules.FramePose | code/swb_base/ViewModelHandler.cs:100-105 | The six modifiers in source order. Position y ends at the crouch offset plus the y of the aim and run poses that apply. |
| ViewModel.ViewModelHandler.constructor | code/swb_base/ViewModelHandler.cs:14-40 | Unit speeds, both target FOVs at the sentinel -1; the target and final poses, final FOVs, jump, landing and aim times, local velocity and the all-zero last eye rotation are zero. |
| ViewModel.ViewModelHandler.InitFOV | code/swb_base/ViewModelHandler.cs:63-69 | Only while the target weapon FOV is -1: final player FOV 90, and target and final weapon FOV set to the weapon's. Otherwise all three are unchanged. |
| ViewModel.ViewModelHandler.EaseFinals | code/swb_base/ViewModelHandler.cs:63-79 | After the sentinel initialisation, each final value lerps towards last frame's target at its rate, and the animation speed resets to 10 × the weapon's. |
| ViewModel.ViewModelHandler.ResetTargets | code/swb_base/ViewModelHandler.cs:87-92 | Zero target offsets, target player FOV 90, target weapon FOV the weapon's. |
| ViewModel.ViewModelHandler.HandleIdleAnimation | code/swb_base/ViewModelHandler.cs:108-122 | The in-place updates leave the targets at IdleStep of the old targets. |
| ViewModel.ViewModelHandler.HandleWalkAnimation | code/swb_base/ViewModelHandler.cs:125-160 | The early returns and in-place updates leave the targets at WalkStep of the old targets. |
| ViewModel.ViewModelHandler.HandleSwayAnimation | code/swb_base/ViewModelHandler.cs:163-181 | The eye rotation lerps towards the camera at the sway speed. The targets gain the bounded SwayOffset of the angle difference. |
| ViewModel.ViewModelHandler.HandleIronAnimation | code/swb_base/ViewModelHandler.cs:184-227 | The aim time follows AimLatch and the targets IronStep. While aiming: animation speed 10 × the weapon's, the FOV overrides only for positive values, and the aim-in FOV speed. Otherwise the weapon FOV is restored and the aim-out speed is used while the final player FOV differs. |
| ViewModel.ViewModelHandler.HandleSprintAnimation | code/swb_base/ViewModelHandler.cs:229-236 | The targets become SprintStep of the old targets. |
| ViewModel.ViewModelHandler.HandleJumpAnimation | code/swb_base/ViewModelHandler.cs:250-312 | The timers step as StepJumpTimers. Then the targets and animation speed follow JumpStep and JumpAnim for the stepped timers. |
| ViewModel.ViewModelHandler.PlayJumpCurve | code/swb_base/ViewModelHandler.cs:270-311 | For the current timers, the targets follow JumpStep and the animation speed JumpAnim. |
| ViewModel.ViewModelHandler.AnimateBody | code/swb_base/ViewModelHandler.cs:87-102 | After the reset and the idle, walk and sway modifiers: the targets are FramePoseA, the FOV targets are at their defaults, and the local velocity and eye rotation are this frame's. |
| ViewModel.ViewModelHandler.AnimateAim | code/swb_base/ViewModelHandler.cs:103-105 | The iron-sight, sprint and jump modifiers leave the targets at FramePoseB of the old targets, with the latch, timers, FOV overrides and speeds they set. |
| ViewModel.ViewModelHandler.Animate | code/swb_base/ViewModelHandler.cs:87-105 | The targets are rebuilt from zero through the six modifiers in order (FramePose). The FOV targets are TargetPlayerFOV and TargetWeaponFOV. The aim time and jump timers advance by one step. |
| ViewModel.ViewModelHandler.FirstPersonFrame | code/swb_base/ViewModelHandler.cs:59-105 | The finals ease towards the previous targets (after the sentinel initialisation); then the targets, FOVs, latch, timers and speeds are those of Animate. |
| ViewModel.ViewModelHandler.OnUpdate | code/swb_base/ViewModelHandler.cs:52-106 | Both renderers are enabled iff first person. Outside first person no animation field changes. In first person the frame is FirstPersonFrame's. |

## Left out

- Effects and presentation are not modelled: particles, sounds, screen shake, animation parameters, crosshair events, `ShootEffects`, `TracerEffects` and `GetMuzzleEffectData`. The attack paths record only these effects, in the ghost log `effects`: the dry-fire sound, the reload request, the shotgun shell eject, the barrel smoke, and the bolt-back animation and eject.
- `ShootClientBullet` is not modelled: it is client-side impact and tracer presentation, chosen with `System.Random`.
- The spread direction maths of `ShootBullet` is not modelled: random vectors, normalisation and the end point 999999 units away. The physics trace and water test are not modelled either. A bullet's trace result comes from the oracle `world`.
- `DamageInfo` construction, `TakeDamage` and `Prediction.Off()` are engine calls. A damage event records only the target, the damage and the impulse factor 100 × force that scales the unit shot direction.
- `GameTask.DelaySeconds` and `[ClientRpc]` replication are not modelled. A wait is a suspended entry in `pending`, resumed by an explicit step method in any order the host chooses.
- `AsyncBoltBack` with an owner that is not a player faults inside a fire-and-forget task. It is modelled as doing nothing.
- `IsLocalPawn` and `SetAnimParameter` are presentation and are not modelled.
- The `Owner is not PlayerBase` return before a delayed shot's token is captured (`WeaponBase.Attack.cs:171`) is the field `ownerIsPlayer`.
- Attack: the owner (here and in `AsyncAttack`) is assumed to be an `AnimEntity`. Any other owner faults at the cast of `WeaponBase.Attack.cs:107`, after the bolt-back and shell eject have started but before the barrel heat, the volley and the recoil, and at `WeaponBase.Attack.cs:166` before a delayed shot is queued. The model does not capture this fault; the attack always completes.
- Float arithmetic is modelled as exact `real` arithmetic.
- The trigonometry, Bezier curves, `LerpTo`, `Rotation.Lerp`, the atan2 yaw wrap, vector lengths and dot products are the unconstrained functions of `Numerics`. No property depends on their values.
- The camera and view-model `Transform` copies, the pose applied to the transform, `Screen.CreateVerticalFieldOfView` and the `OnStart` proxy destroy are not modelled; they are engine plumbing.
- `RealTime.Now`, `RealTime.Delta` and the input buttons are the `Frame` parameter of each step.
- OnUpdate: sets the renderer flags after the frame rather than before. Nothing in the frame reads them, so the resulting state is the same.
- The commented-out customize animation and scoped FOV in `ViewModelHandler.cs` are not code and are not modelled.
- The `speedMod` of `HandleIronAnimation` is always 1, as the source leaves its update commented out.
