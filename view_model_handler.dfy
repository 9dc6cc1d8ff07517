/**
 * The view-model handler of a weapon: once per frame it shows or hides the
 * view model, eases the final pose and fields of view towards the targets of
 * the previous frame, then rebuilds the targets from zero through six
 * animation modifiers. The modifiers accumulate into the target fields in
 * place and keep the aim time, the eye rotation and the jump timers across
 * frames.
 */
module ViewModel {
  import opened ViewModelRules

  class ViewModelHandler {
    /** The float numerics of the engine. */
    const math: Numerics

    // Renderers
    var viewModelEnabled: bool
    var handsEnabled: bool

    var animSpeed: real
    var playerFOVSpeed: real

    // Targets the modifiers accumulate into during a frame
    var targetVectorPos: Vec3
    var targetVectorRot: Vec3
    var targetPlayerFOV: real
    var targetWeaponFOV: real

    // Values eased towards the previous frame's targets
    var finalVectorPos: Vec3
    var finalVectorRot: Vec3
    var finalPlayerFOV: real
    var finalWeaponFOV: real

    // The eye rotation the sway lags behind
    var lastEyeRot: Rotation

    // End times of the jump and landing curves, 0 when clear
    var jumpTime: real
    var landTime: real

    // Start of the current aiming streak, 0 when not aiming
    var aimTime: real

    var localVel: Vec3

    /** A fresh handler: unit speeds, both target fields of view at the sentinel -1, everything else zero. */
    constructor(math: Numerics)
      ensures this.math == math
      ensures animSpeed == 1.0 && playerFOVSpeed == 1.0
      ensures targetPlayerFOV == -1.0 && targetWeaponFOV == -1.0
      ensures targetVectorPos == Zero && targetVectorRot == Zero
      ensures finalVectorPos == Zero && finalVectorRot == Zero && finalPlayerFOV == 0.0 && finalWeaponFOV == 0.0
      ensures jumpTime == 0.0 && landTime == 0.0 && aimTime == 0.0
      ensures lastEyeRot == Rotation(0.0, 0.0, 0.0, 0.0) && localVel == Zero
    {
      this.math := math;
      viewModelEnabled, handsEnabled := false, false;
      animSpeed, playerFOVSpeed := 1.0, 1.0;
      targetVectorPos, targetVectorRot := Zero, Zero;
      targetPlayerFOV, targetWeaponFOV := -1.0, -1.0;
      finalVectorPos, finalVectorRot := Zero, Zero;
      finalPlayerFOV, finalWeaponFOV := 0.0, 0.0;
      lastEyeRot := Rotation(0.0, 0.0, 0.0, 0.0);
      jumpTime, landTime, aimTime := 0.0, 0.0, 0.0;
      localVel := Zero;
    }

    /** The target accumulators as one pose. */
    function Targets(): Pose
      reads this`targetVectorPos, this`targetVectorRot
    {
      Pose(targetVectorPos, targetVectorRot)
    }

    /** The jump and landing timers. */
    function Timers(): JumpTimers
      reads this`jumpTime, this`landTime
    {
      JumpTimers(jumpTime, landTime)
    }

    /** The first first-person frame (target weapon FOV still -1) starts the final fields of view at the defaults. */
    method InitFOV(w: WeaponView)
      modifies this`finalPlayerFOV, this`targetWeaponFOV, this`finalWeaponFOV
      ensures old(targetWeaponFOV) == -1.0 ==>
                finalPlayerFOV == PlayerFOV && targetWeaponFOV == w.fov && finalWeaponFOV == w.fov
      ensures old(targetWeaponFOV) != -1.0 ==>
                finalPlayerFOV == old(finalPlayerFOV) && targetWeaponFOV == old(targetWeaponFOV)
                && finalWeaponFOV == old(finalWeaponFOV)
    {
      if targetWeaponFOV == -1.0 {
        finalPlayerFOV := PlayerFOV;
        targetWeaponFOV := w.fov;
        finalWeaponFOV := w.fov;
      }
    }

    /** Before any modifier runs: zero target offsets, the default player FOV and the weapon's own FOV. */
    method ResetTargets(w: WeaponView)
      modifies this`targetVectorPos, this`targetVectorRot, this`targetPlayerFOV, this`targetWeaponFOV
      ensures Targets() == Pose(Zero, Zero)
      ensures targetPlayerFOV == PlayerFOV && targetWeaponFOV == w.fov
    {
      targetVectorPos := Zero;
      targetVectorRot := Zero;
      targetPlayerFOV := PlayerFOV;
      targetWeaponFOV := w.fov;
    }

    /** Breathing and crouching, skipped while aiming. */
    method HandleIdleAnimation(f: Frame, player: PlayerView, w: WeaponView)
      modifies this`targetVectorPos, this`targetVectorRot
      ensures Targets() == IdleStep(math, old(Targets()), f.now, w.isAiming, f.duckDown, player.isOnGround)
    {
      // Aiming: the targets stay as they are
      if w.isAiming {
        return;
      }

      targetVectorPos := targetVectorPos.Minus(BreathePos(math, f.now));
      targetVectorRot := targetVectorRot.Minus(BreatheRot(math, f.now));

      // Ducking on the ground adds the crouch offset
      if f.duckDown && player.isOnGround {
        targetVectorPos := targetVectorPos.Plus(CrouchPos);
      }
    }

    /** The walk cycle and sideways lean, skipped while airborne. */
    method HandleWalkAnimation(f: Frame, player: PlayerView, w: WeaponView)
      modifies this`targetVectorPos, this`targetVectorRot
      ensures Targets() == WalkStep(math, old(Targets()), f.now, player.isOnGround, player.isRunning, w.isAiming,
                                    localVel, player.velocity, w.timeSincePrimaryShoot)
    {
      var breatheTime := WalkBreathe(f.now, false);
      var walkSpeed := WalkSpeed(math, player.velocity);
      var maxWalkSpeed := MaxWalkSpeed(false);

      if !player.isOnGround {
        return;
      }

      // Sprinting
      if player.isRunning {
        breatheTime := WalkBreathe(f.now, true);
        maxWalkSpeed := MaxWalkSpeed(true);
      }

      // The lean from the sideways velocity
      var lean := WalkLean(w.isAiming, localVel.x, maxWalkSpeed);

      // Aimed and just fired: only the lean's roll
      if AimFiring(w.isAiming, w.timeSincePrimaryShoot) {
        targetVectorRot := targetVectorRot.Minus(Vec3(0.0, 0.0, lean.roll));
        return;
      }

      // Walk cycle
      var d := WalkCycle(math, breatheTime, walkSpeed, maxWalkSpeed, lean);
      targetVectorPos := targetVectorPos.Minus(d.pos);
      targetVectorRot := targetVectorRot.Minus(d.rot);
    }

    /** The eye rotation lags the camera; the difference sways the weapon, within the clamp bounds. */
    method HandleSwayAnimation(player: PlayerView, w: WeaponView, delta: real)
      modifies this`lastEyeRot, this`targetVectorPos, this`targetVectorRot
      ensures lastEyeRot == Slerp(math, old(lastEyeRot), player.cameraRotation, Rate(SwaySpeed(w.isAiming) as real, delta))
      ensures Targets() == SwayStep(math, old(Targets()), player.cameraRotation, lastEyeRot)
    {
      var swaySpeed := 5;

      // The eye catches up four times faster while aiming
      if w.isAiming {
        swaySpeed := 20;
      }

      lastEyeRot := Slerp(math, lastEyeRot, player.cameraRotation, Rate(swaySpeed as real, delta));

      var d := SwayOffset(SwayAngles(math, player.cameraRotation, lastEyeRot));
      targetVectorPos := targetVectorPos.Plus(d.pos);
      targetVectorRot := targetVectorRot.Plus(d.rot);
    }

    /**
     * Iron sights: while aiming, latches the aim time, adds the aim pose and
     * overrides the positive aiming fields of view; otherwise clears the aim
     * time and restores the weapon FOV, easing out the player FOV.
     */
    method HandleIronAnimation(f: Frame, w: WeaponView)
      modifies this`aimTime, this`animSpeed, this`targetVectorPos, this`targetVectorRot
      modifies this`targetPlayerFOV, this`targetWeaponFOV, this`playerFOVSpeed
      ensures aimTime == AimLatch(old(aimTime), w.isAiming, f.now)
      ensures Targets() == IronStep(math, old(Targets()), w.isAiming, w.aimAnimData)
      ensures animSpeed == if w.isAiming then 10.0 * w.animSpeed else old(animSpeed)
      ensures targetPlayerFOV == if w.isAiming && w.aimPlayerFOV > 0.0 then w.aimPlayerFOV else old(targetPlayerFOV)
      ensures targetWeaponFOV == if !w.isAiming then w.fov else if w.aimFOV > 0.0 then w.aimFOV else old(targetWeaponFOV)
      ensures playerFOVSpeed == if w.isAiming then w.aimInFOVSpeed
                                else if finalPlayerFOV != w.aimPlayerFOV then w.aimOutFOVSpeed
                                else old(playerFOVSpeed)
    {
      if w.isAiming {
        var speedMod := 1.0;
        if aimTime == 0.0 {
          aimTime := f.now;
        }

        animSpeed := 10.0 * w.animSpeed * speedMod;
        targetVectorPos := targetVectorPos.Plus(w.aimAnimData.pos);
        targetVectorRot := targetVectorRot.Plus(ToVector(math, w.aimAnimData.angle));

        if w.aimPlayerFOV > 0.0 {
          targetPlayerFOV := w.aimPlayerFOV;
        }

        if w.aimFOV > 0.0 {
          targetWeaponFOV := w.aimFOV;
        }

        playerFOVSpeed := w.aimInFOVSpeed;
      } else {
        aimTime := 0.0;
        targetWeaponFOV := w.fov;

        if finalPlayerFOV != w.aimPlayerFOV {
          playerFOVSpeed := w.aimOutFOVSpeed;
        }
      }
    }

    /** The weapon's run pose, while it runs with a run pose set. */
    method HandleSprintAnimation(w: WeaponView)
      modifies this`targetVectorPos, this`targetVectorRot
      ensures Targets() == SprintStep(math, old(Targets()), w.isRunning, w.runAnimData)
    {
      if w.isRunning && w.runAnimData != ZeroAngPos {
        targetVectorPos := targetVectorPos.Plus(w.runAnimData.pos);
        targetVectorRot := targetVectorRot.Plus(ToVector(math, w.runAnimData.angle));
      }
    }

    /** Steps the jump and landing timers, then plays the curve of their phase, or only the clamped vertical offset while aiming. */
    method HandleJumpAnimation(f: Frame, player: PlayerView, w: WeaponView)
      modifies this`jumpTime, this`landTime, this`animSpeed, this`targetVectorPos, this`targetVectorRot
      ensures Timers() == StepJumpTimers(old(Timers()), player.isOnGround, f.jumpDown, f.now)
      ensures Targets() == JumpStep(math, old(Targets()), Timers(), player.isOnGround, f.now, w.isAiming, localVel.z)
      ensures animSpeed == JumpAnim(Timers(), player.isOnGround, f.now, w.isAiming, old(animSpeed))
    {
      // Airborne: the landing end time is pushed forward
      if !player.isOnGround {
        landTime := f.now + JumpDuration;
      }

      // An elapsed landing clears both timers
      if landTime < f.now && landTime != 0.0 {
        landTime := 0.0;
        jumpTime := 0.0;
      }

      // A jump starts the jump curve
      if f.jumpDown && jumpTime == 0.0 {
        jumpTime := f.now + JumpDuration;
        landTime := 0.0;
      }

      PlayJumpCurve(f, player, w);
    }

    /** The second half of the jump modifier: the curve of the timers' phase when not aiming, the clamped vertical offset when aiming. */
    method PlayJumpCurve(f: Frame, player: PlayerView, w: WeaponView)
      modifies this`animSpeed, this`targetVectorPos, this`targetVectorRot
      ensures Targets() == JumpStep(math, old(Targets()), Timers(), player.isOnGround, f.now, w.isAiming, localVel.z)
      ensures animSpeed == JumpAnim(Timers(), player.isOnGround, f.now, w.isAiming, old(animSpeed))
    {
      if !w.isAiming {
        // The jump curve, the fall shake or the landing curve
        if PhaseOf(Timers(), player.isOnGround, f.now) != Settled {
          var d := JumpCurve(math, Timers(), player.isOnGround, f.now);
          targetVectorPos := targetVectorPos.Plus(d.pos);
          targetVectorRot := targetVectorRot.Plus(d.rot);
          animSpeed := JumpAnimSpeed;
        }
      } else {
        targetVectorPos := targetVectorPos.Plus(Vec3(0.0, 0.0, Clamp(localVel.z / 1000.0, -1.0, 1.0)));
      }
    }

    /** The start of a first-person frame: the sentinel initialisation, then the final values ease towards last frame's targets and the animation speed resets to the weapon's. */
    method EaseFinals(f: Frame, w: WeaponView)
      modifies this`finalPlayerFOV, this`targetWeaponFOV, this`finalWeaponFOV
      modifies this`finalVectorPos, this`finalVectorRot, this`animSpeed
      ensures finalVectorPos == LerpVec(math, old(finalVectorPos), old(targetVectorPos), Rate(old(animSpeed), f.delta))
      ensures finalVectorRot == LerpVec(math, old(finalVectorRot), old(targetVectorRot), Rate(old(animSpeed), f.delta))
      ensures old(targetWeaponFOV) == -1.0 ==>
                && finalPlayerFOV == Lerp(math, PlayerFOV, old(targetPlayerFOV), Rate(Rate(old(playerFOVSpeed), old(animSpeed)), f.delta))
                && finalWeaponFOV == Lerp(math, w.fov, w.fov, Rate(Rate(old(playerFOVSpeed), old(animSpeed)), f.delta))
                && targetWeaponFOV == w.fov
      ensures old(targetWeaponFOV) != -1.0 ==>
                && finalPlayerFOV == Lerp(math, old(finalPlayerFOV), old(targetPlayerFOV), Rate(Rate(old(playerFOVSpeed), old(animSpeed)), f.delta))
                && finalWeaponFOV == Lerp(math, old(finalWeaponFOV), old(targetWeaponFOV), Rate(Rate(old(playerFOVSpeed), old(animSpeed)), f.delta))
                && targetWeaponFOV == old(targetWeaponFOV)
      ensures animSpeed == 10.0 * w.animSpeed
    {
      InitFOV(w);

      // Each final value moves towards its target at its rate
      finalVectorPos := LerpVec(math, finalVectorPos, targetVectorPos, Rate(animSpeed, f.delta));
      finalVectorRot := LerpVec(math, finalVectorRot, targetVectorRot, Rate(animSpeed, f.delta));
      finalPlayerFOV := Lerp(math, finalPlayerFOV, targetPlayerFOV, Rate(Rate(playerFOVSpeed, animSpeed), f.delta));
      finalWeaponFOV := Lerp(math, finalWeaponFOV, targetWeaponFOV, Rate(Rate(playerFOVSpeed, animSpeed), f.delta));
      animSpeed := 10.0 * w.animSpeed;
    }

    /** The first half of rebuilding the targets: reset, the eye-space velocity, then the idle, walk and sway modifiers. */
    method AnimateBody(f: Frame, player: PlayerView, w: WeaponView)
      modifies this`targetVectorPos, this`targetVectorRot, this`targetPlayerFOV, this`targetWeaponFOV
      modifies this`localVel, this`lastEyeRot
      ensures localVel == LocalVelocity(math, player)
      ensures lastEyeRot == Slerp(math, old(lastEyeRot), player.cameraRotation, Rate(SwaySpeed(w.isAiming) as real, f.delta))
      ensures targetPlayerFOV == PlayerFOV && targetWeaponFOV == w.fov
      ensures Targets() == FramePoseA(math, f, player, w, lastEyeRot)
    {
      ghost var eyeRot := lastEyeRot;

      // The targets start from zero and the default fields of view
      ResetTargets(w);

      localVel := LocalVelocity(math, player);

      HandleIdleAnimation(f, player, w);
      ghost var p1 := IdleStep(math, Pose(Zero, Zero), f.now, w.isAiming, f.duckDown, player.isOnGround);
      assert Targets() == p1;

      HandleWalkAnimation(f, player, w);
      ghost var p2 := WalkStep(math, p1, f.now, player.isOnGround, player.isRunning, w.isAiming,
                               LocalVelocity(math, player), player.velocity, w.timeSincePrimaryShoot);
      assert Targets() == p2;

      ghost var fovs := (targetPlayerFOV, targetWeaponFOV);
      assert lastEyeRot == eyeRot;
      HandleSwayAnimation(player, w, f.delta);
      assert (targetPlayerFOV, targetWeaponFOV) == fovs;
    }

    /** The second half of rebuilding the targets: the iron-sight, sprint and jump modifiers. */
    method AnimateAim(f: Frame, player: PlayerView, w: WeaponView)
      modifies this`targetVectorPos, this`targetVectorRot, this`targetPlayerFOV, this`targetWeaponFOV
      modifies this`aimTime, this`animSpeed, this`playerFOVSpeed, this`jumpTime, this`landTime
      ensures aimTime == AimLatch(old(aimTime), w.isAiming, f.now)
      ensures Timers() == StepJumpTimers(old(Timers()), player.isOnGround, f.jumpDown, f.now)
      ensures targetPlayerFOV == (if w.isAiming && w.aimPlayerFOV > 0.0 then w.aimPlayerFOV else old(targetPlayerFOV))
      ensures targetWeaponFOV == (if !w.isAiming then w.fov else if w.aimFOV > 0.0 then w.aimFOV else old(targetWeaponFOV))
      ensures Targets() == FramePoseB(math, old(Targets()), f, player, w, Timers(), localVel.z)
      ensures animSpeed == JumpAnim(Timers(), player.isOnGround, f.now, w.isAiming, if w.isAiming then 10.0 * w.animSpeed else old(animSpeed))
      ensures playerFOVSpeed == if w.isAiming then w.aimInFOVSpeed
                                else if finalPlayerFOV != w.aimPlayerFOV then w.aimOutFOVSpeed
                                else old(playerFOVSpeed)
    {
      ghost var p3 := Targets();
      HandleIronAnimation(f, w);
      ghost var p4 := IronStep(math, p3, w.isAiming, w.aimAnimData);
      assert Targets() == p4;

      HandleSprintAnimation(w);
      ghost var p5 := SprintStep(math, p4, w.isRunning, w.runAnimData);
      assert Targets() == p5;

      HandleJumpAnimation(f, player, w);
    }

    /** The rest of a first-person frame: the targets rebuilt from zero through the six modifiers. */
    method Animate(f: Frame, player: PlayerView, w: WeaponView)
      modifies this`targetVectorPos, this`targetVectorRot, this`targetPlayerFOV, this`targetWeaponFOV
      modifies this`localVel, this`lastEyeRot, this`aimTime, this`animSpeed, this`playerFOVSpeed
      modifies this`jumpTime, this`landTime
      ensures localVel == LocalVelocity(math, player)
      ensures lastEyeRot == Slerp(math, old(lastEyeRot), player.cameraRotation, Rate(SwaySpeed(w.isAiming) as real, f.delta))
      ensures aimTime == AimLatch(old(aimTime), w.isAiming, f.now)
      ensures Timers() == StepJumpTimers(old(Timers()), player.isOnGround, f.jumpDown, f.now)
      ensures targetPlayerFOV == TargetPlayerFOV(w.isAiming, w.aimPlayerFOV)
      ensures targetWeaponFOV == TargetWeaponFOV(w.isAiming, w.fov, w.aimFOV)
      ensures Targets() == FramePose(math, f, player, w, lastEyeRot, Timers())
      ensures animSpeed == JumpAnim(Timers(), player.isOnGround, f.now, w.isAiming, if w.isAiming then 10.0 * w.animSpeed else old(animSpeed))
      ensures playerFOVSpeed == if w.isAiming then w.aimInFOVSpeed
                                else if finalPlayerFOV != w.aimPlayerFOV then w.aimOutFOVSpeed
                                else old(playerFOVSpeed)
    {
      ghost var speeds := (animSpeed, playerFOVSpeed, aimTime, Timers());
      AnimateBody(f, player, w);
      ghost var body := FramePoseA(math, f, player, w, lastEyeRot);
      ghost var eyeRot, vel := lastEyeRot, localVel;
      assert (animSpeed, playerFOVSpeed, aimTime, Timers()) == speeds;
      assert Targets() == body && vel == LocalVelocity(math, player);
      assert targetPlayerFOV == PlayerFOV && targetWeaponFOV == w.fov;
      AnimateAim(f, player, w);
      assert lastEyeRot == eyeRot && localVel == vel;
      assert targetPlayerFOV == TargetPlayerFOV(w.isAiming, w.aimPlayerFOV);
      assert targetWeaponFOV == TargetWeaponFOV(w.isAiming, w.fov, w.aimFOV);
      assert Targets() == FramePoseB(math, body, f, player, w, Timers(), vel.z);
    }

    /** A first-person frame: the finals eased towards the previous targets, then the targets rebuilt. */
    method FirstPersonFrame(f: Frame, player: PlayerView, w: WeaponView)
      modifies this`animSpeed, this`playerFOVSpeed, this`targetVectorPos, this`targetVectorRot
      modifies this`targetPlayerFOV, this`targetWeaponFOV, this`finalVectorPos, this`finalVectorRot
      modifies this`finalPlayerFOV, this`finalWeaponFOV, this`lastEyeRot, this`localVel
      modifies this`jumpTime, this`landTime, this`aimTime
      ensures
                var init := old(targetWeaponFOV) == -1.0;
                var lerpSpeed := Rate(Rate(old(playerFOVSpeed), old(animSpeed)), f.delta);
                && finalVectorPos == LerpVec(math, old(finalVectorPos), old(targetVectorPos), Rate(old(animSpeed), f.delta))
                && finalVectorRot == LerpVec(math, old(finalVectorRot), old(targetVectorRot), Rate(old(animSpeed), f.delta))
                && finalPlayerFOV == Lerp(math, if init then PlayerFOV else old(finalPlayerFOV), old(targetPlayerFOV), lerpSpeed)
                && finalWeaponFOV == Lerp(math, if init then w.fov else old(finalWeaponFOV),
                                               if init then w.fov else old(targetWeaponFOV), lerpSpeed)
      ensures
                && localVel == LocalVelocity(math, player)
                && lastEyeRot == Slerp(math, old(lastEyeRot), player.cameraRotation, Rate(SwaySpeed(w.isAiming) as real, f.delta))
                && aimTime == AimLatch(old(aimTime), w.isAiming, f.now)
                && Timers() == StepJumpTimers(old(Timers()), player.isOnGround, f.jumpDown, f.now)
      ensures
                && targetPlayerFOV == TargetPlayerFOV(w.isAiming, w.aimPlayerFOV)
                && targetWeaponFOV == TargetWeaponFOV(w.isAiming, w.fov, w.aimFOV)
                && Targets() == FramePose(math, f, player, w, lastEyeRot, Timers())
                && animSpeed == JumpAnim(Timers(), player.isOnGround, f.now, w.isAiming, 10.0 * w.animSpeed)
                && playerFOVSpeed == if w.isAiming then w.aimInFOVSpeed
                                     else if finalPlayerFOV != w.aimPlayerFOV then w.aimOutFOVSpeed
                                     else old(playerFOVSpeed)
    {
      EaseFinals(f, w);
      Animate(f, player, w);
    }

    /**
     * One frame. The renderers follow first-person view; outside it nothing
     * else changes. In first person the final values ease towards last
     * frame's targets, and the targets, the eye rotation, the aim time and the
     * jump timers are rebuilt for this frame. ViewModelHandler.cs sets the renderer
     * flags before its early return; no other step reads them, so setting
     * them last leaves the same state.
     */
    method OnUpdate(f: Frame, player: PlayerView, w: WeaponView)
      modifies this`viewModelEnabled, this`handsEnabled
      modifies this`animSpeed, this`playerFOVSpeed, this`targetVectorPos, this`targetVectorRot
      modifies this`targetPlayerFOV, this`targetWeaponFOV, this`finalVectorPos, this`finalVectorRot
      modifies this`finalPlayerFOV, this`finalWeaponFOV, this`lastEyeRot, this`localVel
      modifies this`jumpTime, this`landTime, this`aimTime
      ensures viewModelEnabled == player.isFirstPerson && handsEnabled == player.isFirstPerson
      ensures !player.isFirstPerson ==>
                unchanged(this`animSpeed, this`playerFOVSpeed, this`targetVectorPos, this`targetVectorRot)
                && unchanged(this`targetPlayerFOV, this`targetWeaponFOV, this`finalVectorPos, this`finalVectorRot)
                && unchanged(this`finalPlayerFOV, this`finalWeaponFOV, this`lastEyeRot, this`localVel)
                && unchanged(this`jumpTime, this`landTime, this`aimTime)
      ensures player.isFirstPerson ==>
                var init := old(targetWeaponFOV) == -1.0;
                var lerpSpeed := Rate(Rate(old(playerFOVSpeed), old(animSpeed)), f.delta);
                && finalVectorPos == LerpVec(math, old(finalVectorPos), old(targetVectorPos), Rate(old(animSpeed), f.delta))
                && finalVectorRot == LerpVec(math, old(finalVectorRot), old(targetVectorRot), Rate(old(animSpeed), f.delta))
                && finalPlayerFOV == Lerp(math, if init then PlayerFOV else old(finalPlayerFOV), old(targetPlayerFOV), lerpSpeed)
                && finalWeaponFOV == Lerp(math, if init then w.fov else old(finalWeaponFOV),
                                               if init then w.fov else old(targetWeaponFOV), lerpSpeed)
      ensures player.isFirstPerson ==>
                && localVel == LocalVelocity(math, player)
                && lastEyeRot == Slerp(math, old(lastEyeRot), player.cameraRotation, Rate(SwaySpeed(w.isAiming) as real, f.delta))
                && aimTime == AimLatch(old(aimTime), w.isAiming, f.now)
                && Timers() == StepJumpTimers(old(Timers()), player.isOnGround, f.jumpDown, f.now)
      ensures player.isFirstPerson ==>
                && targetPlayerFOV == TargetPlayerFOV(w.isAiming, w.aimPlayerFOV)
                && targetWeaponFOV == TargetWeaponFOV(w.isAiming, w.fov, w.aimFOV)
                && Targets() == FramePose(math, f, player, w, lastEyeRot, Timers())
                && animSpeed == JumpAnim(Timers(), player.isOnGround, f.now, w.isAiming, 10.0 * w.animSpeed)
                && playerFOVSpeed == if w.isAiming then w.aimInFOVSpeed
                                     else if finalPlayerFOV != w.aimPlayerFOV then w.aimOutFOVSpeed
                                     else old(playerFOVSpeed)
    {
      if player.isFirstPerson {
        FirstPersonFrame(f, player, w);
      }
      viewModelEnabled := player.isFirstPerson;
      handsEnabled := player.isFirstPerson;
    }
  }
}
