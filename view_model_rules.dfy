/**
 * The decisions behind the view-model animation, as values. Each animation
 * modifier of a frame is a step on the pair of target accumulators (position
 * and rotation offsets); the aim-time latch and the jump/land timers are steps
 * on timestamps. Trigonometry, Bezier curves, lerps and vector lengths are
 * float numerics whose values are not modelled: they come from a `Numerics`
 * value whose functions are left unconstrained, so every property below holds
 * whatever those functions return.
 */
module ViewModelRules {

  /**
   * A three-component vector of offsets, velocities or Euler angles. The
   * handler updates its accumulators with these members; the modifier
   * functions below write the same sums out component by component.
   */
  datatype Vec3 = Vec3(x: real, y: real, z: real)
  {
    function Plus(o: Vec3): Vec3 { Vec3(x + o.x, y + o.y, z + o.z) }
    function Minus(o: Vec3): Vec3 { Vec3(x - o.x, y - o.y, z - o.z) }
  }

  const Zero := Vec3(0.0, 0.0, 0.0)

  /** Euler angles in degrees. */
  datatype Angles = Angles(pitch: real, yaw: real, roll: real)

  /** A rotation (a quaternion); only the numerics look inside it. */
  datatype Rotation = Rotation(x: real, y: real, z: real, w: real)

  /** An animation pose of a weapon: an angle offset and a position offset. */
  datatype AngPos = AngPos(angle: Angles, pos: Vec3)

  const ZeroAngPos := AngPos(Angles(0.0, 0.0, 0.0), Zero)

  /** The target accumulators of a frame: position offset and rotation offset. */
  datatype Pose = Pose(pos: Vec3, rot: Vec3)

  /** The float numerics the animation uses; their values are left open. */
  datatype Numerics = Numerics(
    cos: real -> real,
    sin: real -> real,
    atan2: (real, real) -> real,
    degToRad: real -> real,
    radToDeg: real -> real,
    bezierY: (real, real, real, real) -> real,
    length: Vec3 -> real,
    lerpVec: (Vec3, Vec3, real) -> Vec3,
    lerp: (real, real, real) -> real,
    slerp: (Rotation, Rotation, real) -> Rotation,
    anglesOf: Rotation -> Angles,
    toRotation: Angles -> Rotation,
    right: Rotation -> Vec3,
    forward: Rotation -> Vec3,
    dot: (Vec3, Vec3) -> real,
    toVector: Angles -> Vec3)

  /** How far a lerp moves in one frame: a speed times the frame time. */
  function Rate(speed: real, delta: real): real { speed * delta }

  /** The numerics as plain functions of their arguments. */
  function LerpVec(m: Numerics, from: Vec3, to: Vec3, frac: real): Vec3 { m.lerpVec(from, to, frac) }
  function Lerp(m: Numerics, from: real, to: real, frac: real): real { m.lerp(from, to, frac) }
  function Slerp(m: Numerics, from: Rotation, to: Rotation, frac: real): Rotation { m.slerp(from, to, frac) }
  function ToVector(m: Numerics, a: Angles): Vec3 { m.toVector(a) }

  /** What one frame reads from the clock and the input. */
  datatype Frame = Frame(now: real, delta: real, duckDown: bool, jumpDown: bool)

  /** What one frame reads from the player that owns the weapon. */
  datatype PlayerView = PlayerView(
    isFirstPerson: bool,
    isOnGround: bool,
    isRunning: bool,
    velocity: Vec3,
    eyeAngles: Angles,
    cameraRotation: Rotation)

  /** What one frame reads from the weapon. */
  datatype WeaponView = WeaponView(
    fov: real,
    animSpeed: real,
    isAiming: bool,
    isRunning: bool,
    timeSincePrimaryShoot: real,
    aimAnimData: AngPos,
    runAnimData: AngPos,
    aimPlayerFOV: real,
    aimFOV: real,
    aimInFOVSpeed: real,
    aimOutFOVSpeed: real)

  /** The player field of view the handler assumes. */
  const PlayerFOV: real := 90.0

  /** How long a jump curve and a landing curve last, in seconds. */
  const JumpDuration: real := 0.31

  /** The animation speed of the jump, fall and landing curves. */
  const JumpAnimSpeed: real := 20.0

  function Abs(v: real): real { if v < 0.0 then -v else v }

  /** Math.Clamp: `v` forced into [lo, hi]. */
  function Clamp(v: real, lo: real, hi: real): (r: real)
    requires lo <= hi
    ensures lo <= r <= hi
    ensures lo <= v <= hi ==> r == v
    ensures v < lo ==> r == lo
    ensures hi < v ==> r == hi
  {
    if v < lo then lo else if hi < v then hi else v
  }

  // ---------------------------------------------------------------- idle

  /** The breathing time base of the idle animation. */
  function IdleBreathe(now: real): real { now * 2.0 }

  /** The idle "breathing" position term, subtracted from the targets. */
  function BreathePos(m: Numerics, now: real): Vec3
  {
    var c := m.cos(IdleBreathe(now) / 4.0);
    Vec3(c / 8.0, 0.0, -c / 32.0)
  }

  /** The idle "breathing" rotation term, subtracted from the targets. */
  function BreatheRot(m: Numerics, now: real): Vec3
  {
    var t := IdleBreathe(now);
    Vec3(m.cos(t / 5.0), m.cos(t / 4.0), m.cos(t / 7.0))
  }

  /** The crouch offset, added while the duck button is held on the ground. */
  const CrouchPos := Vec3(-1.0, -1.0, 0.5)

  /**
   * The idle modifier: nothing while aiming; otherwise breathing and, crouched
   * on the ground, the crouch offset. Breathing never moves the y component,
   * so that component moves exactly by the crouch offset.
   */
  function IdleStep(m: Numerics, p: Pose, now: real, aiming: bool, duckDown: bool, onGround: bool): (r: Pose)
    ensures aiming ==> r == p
    ensures !aiming ==> r.pos.y == p.pos.y - (if duckDown && onGround then 1.0 else 0.0)
  {
    if aiming then p
    else
      var b, br := BreathePos(m, now), BreatheRot(m, now);
      var pos := Vec3(p.pos.x - b.x, p.pos.y - b.y, p.pos.z - b.z);
      var rot := Vec3(p.rot.x - br.x, p.rot.y - br.y, p.rot.z - br.z);
      Pose(if duckDown && onGround then Vec3(pos.x + CrouchPos.x, pos.y + CrouchPos.y, pos.z + CrouchPos.z) else pos, rot)
  }

  // ---------------------------------------------------------------- walk

  /** The sideways lean of the walk animation. */
  datatype Lean = Lean(roll: real, yaw: real)

  /** The walk speed that gives a full walk cycle: halved while sprinting. */
  function MaxWalkSpeed(running: bool): (s: real)
    ensures s == 100.0 || s == 200.0
    ensures running <==> s == 100.0
  {
    if running then 100.0 else 200.0
  }

  /**
   * The lean from the sideways velocity `lateral`: a roll when aiming or moving
   * right, a yaw when moving left without aiming, never both.
   */
  function WalkLean(aiming: bool, lateral: real, maxWalkSpeed: real): (l: Lean)
    requires maxWalkSpeed > 0.0
    ensures l.roll == 0.0 || l.yaw == 0.0
    ensures l.yaw != 0.0 <==> !aiming && lateral < 0.0
    ensures l.roll != 0.0 <==> lateral != 0.0 && (aiming || lateral > 0.0)
    ensures l.yaw <= 0.0
    ensures lateral > 0.0 ==> l.roll < 0.0
    ensures lateral < 0.0 ==> l.roll >= 0.0
  {
    if aiming || lateral > 0.0 then
      var q := lateral / maxWalkSpeed;
      assert q == 0.0 <==> lateral == 0.0;
      assert lateral > 0.0 ==> q > 0.0;
      assert lateral < 0.0 ==> q < 0.0;
      Lean(-7.0 * q, 0.0)
    else if lateral < 0.0 then
      var q := lateral / maxWalkSpeed;
      assert q < 0.0;
      Lean(0.0, 3.0 * q)
    else Lean(0.0, 0.0)
  }

  /** Whether the weapon is aimed and fired in the last tenth of a second: the walk then only leans. */
  predicate AimFiring(aiming: bool, timeSincePrimaryShoot: real)
  {
    aiming && timeSincePrimaryShoot < 0.1
  }

  /** The walk cycle's rotation term about x: the clamped cosine scaled by the speed fraction. */
  function WalkRoll(m: Numerics, breatheTime: real, walkSpeed: real, maxWalkSpeed: real): real
    requires maxWalkSpeed > 0.0
  {
    (Clamp(m.cos(breatheTime), -0.3, 0.3) * 2.0) * walkSpeed / maxWalkSpeed
  }

  /** The walk roll is at most 0.6 of the speed fraction in magnitude, whatever the cosine returns. */
  lemma WalkRollBound(m: Numerics, breatheTime: real, walkSpeed: real, maxWalkSpeed: real)
    requires maxWalkSpeed > 0.0
    ensures Abs(WalkRoll(m, breatheTime, walkSpeed, maxWalkSpeed)) <= 0.6 * Abs(walkSpeed) / maxWalkSpeed
  {
    var c := Clamp(m.cos(breatheTime), -0.3, 0.3) * 2.0;
    assert Abs(c) <= 0.6;
    AbsMulBound(c, 0.6, walkSpeed);
    DivBound(c * walkSpeed, 0.6 * Abs(walkSpeed), maxWalkSpeed);
    assert WalkRoll(m, breatheTime, walkSpeed, maxWalkSpeed) == c * walkSpeed / maxWalkSpeed;
  }

  lemma AbsMulBound(a: real, b: real, w: real)
    requires Abs(a) <= b
    ensures Abs(a * w) <= b * Abs(w)
  {
    if w >= 0.0 {
      if a >= 0.0 { assert a * w <= b * w; } else { assert -a * w <= b * w; }
    } else {
      if a >= 0.0 { assert a * -w <= b * -w; } else { assert -a * -w <= b * -w; }
    }
  }

  lemma DivBound(a: real, b: real, k: real)
    requires k > 0.0 && Abs(a) <= b
    ensures Abs(a / k) <= b / k
  {
  }

  /** What the walk cycle subtracts from the targets: a sideways bob, the bounded roll, a turn, and the lean's roll. */
  function WalkCycle(m: Numerics, breatheTime: real, walkSpeed: real, maxWalkSpeed: real, lean: Lean): (d: Pose)
    requires maxWalkSpeed > 0.0
    ensures d.pos.y == 0.0 && d.pos.z == 0.0 && d.rot.z == lean.roll
    ensures d.rot.x == WalkRoll(m, breatheTime, walkSpeed, maxWalkSpeed)
  {
    var cycle := (-m.cos(breatheTime / 2.0) / 5.0) * walkSpeed / maxWalkSpeed - lean.yaw / 4.0;
    var turn := (-m.cos(breatheTime / 2.0) * 1.2) * walkSpeed / maxWalkSpeed - lean.yaw * 1.5;
    Pose(Vec3(cycle, 0.0, 0.0), Vec3(WalkRoll(m, breatheTime, walkSpeed, maxWalkSpeed), turn, lean.roll))
  }

  /** The walk cycle's time base: faster while sprinting. */
  function WalkBreathe(now: real, running: bool): real
  {
    if running then now * 18.0 else now * 16.0
  }

  /** The horizontal speed of the player. */
  function WalkSpeed(m: Numerics, velocity: Vec3): real
  {
    m.length(Vec3(velocity.x, velocity.y, 0.0))
  }

  /**
   * The walk modifier: nothing while airborne; while aim-firing only the roll
   * lean is applied; otherwise the walk cycle, whose position term moves only x.
   */
  function WalkStep(m: Numerics, p: Pose, now: real, onGround: bool, running: bool, aiming: bool,
                    localVel: Vec3, velocity: Vec3, timeSincePrimaryShoot: real): (r: Pose)
    ensures !onGround ==> r == p
    ensures onGround && AimFiring(aiming, timeSincePrimaryShoot) ==>
              r.pos == p.pos && r.rot.x == p.rot.x && r.rot.y == p.rot.y
    ensures onGround ==> r.rot.z == p.rot.z - WalkLean(aiming, localVel.x, MaxWalkSpeed(running)).roll
    ensures r.pos.y == p.pos.y && r.pos.z == p.pos.z
  {
    if !onGround then p
    else
      var maxWalkSpeed := MaxWalkSpeed(running);
      var lean := WalkLean(aiming, localVel.x, maxWalkSpeed);
      if AimFiring(aiming, timeSincePrimaryShoot) then
        Pose(p.pos, Vec3(p.rot.x, p.rot.y, p.rot.z - lean.roll))
      else
        var d := WalkCycle(m, WalkBreathe(now, running), WalkSpeed(m, velocity), maxWalkSpeed, lean);
        Pose(Vec3(p.pos.x - d.pos.x, p.pos.y - d.pos.y, p.pos.z - d.pos.z),
             Vec3(p.rot.x - d.rot.x, p.rot.y - d.rot.y, p.rot.z - d.rot.z))
  }

  /** The walk modifier tilts the weapon about x by at most 0.6 of the speed fraction: by nothing while airborne or aim-firing. */
  lemma WalkTiltBounded(m: Numerics, p: Pose, now: real, onGround: bool, running: bool, aiming: bool,
                        localVel: Vec3, velocity: Vec3, timeSincePrimaryShoot: real)
    ensures var r := WalkStep(m, p, now, onGround, running, aiming, localVel, velocity, timeSincePrimaryShoot);
            Abs(r.rot.x - p.rot.x) <= 0.6 * Abs(WalkSpeed(m, velocity)) / MaxWalkSpeed(running)
  {
    WalkRollBound(m, WalkBreathe(now, running), WalkSpeed(m, velocity), MaxWalkSpeed(running));
  }

  // ---------------------------------------------------------------- sway

  /** The eye-lerp speed of the sway: faster while aiming. */
  function SwaySpeed(aiming: bool): (s: int)
    ensures s == 5 || s == 20
    ensures aiming <==> s == 20
  {
    if aiming then 20 else 5
  }

  /** The angle difference between the camera and the lerped eye rotation, its yaw wrapped through atan2 and its roll dropped. */
  function SwayAngles(m: Numerics, cameraRot: Rotation, eyeRot: Rotation): (a: Angles)
    ensures a.roll == 0.0
    ensures a.pitch == m.anglesOf(cameraRot).pitch - m.anglesOf(eyeRot).pitch
  {
    var cam := m.anglesOf(cameraRot);
    var eye := m.anglesOf(eyeRot);
    var yaw := cam.yaw - eye.yaw;
    var wrapped := m.radToDeg(m.atan2(m.sin(m.degToRad(yaw)), m.cos(m.degToRad(yaw))));
    Angles(cam.pitch - eye.pitch, wrapped, 0.0)
  }

  /**
   * The sway added for an angle difference: position x and z at most 1.5 and
   * rotation x and y at most 4 in magnitude, with position y and rotation z
   * left alone.
   */
  function SwayOffset(a: Angles): (d: Pose)
    ensures -1.5 <= d.pos.x <= 1.5 && d.pos.y == 0.0 && -1.5 <= d.pos.z <= 1.5
    ensures -4.0 <= d.rot.x <= 4.0 && -4.0 <= d.rot.y <= 4.0 && d.rot.z == 0.0
  {
    Pose(Vec3(Clamp(a.yaw * 0.04, -1.5, 1.5), 0.0, Clamp(a.pitch * 0.04, -1.5, 1.5)),
         Vec3(Clamp(a.pitch * 0.2, -4.0, 4.0), Clamp(a.yaw * 0.2, -4.0, 4.0), 0.0))
  }

  /** There is sway exactly when the pitch or the yaw differ, and each offset leans the way its angle does. */
  lemma SwayOnlyWhenAnglesDiffer(a: Angles)
    ensures SwayOffset(a) == Pose(Zero, Zero) <==> a.pitch == 0.0 && a.yaw == 0.0
    ensures var d := SwayOffset(a); (d.pos.x < 0.0 <==> a.yaw < 0.0) && (d.pos.z < 0.0 <==> a.pitch < 0.0)
  {
  }

  /** The sway modifier: the sway for the camera and the lerped eye rotation is added to `p`. */
  function SwayStep(m: Numerics, p: Pose, cameraRot: Rotation, eyeRot: Rotation): (r: Pose)
    ensures p.pos.x - 1.5 <= r.pos.x <= p.pos.x + 1.5 && r.pos.y == p.pos.y && p.pos.z - 1.5 <= r.pos.z <= p.pos.z + 1.5
    ensures p.rot.x - 4.0 <= r.rot.x <= p.rot.x + 4.0 && p.rot.y - 4.0 <= r.rot.y <= p.rot.y + 4.0 && r.rot.z == p.rot.z
  {
    var d := SwayOffset(SwayAngles(m, cameraRot, eyeRot));
    Pose(Vec3(p.pos.x + d.pos.x, p.pos.y + d.pos.y, p.pos.z + d.pos.z),
         Vec3(p.rot.x + d.rot.x, p.rot.y + d.rot.y, p.rot.z + d.rot.z))
  }

  // ---------------------------------------------------------------- aim

  /** The aim-time latch: set to the current time on an aiming frame that finds it zero, kept on later aiming frames, cleared when not aiming. */
  function AimLatch(aimTime: real, aiming: bool, now: real): (r: real)
    ensures aiming && aimTime == 0.0 ==> r == now
    ensures aiming && aimTime != 0.0 ==> r == aimTime
    ensures !aiming ==> r == 0.0
  {
    if !aiming then 0.0 else if aimTime == 0.0 then now else aimTime
  }

  /** One frame's input to the aim latch. */
  datatype AimFrame = AimFrame(aiming: bool, now: real)

  /** The aim time after the frames `fs`, in order, starting from `aimTime`. */
  function AimRun(aimTime: real, fs: seq<AimFrame>): real
  {
    if fs == [] then aimTime
    else
      var last := fs[|fs| - 1];
      AimLatch(AimRun(aimTime, fs[..|fs| - 1]), last.aiming, last.now)
  }

  /**
   * Across a run of frames, the aim time is the time of the first frame of the
   * current aiming streak: the streak starts at `k` (after a non-aiming frame,
   * or at the start with a cleared latch) and every frame since aims.
   */
  lemma {:induction false} AimTimeLatchesStreakStart(aimTime: real, fs: seq<AimFrame>, k: nat)
    requires k < |fs|
    requires forall j :: k <= j < |fs| ==> fs[j].aiming
    requires (k == 0 && aimTime == 0.0) || (k > 0 && !fs[k - 1].aiming)
    requires fs[k].now != 0.0
    ensures AimRun(aimTime, fs) == fs[k].now
  {
    var init := fs[..|fs| - 1];
    if |fs| == k + 1 {
      if k > 0 {
        assert init[..k - 1] == fs[..k - 1];
        assert AimRun(aimTime, init) == 0.0;
      }
    } else {
      assert forall j :: k <= j < |init| ==> init[j].aiming;
      AimTimeLatchesStreakStart(aimTime, init, k);
    }
  }

  /** The player field of view aimed at this frame: the weapon's aiming value when aiming and positive, the default otherwise. */
  function TargetPlayerFOV(aiming: bool, aimPlayerFOV: real): (f: real)
    ensures !aiming || aimPlayerFOV <= 0.0 ==> f == PlayerFOV
    ensures aiming && aimPlayerFOV > 0.0 ==> f == aimPlayerFOV
  {
    if aiming && aimPlayerFOV > 0.0 then aimPlayerFOV else PlayerFOV
  }

  /** The weapon field of view aimed at this frame: the weapon's aiming value when aiming and positive, its plain value otherwise. */
  function TargetWeaponFOV(aiming: bool, fov: real, aimFOV: real): (f: real)
    ensures !aiming || aimFOV <= 0.0 ==> f == fov
    ensures aiming && aimFOV > 0.0 ==> f == aimFOV
    ensures f == -1.0 ==> fov == -1.0
  {
    if aiming && aimFOV > 0.0 then aimFOV else fov
  }

  /** The iron-sight modifier: while aiming, the weapon's aim pose is added. */
  function IronStep(m: Numerics, p: Pose, aiming: bool, aimAnimData: AngPos): (r: Pose)
    ensures !aiming ==> r == p
    ensures aiming ==> var a := aimAnimData.pos; r.pos == Vec3(p.pos.x + a.x, p.pos.y + a.y, p.pos.z + a.z)
  {
    if aiming then
      var a, d := aimAnimData.pos, ToVector(m, aimAnimData.angle);
      Pose(Vec3(p.pos.x + a.x, p.pos.y + a.y, p.pos.z + a.z), Vec3(p.rot.x + d.x, p.rot.y + d.y, p.rot.z + d.z))
    else p
  }

  /** The sprint modifier: the weapon's run pose is added only while it runs and that pose is not zero. */
  function SprintStep(m: Numerics, p: Pose, weaponRunning: bool, runAnimData: AngPos): (r: Pose)
    ensures r != p ==> weaponRunning && runAnimData != ZeroAngPos
    ensures weaponRunning && runAnimData != ZeroAngPos ==>
              var a := runAnimData.pos; r.pos == Vec3(p.pos.x + a.x, p.pos.y + a.y, p.pos.z + a.z)
  {
    if weaponRunning && runAnimData != ZeroAngPos then
      var a, d := runAnimData.pos, ToVector(m, runAnimData.angle);
      Pose(Vec3(p.pos.x + a.x, p.pos.y + a.y, p.pos.z + a.z), Vec3(p.rot.x + d.x, p.rot.y + d.y, p.rot.z + d.z))
    else p
  }

  // ---------------------------------------------------------------- jump

  /** The jump curve's end time and the landing curve's end time; zero when not running. */
  datatype JumpTimers = JumpTimers(jumpTime: real, landTime: real)

  /**
   * One frame of the jump timers. Reading the three steps as a case table:
   * a jump starts when the jump button is held and the jump timer is clear, or
   * was just cleared because a landing elapsed on the ground; an elapsed
   * landing otherwise clears both timers; an airborne frame otherwise only
   * pushes the landing time to `now + 0.31`; anything else leaves the timers.
   */
  function StepJumpTimers(t: JumpTimers, onGround: bool, jumpDown: bool, now: real): (r: JumpTimers)
    ensures var elapsed := onGround && t.landTime < now && t.landTime != 0.0;
            var started := jumpDown && (t.jumpTime == 0.0 || elapsed);
            && (started ==> r == JumpTimers(now + JumpDuration, 0.0))
            && (!started && elapsed ==> r == JumpTimers(0.0, 0.0))
            && (!started && !onGround ==> r == JumpTimers(t.jumpTime, now + JumpDuration))
            && (!started && onGround && !elapsed ==> r == t)
  {
    var landTime := if !onGround then now + JumpDuration else t.landTime;
    var t1 := if landTime < now && landTime != 0.0 then JumpTimers(0.0, 0.0) else JumpTimers(t.jumpTime, landTime);
    if jumpDown && t1.jumpTime == 0.0 then JumpTimers(now + JumpDuration, 0.0) else t1
  }

  /** Which curve the jump modifier plays when not aiming. */
  datatype JumpPhase = Rising | Falling | Landing | Settled

  /** The phase for timers already stepped this frame: the jump curve while it runs, the fall shake while airborne, then the landing curve. */
  function PhaseOf(t: JumpTimers, onGround: bool, now: real): (ph: JumpPhase)
    ensures ph == Settled <==> t.jumpTime <= now && onGround && t.landTime <= now
    ensures ph == Falling || ph == Landing ==> t.jumpTime <= now
    ensures ph == Landing ==> onGround
    ensures !onGround ==> ph == Rising || ph == Falling
  {
    if t.jumpTime > now then Rising
    else if !onGround then Falling
    else if t.landTime > now then Landing
    else Settled
  }

  /** An airborne frame only ever plays the jump curve or the fall shake, and a jump that starts plays the jump curve. */
  lemma AirborneFramesRiseOrFall(t: JumpTimers, onGround: bool, jumpDown: bool, now: real)
    ensures var r := StepJumpTimers(t, onGround, jumpDown, now);
            && (!onGround ==> PhaseOf(r, onGround, now) in {Rising, Falling})
            && (!onGround ==> r.landTime == 0.0 || r.landTime == now + JumpDuration)
            && (r.jumpTime == now + JumpDuration && r.jumpTime != t.jumpTime ==> PhaseOf(r, onGround, now) == Rising)
  {
  }

  /** A Bezier curve pose at parameter `f`, before scaling. */
  function CurvePose(m: Numerics, f: real): Pose
  {
    var xx := m.bezierY(f, 0.0, -4.0, 0.0);
    var zz := m.bezierY(f, 0.0, -2.0, -5.0);
    var pt := m.bezierY(f, 0.0, -4.36, 10.0);
    var rl := m.bezierY(f, 0.0, -10.82, -5.0);
    Pose(Vec3(xx, 0.0, zz), Vec3(pt, xx, rl))
  }

  /** The fall-shake pose at time `now`, before scaling. */
  function FallPose(m: Numerics, now: real): Pose
  {
    var breatheTime := now * 30.0;
    Pose(Vec3(m.cos(breatheTime / 2.0) / 16.0, 0.0, -5.0 + (m.sin(breatheTime / 3.0) / 16.0)),
         Vec3(10.0 - (m.sin(breatheTime / 3.0) / 4.0), m.cos(breatheTime / 2.0) / 4.0, -5.0))
  }

  /**
   * The jump modifier for stepped timers. While aiming it only raises or lowers
   * the position by the vertical velocity over 1000, clamped to [-1, 1];
   * otherwise it plays the phase's curve (the jump curve and the fall shake at
   * a quarter, the landing curve at a half), never moving position y.
   */
  function JumpStep(m: Numerics, p: Pose, t: JumpTimers, onGround: bool, now: real, aiming: bool, verticalVel: real): (r: Pose)
    ensures aiming ==> r.rot == p.rot && r.pos.x == p.pos.x && r.pos.y == p.pos.y
                       && p.pos.z - 1.0 <= r.pos.z <= p.pos.z + 1.0
    ensures aiming && -1000.0 <= verticalVel <= 1000.0 ==> r.pos.z == p.pos.z + verticalVel / 1000.0
    ensures !aiming ==> r.pos.y == p.pos.y
    ensures !aiming && PhaseOf(t, onGround, now) == Settled ==> r == p
    ensures !aiming && PhaseOf(t, onGround, now) == Falling ==> r.rot.z == p.rot.z - 1.25
  {
    if aiming then
      Pose(Vec3(p.pos.x, p.pos.y, p.pos.z + Clamp(verticalVel / 1000.0, -1.0, 1.0)), p.rot)
    else if PhaseOf(t, onGround, now) == Settled then p
    else
      var d := JumpCurve(m, t, onGround, now);
      Pose(Vec3(p.pos.x + d.pos.x, p.pos.y + d.pos.y, p.pos.z + d.pos.z),
           Vec3(p.rot.x + d.rot.x, p.rot.y + d.rot.y, p.rot.z + d.rot.z))
  }

  /** The curve a phase other than Settled adds: the jump curve and the fall shake at a quarter, the landing curve at a half. */
  function JumpCurve(m: Numerics, t: JumpTimers, onGround: bool, now: real): (d: Pose)
    ensures d.pos.y == 0.0
    ensures PhaseOf(t, onGround, now) == Falling ==> d.rot.z == -1.25
  {
    match PhaseOf(t, onGround, now)
    case Rising =>
      var c := CurvePose(m, JumpDuration - (t.jumpTime - now));
      Pose(Vec3(c.pos.x / 4.0, c.pos.y / 4.0, c.pos.z / 4.0), Vec3(c.rot.x / 4.0, c.rot.y / 4.0, c.rot.z / 4.0))
    case Falling =>
      var c := FallPose(m, now);
      Pose(Vec3(c.pos.x / 4.0, c.pos.y / 4.0, c.pos.z / 4.0), Vec3(c.rot.x / 4.0, c.rot.y / 4.0, c.rot.z / 4.0))
    case Landing =>
      var c := CurvePose(m, t.landTime - now);
      Pose(Vec3(c.pos.x / 2.0, c.pos.y / 2.0, c.pos.z / 2.0), Vec3(c.rot.x / 2.0, c.rot.y / 2.0, c.rot.z / 2.0))
    case Settled => Pose(Zero, Zero)
  }

  /** The jump modifier's animation speed: the curve speed while a curve plays without aiming, `animSpeed` otherwise. */
  function JumpAnim(t: JumpTimers, onGround: bool, now: real, aiming: bool, animSpeed: real): (s: real)
    ensures s != animSpeed ==> s == JumpAnimSpeed && !aiming
    ensures !aiming && PhaseOf(t, onGround, now) != Settled ==> s == JumpAnimSpeed
  {
    if !aiming && PhaseOf(t, onGround, now) != Settled then JumpAnimSpeed else animSpeed
  }

  // ---------------------------------------------------------------- frame

  /** The player's velocity in eye space: sideways, forwards, and the world's vertical. */
  function LocalVelocity(m: Numerics, player: PlayerView): (v: Vec3)
    ensures v.z == player.velocity.z
  {
    var eyeRot := m.toRotation(player.eyeAngles);
    Vec3(m.dot(m.right(eyeRot), player.velocity), m.dot(m.forward(eyeRot), player.velocity), player.velocity.z)
  }

  /**
   * The first three modifiers of a frame from zero: idle, walk and sway, for
   * the eye rotation after this frame's lerp. Only the crouch moves position y.
   */
  function FramePoseA(m: Numerics, f: Frame, player: PlayerView, w: WeaponView, eyeRot: Rotation): (r: Pose)
    ensures r.pos.y == if !w.isAiming && f.duckDown && player.isOnGround then -1.0 else 0.0
  {
    var p1 := IdleStep(m, Pose(Zero, Zero), f.now, w.isAiming, f.duckDown, player.isOnGround);
    var p2 := WalkStep(m, p1, f.now, player.isOnGround, player.isRunning, w.isAiming,
                       LocalVelocity(m, player), player.velocity, w.timeSincePrimaryShoot);
    SwayStep(m, p2, player.cameraRotation, eyeRot)
  }

  /**
   * The last three modifiers of a frame on `p`: iron sights, sprint and jump,
   * for the jump timers after this frame's step and the eye-space vertical
   * velocity. Position y moves only by the aim pose and the run pose.
   */
  function FramePoseB(m: Numerics, p: Pose, f: Frame, player: PlayerView, w: WeaponView, t: JumpTimers, verticalVel: real): (r: Pose)
    ensures r.pos.y == p.pos.y + (if w.isAiming then w.aimAnimData.pos.y else 0.0)
                      + (if w.isRunning && w.runAnimData != ZeroAngPos then w.runAnimData.pos.y else 0.0)
  {
    var p4 := IronStep(m, p, w.isAiming, w.aimAnimData);
    var p5 := SprintStep(m, p4, w.isRunning, w.runAnimData);
    JumpStep(m, p5, t, player.isOnGround, f.now, w.isAiming, verticalVel)
  }

  /**
   * The targets of one first-person frame: from zero, the idle, walk, sway,
   * iron-sight, sprint and jump modifiers in that order, for the eye rotation
   * and the jump timers as they are after this frame's updates. Position y
   * ends at the crouch offset plus the y of the aim and run poses that apply.
   */
  function FramePose(m: Numerics, f: Frame, player: PlayerView, w: WeaponView, eyeRot: Rotation, t: JumpTimers): (r: Pose)
    ensures r.pos.y == (if !w.isAiming && f.duckDown && player.isOnGround then -1.0 else 0.0)
                      + (if w.isAiming then w.aimAnimData.pos.y else 0.0)
                      + (if w.isRunning && w.runAnimData != ZeroAngPos then w.runAnimData.pos.y else 0.0)
  {
    FramePoseB(m, FramePoseA(m, f, player, w, eyeRot), f, player, w, t, LocalVelocity(m, player).z)
  }
}
