/** The current CameraController: a rig that follows the player's target.
    Per frame it clamps the pitch to the tilt bounds and eases the pitch,
    yaw and position towards their targets. It keeps a table of
    aim-down-sights (ADS) profiles keyed by weapon type, applies the active
    profile's camera offsets while aiming, and can lock on to a target.
    Transforms are referred to by id and read through the frame's inputs;
    the quaternion arithmetic of the lock-on yaw is an input too. */
module CameraRig {
  import opened UnityMath

  /** `WeaponType`. */
  datatype WeaponType = Unarmed | Rifle | Pistol | Melee

  /** A `WeaponADSConfigSO` asset. */
  datatype AdsProfile = AdsProfile(weaponType: WeaponType, adsCameraOffset: Vector3,
                                   adsSensitivityMultiplier: real, rotationOffset: Vector3)

  /** An asset reference: `None` is a null reference, or an asset destroyed
      since it was registered (Unity's `!= null` then reads false). */
  type AdsEntry = Option<AdsProfile>

  type AdsTable = map<WeaponType, AdsEntry>

  /** A Transform, by identity. */
  type TransformRef = nat

  /** The serialized settings of the rig. */
  datatype CameraSettings = CameraSettings(invertCamera: bool, mouseSensitivity: real, cameraDistance: real,
                                           cameraHeightOffset: real, cameraHorizontalOffset: real,
                                           cameraTiltOffset: real, tiltMin: real, tiltMax: real,
                                           positionalCameraLag: real, rotationalCameraLag: real,
                                           adsTransitionSpeed: real)

  const DefaultSettings := CameraSettings(false, 5.0, 5.0, 0.0, 0.0, 0.0, -10.0, 45.0, 1.0, 1.0, 10.0)

  /** `LAG_DELTA_TIME_ADJUSTMENT`. */
  const LagAdjustment: real := 20.0

  // ---------------------------------------------------------------------
  // The ADS table

  /** The weapon types of the non-null entries of a profile list. */
  function TypesOf(profiles: seq<AdsEntry>): set<WeaponType>
  {
    if profiles == [] then {}
    else (if profiles[0].Some? then {profiles[0].value.weaponType} else {}) + TypesOf(profiles[1..])
  }

  /** The outcome of the `OnNetworkSpawn` loop: the table as far as it got,
      and whether every entry went in. */
  datatype Built = Built(table: AdsTable, complete: bool)

  /** `Dictionary.Add` of each profile under its weapon type, in list order.
      A null entry (its `weaponType` cannot be read) or a type already
      present (`Add` throws) stops the loop, keeping what was added. */
  function AddAll(table: AdsTable, profiles: seq<AdsEntry>): Built
    decreases |profiles|
  {
    if profiles == [] then Built(table, true)
    else match profiles[0]
      case None => Built(table, false)
      case Some(p) =>
        if p.weaponType in table then Built(table, false)
        else AddAll(table[p.weaponType := Some(p)], profiles[1..])
  }

  /** Every entry is non-null, no two share a weapon type and none is
      already in the table. */
  predicate Registrable(table: AdsTable, profiles: seq<AdsEntry>)
  {
    && (forall i | 0 <= i < |profiles| :: profiles[i].Some? && profiles[i].value.weaponType !in table)
    && (forall i, j | 0 <= i < j < |profiles| && profiles[i].Some? && profiles[j].Some? ::
          profiles[i].value.weaponType != profiles[j].value.weaponType)
  }

  /** The build completes exactly when the list is registrable; it never
      overwrites or drops an entry already there; when it completes, the
      keys are the old ones and the listed types, each type mapping to its
      own profile. */
  lemma {:induction false} AddAllMeaning(table: AdsTable, profiles: seq<AdsEntry>)
    ensures AddAll(table, profiles).complete <==> Registrable(table, profiles)
    ensures forall k | k in table :: k in AddAll(table, profiles).table && AddAll(table, profiles).table[k] == table[k]
    ensures AddAll(table, profiles).table.Keys <= table.Keys + TypesOf(profiles)
    ensures AddAll(table, profiles).complete ==>
      && AddAll(table, profiles).table.Keys == table.Keys + TypesOf(profiles)
      && forall i | 0 <= i < |profiles| :: profiles[i].Some? && profiles[i].value.weaponType in AddAll(table, profiles).table
           && AddAll(table, profiles).table[profiles[i].value.weaponType] == profiles[i]
    decreases |profiles|
  {
    if profiles != [] && profiles[0].Some? && profiles[0].value.weaponType !in table {
      var p := profiles[0].value;
      var rest := profiles[1..];
      var next := table[p.weaponType := Some(p)];
      AddAllMeaning(next, rest);
      assert Registrable(table, profiles) <==> Registrable(next, rest) by {
        if Registrable(next, rest) {
          forall i, j | 0 <= i < j < |profiles| && profiles[i].Some? && profiles[j].Some?
            ensures profiles[i].value.weaponType != profiles[j].value.weaponType
          {
            if i > 0 {
              assert profiles[i] == rest[i - 1] && profiles[j] == rest[j - 1];
            } else {
              assert profiles[j] == rest[j - 1];
            }
          }
          forall i | 0 <= i < |profiles|
            ensures profiles[i].Some? && profiles[i].value.weaponType !in table
          {
            if i > 0 {
              assert profiles[i] == rest[i - 1];
            }
          }
        }
        if Registrable(table, profiles) {
          forall i | 0 <= i < |rest|
            ensures rest[i].Some? && rest[i].value.weaponType !in next
          {
            assert rest[i] == profiles[i + 1];
            assert profiles[0].value.weaponType != profiles[i + 1].value.weaponType;
          }
          forall i, j | 0 <= i < j < |rest| && rest[i].Some? && rest[j].Some?
            ensures rest[i].value.weaponType != rest[j].value.weaponType
          {
            assert rest[i] == profiles[i + 1] && rest[j] == profiles[j + 1];
          }
        }
      }
      if AddAll(table, profiles).complete {
        forall i | 0 <= i < |profiles|
          ensures profiles[i].Some? && profiles[i].value.weaponType in AddAll(table, profiles).table
            && AddAll(table, profiles).table[profiles[i].value.weaponType] == profiles[i]
        {
          if i > 0 {
            assert profiles[i] == rest[i - 1];
          }
        }
      }
    } else if profiles != [] && profiles[0].Some? {
      assert !Registrable(table, profiles) by {
        assert profiles[0].value.weaponType in table;
      }
    } else if profiles != [] {
      assert !Registrable(table, profiles) by {
        assert profiles[0].None?;
      }
    }
  }

  // ---------------------------------------------------------------------
  // Aim down sights

  /** The aiming flag and the offsets and multiplier of the active profile. */
  datatype AdsState = AdsState(isAiming: bool, positionOffset: Vector3, rotationOffset: Vector3,
                               sensitivityMultiplier: real)

  /** `StopAimDownSights`: not aiming, no offsets, multiplier 1. */
  const NotAiming := AdsState(false, Zero3, Zero3, 1.0)

  /** `StartAimDownSights(weaponType)`: a registered profile's offsets and
      multiplier are copied; a registered entry that reads as null resets
      them; an unregistered type changes nothing. */
  function AimWith(ads: AdsState, table: AdsTable, weaponType: WeaponType): AdsState
  {
    if weaponType !in table then ads
    else match table[weaponType]
      case Some(p) => ads.(positionOffset := p.adsCameraOffset, rotationOffset := p.rotationOffset,
                           sensitivityMultiplier := p.adsSensitivityMultiplier)
      case None => ads.(positionOffset := Zero3, rotationOffset := Zero3, sensitivityMultiplier := 1.0)
  }

  /** `EnableAim`: aim, with the Rifle profile. */
  function Aimed(ads: AdsState, table: AdsTable): AdsState
  {
    AimWith(ads.(isAiming := true), table, Rifle)
  }

  /** Starting ADS never touches the aiming flag, and its three cases. */
  lemma AimWithCases(ads: AdsState, table: AdsTable, weaponType: WeaponType)
    ensures AimWith(ads, table, weaponType).isAiming == ads.isAiming
    ensures weaponType !in table ==> AimWith(ads, table, weaponType) == ads
    ensures weaponType in table && table[weaponType].Some? ==>
      var p := table[weaponType].value;
      AimWith(ads, table, weaponType) == AdsState(ads.isAiming, p.adsCameraOffset, p.rotationOffset, p.adsSensitivityMultiplier)
    ensures weaponType in table && table[weaponType].None? ==>
      AimWith(ads, table, weaponType) == NotAiming.(isAiming := ads.isAiming)
  {
  }

  /** After `EnableAim` the camera aims, with the Rifle profile's values when
      one is registered; after either way of stopping it is in the one
      not-aiming state, whatever came before, so stopping twice is
      stopping once. */
  lemma AimToggles(ads: AdsState, table: AdsTable)
    ensures Aimed(ads, table).isAiming
    ensures Rifle in table && table[Rifle].Some? ==>
      Aimed(ads, table).positionOffset == table[Rifle].value.adsCameraOffset
      && Aimed(ads, table).rotationOffset == table[Rifle].value.rotationOffset
      && Aimed(ads, table).sensitivityMultiplier == table[Rifle].value.adsSensitivityMultiplier
    ensures Rifle !in table ==> Aimed(ads, table) == ads.(isAiming := true)
    ensures !NotAiming.isAiming && NotAiming.positionOffset == Zero3 && NotAiming.rotationOffset == Zero3
    ensures NotAiming.sensitivityMultiplier == 1.0
  {
  }

  // ---------------------------------------------------------------------
  // Following the target

  /** How far a lerp of `LateUpdate` moves in one frame:
      `1 / (lag / 20) * deltaTime`. A zero lag divides by zero, which in
      floats is infinity: the rig snaps to its target. */
  function FollowParameter(lag: real, deltaTime: real): real
  {
    if lag == 0.0 then 1.0 else (LagAdjustment / lag) * deltaTime
  }

  /** The per-frame inputs of `LateUpdate`. */
  datatype CameraFrame = CameraFrame(lookX: real, lookY: real, deltaTime: real,
                                     playerTargetPosition: Vector3, lockOnYaw: real)

  /** The angles and positions `LateUpdate` carries from frame to frame,
      and the local position and angles of the camera inside the rig. */
  datatype Pose = Pose(newAngleX: real, newAngleY: real, lastAngleX: real, lastAngleY: real,
                       newPosition: Vector3, lastPosition: Vector3,
                       localPosition: Vector3, localEulerAngles: Vector3)

  const InitialPose := Pose(0.0, 0.0, 0.0, 0.0, Zero3, Zero3, Zero3, Zero3)

  /** The camera's local position without ADS. */
  function BaseLocalPosition(s: CameraSettings): Vector3
  {
    Vector3(s.cameraHorizontalOffset, s.cameraHeightOffset, -s.cameraDistance)
  }

  function BaseLocalEulerAngles(s: CameraSettings): Vector3
  {
    Vector3(s.cameraTiltOffset, 0.0, 0.0)
  }

  /** Where the camera heads inside the rig: the base placement, plus the ADS
      offsets only while aiming. */
  function TargetLocalPosition(s: CameraSettings, ads: AdsState): (r: Vector3)
    ensures !ads.isAiming ==> r == BaseLocalPosition(s)
    ensures ads.isAiming ==> r == BaseLocalPosition(s).Plus(ads.positionOffset)
  {
    if ads.isAiming then BaseLocalPosition(s).Plus(ads.positionOffset) else BaseLocalPosition(s)
  }

  function TargetLocalEulerAngles(s: CameraSettings, ads: AdsState): (r: Vector3)
    ensures !ads.isAiming ==> r == BaseLocalEulerAngles(s)
    ensures ads.isAiming ==> r == BaseLocalEulerAngles(s).Plus(ads.rotationOffset)
  {
    if ads.isAiming then BaseLocalEulerAngles(s).Plus(ads.rotationOffset) else BaseLocalEulerAngles(s)
  }

  /** The pitch `LateUpdate` computes: the previous pitch plus this frame's
      look input, clamped to the tilt bounds, then eased from the last
      pitch. */
  function NextPitch(p: Pose, s: CameraSettings, inversion: real, f: CameraFrame): real
  {
    Lerp(p.lastAngleX, TargetPitch(p, s, inversion, f), FollowParameter(s.rotationalCameraLag, f.deltaTime))
  }

  /** The pitch `LateUpdate` heads for: the previous pitch turned by the
      vertical look input, with the inversion sign, clamped to the tilt
      bounds. */
  function TargetPitch(p: Pose, s: CameraSettings, inversion: real, f: CameraFrame): real
  {
    Clamp(p.newAngleX + f.lookY * inversion * s.mouseSensitivity, s.tiltMin, s.tiltMax)
  }

  /** The body of `LateUpdate` once its references are all present: the
      new values become the last ones. */
  function Follow(p: Pose, s: CameraSettings, inversion: real, lockedOn: bool, ads: AdsState, f: CameraFrame): Pose
  {
    var angleX := NextPitch(p, s, inversion, f);
    var angleY := NextYaw(p, s, lockedOn, f);
    var position := NextRigPosition(p, s, f);
    Pose(angleX, angleY, angleX, angleY, position, position, NextLocalPosition(p, s, ads, f), NextLocalEulerAngles(p, s, ads, f))
  }

  /** The new yaw: the lock-on rotation's while locked on, otherwise the
      previous yaw plus this frame's look input, eased from the last yaw. */
  function NextYaw(p: Pose, s: CameraSettings, lockedOn: bool, f: CameraFrame): real
  {
    if lockedOn then f.lockOnYaw
    else Lerp(p.lastAngleY, p.newAngleY + f.lookX * s.mouseSensitivity, FollowParameter(s.rotationalCameraLag, f.deltaTime))
  }

  /** The rig's new position: eased from the last one towards the target's. */
  function NextRigPosition(p: Pose, s: CameraSettings, f: CameraFrame): Vector3
  {
    Lerp3(p.lastPosition, f.playerTargetPosition, FollowParameter(s.positionalCameraLag, f.deltaTime))
  }

  /** The camera's new local position and angles: eased towards the aimed or
      unaimed placement at `adsTransitionSpeed`. */
  function NextLocalPosition(p: Pose, s: CameraSettings, ads: AdsState, f: CameraFrame): Vector3
  {
    Lerp3(p.localPosition, TargetLocalPosition(s, ads), s.adsTransitionSpeed * f.deltaTime)
  }

  function NextLocalEulerAngles(p: Pose, s: CameraSettings, ads: AdsState, f: CameraFrame): Vector3
  {
    Lerp3(p.localEulerAngles, TargetLocalEulerAngles(s, ads), s.adsTransitionSpeed * f.deltaTime)
  }

  /** Both pitches lie within the tilt bounds. */
  predicate PitchInBounds(p: Pose, s: CameraSettings)
  {
    s.tiltMin <= p.lastAngleX <= s.tiltMax && s.tiltMin <= p.newAngleX <= s.tiltMax
  }

  /** From a last pitch within the bounds the new pitch stays within them,
      whatever the look input, the lag or the frame time. */
  lemma PitchStaysInBounds(p: Pose, s: CameraSettings, inversion: real, f: CameraFrame)
    requires s.tiltMin <= s.tiltMax
    requires s.tiltMin <= p.lastAngleX <= s.tiltMax
    ensures s.tiltMin <= NextPitch(p, s, inversion, f) <= s.tiltMax
  {
    LerpBetween(p.lastAngleX, TargetPitch(p, s, inversion, f), FollowParameter(s.rotationalCameraLag, f.deltaTime));
  }

  /** A followed frame makes the last values the new ones, follows the
      lock-on yaw while locked on, and, with no lag to speak of, puts the rig
      on the target. */
  lemma FollowFacts(p: Pose, s: CameraSettings, inversion: real, lockedOn: bool, ads: AdsState, f: CameraFrame)
    ensures var q := Follow(p, s, inversion, lockedOn, ads, f);
      && q.lastAngleX == q.newAngleX && q.lastAngleY == q.newAngleY && q.lastPosition == q.newPosition
      && (lockedOn ==> q.newAngleY == f.lockOnYaw)
      && (1.0 <= FollowParameter(s.positionalCameraLag, f.deltaTime) ==> q.newPosition == f.playerTargetPosition)
  {
  }

  /** A transition fast enough for one frame puts the camera on its aimed
      or unaimed placement. */
  lemma CameraSettles(p: Pose, s: CameraSettings, ads: AdsState, f: CameraFrame)
    requires 1.0 <= s.adsTransitionSpeed * f.deltaTime
    ensures NextLocalPosition(p, s, ads, f) == TargetLocalPosition(s, ads)
    ensures NextLocalEulerAngles(p, s, ads, f) == TargetLocalEulerAngles(s, ads)
  {
    var t := s.adsTransitionSpeed * f.deltaTime;
    assert NextLocalPosition(p, s, ads, f) == Lerp3(p.localPosition, TargetLocalPosition(s, ads), t);
    assert NextLocalEulerAngles(p, s, ads, f) == Lerp3(p.localEulerAngles, TargetLocalEulerAngles(s, ads), t);
  }

  /** A slower transition closes a fixed share of the way each frame: what
      is left between the camera and its aimed or unaimed placement is the
      old distance scaled by `1 - adsTransitionSpeed * deltaTime`. */
  lemma CameraApproaches(p: Pose, s: CameraSettings, ads: AdsState, f: CameraFrame)
    requires 0.0 <= s.adsTransitionSpeed * f.deltaTime <= 1.0
    ensures var t := s.adsTransitionSpeed * f.deltaTime;
      TargetLocalPosition(s, ads).Minus(NextLocalPosition(p, s, ads, f))
        == TargetLocalPosition(s, ads).Minus(p.localPosition).Scaled(1.0 - t)
    ensures var t := s.adsTransitionSpeed * f.deltaTime;
      TargetLocalEulerAngles(s, ads).Minus(NextLocalEulerAngles(p, s, ads, f))
        == TargetLocalEulerAngles(s, ads).Minus(p.localEulerAngles).Scaled(1.0 - t)
  {
    PositionApproaches(p, s, ads, f);
    AnglesApproaches(p, s, ads, f);
  }

  /** The position half of `CameraApproaches`. */
  lemma PositionApproaches(p: Pose, s: CameraSettings, ads: AdsState, f: CameraFrame)
    requires 0.0 <= s.adsTransitionSpeed * f.deltaTime <= 1.0
    ensures TargetLocalPosition(s, ads).Minus(NextLocalPosition(p, s, ads, f))
        == TargetLocalPosition(s, ads).Minus(p.localPosition).Scaled(1.0 - s.adsTransitionSpeed * f.deltaTime)
  {
    Lerp3Gap(p.localPosition, TargetLocalPosition(s, ads), s.adsTransitionSpeed * f.deltaTime);
  }

  /** The angle half of `CameraApproaches`. */
  lemma AnglesApproaches(p: Pose, s: CameraSettings, ads: AdsState, f: CameraFrame)
    requires 0.0 <= s.adsTransitionSpeed * f.deltaTime <= 1.0
    ensures TargetLocalEulerAngles(s, ads).Minus(NextLocalEulerAngles(p, s, ads, f))
        == TargetLocalEulerAngles(s, ads).Minus(p.localEulerAngles).Scaled(1.0 - s.adsTransitionSpeed * f.deltaTime)
  {
    Lerp3Gap(p.localEulerAngles, TargetLocalEulerAngles(s, ads), s.adsTransitionSpeed * f.deltaTime);
  }

  /** Where the aim handlers send the camera: after stopping, its base
      placement; after `EnableAim` with a Rifle profile, the base placement
      moved and turned by that profile's offsets, and with a null Rifle
      entry, the base placement again. Starting ADS without aiming never
      moves it. */
  lemma AimedPlacement(s: CameraSettings, ads: AdsState, table: AdsTable, weaponType: WeaponType)
    ensures TargetLocalPosition(s, NotAiming) == BaseLocalPosition(s)
    ensures TargetLocalEulerAngles(s, NotAiming) == BaseLocalEulerAngles(s)
    ensures Rifle in table && table[Rifle].Some? ==>
      && TargetLocalPosition(s, Aimed(ads, table)) == BaseLocalPosition(s).Plus(table[Rifle].value.adsCameraOffset)
      && TargetLocalEulerAngles(s, Aimed(ads, table)) == BaseLocalEulerAngles(s).Plus(table[Rifle].value.rotationOffset)
    ensures Rifle in table && table[Rifle].None? ==>
      && TargetLocalPosition(s, Aimed(ads, table)) == BaseLocalPosition(s)
      && TargetLocalEulerAngles(s, Aimed(ads, table)) == BaseLocalEulerAngles(s)
    ensures !ads.isAiming ==>
      && TargetLocalPosition(s, AimWith(ads, table, weaponType)) == BaseLocalPosition(s)
      && TargetLocalEulerAngles(s, AimWith(ads, table, weaponType)) == BaseLocalEulerAngles(s)
  {
  }

  /** Every field of the controller the model follows. */
  datatype CameraVars = CameraVars(adsProfileDict: AdsTable, ads: AdsState, isLockedOn: bool,
                                   lockOnTarget: Option<TransformRef>, playerTarget: Option<TransformRef>,
                                   hasInputReader: bool, aimSubscriptions: nat, cameraInversion: real, pose: Pose)

  /** `LateUpdate`: with the input reader, the player target or the lock-on
      target missing, nothing happens. */
  function LateUpdated(v: CameraVars, s: CameraSettings, f: CameraFrame): CameraVars
  {
    if !v.hasInputReader || v.playerTarget.None? || v.lockOnTarget.None? then v
    else v.(pose := Follow(v.pose, s, v.cameraInversion, v.isLockedOn, v.ads, f))
  }

  /** `LockOn(enable, target)`: the flag always follows `enable`; a null
      target keeps the old one. */
  function LockedOn(v: CameraVars, enable: bool, target: Option<TransformRef>): CameraVars
  {
    v.(isLockedOn := enable, lockOnTarget := if target.Some? then target else v.lockOnTarget)
  }

  /** `Init`: a non-inverted camera turns the vertical look input around. */
  function Inversion(invertCamera: bool): (r: real)
    ensures r == 1.0 || r == -1.0
    ensures r == 1.0 <==> invertCamera
  {
    if invertCamera then 1.0 else -1.0
  }

  /** The sign `Init` stores decides which way looking up turns the
      camera: with upward look input and a positive sensitivity, the pitch
      `LateUpdate` heads for rises (or stays at the upper bound) iff
      `invertCamera` is set, and falls (or stays at the lower bound)
      otherwise. */
  lemma InversionSteersPitch(p: Pose, s: CameraSettings, f: CameraFrame)
    requires 0.0 < f.lookY && 0.0 < s.mouseSensitivity
    requires s.tiltMin <= p.newAngleX <= s.tiltMax
    ensures var turn := f.lookY * Inversion(s.invertCamera) * s.mouseSensitivity;
      p.newAngleX < p.newAngleX + turn <==> s.invertCamera
    ensures s.invertCamera ==> p.newAngleX <= TargetPitch(p, s, Inversion(s.invertCamera), f)
    ensures !s.invertCamera ==> TargetPitch(p, s, Inversion(s.invertCamera), f) <= p.newAngleX
  {
    var k := f.lookY * s.mouseSensitivity;
    assert f.lookY * Inversion(s.invertCamera) * s.mouseSensitivity == Inversion(s.invertCamera) * k;
  }

  /** LateUpdate's guard, lock-on and the pitch invariant. */
  lemma LateUpdateFacts(v: CameraVars, s: CameraSettings, f: CameraFrame, enable: bool, target: Option<TransformRef>)
    requires s.tiltMin <= s.tiltMax
    ensures !v.hasInputReader || v.playerTarget.None? || v.lockOnTarget.None? ==> LateUpdated(v, s, f) == v
    ensures LateUpdated(v, s, f).(pose := v.pose) == v
    ensures PitchInBounds(v.pose, s) ==> PitchInBounds(LateUpdated(v, s, f).pose, s)
    ensures LockedOn(v, enable, target).isLockedOn == enable
    ensures LockedOn(v, enable, target).lockOnTarget == (if target.None? then v.lockOnTarget else target)
    ensures v.lockOnTarget.Some? ==> LockedOn(v, enable, target).lockOnTarget.Some?
  {
    if v.hasInputReader && v.playerTarget.Some? && v.lockOnTarget.Some? && PitchInBounds(v.pose, s) {
      PitchStaysInBounds(v.pose, s, v.cameraInversion, f);
    }
  }

  class CameraController {
    const settings: CameraSettings
    /** `weaponADSProfiles`, as serialized. */
    const weaponADSProfiles: seq<AdsEntry>

    var adsProfileDict: AdsTable
    var ads: AdsState
    var isLockedOn: bool
    var lockOnTarget: Option<TransformRef>
    var playerTarget: Option<TransformRef>
    /** Whether `inputReader` is set. */
    var hasInputReader: bool
    /** How many times `EnableAim`/`DisableAim` sit in the input handler's
        aim delegates. */
    var aimSubscriptions: nat
    var cameraInversion: real
    var pose: Pose

    function State(): CameraVars
      reads this
    {
      CameraVars(adsProfileDict, ads, isLockedOn, lockOnTarget, playerTarget, hasInputReader,
                 aimSubscriptions, cameraInversion, pose)
    }

    /** The component as loaded: an empty table, not aiming, no input reader. */
    constructor (settings: CameraSettings, profiles: seq<AdsEntry>, isLockedOn: bool,
                 lockOnTarget: Option<TransformRef>, playerTarget: Option<TransformRef>)
      ensures this.settings == settings && weaponADSProfiles == profiles
      ensures State() == CameraVars(map[], NotAiming, isLockedOn, lockOnTarget, playerTarget, false, 0, 0.0, InitialPose)
    {
      this.settings := settings;
      weaponADSProfiles := profiles;
      adsProfileDict := map[];
      ads := NotAiming;
      this.isLockedOn := isLockedOn;
      this.lockOnTarget := lockOnTarget;
      this.playerTarget := playerTarget;
      hasInputReader := false;
      aimSubscriptions := 0;
      cameraInversion := 0.0;
      pose := InitialPose;
    }

    /** `OnNetworkSpawn`: fill the ADS table, then pick up the input handler
        (when one exists) and subscribe the aim handlers to it. A failed
        `Add` ends the method there (`ok` is false). */
    method OnNetworkSpawn(inputHandlerExists: bool) returns (ok: bool)
      modifies this
      ensures var b := AddAll(old(adsProfileDict), weaponADSProfiles);
        && ok == b.complete
        && State() == old(State()).(adsProfileDict := b.table,
             hasInputReader := if ok then old(hasInputReader) || inputHandlerExists else old(hasInputReader),
             aimSubscriptions := if ok && (old(hasInputReader) || inputHandlerExists) then old(aimSubscriptions) + 1
                                 else old(aimSubscriptions))
    {
      var i := 0;
      while i < |weaponADSProfiles|
        invariant 0 <= i <= |weaponADSProfiles|
        invariant AddAll(adsProfileDict, weaponADSProfiles[i..]) == AddAll(old(adsProfileDict), weaponADSProfiles)
        invariant State() == old(State()).(adsProfileDict := adsProfileDict)
      {
        assert weaponADSProfiles[i..][1..] == weaponADSProfiles[i + 1..];
        var entry := weaponADSProfiles[i];
        if entry.None? {
          return false;
        }
        var p := entry.value;
        if p.weaponType in adsProfileDict {
          return false;
        }
        adsProfileDict := adsProfileDict[p.weaponType := Some(p)];
        i := i + 1;
      }
      assert weaponADSProfiles[i..] == [];
      if !hasInputReader {
        hasInputReader := inputHandlerExists;
      }
      if hasInputReader {
        aimSubscriptions := aimSubscriptions + 1;
      }
      ok := true;
    }

    /** `OnNetworkDespawn`: unsubscribing removes one subscription, and
        nothing when there is none. */
    method OnNetworkDespawn()
      modifies this
      ensures State() == old(State()).(aimSubscriptions :=
        if old(hasInputReader) && old(aimSubscriptions) > 0 then old(aimSubscriptions) - 1 else old(aimSubscriptions))
    {
      if hasInputReader && aimSubscriptions > 0 {
        aimSubscriptions := aimSubscriptions - 1;
      }
    }

    /** `Init(player, target, lockOn)`: the rig takes the targets and places
        the camera at its base placement. A null target stops the method
        with a null-reference error once the targets and the inversion are
        set (`ok` is false). */
    method Init(target: Option<TransformRef>, lockOn: Option<TransformRef>, targetPosition: Vector3) returns (ok: bool)
      modifies this
      ensures ok == target.Some?
      ensures var w := old(State()).(playerTarget := target, lockOnTarget := lockOn,
                                     cameraInversion := Inversion(settings.invertCamera));
        State() == if ok then w.(pose := w.pose.(lastPosition := targetPosition,
                                                   localPosition := BaseLocalPosition(settings),
                                                   localEulerAngles := BaseLocalEulerAngles(settings)))
                   else w
    {
      playerTarget := target;
      lockOnTarget := lockOn;
      cameraInversion := if settings.invertCamera then 1.0 else -1.0;
      if target.None? {
        return false;
      }
      pose := pose.(lastPosition := targetPosition, localPosition := BaseLocalPosition(settings),
                    localEulerAngles := BaseLocalEulerAngles(settings));
      ok := true;
    }

    method LateUpdate(f: CameraFrame)
      modifies this
      ensures State() == LateUpdated(old(State()), settings, f)
    {
      if !hasInputReader || playerTarget.None? || lockOnTarget.None? {
        return;
      }
      var newAngleX := NextPitch(pose, settings, cameraInversion, f);
      var newAngleY := NextYaw(pose, settings, isLockedOn, f);
      var newPosition := NextRigPosition(pose, settings, f);
      var localPosition := NextLocalPosition(pose, settings, ads, f);
      var localEulerAngles := NextLocalEulerAngles(pose, settings, ads, f);
      pose := Pose(newAngleX, newAngleY, newAngleX, newAngleY, newPosition, newPosition, localPosition, localEulerAngles);
    }

    method LockOn(enable: bool, target: Option<TransformRef>)
      modifies this
      ensures State() == LockedOn(old(State()), enable, target)
    {
      isLockedOn := enable;
      if target.Some? {
        lockOnTarget := target;
      }
    }

    method StartAimDownSights(weaponType: WeaponType)
      modifies this
      ensures State() == old(State()).(ads := AimWith(old(ads), adsProfileDict, weaponType))
    {
      if weaponType in adsProfileDict {
        var entry := adsProfileDict[weaponType];
        if entry.Some? {
          var p := entry.value;
          ads := ads.(positionOffset := p.adsCameraOffset, rotationOffset := p.rotationOffset,
                      sensitivityMultiplier := p.adsSensitivityMultiplier);
        } else {
          ads := ads.(positionOffset := Zero3, rotationOffset := Zero3, sensitivityMultiplier := 1.0);
        }
      }
    }

    method StopAimDownSights()
      modifies this
      ensures State() == old(State()).(ads := NotAiming)
    {
      ads := ads.(isAiming := false);
      ads := ads.(positionOffset := Zero3, rotationOffset := Zero3, sensitivityMultiplier := 1.0);
    }

    method EnableAim()
      modifies this
      ensures State() == old(State()).(ads := Aimed(old(ads), adsProfileDict))
    {
      ads := ads.(isAiming := true);
      StartAimDownSights(Rifle);
    }

    method DisableAim()
      modifies this
      ensures State() == old(State()).(ads := NotAiming)
    {
      ads := ads.(isAiming := false);
      StopAimDownSights();
    }
  }
}
