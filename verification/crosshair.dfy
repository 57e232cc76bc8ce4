/** The AdvancedCrosshairSystem: a crosshair built from image elements laid
    out on a ring, whose spread is the sum of what its spread providers
    report, clamped to the profile's maximum. The element list, the base
    transforms recorded for each element and the registered providers are
    the system's state; the engine's images, sprites, colours, the spread
    curve and `SmoothDamp` are reduced to the values they contribute. */
module Crosshair {
  import opened UnityMath

  datatype CrosshairElementType = Static | Dynamic | Rotating
  datatype CrosshairState = Default | Shooting | Moving | Hit
  datatype CrosshairShape = Classic | DotCircle | Circle | TShape

  datatype Vector2 = Vector2(x: real, y: real)

  /** `Vector2.one * s`. */
  function Square(s: real): Vector2
  {
    Vector2(s, s)
  }

  datatype Quaternion = Quaternion(x: real, y: real, z: real, w: real)

  const Identity := Quaternion(0.0, 0.0, 0.0, 1.0)

  /** Engine assets (sprites, colours, animation curves), by identity. */
  type AssetRef = nat

  /** The profile's behaviour settings. */
  datatype Behaviour = Behaviour(spreadCurve: AssetRef, animationDuration: real, rotationSpeed: real,
                                 wobbleAmount: real, maxSize: real, sizeMultiplier: real)

  /** The profile's visual settings. */
  datatype Visuals = Visuals(primaryCrosshairSprite: AssetRef, secondaryCrosshairSprite: AssetRef,
                             defaultColor: AssetRef, hitColor: AssetRef)

  /** `CrosshairProfile`. */
  datatype CrosshairProfile = CrosshairProfile(crosshairElementType: CrosshairElementType, crosshairType: CrosshairShape,
                                               crosshairSegments: int, crosshairRadius: real, crosshairSize: real,
                                               crosshairYRatio: real, behaviour: Behaviour, visuals: Visuals)

  // ---------------------------------------------------------------------
  // Spread providers

  /** The two built-in `ISpreadProvider`s. */
  datatype SpreadProvider = MovementSpreadProvider | ShootingSpreadProvider

  /** The magnitudes of the movement and look inputs, when the input
      handler exists. */
  datatype Sticks = Sticks(movementMagnitude: real, lookMagnitude: real)

  /** `GetCurrentSpread`: 3 for shooting; for movement 5 while either input
      is non-zero, 0 otherwise or without an input handler. */
  function CurrentSpread(p: SpreadProvider, input: Option<Sticks>): (r: real)
    ensures p == ShootingSpreadProvider ==> r == 3.0
    ensures p == MovementSpreadProvider ==>
      (r == 5.0 <==> input.Some? && (input.value.movementMagnitude > 0.0 || input.value.lookMagnitude > 0.0))
    ensures p == MovementSpreadProvider ==> r == 5.0 || r == 0.0
  {
    match p
    case ShootingSpreadProvider => 3.0
    case MovementSpreadProvider =>
      if input.Some? && (input.value.movementMagnitude > 0.0 || input.value.lookMagnitude > 0.0) then 5.0 else 0.0
  }

  /** `GetMaxSpread`. */
  function MaxSpread(p: SpreadProvider): real
  {
    match p
    case ShootingSpreadProvider => 30.0
    case MovementSpreadProvider => 20.0
  }

  /** `GetImpulseSpread`. */
  function ImpulseSpread(p: SpreadProvider): real
  {
    match p
    case ShootingSpreadProvider => 15.0
    case MovementSpreadProvider => 10.0
  }

  /** A provider's current spread never exceeds its maximum, nor its impulse
      spread, and is never negative. */
  lemma ProviderBounds(p: SpreadProvider, input: Option<Sticks>)
    ensures 0.0 <= CurrentSpread(p, input) <= ImpulseSpread(p) < MaxSpread(p)
  {
  }

  /** `RegisterCoreProviders(state)`: Shooting and Moving each add their
      provider at the end; Default and Hit add nothing. */
  function Registered(providers: seq<SpreadProvider>, state: CrosshairState): seq<SpreadProvider>
  {
    match state
    case Shooting => providers + [ShootingSpreadProvider]
    case Moving => providers + [MovementSpreadProvider]
    case Default => providers
    case Hit => providers
  }

  /** The providers' current spreads added up, in list order. */
  function TotalSpread(providers: seq<SpreadProvider>, input: Option<Sticks>): real
  {
    if providers == [] then 0.0
    else TotalSpread(providers[..|providers| - 1], input) + CurrentSpread(providers[|providers| - 1], input)
  }

  /** Registering keeps the providers already there and adds exactly one
      provider for Shooting or Moving, whose spread joins the total. */
  lemma RegisteredAppends(providers: seq<SpreadProvider>, state: CrosshairState, input: Option<Sticks>)
    ensures var r := Registered(providers, state);
      && r[..|providers|] == providers
      && (state == Shooting || state == Moving ==> |r| == |providers| + 1)
      && (state == Default || state == Hit ==> r == providers)
      && (state == Shooting ==> r[|providers|] == ShootingSpreadProvider)
      && (state == Moving ==> r[|providers|] == MovementSpreadProvider)
      && (state == Shooting || state == Moving ==>
            TotalSpread(r, input) == TotalSpread(providers, input) + CurrentSpread(r[|providers|], input))
  {
    var r := Registered(providers, state);
    if state == Shooting || state == Moving {
      assert r[..|r| - 1] == providers;
    }
  }

  /** What registration does to the spread the system aims for: a Moving
      registration adds 5 while a stick moves and nothing otherwise, so the
      spread `Start` registers is 5 or 0; a Shooting registration adds 3. */
  lemma RegisteredSpread(providers: seq<SpreadProvider>, input: Option<Sticks>)
    ensures var moving := input.Some? && (input.value.movementMagnitude > 0.0 || input.value.lookMagnitude > 0.0);
      && TotalSpread(Registered(providers, Moving), input) == TotalSpread(providers, input) + (if moving then 5.0 else 0.0)
      && TotalSpread(Registered([], Moving), input) == (if moving then 5.0 else 0.0)
    ensures TotalSpread(Registered(providers, Shooting), input) == TotalSpread(providers, input) + 3.0
    ensures TotalSpread(Registered(providers, Default), input) == TotalSpread(providers, input)
  {
    RegisteredAppends(providers, Moving, input);
    RegisteredAppends(providers, Shooting, input);
    RegisteredAppends([], Moving, input);
  }

  /** The total of built-in providers lies between 0 and 5 per provider. */
  lemma {:induction false} TotalSpreadBounds(providers: seq<SpreadProvider>, input: Option<Sticks>)
    ensures 0.0 <= TotalSpread(providers, input) <= 5.0 * (|providers| as real)
    decreases |providers|
  {
    if providers != [] {
      TotalSpreadBounds(providers[..|providers| - 1], input);
      ProviderBounds(providers[|providers| - 1], input);
    }
  }

  /** `CalculateSpread`'s result: the total clamped to [0, maxSize]. */
  function ClampedSpread(total: real, maxSize: real): (r: real)
    ensures 0.0 <= maxSize ==> 0.0 <= r <= maxSize
    ensures 0.0 <= total <= maxSize ==> r == total
    ensures 0.0 <= maxSize <= total ==> r == maxSize
  {
    Clamp(total, 0.0, maxSize)
  }

  // ---------------------------------------------------------------------
  // Elements

  /** Where an element is anchored: `direction * radius`, with `direction`
      the unit vector at `degrees` (the cosine and sine are the engine's). */
  datatype Anchor = Anchor(degrees: real, radius: real)

  /** The part of an element's `RectTransform` the system reads and writes. */
  datatype Element = Element(anchoredPosition: Anchor, sizeDelta: Vector2, localRotation: Quaternion)

  /** The size of each primary element: the crosshair size shared out
      between the segments of the profile being drawn. */
  function PrimarySize(crosshairSize: real, segments: int): (r: real)
    requires segments > 0
    ensures r * (segments as real) == crosshairSize
    ensures crosshairSize > 0.0 ==> r > 0.0
  {
    crosshairSize / (segments as real)
  }

  /** C#'s integer `1 / n`: the quotient truncated toward zero, so 1 for
      1, -1 for -1 and 0 for every other non-zero divisor. */
  function OneOver(n: int): (q: int)
    requires n != 0
    ensures q * n <= 1 && (q == 0 || q * n == 1)
    ensures q != 0 <==> n == 1 || n == -1
  {
    if n == 1 then 1 else if n == -1 then -1 else 0
  }

  /** A size, or the `DivideByZeroException` an integer division by zero
      throws. */
  datatype SizeOutcome = Sized(size: real) | DivideByZero

  /** The primary element size as `CreatePrimaryCrosshair` computes it:
      `crosshairSize * (1 / defaultProfile.crosshairSegments)`, an integer
      division, by the default profile's count whichever profile is being
      drawn. */
  function PrimarySizeAsWritten(crosshairSize: real, defaultSegments: int): (r: SizeOutcome)
    ensures r == DivideByZero <==> defaultSegments == 0
    ensures defaultSegments > 1 ==> r == Sized(0.0)
    ensures defaultSegments == 1 ==> r == Sized(crosshairSize)
  {
    if defaultSegments == 0 then DivideByZero
    else
      var share := OneOver(defaultSegments) as real;
      assert defaultSegments > 1 ==> crosshairSize * share == 0.0 by {
        if defaultSegments > 1 {
          assert share == 0.0;
        }
      }
      assert defaultSegments == 1 ==> crosshairSize * share == crosshairSize by {
        if defaultSegments == 1 {
          assert share == 1.0;
        }
      }
      Sized(crosshairSize * share)
  }

  /** With more than one segment every primary element as written has size
      zero, where sharing the size out gives each a positive share: eight
      segments of a size-10 crosshair give 0 rather than 1.25. */
  lemma IntegerDivisionVanishes(crosshairSize: real, segments: int)
    requires crosshairSize > 0.0 && segments > 1
    ensures PrimarySizeAsWritten(crosshairSize, segments) == Sized(0.0)
    ensures PrimarySize(crosshairSize, segments) > 0.0
    ensures PrimarySizeAsWritten(10.0, 8) == Sized(0.0) && PrimarySize(10.0, 8) == 1.25
  {
  }

  /** Drawing a four-segment profile while the default profile has no
      segments throws as written, though the drawn profile's own count
      gives each element a quarter of the size. */
  lemma DefaultDivisorThrows(crosshairSize: real)
    ensures PrimarySizeAsWritten(crosshairSize, 0) == DivideByZero
    ensures PrimarySize(crosshairSize, 4) == crosshairSize / 4.0
  {
  }

  /** Segment `i` of `segments`: at `i * (360 / segments)` degrees. */
  function SegmentAngle(i: int, segments: int): real
    requires segments > 0
  {
    (i as real) * (360.0 / (segments as real))
  }

  /** The primary element of segment `i` of a profile, drawn at `size`. */
  function PrimaryElement(p: CrosshairProfile, i: int, size: real): Element
    requires p.crosshairSegments > 0
  {
    Element(Anchor(SegmentAngle(i, p.crosshairSegments), p.crosshairRadius), Square(size), Identity)
  }

  /** The primary elements of the first `n` segments, all drawn at `size`. */
  function Ring(p: CrosshairProfile, size: real, n: nat): (r: seq<Element>)
    requires p.crosshairSegments > 0
    ensures |r| == n
    ensures forall i | 0 <= i < n :: r[i] == PrimaryElement(p, i, size)
  {
    if n == 0 then [] else Ring(p, size, n - 1) + [PrimaryElement(p, n - 1, size)]
  }

  /** Whether a shape puts a primary element on each segment. */
  predicate HasPrimaries(shape: CrosshairShape)
  {
    shape != Classic
  }

  /** What drawing a profile leaves: the listed elements, the unlisted
      secondary dots, and whether the first primary element threw. */
  datatype Drawing = Drawing(elements: seq<Element>, dots: nat, threw: bool)

  /** `CreateCrosshair` as written, drawing `p` while the default profile
      has `defaultSegments` segments: a primary element per segment (and a
      dot after it for DotCircle), each at the size of
      `PrimarySizeAsWritten`; nothing for Classic or a profile without
      segments. The size does not depend on the segment, so a division by
      zero throws at the first element, before anything is listed. */
  function Drawn(p: CrosshairProfile, defaultSegments: int): Drawing
  {
    if !HasPrimaries(p.crosshairType) || p.crosshairSegments <= 0 then Drawing([], 0, false)
    else match PrimarySizeAsWritten(p.crosshairSize, defaultSegments)
      case DivideByZero => Drawing([], 0, true)
      case Sized(size) =>
        Drawing(Ring(p, size, p.crosshairSegments), if p.crosshairType == DotCircle then p.crosshairSegments else 0, false)
  }

  /** The drawing the shared size would give: the same elements, each a
      `PrimarySize` share of the crosshair size, and never a throw. */
  function IntendedDrawing(p: CrosshairProfile): Drawing
  {
    if !HasPrimaries(p.crosshairType) || p.crosshairSegments <= 0 then Drawing([], 0, false)
    else Drawing(Ring(p, PrimarySize(p.crosshairSize, p.crosshairSegments), p.crosshairSegments),
                 if p.crosshairType == DotCircle then p.crosshairSegments else 0, false)
  }

  /** As written, a generated crosshair has one element per segment for
      DotCircle, Circle and TShape and none for Classic, each on its own
      segment with no rotation and the as-written size: zero whenever the
      default profile has more than one segment. It throws exactly when
      there are elements to draw and the default profile has no segments,
      and then lists nothing. */
  lemma ElementCount(p: CrosshairProfile, defaultSegments: int)
    ensures var d := Drawn(p, defaultSegments);
      && (!HasPrimaries(p.crosshairType) || p.crosshairSegments <= 0 ==> d == Drawing([], 0, false))
      && (d.threw <==> HasPrimaries(p.crosshairType) && p.crosshairSegments > 0 && defaultSegments == 0)
      && (d.threw ==> d.elements == [] && d.dots == 0)
      && (HasPrimaries(p.crosshairType) && p.crosshairSegments > 0 && defaultSegments != 0 ==>
            && |d.elements| == p.crosshairSegments
            && forall i | 0 <= i < |d.elements| ::
                 && d.elements[i].anchoredPosition == Anchor(SegmentAngle(i, p.crosshairSegments), p.crosshairRadius)
                 && d.elements[i].sizeDelta == Square(PrimarySizeAsWritten(p.crosshairSize, defaultSegments).size)
                 && d.elements[i].localRotation == Identity)
      && (defaultSegments > 1 ==> forall i | 0 <= i < |d.elements| :: d.elements[i].sizeDelta == Square(0.0))
      && (d.dots > 0 ==> p.crosshairType == DotCircle && d.dots == |d.elements|)
  {
  }

  /** `Start` draws the default profile by its own segment count, so it
      never throws; a single segment takes the full crosshair size and
      more than one draw every element at size zero. */
  lemma DefaultDrawing(p: CrosshairProfile)
    ensures !Drawn(p, p.crosshairSegments).threw
    ensures p.crosshairSegments == 1 && HasPrimaries(p.crosshairType) ==>
      Drawn(p, p.crosshairSegments).elements == [PrimaryElement(p, 0, p.crosshairSize)]
    ensures p.crosshairSegments > 1 ==>
      forall i | 0 <= i < |Drawn(p, p.crosshairSegments).elements| ::
        Drawn(p, p.crosshairSegments).elements[i].sizeDelta == Square(0.0)
  {
  }

  /** With the shared size every element of a profile with segments gets an
      equal, positive share of a positive crosshair size, never a throw. */
  lemma IntendedElementCount(p: CrosshairProfile)
    ensures var d := IntendedDrawing(p);
      && !d.threw
      && (!HasPrimaries(p.crosshairType) || p.crosshairSegments <= 0 ==> d.elements == [])
      && (HasPrimaries(p.crosshairType) && p.crosshairSegments > 0 ==>
            && |d.elements| == p.crosshairSegments
            && forall i | 0 <= i < |d.elements| ::
                 && d.elements[i].anchoredPosition == Anchor(SegmentAngle(i, p.crosshairSegments), p.crosshairRadius)
                 && d.elements[i].sizeDelta.x * (p.crosshairSegments as real) == p.crosshairSize
                 && (p.crosshairSize > 0.0 ==> d.elements[i].sizeDelta.x > 0.0)
                 && d.elements[i].sizeDelta.x == d.elements[i].sizeDelta.y
                 && d.elements[i].localRotation == Identity)
  {
    if HasPrimaries(p.crosshairType) && p.crosshairSegments > 0 {
      var size := PrimarySize(p.crosshairSize, p.crosshairSegments);
      assert forall i | 0 <= i < p.crosshairSegments :: IntendedDrawing(p).elements[i].sizeDelta == Square(size);
    }
  }

  /** Drawing a profile by its own segment count as written and as
      intended puts the same elements in the same places and differs only
      in their size, which agrees iff there is a single segment. */
  lemma DrawnVersusIntended(p: CrosshairProfile)
    requires HasPrimaries(p.crosshairType) && p.crosshairSegments > 0 && p.crosshairSize > 0.0
    ensures var w := Drawn(p, p.crosshairSegments).elements;
      var c := IntendedDrawing(p).elements;
      && |w| == |c| == p.crosshairSegments
      && Drawn(p, p.crosshairSegments).dots == IntendedDrawing(p).dots
      && (forall i | 0 <= i < |w| :: w[i].anchoredPosition == c[i].anchoredPosition && w[i].localRotation == c[i].localRotation)
      && (w == c <==> p.crosshairSegments == 1)
  {
    var w := Drawn(p, p.crosshairSegments).elements;
    var c := IntendedDrawing(p).elements;
    var share := PrimarySize(p.crosshairSize, p.crosshairSegments);
    if p.crosshairSegments > 1 {
      assert w[0].sizeDelta == Square(0.0);
      assert c[0].sizeDelta == Square(share);
      assert share > 0.0;
    } else {
      assert share == p.crosshairSize;
    }
  }

  /** `sizeDelta` of element `i` after `UpdateVisuals`: its base scale plus
      the base scale times the evaluated spread and the size multiplier. */
  function Spread(base: Vector2, evaluatedSpread: real, sizeMultiplier: real): Vector2
  {
    Vector2(base.x + base.x * evaluatedSpread * sizeMultiplier, base.y + base.y * evaluatedSpread * sizeMultiplier)
  }

  /** Whether `UpdateVisuals` resizes the elements of a shape. */
  predicate Resizes(shape: CrosshairShape)
  {
    shape == Circle || shape == DotCircle
  }

  /** The elements after `UpdateVisuals`: only Circle and DotCircle resize,
      each element from its own base scale. */
  function Resized(elements: seq<Element>, baseScale: seq<Vector2>, shape: CrosshairShape,
                   evaluatedSpread: real, sizeMultiplier: real): (r: seq<Element>)
    requires |baseScale| == |elements|
    ensures |r| == |elements|
    ensures !Resizes(shape) ==> r == elements
    ensures forall i | 0 <= i < |r| :: r[i].anchoredPosition == elements[i].anchoredPosition
                                     && r[i].localRotation == elements[i].localRotation
  {
    if Resizes(shape) then
      seq(|elements|, i requires 0 <= i < |elements| =>
            elements[i].(sizeDelta := Spread(baseScale[i], evaluatedSpread, sizeMultiplier)))
    else elements
  }

  /** With a zero evaluated spread, resizing restores every element to its
      base scale; so right after a generation the crosshair is unchanged. */
  lemma ZeroSpreadRestores(elements: seq<Element>, baseScale: seq<Vector2>, shape: CrosshairShape, sizeMultiplier: real)
    requires |baseScale| == |elements|
    requires Resizes(shape)
    ensures forall i | 0 <= i < |elements| :: Resized(elements, baseScale, shape, 0.0, sizeMultiplier)[i].sizeDelta == baseScale[i]
  {
  }

  // ---------------------------------------------------------------------
  // Profiles

  /** The index of the last profile of a shape in a list, if any. */
  function LastMatch(profiles: seq<CrosshairProfile>, shape: CrosshairShape): (r: Option<nat>)
    ensures r.Some? ==> r.value < |profiles| && profiles[r.value].crosshairType == shape
                        && forall j | r.value < j < |profiles| :: profiles[j].crosshairType != shape
    ensures r.None? ==> forall j | 0 <= j < |profiles| :: profiles[j].crosshairType != shape
  {
    if profiles == [] then None
    else if profiles[|profiles| - 1].crosshairType == shape then Some(|profiles| - 1)
    else LastMatch(profiles[..|profiles| - 1], shape)
  }

  /** `AssignCrosshairShapeDefaultData(shape)`: every field of the default
      profile is copied from each profile of that shape in turn, so the last
      one wins; Classic, or no profile of the shape, leaves it alone. */
  function Assigned(defaultProfile: CrosshairProfile, profiles: seq<CrosshairProfile>, shape: CrosshairShape): CrosshairProfile
  {
    if shape == Classic then defaultProfile
    else match LastMatch(profiles, shape)
      case None => defaultProfile
      case Some(i) => profiles[i]
  }

  /** The assigned default is the last profile of the shape, or the old
      default when there is none or the shape is Classic; assigning twice is
      assigning once. */
  lemma AssignedMeaning(defaultProfile: CrosshairProfile, profiles: seq<CrosshairProfile>, shape: CrosshairShape)
    ensures var d := Assigned(defaultProfile, profiles, shape);
      && (shape == Classic ==> d == defaultProfile)
      && ((forall j | 0 <= j < |profiles| :: profiles[j].crosshairType != shape) ==> d == defaultProfile)
      && (d != defaultProfile ==>
            && shape != Classic
            && LastMatch(profiles, shape).Some?
            && d == profiles[LastMatch(profiles, shape).value])
      && (shape != Classic && LastMatch(profiles, shape).Some? ==> d == profiles[LastMatch(profiles, shape).value])
      && Assigned(d, profiles, shape) == d
  {
  }

  // ---------------------------------------------------------------------
  // The system

  /** The spread and the `SmoothDamp` velocity it carries. */
  datatype SpreadState = SpreadState(currentSpread: real, targetSpread: real, velocity: real)

  /** What one frame feeds the system: the sticks, the result of
      `SmoothDamp` towards the target spread (value and new velocity) and
      the spread curve's value at the current spread ratio. */
  datatype CrosshairFrame = CrosshairFrame(input: Option<Sticks>, smoothedSpread: real, smoothedVelocity: real,
                                           evaluatedSpread: real)

  /** `SetState(newState)`: a change of state restarts the animation timer;
      the same state again changes nothing. */
  function WithState(state: CrosshairState, timer: real, newState: CrosshairState): (CrosshairState, real)
  {
    if state != newState then (newState, 0.0) else (state, timer)
  }

  lemma SetStateIdempotent(state: CrosshairState, timer: real, newState: CrosshairState)
    ensures WithState(state, timer, newState).0 == newState
    ensures WithState(state, timer, newState).1 == (if state == newState then timer else 0.0)
    ensures var (s, t) := WithState(state, timer, newState); WithState(s, t, newState) == (s, t)
  {
  }

  /** Every field of the system the model follows, but the base arrays. */
  datatype CrosshairVars = CrosshairVars(defaultProfile: CrosshairProfile, currentProfile: CrosshairProfile,
                                         elements: seq<Element>, secondaryDots: nat,
                                         providers: seq<SpreadProvider>, spread: SpreadState,
                                         animationTimer: real, currentState: CrosshairState)

  class AdvancedCrosshairSystem {
    const targetCrosshairShape: CrosshairShape
    /** `crosshairProfileData`: the profile of each listed asset. */
    const crosshairProfileData: seq<CrosshairProfile>

    var defaultProfile: CrosshairProfile
    var currentProfile: CrosshairProfile
    /** `crosshairImageElements`. */
    var elements: seq<Element>
    /** Secondary dots created so far: made but never listed, so never
        cleared. */
    var secondaryDots: nat
    var spreadProviders: seq<SpreadProvider>
    var spread: SpreadState
    var animationTimer: real
    var currentState: CrosshairState
    var basePositions: array<Anchor>
    var baseScale: array<Vector2>
    var baseRotations: array<Quaternion>

    function State(): CrosshairVars
      reads this
    {
      CrosshairVars(defaultProfile, currentProfile, elements, secondaryDots, spreadProviders, spread,
                    animationTimer, currentState)
    }

    /** The base arrays cover every listed element. They are as long as the
        list after a completed `GenerateCrosshair`; after one that threw,
        the list is empty and the arrays are the earlier ones. */
    predicate Valid()
      reads this
    {
      |elements| <= basePositions.Length && |elements| <= baseScale.Length && |elements| <= baseRotations.Length
    }

    constructor (shape: CrosshairShape, profiles: seq<CrosshairProfile>, defaultProfile: CrosshairProfile)
      ensures Valid()
      ensures targetCrosshairShape == shape && crosshairProfileData == profiles
      ensures State() == CrosshairVars(defaultProfile, defaultProfile, [], 0, [], SpreadState(0.0, 0.0, 0.0), 0.0, Default)
    {
      targetCrosshairShape := shape;
      crosshairProfileData := profiles;
      this.defaultProfile := defaultProfile;
      currentProfile := defaultProfile;
      elements := [];
      secondaryDots := 0;
      spreadProviders := [];
      spread := SpreadState(0.0, 0.0, 0.0);
      animationTimer := 0.0;
      currentState := Default;
      basePositions := new Anchor[0];
      baseScale := new Vector2[0];
      baseRotations := new Quaternion[0];
    }

    /** `Awake` (through `OnAwake`). */
    method Awake()
      requires Valid()
      modifies this
      ensures Valid()
      ensures State() == old(State()).(defaultProfile := Assigned(old(defaultProfile), crosshairProfileData, targetCrosshairShape))
    {
      AssignCrosshairShapeDefaultData(targetCrosshairShape);
    }

    /** `Start`: draw the default profile and begin in the Moving state with
        a movement provider. Drawn by its own segment count, the default
        profile never throws (`DefaultDrawing`). */
    method Start()
      requires Valid()
      modifies this
      ensures Valid()
      ensures var w := old(State());
        var d := Drawn(w.defaultProfile, w.defaultProfile.crosshairSegments);
        var (s, t) := WithState(w.currentState, w.animationTimer, Moving);
        State() == w.(currentProfile := w.defaultProfile, elements := d.elements,
                      secondaryDots := w.secondaryDots + d.dots,
                      providers := Registered(w.providers, Moving), currentState := s, animationTimer := t)
      ensures fresh(basePositions) && fresh(baseScale) && fresh(baseRotations)
      ensures basePositions.Length == baseScale.Length == baseRotations.Length == |elements|
      ensures forall i | 0 <= i < |elements| ::
        basePositions[i] == elements[i].anchoredPosition && baseScale[i] == elements[i].sizeDelta
        && baseRotations[i] == elements[i].localRotation
    {
      currentProfile := defaultProfile;
      RegisterCoreProviders(Moving);
      DefaultDrawing(defaultProfile);
      var ok := GenerateCrosshair(defaultProfile);
      assert ok;
      SetState(Moving);
    }

    /** `Update`. */
    method Update(f: CrosshairFrame)
      requires Valid()
      modifies this
      ensures Valid()
      ensures var w := old(State());
        var total := TotalSpread(w.providers, f.input);
        var maxSize := w.currentProfile.behaviour.maxSize;
        State() == w.(spread := SpreadState(Clamp(f.smoothedSpread, 0.0, maxSize), ClampedSpread(total, maxSize), f.smoothedVelocity),
                      elements := Resized(w.elements, old(baseScale[..|elements|]), w.currentProfile.crosshairType,
                                          f.evaluatedSpread, w.currentProfile.behaviour.sizeMultiplier))
      ensures basePositions == old(basePositions) && baseScale == old(baseScale) && baseRotations == old(baseRotations)
    {
      UpdateCrosshairState(f);
      UpdateVisuals(f.evaluatedSpread);
    }

    method AssignCrosshairShapeDefaultData(shape: CrosshairShape)
      requires Valid()
      modifies this
      ensures Valid()
      ensures State() == old(State()).(defaultProfile := Assigned(old(defaultProfile), crosshairProfileData, shape))
    {
      if shape == Classic {
        return;
      }
      var i := 0;
      while i < |crosshairProfileData|
        invariant 0 <= i <= |crosshairProfileData|
        invariant State() == old(State()).(defaultProfile := defaultProfile)
        invariant basePositions == old(basePositions) && baseScale == old(baseScale) && baseRotations == old(baseRotations)
        invariant defaultProfile == match LastMatch(crosshairProfileData[..i], shape)
                                    case None => old(defaultProfile)
                                    case Some(k) => crosshairProfileData[k]
      {
        assert crosshairProfileData[..i + 1][..i] == crosshairProfileData[..i];
        if crosshairProfileData[i].crosshairType == shape {
          defaultProfile := crosshairProfileData[i];
        }
        i := i + 1;
      }
      assert crosshairProfileData[..i] == crosshairProfileData;
    }

    method RegisterCoreProviders(state: CrosshairState)
      modifies this
      ensures State() == old(State()).(providers := Registered(old(spreadProviders), state))
      ensures basePositions == old(basePositions) && baseScale == old(baseScale) && baseRotations == old(baseRotations)
    {
      match state
      case Default =>
      case Shooting => spreadProviders := spreadProviders + [ShootingSpreadProvider];
      case Moving => spreadProviders := spreadProviders + [MovementSpreadProvider];
      case Hit =>
    }

    /** `GenerateCrosshair(profile)`: clear, draw the profile, record the
        base transforms. A throw while drawing (`ok` false) leaves the list
        cleared and the base arrays as they were. */
    method GenerateCrosshair(profile: CrosshairProfile) returns (ok: bool)
      modifies this
      ensures Valid()
      ensures var d := Drawn(profile, old(defaultProfile).crosshairSegments);
        && ok == !d.threw
        && State() == old(State()).(currentProfile := profile, elements := d.elements,
                                    secondaryDots := old(secondaryDots) + d.dots)
      ensures ok ==> fresh(basePositions) && fresh(baseScale) && fresh(baseRotations)
                     && basePositions.Length == baseScale.Length == baseRotations.Length == |elements|
      ensures ok ==> forall i | 0 <= i < |elements| :: basePositions[i] == elements[i].anchoredPosition
                                                     && baseScale[i] == elements[i].sizeDelta
                                                     && baseRotations[i] == elements[i].localRotation
      ensures !ok ==> basePositions == old(basePositions) && baseScale == old(baseScale) && baseRotations == old(baseRotations)
    {
      ClearCrosshair();
      currentProfile := profile;
      ok := CreateCrosshair();
      if !ok {
        return;
      }
      StoreBaseTransforms();
    }

    /** `CreateCrosshair`: one element per segment of the current profile,
        stopping at the first element that throws. */
    method CreateCrosshair() returns (ok: bool)
      modifies this
      ensures var d := Drawn(old(currentProfile), old(defaultProfile).crosshairSegments);
        && ok == !d.threw
        && State() == old(State()).(elements := old(elements) + d.elements, secondaryDots := old(secondaryDots) + d.dots)
      ensures basePositions == old(basePositions) && baseScale == old(baseScale) && baseRotations == old(baseRotations)
    {
      ok := true;
      var segments := currentProfile.crosshairSegments;
      if segments <= 0 {
        return;
      }
      var outcome := PrimarySizeAsWritten(currentProfile.crosshairSize, defaultProfile.crosshairSegments);
      var primaries := HasPrimaries(currentProfile.crosshairType);
      var i := 0;
      while i < segments
        invariant 0 <= i <= segments
        invariant State() == old(State()).(elements := elements, secondaryDots := secondaryDots)
        invariant basePositions == old(basePositions) && baseScale == old(baseScale) && baseRotations == old(baseRotations)
        invariant primaries && outcome.DivideByZero? ==> i == 0
        invariant elements == old(elements) + (if primaries && outcome.Sized? then Ring(currentProfile, outcome.size, i) else [])
        invariant secondaryDots == old(secondaryDots) + (if currentProfile.crosshairType == DotCircle && outcome.Sized? then i else 0)
      {
        var created := CreateCrosshairElement(i, currentProfile.crosshairType);
        if !created {
          ok := false;
          return;
        }
        i := i + 1;
      }
    }

    /** `CreateCrosshairElement` for segment `i`: a primary element for
        every shape but Classic, and a secondary dot after it for
        DotCircle; `ok` is false when the primary element throws. */
    method CreateCrosshairElement(i: int, shape: CrosshairShape) returns (ok: bool)
      requires currentProfile.crosshairSegments > 0
      modifies this
      ensures var outcome := PrimarySizeAsWritten(old(currentProfile).crosshairSize, old(defaultProfile).crosshairSegments);
        && ok == !(HasPrimaries(shape) && outcome.DivideByZero?)
        && State() == old(State()).(
             elements := if HasPrimaries(shape) && outcome.Sized?
                         then old(elements) + [PrimaryElement(old(currentProfile), i, outcome.size)] else old(elements),
             secondaryDots := if shape == DotCircle && outcome.Sized? then old(secondaryDots) + 1 else old(secondaryDots))
      ensures basePositions == old(basePositions) && baseScale == old(baseScale) && baseRotations == old(baseRotations)
    {
      ok := true;
      match shape {
        case Classic =>
        case DotCircle =>
          ok := CreatePrimaryCrosshair(i);
          if ok {
            CreateSecondaryCrosshair();
          }
        case Circle =>
          ok := CreatePrimaryCrosshair(i);
        case TShape =>
          ok := CreatePrimaryCrosshair(i);
      }
    }

    /** `CreatePrimaryCrosshair`: a listed element on the segment's point of
        the ring, sized `crosshairSize * (1 / defaultProfile.crosshairSegments)`
        with C#'s integer division; a zero divisor throws before the element
        is listed (`ok` false). */
    method CreatePrimaryCrosshair(i: int) returns (ok: bool)
      requires currentProfile.crosshairSegments > 0
      modifies this
      ensures var outcome := PrimarySizeAsWritten(old(currentProfile).crosshairSize, old(defaultProfile).crosshairSegments);
        && ok == outcome.Sized?
        && State() == old(State()).(elements := if ok then old(elements) + [PrimaryElement(old(currentProfile), i, outcome.size)]
                                                else old(elements))
      ensures basePositions == old(basePositions) && baseScale == old(baseScale) && baseRotations == old(baseRotations)
    {
      var outcome := PrimarySizeAsWritten(currentProfile.crosshairSize, defaultProfile.crosshairSegments);
      if outcome.DivideByZero? {
        return false;
      }
      var angle := SegmentAngle(i, currentProfile.crosshairSegments);
      elements := elements + [Element(Anchor(angle, currentProfile.crosshairRadius), Square(outcome.size), Identity)];
      ok := true;
    }

    /** `CreateSecondaryCrosshair`: a dot that is not listed. */
    method CreateSecondaryCrosshair()
      modifies this
      ensures State() == old(State()).(secondaryDots := old(secondaryDots) + 1)
      ensures basePositions == old(basePositions) && baseScale == old(baseScale) && baseRotations == old(baseRotations)
    {
      secondaryDots := secondaryDots + 1;
    }

    /** `ClearCrosshair`: destroy and forget the listed elements. */
    method ClearCrosshair()
      modifies this
      ensures State() == old(State()).(elements := [])
      ensures basePositions == old(basePositions) && baseScale == old(baseScale) && baseRotations == old(baseRotations)
    {
      elements := [];
    }

    /** `StoreBaseTransforms`: fresh arrays as long as the element list,
        copied from it index by index. */
    method StoreBaseTransforms()
      modifies this
      ensures Valid()
      ensures State() == old(State())
      ensures fresh(basePositions) && fresh(baseScale) && fresh(baseRotations)
      ensures basePositions.Length == baseScale.Length == baseRotations.Length == |elements|
      ensures forall i | 0 <= i < |elements| :: basePositions[i] == elements[i].anchoredPosition
                                              && baseScale[i] == elements[i].sizeDelta
                                              && baseRotations[i] == elements[i].localRotation
    {
      var positions := new Anchor[|elements|];
      var scales := new Vector2[|elements|];
      var rotations := new Quaternion[|elements|];
      var i := 0;
      while i < |elements|
        modifies positions, scales, rotations
        invariant 0 <= i <= |elements|
        invariant forall j | 0 <= j < i :: positions[j] == elements[j].anchoredPosition
                                         && scales[j] == elements[j].sizeDelta
                                         && rotations[j] == elements[j].localRotation
      {
        positions[i] := elements[i].anchoredPosition;
        rotations[i] := elements[i].localRotation;
        scales[i] := elements[i].sizeDelta;
        i := i + 1;
      }
      basePositions := positions;
      baseScale := scales;
      baseRotations := rotations;
    }

    /** `UpdateCrosshairState`: aim at the providers' spread and take the
        smoothed value, clamped to [0, maxSize]. */
    method UpdateCrosshairState(f: CrosshairFrame)
      modifies this
      ensures var maxSize := old(currentProfile).behaviour.maxSize;
        State() == old(State()).(spread := SpreadState(Clamp(f.smoothedSpread, 0.0, maxSize),
                                                       ClampedSpread(TotalSpread(old(spreadProviders), f.input), maxSize),
                                                       f.smoothedVelocity))
      ensures 0.0 <= currentProfile.behaviour.maxSize ==> 0.0 <= spread.currentSpread <= currentProfile.behaviour.maxSize
      ensures basePositions == old(basePositions) && baseScale == old(baseScale) && baseRotations == old(baseRotations)
    {
      var target := CalculateSpread(f.input);
      var current := Clamp(f.smoothedSpread, 0.0, currentProfile.behaviour.maxSize);
      spread := SpreadState(current, target, f.smoothedVelocity);
    }

    /** `CalculateSpread`: add up the providers' current spreads, then clamp
        to [0, maxSize]. */
    method CalculateSpread(input: Option<Sticks>) returns (r: real)
      ensures r == ClampedSpread(TotalSpread(spreadProviders, input), currentProfile.behaviour.maxSize)
      ensures 0.0 <= currentProfile.behaviour.maxSize ==> 0.0 <= r <= currentProfile.behaviour.maxSize
    {
      var total := 0.0;
      var i := 0;
      while i < |spreadProviders|
        invariant 0 <= i <= |spreadProviders|
        invariant total == TotalSpread(spreadProviders[..i], input)
      {
        assert spreadProviders[..i + 1][..i] == spreadProviders[..i];
        total := total + CurrentSpread(spreadProviders[i], input);
        i := i + 1;
      }
      assert spreadProviders[..i] == spreadProviders;
      r := Clamp(total, 0.0, currentProfile.behaviour.maxSize);
    }

    /** `UpdateVisuals`: Circle and DotCircle elements take their base scale
        grown by the evaluated spread; other shapes are left as they are. */
    method UpdateVisuals(evaluatedSpread: real)
      requires Valid()
      modifies this
      ensures Valid()
      ensures State() == old(State()).(elements := Resized(old(elements), old(baseScale[..|elements|]), currentProfile.crosshairType,
                                                           evaluatedSpread, currentProfile.behaviour.sizeMultiplier))
      ensures basePositions == old(basePositions) && baseScale == old(baseScale) && baseRotations == old(baseRotations)
    {
      var i := 0;
      while i < |elements|
        invariant 0 <= i <= |elements|
        invariant Valid()
        invariant State() == old(State()).(elements := elements)
        invariant basePositions == old(basePositions) && baseScale == old(baseScale) && baseRotations == old(baseRotations)
        invariant |elements| == |old(elements)|
        invariant forall j | 0 <= j < i :: elements[j] == Resized(old(elements), baseScale[..|elements|], currentProfile.crosshairType,
                                                                  evaluatedSpread, currentProfile.behaviour.sizeMultiplier)[j]
        invariant forall j | i <= j < |elements| :: elements[j] == old(elements)[j]
      {
        var sized := Spread(baseScale[i], evaluatedSpread, currentProfile.behaviour.sizeMultiplier);
        match currentProfile.crosshairType {
          case Classic =>
          case Circle => elements := elements[i := elements[i].(sizeDelta := sized)];
          case DotCircle => elements := elements[i := elements[i].(sizeDelta := sized)];
          case TShape =>
        }
        i := i + 1;
      }
    }

    method SetState(newState: CrosshairState)
      modifies this
      ensures var (s, t) := WithState(old(currentState), old(animationTimer), newState);
        State() == old(State()).(currentState := s, animationTimer := t)
      ensures basePositions == old(basePositions) && baseScale == old(baseScale) && baseRotations == old(baseRotations)
    {
      if currentState != newState {
        currentState := newState;
        animationTimer := 0.0;
      }
    }
  }
}
