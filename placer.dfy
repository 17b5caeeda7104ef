/** The CirclePlacer component: its validated configuration, the arrays of
    placed objects and their angles, the values recorded at the last
    initialisation, and the two lifecycle steps the engine drives (Awake once,
    Update every frame). Positions, look rotations and self-rotation are
    engine transforms and are not modelled; only the angle each position is
    computed from is. */
module Placer {
  import opened Orbit

  /** An engine object handle. A prefab asset has no original; a clone made
      by instantiation remembers the prefab it was cloned from. */
  class GameObject {
    const original: GameObject?

    constructor Asset()
      ensures original == null
    {
      original := null;
    }

    constructor Instantiate(prefab: GameObject)
      ensures original == prefab
    {
      original := prefab;
    }
  }

  /** An engine transform handle (the placer's own or the center object). */
  class Transform {
    constructor ()
    {
    }
  }

  datatype Vector3 = Vector3(x: real, y: real, z: real)

  /** Every setting the placer exposes, for stating what an operation leaves
      alone. */
  datatype Config = Config(
    prefab: GameObject,
    count: int,
    radius: real,
    center: Vector3,
    selfRotateSpeed: real,
    orbitSpeed: real,
    centerObject: Transform?,
    orbitDirection: Direction,
    placementMode: PlacementMode,
    spacingBetweenPlaces: real)

  class CirclePlacer {
    /** The transform of the scene object the placer is attached to. */
    const transform: Transform

    var prefab: GameObject
    var count: int
    var radius: real
    var center: Vector3
    var selfRotateSpeed: real
    var orbitSpeed: real
    var centerObject: Transform?
    var orbitDirection: Direction
    var placementMode: PlacementMode
    var spacingBetweenPlaces: real

    var objects: array<GameObject?>
    var angles: array<real>
    var lastCount: int
    var lastPlacementMode: PlacementMode
    var lastSpacing: real
    /** Recorded radius. The source has no such field; it belongs to the
        intended trigger (UpdateIntended), the only reader. Awake and
        Reinitialize record it on both paths, which the as-written trigger
        never notices. */
    var lastRadius: real

    /** How many times the batch of objects has been (re)built. */
    ghost var initializations: nat

    /** The object invariant: the setters keep count and radius non-negative;
        both arrays have the length recorded at the last initialisation, and
        every slot holds an object. */
    ghost predicate Valid()
      reads this, objects
    {
      && count >= 0
      && radius >= 0.0
      && lastCount >= 0
      && objects.Length == lastCount
      && angles.Length == lastCount
      && forall i :: 0 <= i < objects.Length ==> objects[i] != null
    }

    ghost function Settings(): Config
      reads this
    {
      Config(prefab, count, radius, center, selfRotateSpeed, orbitSpeed,
             centerObject, orbitDirection, placementMode, spacingBetweenPlaces)
    }

    /** The radius getter. */
    function Radius(): real
      reads this
    {
      radius
    }

    /** The configuration the trigger compares, as currently set. */
    function Current(): Orbit.Settings
      reads this
    {
      Orbit.Settings(count, Radius(), placementMode, spacingBetweenPlaces)
    }

    /** The configuration recorded at the last initialisation. */
    function Recorded(): Orbit.Settings
      reads this
    {
      Orbit.Settings(lastCount, lastRadius, lastPlacementMode, lastSpacing)
    }

    /** The re-initialisation trigger of Update, as written. */
    predicate NeedsReinitAsWritten()
      reads this
      ensures NeedsReinitAsWritten() <==>
        (count != lastCount || placementMode != lastPlacementMode
         || Abs(spacingBetweenPlaces - lastSpacing) > Tolerance)
    {
      ChangedAsWritten(Recorded(), Current())
    }

    /** The re-initialisation trigger with the radius compared against the
        recorded radius. */
    predicate NeedsReinit()
      reads this
    {
      Changed(Recorded(), Current())
    }

    /** A fresh batch: new arrays of length count, each slot a new, distinct
        clone of the prefab, and the build counted once more. */
    twostate predicate FreshBatch()
      reads this, objects
    {
      && fresh(objects) && fresh(angles)
      && objects.Length == count && lastCount == count
      && (forall i :: 0 <= i < objects.Length ==>
            objects[i] != null && fresh(objects[i]) && objects[i].original == prefab)
      && (forall i, j :: 0 <= i < j < objects.Length ==> objects[i] != objects[j])
      && initializations == old(initializations) + 1
    }

    /** The serialized defaults; the prefab, the center object and the two
        settings without a setter come from the scene. Before Awake no batch
        exists: the arrays are empty and nothing is recorded. */
    constructor (transform: Transform, prefab: GameObject, centerObject: Transform?,
                 orbitDirection: Direction, placementMode: PlacementMode)
      ensures Valid()
      ensures Settings() == Config(prefab, 8, 5.0, Vector3(0.0, 0.0, 0.0), 90.0, 30.0,
                                   centerObject, orbitDirection, placementMode, 0.9)
      ensures this.transform == transform
      ensures objects.Length == 0 && lastCount == 0 && initializations == 0
      ensures lastPlacementMode == Evenly && lastSpacing == 0.0 && lastRadius == 0.0
    {
      this.transform := transform;
      this.prefab := prefab;
      count := 8;
      radius := 5.0;
      center := Vector3(0.0, 0.0, 0.0);
      selfRotateSpeed := 90.0;
      orbitSpeed := 30.0;
      this.centerObject := centerObject;
      this.orbitDirection := orbitDirection;
      this.placementMode := placementMode;
      spacingBetweenPlaces := 0.9;
      objects := new GameObject?[0];
      angles := new real[0];
      lastCount := 0;
      lastPlacementMode := Evenly;
      lastSpacing := 0.0;
      lastRadius := 0.0;
      initializations := 0;
    }

    // -------------------------------------------------------------------
    // Validating setters: a rejected value keeps the previous one
    // -------------------------------------------------------------------

    method SetPrefab(value: GameObject?) returns (accepted: bool)
      requires Valid()
      modifies this`prefab
      ensures Valid()
      ensures accepted <==> value != null
      ensures prefab == if value != null then value else old(prefab)
    {
      if value == null {
        accepted := false;
        return;
      }
      prefab := value;
      accepted := true;
    }

    method SetCount(value: int) returns (accepted: bool)
      requires Valid()
      modifies this`count
      ensures Valid()
      ensures accepted <==> value >= 0
      ensures count == if value >= 0 then value else old(count)
    {
      if value < 0 {
        accepted := false;
        return;
      }
      count := value;
      accepted := true;
    }

    method SetRadius(value: real) returns (accepted: bool)
      requires Valid()
      modifies this`radius
      ensures Valid()
      ensures accepted <==> value >= 0.0
      ensures radius == if value >= 0.0 then value else old(radius)
    {
      if value < 0.0 {
        accepted := false;
        return;
      }
      radius := value;
      accepted := true;
    }

    method SetCenterObject(value: Transform?) returns (accepted: bool)
      requires Valid()
      modifies this`centerObject
      ensures Valid()
      ensures accepted <==> value != null
      ensures centerObject == if value != null then value else old(centerObject)
    {
      if value == null {
        accepted := false;
        return;
      }
      centerObject := value;
      accepted := true;
    }

    method SetCenter(value: Vector3)
      requires Valid()
      modifies this`center
      ensures Valid() && center == value
    {
      center := value;
    }

    method SetSelfRotateSpeed(value: real)
      requires Valid()
      modifies this`selfRotateSpeed
      ensures Valid() && selfRotateSpeed == value
    {
      selfRotateSpeed := value;
    }

    method SetOrbitSpeed(value: real)
      requires Valid()
      modifies this`orbitSpeed
      ensures Valid() && orbitSpeed == value
    {
      orbitSpeed := value;
    }

    method SetSpacingBetweenPlaces(value: real)
      requires Valid()
      modifies this`spacingBetweenPlaces
      ensures Valid() && spacingBetweenPlaces == value
    {
      spacingBetweenPlaces := value;
    }

    // -------------------------------------------------------------------
    // Building the batch
    // -------------------------------------------------------------------

    /** Replaces the batch by count new clones of the prefab and fills the
        angle table by placement mode. Destroying the previous clones is the
        engine's business and is not modelled. */
    method InitializeObjects()
      requires Valid()
      modifies this`objects, this`angles, this`lastCount, this`initializations
      ensures Valid() && FreshBatch()
      ensures angles[..] == InitialAngles(placementMode, count, spacingBetweenPlaces)
    {
      var n, mode, spacing, original := count, placementMode, spacingBetweenPlaces, prefab;
      var newObjects := new GameObject?[n];
      var newAngles := new real[n];
      var step := EvenStep(n);
      for i := 0 to n
        invariant forall k :: 0 <= k < i ==> newAngles[k] == InitialAngle(mode, k, n, spacing)
        invariant forall k :: 0 <= k < i ==>
          newObjects[k] != null && fresh(newObjects[k]) && newObjects[k].original == original
        invariant forall k, l :: 0 <= k < l < i ==> newObjects[k] != newObjects[l]
        invariant unchanged(this)
      {
        var angle := match mode
          case Evenly => i as real * step
          case Sequential => i as real * spacing;
        var clone := new GameObject.Instantiate(original);
        newObjects[i] := clone;
        newAngles[i] := angle;
      }
      objects := newObjects;
      angles := newAngles;
      lastCount := n;
      initializations := initializations + 1;
      assert angles[..] == InitialAngles(placementMode, count, spacingBetweenPlaces);
    }

    /** Rebuilds the batch and records the placement mode and spacing it was
        built with (and the radius, which only the intended trigger reads). */
    method Reinitialize()
      requires Valid()
      modifies this`objects, this`angles, this`lastCount, this`initializations,
               this`lastPlacementMode, this`lastSpacing, this`lastRadius
      ensures Valid() && FreshBatch()
      ensures angles[..] == InitialAngles(placementMode, count, spacingBetweenPlaces)
      ensures Recorded() == Current()
    {
      InitializeObjects();
      lastPlacementMode := placementMode;
      lastSpacing := spacingBetweenPlaces;
      lastRadius := radius;
    }

    /** Defaults the center object to the placer's own transform, then builds
        the first batch. Afterwards neither trigger fires. */
    method Awake()
      requires Valid()
      modifies this
      ensures Valid() && FreshBatch()
      ensures Settings() == old(Settings()).(centerObject :=
                if old(centerObject) == null then transform else old(centerObject))
      ensures angles[..] == InitialAngles(placementMode, count, spacingBetweenPlaces)
      ensures Recorded() == Current()
      ensures !NeedsReinitAsWritten() && !NeedsReinit()
    {
      if centerObject == null {
        centerObject := transform;
      }
      Reinitialize();
      UnchangedNeverTriggers(Current());
    }

    // -------------------------------------------------------------------
    // One frame
    // -------------------------------------------------------------------

    /** The motion loop of a frame: every angle moves by the same increment;
        nothing but the angle table changes. */
    method Advance(deltaTime: real)
      requires Valid() && lastCount == count
      modifies angles
      ensures angles[..] == Advanced(old(angles[..]), Increment(orbitSpeed, orbitDirection, deltaTime))
    {
      var dir := orbitDirection.Sign();
      for i := 0 to count
        invariant forall k :: 0 <= k < i ==>
          angles[k] == old(angles[k]) + Increment(orbitSpeed, orbitDirection, deltaTime)
        invariant forall k :: i <= k < count ==> angles[k] == old(angles[k])
      {
        angles[i] := angles[i] + orbitSpeed * Deg2Rad * dir as real * deltaTime;
      }
      assert angles[..] == Advanced(old(angles[..]), Increment(orbitSpeed, orbitDirection, deltaTime));
    }

    /** A frame as written: rebuild when the as-written trigger fires, then
        move every angle. Afterwards the trigger no longer fires, so a frame
        with an unchanged configuration does not rebuild again. */
    method Update(deltaTime: real)
      requires Valid()
      modifies this, angles
      ensures Valid()
      ensures Settings() == old(Settings())
      ensures old(NeedsReinitAsWritten()) ==>
        FreshBatch() && Recorded() == Current()
        && angles[..] == Advanced(InitialAngles(placementMode, count, spacingBetweenPlaces),
                                  Increment(orbitSpeed, orbitDirection, deltaTime))
      ensures !old(NeedsReinitAsWritten()) ==>
        objects == old(objects) && angles == old(angles)
        && initializations == old(initializations) && Recorded() == old(Recorded())
        && angles[..] == Advanced(old(angles[..]), Increment(orbitSpeed, orbitDirection, deltaTime))
      ensures lastCount == count && !NeedsReinitAsWritten()
    {
      if NeedsReinitAsWritten() {
        Reinitialize();
        UnchangedNeverTriggers(Current());
      }
      Advance(deltaTime);
    }

    /** A frame with the intended trigger, which also reacts to a radius edit
        beyond the tolerance. */
    method UpdateIntended(deltaTime: real)
      requires Valid()
      modifies this, angles
      ensures Valid()
      ensures Settings() == old(Settings())
      ensures old(NeedsReinit()) ==>
        FreshBatch() && Recorded() == Current()
        && angles[..] == Advanced(InitialAngles(placementMode, count, spacingBetweenPlaces),
                                  Increment(orbitSpeed, orbitDirection, deltaTime))
      ensures !old(NeedsReinit()) ==>
        objects == old(objects) && angles == old(angles)
        && initializations == old(initializations) && Recorded() == old(Recorded())
        && angles[..] == Advanced(old(angles[..]), Increment(orbitSpeed, orbitDirection, deltaTime))
      ensures lastCount == count && !NeedsReinit()
    {
      if NeedsReinit() {
        Reinitialize();
        UnchangedNeverTriggers(Current());
      }
      Advance(deltaTime);
    }
  }

  // ---------------------------------------------------------------------
  // The engine driving the component
  // ---------------------------------------------------------------------

  /** A scene that configures a placer, wakes it and runs two frames. The
      second frame does not rebuild: the table is the initial one moved twice.
      A negative count is rejected and the default of 8 stays. */
  method AwakeThenTwoFrames(mode: PlacementMode, direction: Direction, n: int,
                            spacing: real, speed: real, dt1: real, dt2: real)
    returns (table: seq<real>)
    ensures table == Advanced(Advanced(InitialAngles(mode, if n >= 0 then n else 8, spacing),
                                       Increment(speed, direction, dt1)),
                              Increment(speed, direction, dt2))
  {
    var host := new Transform();
    var prefab := new GameObject.Asset();
    var placer := new CirclePlacer(host, prefab, null, direction, mode);
    var _ := placer.SetCount(n);
    placer.SetSpacingBetweenPlaces(spacing);
    placer.SetOrbitSpeed(speed);
    placer.Awake();
    placer.Update(dt1);
    placer.Update(dt2);
    table := placer.angles[..];
  }

  /** A radius edit between two frames, as written: the edit never rebuilds,
      so the table keeps moving from where it was. */
  method RadiusEditAsWritten(r: real, dt: real) returns (table: seq<real>)
    ensures table == Advanced(Advanced(InitialAngles(Evenly, 8, 0.9), Increment(30.0, Left, dt)),
                              Increment(30.0, Left, dt))
  {
    var host := new Transform();
    var prefab := new GameObject.Asset();
    var placer := new CirclePlacer(host, prefab, null, Left, Evenly);
    placer.Awake();
    placer.Update(dt);
    var _ := placer.SetRadius(r);
    placer.Update(dt);
    table := placer.angles[..];
  }

  /** The same scene with the intended trigger: an accepted radius edit beyond
      the tolerance rebuilds the batch, so the table restarts from the initial
      angles. */
  method RadiusEditIntended(r: real, dt: real) returns (table: seq<real>)
    ensures table == if r >= 0.0 && Abs(r - 5.0) > Tolerance
                     then Advanced(InitialAngles(Evenly, 8, 0.9), Increment(30.0, Left, dt))
                     else Advanced(Advanced(InitialAngles(Evenly, 8, 0.9), Increment(30.0, Left, dt)),
                                   Increment(30.0, Left, dt))
  {
    var host := new Transform();
    var prefab := new GameObject.Asset();
    var placer := new CirclePlacer(host, prefab, null, Left, Evenly);
    placer.Awake();
    placer.UpdateIntended(dt);
    var _ := placer.SetRadius(r);
    placer.UpdateIntended(dt);
    table := placer.angles[..];
  }
}
