# CirclePlacer — a verified model

`CirclePlacer` is a Unity component. It clones a prefab `Count` times around a
circle and turns every clone round the circle a little each frame. This
project models its stateful core in Dafny:

- the validating setters. A null prefab or center object is rejected, and so
  is a negative count or radius. A rejected value keeps the previous one.
- the batch built by `InitializeObjects`. Two arrays, the objects and their
  angles, are reallocated to length `Count`. Each slot gets a fresh clone of
  the prefab and an initial angle. In Evenly mode that angle is `i * 2π/Count`;
  in Sequential mode it is `i * spacing`.
- the re-initialisation state machine. `Awake` builds the first batch and
  records the count, placement mode and spacing. Each `Update` compares the
  current configuration with the recorded one and rebuilds the batch if they
  differ. It then adds the same increment to every angle in place.

Layout:

- `orbit.dfy`, module `Orbit`, holds value-level definitions: the placement
  modes, the direction and its sign, the constants (single-precision π,
  `Deg2Rad`, the 0.001 tolerance), the angle table `InitialAngles`, the motion
  `Advanced`/`Ticks`, and the trigger predicates `ChangedAsWritten` and
  `Changed`, with lemmas about all of them.
- `placer.dfy`, module `Placer`, holds the class `CirclePlacer`. It has the
  source's fields, the two arrays (`objects`, `angles`) and the recorded
  values (`lastCount`, `lastPlacementMode`, `lastSpacing`). The methods are the
  setters, `InitializeObjects`, `Awake`, `Update` and the motion loop
  `Advance`. A ghost counter `initializations` counts rebuilds, so contracts
  can say when one happened. Three scene methods at the end drive a placer
  the way the engine does: construct it, call setters, then `Awake` and
  `Update` frames.

Model choices:

- Angles, spacing, speeds and frame times are `real`. 2π is a positive
  constant; the proofs use nothing else about it.
- Engine objects are opaque handles. `GameObject.Instantiate` yields a fresh
  handle that remembers its prefab.
- Before `Awake` the source's arrays are null. Here they are empty arrays and
  the recorded count is 0, the field's default.
- `placementMode` and `orbitDirection` have no setter in the source; only the
  editor's inspector writes them. Here they are constructor parameters, and no
  method changes them.
- The frame time is a parameter of `Update` rather than a global.

The object invariant is that both arrays have length `lastCount`. That is the
count recorded at the last rebuild, not the current `count`. One might
expect the arrays always to have `count` slots, but the code does not keep
that: the `Count` setter changes `count` between frames, and the arrays
keep their old length until the next `Update` rebuilds. After every `Update`,
`lastCount == count` holds. The model follows the code.

## Model

| member | source | states |
|---|---|---|
| `Orbit.Direction.Sign` | HomeWorkGame/Assets/Scripts/CirclePlacer.cs:88-92 | the direction's value is 1 or -1, and it is 1 exactly for Left |
| `Orbit.Abs` | HomeWorkGame/Assets/Scripts/CirclePlacer.cs:130-132 | the magnitude used by the tolerance tests is non-negative and equals x or -x |
| `Orbit.EvenStep` | HomeWorkGame/Assets/Scripts/CirclePlacer.cs:167 | the Evenly step is positive and count steps make exactly 2π; an empty ring gets step 0 where the source computes an unused infinity |
| `Orbit.InitialAngle` | HomeWorkGame/Assets/Scripts/CirclePlacer.cs:171-176 | definition of the mode switch (`i * step` or `i * spacing`); properties stated by `Orbit.EvenlyConsecutive`, `Orbit.EvenlyWithinCircle` and `Orbit.SequentialIgnoresCount` |
| `Orbit.InitialAngles` | HomeWorkGame/Assets/Scripts/CirclePlacer.cs:163-176 | a fresh angle table has exactly one entry per item |
| `Orbit.EmptyRing` | HomeWorkGame/Assets/Scripts/CirclePlacer.cs:163-169 | with count 0 the angle table is empty |
| `Orbit.EvenlyConsecutive` | HomeWorkGame/Assets/Scripts/CirclePlacer.cs:167-173 | in Evenly mode neighbouring angles differ by exactly 2π/count, so the angles strictly increase |
| `Orbit.EvenlyIgnoresSpacing` | HomeWorkGame/Assets/Scripts/CirclePlacer.cs:171-175 | in Evenly mode the table does not depend on the spacing setting |
| `Orbit.EvenlyWithinCircle` | HomeWorkGame/Assets/Scripts/CirclePlacer.cs:167-173 | in Evenly mode every initial angle lies in [0, 2π) |
| `Orbit.EvenlyClosesCircle` | HomeWorkGame/Assets/Scripts/CirclePlacer.cs:167 | count Evenly steps add up to exactly one full turn |
| `Orbit.SequentialIgnoresCount` | HomeWorkGame/Assets/Scripts/CirclePlacer.cs:174 | in Sequential mode slot i has angle i * spacing, whatever the count |
| `Orbit.Increment` | HomeWorkGame/Assets/Scripts/CirclePlacer.cs:139-143 | the per-frame increment is `orbitSpeed * Deg2Rad * deltaTime` for Left and its negation for Right |
| `Orbit.Advanced` | HomeWorkGame/Assets/Scripts/CirclePlacer.cs:141-143 | one frame's motion keeps the number of angles |
| `Orbit.TicksAccumulate` | HomeWorkGame/Assets/Scripts/CirclePlacer.cs:141-143 | k frames with the same increment move every angle by k times the increment |
| `Orbit.AdvancedKeepsSpacing` | HomeWorkGame/Assets/Scripts/CirclePlacer.cs:141-143 | motion leaves the angular distance between any two items unchanged |
| `Orbit.AdvancedInverse` | HomeWorkGame/Assets/Scripts/CirclePlacer.cs:143 | moving by an increment and then by its negation restores the table |
| `Orbit.DirectionsOpposite` | HomeWorkGame/Assets/Scripts/CirclePlacer.cs:88-92 | Right moves the ring by exactly the negation of Left's increment |
| `Orbit.EmptyTick` | HomeWorkGame/Assets/Scripts/CirclePlacer.cs:141 | with no items a frame changes nothing |
| `Orbit.ChangedAsWritten` | HomeWorkGame/Assets/Scripts/CirclePlacer.cs:129-132 | the trigger as written fires exactly when the count, the mode or the spacing (beyond 0.001) changed; its radius clause is dead |
| `Orbit.AsWrittenIgnoresRadius` | HomeWorkGame/Assets/Scripts/CirclePlacer.cs:129-132 | the as-written trigger fires exactly when the count, the mode or the spacing (beyond 0.001) changed; the radius never matters |
| `Orbit.AsWrittenMissesRadiusChange` | HomeWorkGame/Assets/Scripts/CirclePlacer.cs:130 | a radius edit from 5 to 6 does not fire the as-written trigger but does fire the intended one |
| `Orbit.RadiusChangeTriggers` | HomeWorkGame/Assets/Scripts/CirclePlacer.cs:130 | with the intended trigger, a radius edit alone rebuilds exactly when it exceeds 0.001 |
| `Orbit.SpacingChangeTriggers` | HomeWorkGame/Assets/Scripts/CirclePlacer.cs:132 | a spacing edit alone rebuilds exactly when it exceeds 0.001, under both triggers |
| `Orbit.UnchangedNeverTriggers` | HomeWorkGame/Assets/Scripts/CirclePlacer.cs:129-132 | neither trigger fires against the configuration it recorded |
| `Orbit.AsWrittenImpliesIntended` | HomeWorkGame/Assets/Scripts/CirclePlacer.cs:129-132 | whatever fires the as-written trigger also fires the intended one |
| `Placer.GameObject.Instantiate` | HomeWorkGame/Assets/Scripts/CirclePlacer.cs:183 | a clone records the prefab it was made from |
| `Placer.CirclePlacer.Radius` | HomeWorkGame/Assets/Scripts/CirclePlacer.cs:38-40 | definition of the getter, which returns the radius field itself; its consequence for the trigger is stated by `Placer.CirclePlacer.NeedsReinitAsWritten` and `Orbit.AsWrittenIgnoresRadius` |
| `Placer.CirclePlacer.NeedsReinitAsWritten` | HomeWorkGame/Assets/Scripts/CirclePlacer.cs:129-132 | on the placer's state, the trigger fires exactly when count differs from lastCount, the mode from the recorded mode, or the spacing from the recorded spacing by more than 0.001 |
| `Placer.CirclePlacer.constructor` | HomeWorkGame/Assets/Scripts/CirclePlacer.cs:7-116 | the serialized defaults (count 8, radius 5, speeds 90 and 30, spacing 0.9); no batch and nothing recorded yet |
| `Placer.CirclePlacer.SetPrefab` | HomeWorkGame/Assets/Scripts/CirclePlacer.cs:11-19 | null is rejected and leaves the prefab unchanged; any other value is stored; nothing else changes |
| `Placer.CirclePlacer.SetCount` | HomeWorkGame/Assets/Scripts/CirclePlacer.cs:26-34 | a negative count is rejected and leaves the count unchanged; a non-negative one is stored exactly; the invariant, including count >= 0, is kept |
| `Placer.CirclePlacer.SetRadius` | HomeWorkGame/Assets/Scripts/CirclePlacer.cs:41-49 | a negative radius is rejected and leaves the radius unchanged; a non-negative one is stored |
| `Placer.CirclePlacer.SetCenterObject` | HomeWorkGame/Assets/Scripts/CirclePlacer.cs:77-85 | null is rejected and leaves the center object unchanged; any other value is stored |
| `Placer.CirclePlacer.SetCenter` | HomeWorkGame/Assets/Scripts/CirclePlacer.cs:53-57 | the center is stored; nothing else changes |
| `Placer.CirclePlacer.SetSelfRotateSpeed` | HomeWorkGame/Assets/Scripts/CirclePlacer.cs:60-64 | the self-rotation speed is stored; nothing else changes |
| `Placer.CirclePlacer.SetOrbitSpeed` | HomeWorkGame/Assets/Scripts/CirclePlacer.cs:67-71 | the orbit speed is stored; nothing else changes |
| `Placer.CirclePlacer.SetSpacingBetweenPlaces` | HomeWorkGame/Assets/Scripts/CirclePlacer.cs:105-109 | the spacing is stored; nothing else changes |
| `Placer.CirclePlacer.InitializeObjects` | HomeWorkGame/Assets/Scripts/CirclePlacer.cs:156-186 | both arrays are new and have length count; lastCount == count; each slot holds a new, distinct clone of the prefab; the angles are the mode's initial table; configuration and recorded mode/spacing are untouched |
| `Placer.CirclePlacer.Reinitialize` | HomeWorkGame/Assets/Scripts/CirclePlacer.cs:133-137 | a fresh batch as above, after which the recorded mode and spacing equal the current ones; it also records the radius, which only the intended trigger reads (the source has no such record) |
| `Placer.CirclePlacer.Awake` | HomeWorkGame/Assets/Scripts/CirclePlacer.cs:118-125 | a missing center object defaults to the placer's own transform; a fresh batch is built and its mode and spacing recorded (the radius too, for the intended trigger only); afterwards neither trigger fires |
| `Placer.CirclePlacer.Advance` | HomeWorkGame/Assets/Scripts/CirclePlacer.cs:139-143 | every angle moves by orbitSpeed * Deg2Rad * dir * deltaTime; only the angle table changes |
| `Placer.CirclePlacer.Update` | HomeWorkGame/Assets/Scripts/CirclePlacer.cs:127-154 | rebuilds exactly when the as-written trigger fires; otherwise keeps the arrays and the recorded values; then advances every angle; afterwards lastCount == count and the trigger no longer fires; configuration is unchanged |
| `Placer.CirclePlacer.UpdateIntended` | HomeWorkGame/Assets/Scripts/CirclePlacer.cs:127-154 | the same frame with the radius compared against the radius recorded at the last rebuild |
| `Placer.AwakeThenTwoFrames` | HomeWorkGame/Assets/Scripts/CirclePlacer.cs:118-154 | after Awake and two frames with an unchanged configuration the table is the initial one moved twice, so the second frame did not rebuild; a negative count leaves the default 8 |
| `Placer.RadiusEditAsWritten` | HomeWorkGame/Assets/Scripts/CirclePlacer.cs:127-143 | a radius edit between two frames never rebuilds under the as-written trigger |
| `Placer.RadiusEditIntended` | HomeWorkGame/Assets/Scripts/CirclePlacer.cs:127-143 | under the intended trigger, an accepted radius edit beyond 0.001 rebuilds and restarts the table from the initial angles |

## Left out

- Destroying the previous batch (lines 158-161) is an engine call. The model replaces the batch with new handles and nothing tracks the old ones.
- Positions, look rotations and self-rotation (lines 145-152, 177-183) are single-precision trigonometry and engine transforms. Only the angle each position is computed from is modelled, so the model stores the self-rotation speed and the center object but never reads them.
- The `Center` vector is stored by its setter and never read, by the source as by the model: positions use the center object's position (lines 146-148, 178-180), not `center`.
- Float rounding is not modelled. Angles and all speeds are `real`. π is the exact value of single-precision `Mathf.PI` (13176795 / 2^22), and the tolerance is exactly 0.001 rather than the float nearest to it.
- A null prefab is not modelled. The `prefab` field has no initializer (line 7), so it is null unless the scene assigns it. Then, with `Count > 0`, `Instantiate` at line 183 throws: InitializeObjects stops after lines 163-165, Awake never records the mode and spacing (lines 123-124), and every later Update retries the rebuild and throws again. The model assumes the scene assigns a prefab (the constructor takes a non-null one) and does not model that exception.
- In the source, `2π / Count` with `Count == 0` is infinity, which is never read. The model's step for an empty ring is 0.
- `Debug.Log*` calls are not modelled. Each validating setter returns `accepted` where the source logs a rejection.
- The engine's lifecycle dispatch is not modelled. `Awake` and `Update` are methods a caller invokes, and `Time.deltaTime` is a parameter.
- Inspector writes that bypass the setters are not modelled. This is why `count >= 0` and `radius >= 0` can be part of the object invariant. It also means the placement mode and direction are fixed at construction: the mode clause of the trigger is stated and proved on `Orbit.Changed` / `Orbit.ChangedAsWritten` but never fires in the class.
- Unity's "destroyed object compares equal to null" is not modelled. Every slot of the objects array holds a live handle.
- The getters are not separate members, except `Radius`, whose use in the trigger is the finding below. The rest only return the field.

## Findings

| source | as written | input that shows it | evidently intended | confidence | as-written member | corrected member |
|---|---|---|---|---|---|---|
| HomeWorkGame/Assets/Scripts/CirclePlacer.cs:130 | the radius clause `Abs(radius - Radius) > 0.001` compares the field with its own getter (line 40), so it is always false | after Awake with radius 5, `Radius = 6` (count, mode and spacing unchanged): the next Update does not rebuild | compare the radius against the radius recorded at the last rebuild, as the spacing clause does, so that an edit beyond 0.001 rebuilds the batch | high that the clause is dead; medium on the intent; not executed | `Orbit.AsWrittenMissesRadiusChange` | `Placer.CirclePlacer.UpdateIntended` |

The as-written behaviour is `Orbit.ChangedAsWritten` and `Placer.CirclePlacer.Update`. `Orbit.AsWrittenIgnoresRadius` and `Placer.RadiusEditAsWritten` state its consequence. The correction adds a `lastRadius` field, which `Awake` and `Reinitialize` record; the as-written trigger never reads it. `Orbit.Changed` compares against it, and `Placer.CirclePlacer.UpdateIntended` uses that comparison. `Orbit.RadiusChangeTriggers` and `Placer.RadiusEditIntended` state the intended property. A radius edit still changes the placement in both versions, because each frame recomputes positions from the current radius. A rebuild does more than restart the angle table: it destroys and re-instantiates every clone (lines 158-161, 183). That discards the self-rotation each clone has built up (line 152) and turns every clone to face the center again. In the model, the rebuild's `FreshBatch` likewise yields new handles.
