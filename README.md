# star3map / PlanetFinder core in Dafny

This project models the non-rendering core of the star3map iOS planetarium in
Dafny and proves properties of it. It covers two source files:

- `star3map.cpp`, the star and globe views. The model covers:
  - the fade lifecycle of constellation lines and labels (`DynamicRenderable`);
  - the two annotation maps, with their per-frame create-or-mark-seen protocol and the aging/purge pass;
  - the non-overlapping label layout (`DrawNonOverlappingStrings`);
  - the magnitude lookup tables for star sprites;
  - the satellite draw order and cap of the globe view;
  - the latitude clamp of a drag;
  - the index buffer of the globe mesh.
- `engine/PlanetFinderEngine.cpp`, the solar-system engine. The model covers:
  - the planet table;
  - the time base (`GetSecondsSince2000`, the day count);
  - the moon's drifting orbital elements and its longitude folding;
  - the barycentre that places the sun;
  - the ten-sprite list that `buildSolarSystemList` hands to the star view.

Modelling choices:

- Floating point is modelled as `real`. A C cast to `int` is `Numbers.Trunc`, which rounds toward zero.
- Times are passed in as `now` or `clock` parameters instead of being read from the clock.
- Functions whose source is not shown are parameters:
  - `StringBounds` and `Intersect` (the `NonOverlappingStrings` constants);
  - planet propagation, trigonometry and the moon perturbation series (`SolarSystem.Ephemeris`).
- Code that changes state step by step is imperative Dafny:
  - `age()`/`seen()` mutate a `Fade.DynamicRenderable` object in place;
  - the aging passes and the constellation pass reassign the two map fields of `Annotations.AnnotationStore`;
  - the layout methods append to the `obs`/`reserved` sequences;
  - the satellite sort works on an index array;
  - the engine's list builder fills a position array and appends sprites.

  Each such method is proved against a specification function, such as `Fade.Aged`, `Annotations.AgedEntries`, `SphereMesh.IndicesUpTo` or `SolarSystem.SolarSystemList`. The lemmas about that function state what the source promises.

Modules: `Numbers` (truncation, clamps, vectors), `Fade`, `Annotations`, `Layout`,
`SpriteTables`, `Satellites`, `ViewInput`, `SphereMesh`, `TimeBase`, `SolarSystem`.

## Model

| member | source | states |
|---|---|---|
| `Numbers.Trunc` | engine/PlanetFinderEngine.cpp:294 | a float-to-int conversion rounds toward zero: floor for non-negative values, ceiling for negative ones |
| `Numbers.TruncOdd` | engine/PlanetFinderEngine.cpp:294 | truncation commutes with negation |
| `Numbers.TruncMonotone` | star3map.cpp:163 | truncation never reverses the order of two values |
| `Numbers.ClampReal` | star3map.cpp:673 | `max(lo, min(hi, x))` lies in [lo, hi], is `x` inside the range and the nearer bound outside it |
| `Numbers.ClampInt` | star3map.cpp:163 | the same for integers |
| `Numbers.ClampRealMonotone` | star3map.cpp:681 | clamping never reverses the order of two values |
| `Fade.NewFader` | star3map.cpp:457-461 | a new annotation is in RampUp with alpha 0, its time stamp at creation; the corrected constructor also sets `lastSeen` to the creation time |
| `Fade.FaderAsWritten` | star3map.cpp:457-461 | the constructor as written: same as above, except that `lastSeen` holds whatever indeterminate value it was given |
| `Fade.SeenOnlyTouchesLastSeen` | star3map.cpp:504-506 | `seen()` sets `lastSeen` to now and changes no other field |
| `Fade.AgeKeepsIdentity` | star3map.cpp:471-502 | `age()` never changes direction, look direction, limit, colour, duration or `lastSeen` |
| `Fade.AgeStepsForward` | star3map.cpp:471-502 | one `age()` moves at most one state forward along RampUp, Hold, RampDown, Terminate; Invalid stays Invalid |
| `Fade.TerminateAbsorbs` | star3map.cpp:497-498 | aging a terminated annotation changes nothing |
| `Fade.RampUpStep` | star3map.cpp:475-482 | RampUp: alpha is elapsed/RampUpTime times the base alpha; past the ramp the state is Hold, the time stamp advances by exactly RampUpTime and alpha is the full base alpha |
| `Fade.HoldStep` | star3map.cpp:483-487 | Hold: alpha unchanged; once `delta > duration` the state is RampDown and the time stamp advances by `duration`, otherwise nothing changes |
| `Fade.RampDownStep` | star3map.cpp:489-496 | RampDown: alpha is 1 - elapsed/RampDownTime times the base alpha; past the ramp the state is Terminate with alpha 0 and the time stamp advances by RampUpTime (as written, not RampDownTime) |
| `Fade.AgeKeepsAlphaInRange` | star3map.cpp:471-502 | with the time stamp not in the future and a non-negative base alpha, every aged alpha lies in [0, color.w] and the time stamp stays not in the future |
| `Fade.RampUpAlphaRises` | star3map.cpp:475-482 | during RampUp, a later `age()` never yields a smaller alpha |
| `Fade.RampDownAlphaFalls` | star3map.cpp:489-496 | during RampDown, a later `age()` never yields a larger alpha |
| `Fade.NewFaderOnTimeline` | star3map.cpp:457-461 | a new annotation starts on its timeline (time stamp equals creation time) |
| `Fade.AgeAlongTimeline` | star3map.cpp:471-502 | aging keeps the time stamp at the start of the current phase, and Terminate is reached only after RampUpTime + duration + RampDownTime have passed since creation |
| `Fade.DynamicRenderable.constructor` | star3map.cpp:457-461 | the object's fields are those of `Fade.NewFader` |
| `Fade.DynamicRenderable.Age` | star3map.cpp:471-502 | the in-place `age()` leaves exactly the fields `Fade.Aged` gives for the old fields |
| `Fade.DynamicRenderable.Seen` | star3map.cpp:504-506 | the in-place `seen()` only sets `lastSeen` |
| `Annotations.PurgeRule` | star3map.cpp:527-544 | after the aging pass, an entry is kept iff its aged state is not Terminate or it was seen less than 1 s ago; kept entries are the aged originals under the same key; no key is added |
| `Annotations.LiveEntriesSurvive` | star3map.cpp:539 | an entry that is not terminated after aging is never purged |
| `Annotations.AgeEntries` | star3map.cpp:535-543 | the loop over the copied map rebuilds exactly the aged, surviving entries |
| `Annotations.TouchRule` | star3map.cpp:814-826 | create-or-mark-seen adds exactly the candidate's key; an existing entry changes only `lastSeen` (its fade is not restarted); other entries are untouched |
| `Annotations.LinesPassRule` | star3map.cpp:810-821 | after the constellation pass, the line map holds the old keys plus exactly the in-view constellations; those already present are only marked seen, new ones start a fresh fade (colour (.5,.5,.7,.5), hold 4 s) at the constellation centre, the rest are unchanged |
| `Annotations.LabelsPassRule` | star3map.cpp:810-826 | after the constellation pass, the label map holds the old names plus exactly the names of the in-view constellations; those already present are only marked seen; new ones start a fresh fade (colour (.5,.5,.7,.8), hold 2.5 s, limit 0, the pass's look direction) at the centre of the first in-view constellation with that name; the rest are unchanged |
| `Annotations.AnnotationStore.constructor` | star3map.cpp:525 | both maps start empty |
| `Annotations.AnnotationStore.AgeDynamicLabels` | star3map.cpp:527-544 | when aging is paused the labels are unchanged; otherwise they become `AgedEntries` of the old labels; no label is added |
| `Annotations.AnnotationStore.AgeDynamicLines` | star3map.cpp:579-596 | the same for the line groups |
| `Annotations.AnnotationStore.TouchLabel` | star3map.cpp:822-826 | create the label if absent, otherwise mark it seen |
| `Annotations.AnnotationStore.TouchLines` | star3map.cpp:816-820 | create the line group if absent, otherwise mark it seen |
| `Annotations.AnnotationStore.TouchConstellations` | star3map.cpp:810-828 | the constellation loop leaves the maps `LinesAfterPass` / `LabelsAfterPass` describe |
| `Annotations.AnnotationStore.DrawDynamicLabels` | star3map.cpp:516-552 | the loop renders every label in the map's order and leaves the committed boxes exactly `DrawnLabels` of the old ones: a label that has not terminated is committed iff `DrawString` accepts it at that point; the reserved boxes are unchanged and the layout stays valid |
| `Annotations.DrawnLabelsFacts` | star3map.cpp:516-552 | rendering the labels only appends to the committed boxes, at most one per label, each the box of a label that has not terminated; with a symmetric box test the committed boxes stay pairwise disjoint |
| `Annotations.AnnotationStore.OfferClosestLabel` | star3map.cpp:945-954 | with a positive dot product, an existing label is marked seen, and a missing one is created (white, 1 s hold) only if `CanDrawString` accepts it; otherwise the labels are unchanged |
| `Annotations.NeverSeenLabelIsPurged` | star3map.cpp:539 | with `lastSeen` set at creation, an annotation never seen again is purged in the aging pass where it terminates |
| `Annotations.NeverSeenLabelLingersAsWritten` | star3map.cpp:457-461 | with the constructor as written, an indeterminate `lastSeen` can keep a terminated, never-seen label alive |
| `Layout.NonOverlappingStrings.constructor` | star3map.cpp:366-368 | a frame's layout starts with no committed and no reserved boxes |
| `Layout.NonOverlappingStrings.CanDrawString` | star3map.cpp:370-381 | true iff the direction passes the view gate and its box meets no committed box; reserved boxes are not consulted |
| `Layout.NonOverlappingStrings.ReserveString` | star3map.cpp:383-389 | a label that passes the gate appends its box to the reserved list; nothing else changes and the committed boxes stay pairwise disjoint |
| `Layout.NonOverlappingStrings.DrawString` | star3map.cpp:391-411 | a label is committed iff it passes the gate, its box is not empty and meets no committed and no reserved box; committed boxes stay pairwise disjoint |
| `Layout.NonOverlappingStrings.ClearReserved` | star3map.cpp:962 | clearing the reserved list leaves the committed boxes, still pairwise disjoint |
| `Layout.AppendKeepsDisjoint` | star3map.cpp:400-411 | with a symmetric intersection test, appending a box that meets none of a pairwise-disjoint list keeps it pairwise disjoint |
| `Layout.AsymmetricTestBreaksDisjointness` | star3map.cpp:400-404 | without symmetry that guarantee fails, because only `Intersect(ob, obs[i])` is asked |
| `SpriteTables.MagIndex` | star3map.cpp:163 | the clamped table index is always within the seven-entry tables |
| `SpriteTables.GetSpriteDiameter` | star3map.cpp:160-165 | the diameter is an element of the table, between 0.5 and 2.0 |
| `SpriteTables.GetSpriteColorScale` | star3map.cpp:167-172 | the colour scale is an element of the table, between 0.1 and 1.0 |
| `SpriteTables.MagIndexBands` | star3map.cpp:163 | magnitudes below 1 (negative ones included) select entry 0, 6 and above select entry 6, [k, k+1) selects entry k |
| `SpriteTables.MagIndexMonotone` | star3map.cpp:163 | a fainter magnitude never selects an earlier entry |
| `SpriteTables.TablesNonIncreasing` | star3map.cpp:160-172 | both tables are non-increasing |
| `SpriteTables.DiameterNonIncreasing` | star3map.cpp:162-165 | a fainter star is never drawn larger |
| `SpriteTables.ColorScaleNonIncreasing` | star3map.cpp:169-172 | a fainter star is never drawn brighter |
| `Satellites.SortByDescendingDot` | star3map.cpp:1061-1062 | the sort leaves a permutation of the index vector in non-increasing order of `dir·pos` |
| `Satellites.InsertAt` | star3map.cpp:1061-1062 | one insertion step extends the sorted prefix by one entry and permutes the array |
| `Satellites.SatelliteDrawOrder` | star3map.cpp:1054-1068 | exactly `min(app_maxSatellites, n)` distinct satellites are drawn (none when that is not positive), in non-increasing dot order, and none left out lies further along the direction than one drawn |
| `ViewInput.DraggedPolar` | star3map.cpp:673 | a vertical drag moves latitude/phi by `-dy` inside [-90, 90] and stops at the nearer pole outside it |
| `ViewInput.DraggedPolarMonotone` | star3map.cpp:681 | dragging further down never leaves the view higher |
| `ViewInput.OppositeDragUndoes` | star3map.cpp:723 | a drag that stays in range is undone by the opposite drag |
| `ViewInput.OvershootIsLost` | star3map.cpp:731 | a drag clamped at the pole is not undone by the opposite drag |
| `SphereMesh.BuildSphereIndices` | star3map.cpp:239-252 | the loop produces 18·36·6 indices, two triangles per grid cell in row-major order, each a vertex of the 19·37 grid and so below 65536 |
| `SphereMesh.IndicesInRange` | star3map.cpp:240-252 | every index of the first q cells names a grid vertex |
| `SphereMesh.CellInRange` | star3map.cpp:244-250 | the six corners of an in-grid cell are grid vertices |
| `SphereMesh.CellTrianglesProper` | star3map.cpp:243-250 | both triangles of a cell have three distinct corners and share the cell's diagonal |
| `TimeBase.WholeHourBiasIsExact` | engine/PlanetFinderEngine.cpp:289-297 | a whole number of hours of bias shifts the seconds count by exactly 3600 s each; no bias gives the truncated clock minus the epoch |
| `TimeBase.BiasErrorBelowOneSecond` | engine/PlanetFinderEngine.cpp:294 | a fractional bias loses less than one second, toward zero |
| `TimeBase.OppositeBiasesCancel` | engine/PlanetFinderEngine.cpp:294-296 | opposite biases shift the count by opposite amounts |
| `TimeBase.SecondsMonotoneInClock` | engine/PlanetFinderEngine.cpp:291-296 | the count never runs backwards while the clock moves forward |
| `TimeBase.DaysOfWholeDays` | engine/PlanetFinderEngine.cpp:135 | whole days of seconds give a whole day count, and one day of seconds adds one day |
| `SolarSystem.PlanetTable` | engine/PlanetFinderEngine.cpp:143-164 | the table holds the nine planets with their textures |
| `SolarSystem.PlanetTableOrder` | engine/PlanetFinderEngine.cpp:145-164 | Mercury to Pluto in order, Earth at index 2 with unit mass, only Saturn at scale 2, semi-major axes increasing, masses and periods positive |
| `SolarSystem.MoonElements` | engine/PlanetFinderEngine.cpp:177-189 | the moon's node is N, its longitude of perihelion is N + w, with the fixed mass, period and mean longitude |
| `SolarSystem.MoonElementsDrift` | engine/PlanetFinderEngine.cpp:180-181 | the node regresses by 0.0529538083° and the perigee advances by 0.1643573223° per day; perihelion longitude is 443.1862 + 0.111403514·d |
| `SolarSystem.FoldLongitude` | engine/PlanetFinderEngine.cpp:200-204 | for an atan2 angle in [-π, π] the folded longitude lies in [0, 2π) |
| `SolarSystem.FoldIsNormalisation` | engine/PlanetFinderEngine.cpp:198-204 | when the angle and the sign of x agree as they do for atan2, folding adds 2π to negative angles and changes nothing else |
| `SolarSystem.FoldNeverWrapsDown` | engine/PlanetFinderEngine.cpp:204 | the last adjustment never applies |
| `SolarSystem.BarycentreAtOrigin` | engine/PlanetFinderEngine.cpp:218-228 | the sun is placed so that the mass moment of the sun plus the nine planets is zero |
| `SolarSystem.SunFollowsEarth` | engine/PlanetFinderEngine.cpp:222-228 | Earth's own term is in the sum: moving Earth changes the moment by Earth's mass times the move |
| `SolarSystem.MomentDifference` | engine/PlanetFinderEngine.cpp:222-226 | changing one position changes the accumulated moment by that position's change times its mass |
| `SolarSystem.MassMomentPrefix` | engine/PlanetFinderEngine.cpp:222-226 | the accumulated moment depends only on the positions already visited |
| `SolarSystem.SlotSprites` | engine/PlanetFinderEngine.cpp:229-282 | the emitted prefix has one sprite per slot, slot k-1 at position k |
| `SolarSystem.SolarSystemListShape` | engine/PlanetFinderEngine.cpp:229-282 | ten sprites: "Sun" first with the sun texture, "Moon" in Earth's slot with the moon's texture, the other planets in table order, no "Earth", all white with magnitude 0 |
| `SolarSystem.SolarSystemListScales` | engine/PlanetFinderEngine.cpp:239-273 | sprite scale is 5 for the sun and the moon, 4 for Saturn, 2 for the other planets |
| `SolarSystem.PlanetFinderEngine.constructor` | engine/PlanetFinderEngine.cpp:113-117 | construction sets up the planet table and the sun texture |
| `SolarSystem.PlanetFinderEngine.Init` | engine/PlanetFinderEngine.cpp:129-136 | longitude and latitude in radians, the seconds count of `GetSecondsSince2000`, and days as seconds / 86400 |
| `SolarSystem.PlanetFinderEngine.BuildSolarSystemList` | engine/PlanetFinderEngine.cpp:173-283 | re-initialises the moon with the day's elements and returns exactly `SolarSystemList` for the current planets and day |
| `SolarSystem.PlanetFinderEngine.CorrectedMoonPosition` | engine/PlanetFinderEngine.cpp:193-212 | the moon position after folding and perturbation corrections |
| `SolarSystem.PlanetFinderEngine.PlanetPositions` | engine/PlanetFinderEngine.cpp:218-226 | the first loop yields every planet's position and their mass moment |
| `SolarSystem.PlanetFinderEngine.EmitSprites` | engine/PlanetFinderEngine.cpp:229-282 | the second loop emits exactly the slot sprites for slots -1 to 8 |

## Left out

- Rendering is not modelled. This covers drawing calls, matrices, projection and culling, textures as images, button UI, the colour set before each label, and `DrawDynamicLines`, which only issues drawing calls. `DrawDynamicLabels` is modelled for its effect on the layout; the order in which it offers labels follows `std::map` key order, which the model takes as the `order` parameter instead of fixing it.
- The background TLE download thread and the file hand-off are I/O and concurrency. Satellite position propagation is not part of this model; positions are inputs.
- The selection of the closest star, planet or satellite label (which candidate becomes `dynamicLabel`) is left out. It is a floating-point arg-max over rendering inputs. `Annotations.AnnotationStore.OfferClosestLabel` takes the chosen candidate as a parameter.
- The horizontal part of a drag (`ModuloRange` on longitude/theta) and the inertia decay are left out, because `ModuloRange` is not part of this model.
- Each aging pass reads the clock once per entry in the source (`age()` calls `GetSeconds()` itself). The model uses one instant `now` per pass.
- `Annotations.AgeEntries` visits the keys in an unspecified order instead of `std::map` order. The result does not depend on the order, because every key is distinct.
- `LinesId` stands in for the `Lines*` key; it is the constellation's index in the list, which identifies the same object.
- The sort uses insertion sort instead of `std::sort`. Only the contract matters: a permutation in non-increasing key order. Ties may be ordered differently from `std::sort`. `Satellites.SatelliteDrawOrder` states the set property (no undrawn satellite lies further along the direction) rather than a particular tie order.
- Engine inputs:
  - `Planet::position`, `MoonPerturbations`, `latLongToUnitVector`, `acos`, `atan2`, vector length and `Normalize` enter as functions of `SolarSystem.Ephemeris`;
  - `ToRadians` is taken as degrees·π/180;
  - the default Planet scale of 1.0 is assumed, because the Planet class is not part of this model;
  - planet textures are constructor inputs.
- `SolarSystem.InitPlanet`: the body of `Planet::Init` is not part of this model; it is assumed to replace only the name and the orbital elements and to keep the scale and the texture.
- `planets[i] != &earth` is modelled as `i != EarthIndex`. The nine table entries address distinct member objects and Earth is at index 2.
- The epoch resolution through `timegm`/`mktime` and `setenv("TZ")` is platform calendar code. `year2000Time` is an input.
- `TimeBase.SecondsSince2000` uses unbounded integers, so 32-bit overflow is not modelled: `int t = GetTime();` (engine/PlanetFinderEngine.cpp:291) narrows the Unix-time clock reading to `int`, which overflows from 2038-01-19 on.
- Floating-point rounding is not modelled. `SolarSystem.BarycentreAtOrigin` holds exactly over the reals; with `float` it holds up to rounding.
- engine/BrightStarCatalog.h, iphone/Classes/star3mapAppDelegate.h and iphone/app.h are not part of this model: they are declarations and platform glue.

## Findings

| source | as written | input that shows it | evidently intended | confidence | as-written member | corrected member |
|---|---|---|---|---|---|---|
| star3map.cpp:457-461 | the `DynamicRenderable` constructor never assigns `lastSeen`, so a label created and never seen again keeps an indeterminate `lastSeen`, which the purge test at line 539 reads | a label created at time 0 with a 1 s hold, aged at 1, 2 and 4, with `lastSeen` holding 100: it terminates at 4 yet `4 - 100 < 1` keeps it | `lastSeen` starts at the creation time, so a never-seen annotation is purged once it terminates | not executed | `Fade.FaderAsWritten`, `Annotations.NeverSeenLabelLingersAsWritten` | `Fade.NewFader`, `Annotations.NeverSeenLabelIsPurged` |
