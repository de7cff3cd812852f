# Compositions scene, modelled in Dafny

The scene is a set of A-Frame components. Architectural "compositions" stand on a
terrain around a fixed camera. The `light-frustum` system re-tests every
registered entity against the camera frustum at most once per throttle
interval. An `offscreen-respawn` entity that leaves view is moved to a random
place outside the view cone and out of the frustum, and its composition is
regenerated. The `random-compositions` driver places the compositions in an
annulus around the camera, sweeps them periodically for ones that came too
close, and turns their Pamats bases on scroll. The `fixed-camera` component
drives a "breathing" terrain displacement and a yaw from the mouse wheel. The
`ball-shooter` component shoots balls along a Bézier arc and scores each
composition it hits once.

The project has one module per source component:

- `geometry.dfy` (`Geometry`): vectors, clamps and lerps, the frustum as planes
  with THREE's `intersectsSphere`, box spheres, and the random-sample oracle.
  `Math.sqrt`, `Math.cos` and `Math.sin` enter as a `MathLib` value; `sqrt` is
  characterised by `IsSqrt`, and distance comparisons become comparisons of
  squares.
- `visibility.dfy` (`Visibility`): the `light-frustum` system (`LightFrustum`)
  and the `offscreen-respawn` component (`OffscreenRespawn`). One class
  covers both copies of the component: `version` is `Current` for
  Components/random-compositions.js and `Backup` for
  Components/random-compositions-frustum-backup.js.
- `compositions.dfy` (`Compositions`): the `random-compositions` driver of the
  same two files, with the Pamats bases and their scroll rotation.
- `compositions_new2.dfy` (`CompositionsNew2`): the time-based driver of
  Components/random-compositions-new2.js.
- `fixed_camera.dfy` (`Camera`): the wheel state machine and the tick easing.
- `ball_shooter.dfy` (`Shooter`): hit de-duplication, ids, the arc, progress
  and the countdown.

`Math.random` is a finite sequence of samples in [0, 1). Each method takes one
and returns the unused suffix. A loop the source does not bound reports that
the samples ran out instead of claiming to terminate. When the samples run
out while a composition is being placed or repositioned, the model leaves
that composition exactly as it was. A respawn that runs out keeps what its
attempts already did: the entity stands at the last attempted candidate, or
where it was if no attempt was made. `Date.now()` is a parameter (`now`), and so are the scene-graph's
world transforms (`OffscreenRespawn.world`). The camera is a `Camera` value.
So are the camera's position attribute and whether a camera or terrain element
was found.

The model follows these details of the code:

- An empty subtree gets a sphere of radius 0.5 (random-compositions.js:502-505).
- A direction exactly on the cone limit is accepted, because only
  `dot > cosLimit` is rejected (random-compositions.js:579).
- The tracker tests for the camera before the throttle
  (random-compositions.js:13-15). A camera-less tick therefore never touches
  `_last`.
- `camFwd` is not a copy: it is the scratch vector `_tmpV1`
  (random-compositions.js:563). `__getWorldSphere` writes into `_tmpV1` in
  three of its four tiers (lines 484, 492, 503). With a fixed radius, which
  every composition has, this is the entity's world position. So after the
  first counted attempt, each cone test is taken against the previous
  candidate's position, not the camera's forward vector (lines 579 and 611).
  The backup copy has the same loop (random-compositions-frustum-backup.js:425,
  440, 461).
- The fallback in random-compositions.js is one of eight planar directions at
  `max(30, maxD)` (lines 615-638); it does not read `camFwd`. The backup copy's
  fallback is `camPos - camFwd * maxD` (random-compositions-frustum-backup.js:467).
  By then `camFwd` holds what the last attempt left in `_tmpV1`, not the
  camera's forward vector. The "## Findings" section gives both alias effects
  with inputs.
- Cone and planar-distance rejections do not count as attempts
  (random-compositions.js:579, 592-594). The attempt loop is therefore not
  bounded. The annulus do/while of random-compositions.js and of the backup is
  not bounded either. Only random-compositions-new2.js caps it, at 50.
- `_setupBoundsOnce` caches the first mesh sphere again on every `model-loaded`
  or `object3dset` event (random-compositions.js:453-456, 468-480). It does not
  cache just once.
- `pamatObjects` keeps the entries of bases that a regeneration removed from
  the scene (random-compositions.js:137-139, 230-234).

## Model

| member | source | states |
|---|---|---|
| Geometry.Clamp | Components/random-compositions.js:584 | THREE.MathUtils.clamp: the result lies in [lo, hi] when lo <= hi, is v when v is inside, and is always one of lo, hi, v |
| Geometry.Lerp | Components/random-compositions.js:581 | THREE.MathUtils.lerp with t in [0, 1) lies between the band's two ends and starts at the first |
| Geometry.Max3Bounds | Components/random-compositions.js:495 | Math.max of three values is at least each of them and equals one of them |
| Geometry.SqrtCompare | Components/random-compositions.js:587-592 | `Math.sqrt(d2) < c` holds exactly when SqrtBelow(d2, c), and `> c` exactly when SqrtAbove(d2, c), for every sqrt meeting IsSqrt |
| Geometry.NormalizeUnit | Components/random-compositions.js:646 | Vector3.normalize of a non-zero vector gives length 1 and a positive multiple of the input |
| Geometry.BoxSphereContainsBox | Components/random-compositions.js:506-508 | Box3.getBoundingSphere contains every point of a non-empty box, and its radius is non-negative |
| Geometry.Pick | Components/random-compositions.js:629 | Math.floor(Math.random() * n) is an index below n |
| Visibility.WorldSphere | Components/random-compositions.js:482-510 | the tiers of __getWorldSphere in order: fixed radius at the world position; else the cached sphere moved by the mesh matrix and scaled by the largest world-scale component; else radius 0.5 at the world position for an empty box; else exactly Box3.getBoundingSphere of the box, which contains the whole box; the same tiers in the backup copy (random-compositions-frustum-backup.js:374-402) |
| Visibility.AliasIsCentre | Components/random-compositions.js:482-510 | what __getWorldSphere leaves in `_tmpV1` is the centre of the sphere it returns in the fixed-radius, cached and empty-box tiers; in the box tier `_tmpV1` is left as it was |
| Visibility.ReferenceIsPreviousPosition | Components/random-compositions.js:563-611 | `camFwd` is `_tmpV1` (line 563) and each counted attempt calls __getWorldSphere (line 611): with a fixed radius, the cone test of every counted attempt after the first is taken against the previous candidate's world position |
| Visibility.RawDirection | Components/random-compositions.js:643-645 | the vector _randUnit normalises never has squared length below 1e-6 |
| Visibility.RandUnit | Components/random-compositions.js:643-647 | _randUnit returns a unit vector pointing along the sampled (or replacement) vector |
| Visibility.CandidateDistance | Components/random-compositions.js:581-584 | without lockY a candidate lies exactly dist from the camera; with lockY its height lies in [yMin, yMax]; its planar offset is dist times the direction's planar part |
| Visibility.CurrentFallbackFar | Components/random-compositions.js:615-638 | each of the eight fallback placements is at least 30 from the camera in the plane |
| Visibility.BackupFallbackBehind | Components/random-compositions-frustum-backup.js:466-467 | the intended fallback, built from the camera's own forward vector, lies straight behind a unit forward vector at distance maxD when lockY is off |
| Visibility.AliasedFallbackFarAway | Components/random-compositions-frustum-backup.js:461-467 | as written (with `camFwd` the `_tmpV1` of line 425), under the backup composition settings (maxDist 60, radius 3): a camera at (100, 0, 0) looking along -z whose twelfth candidate stood at (100, 0, -30) gets, through LeftInTmp, the fallback (-5900, 0, 1800), which is not maxD from the camera; the intended fallback is (100, 0, 60), exactly maxD behind the camera |
| Visibility.ViewCentreExcluded | Components/random-compositions.js:579 | the intended cone test, against the camera's forward vector, rejects the centre of the view whenever the cone limit is below 1 |
| Visibility.AliasedConeAdmitsViewCentre | Components/random-compositions.js:563-611 | as written, with a fixed radius and the first candidate at (0, 0, 20), the second attempt's cone test admits the camera's own forward direction (0, 0, -1) |
| Visibility.OffscreenRespawn.constructor | Components/random-compositions.js:438-464 | init: not in view, nothing cached, no events; registered with the system as its last target when there is one; the _setupBoundsOnce call init makes when a mesh exists is a separate SetupBoundsOnce call |
| Visibility.OffscreenRespawn.Remove | Components/random-compositions.js:466 | remove: the entity is no longer a member of the system; nothing else of the system changes |
| Visibility.OffscreenRespawn.SetupBoundsOnce | Components/random-compositions.js:468-480 | a fixed radius or the lack of a mesh leaves the cache alone; otherwise the mesh sphere found is cached |
| Visibility.OffscreenRespawn.CheckVisible | Components/random-compositions.js:512-524 | the flag becomes the frustum test of the sphere as it stood; enter-view on becoming visible; exit-view followed by exactly the respawn's events on leaving view; no event and no move otherwise; a respawn is called exactly when the entity leaves view, and then the new pose is RespawnedTo's: a placed entity ends outside the frustum and, in this copy, a fallback one at least 30 from the camera in the plane; in the backup copy (random-compositions-frustum-backup.js:404-416): the same transitions, exit-view before the respawn |
| Visibility.RespawnedSafe | Components/random-compositions.js:591-635 | what a respawn guarantees: a placed entity stands at the last candidate, which passed the cone and band tests, and its sphere misses the frustum; in this copy it is at least 20 from the camera in the plane; a fallback comes only after every counted attempt was visible, and in this copy it is at least 30 from the camera in the plane |
| Visibility.OffscreenRespawn.CheckDistanceFromCamera | Components/random-compositions.js:526-554 | nothing happens without a system or within 2000 ms of the last check; otherwise the check time is recorded and a respawn, with the flag cleared, happens exactly when a camera exists and the entity is closer than minDist in the plane; its new pose is RespawnedTo's: a placed entity ends outside the frustum and at least 20 from the camera in the plane, a fallback one at least 30 |
| Visibility.OffscreenRespawn.RespawnOffscreen | Components/random-compositions.js:556-641 | without a camera or system nothing happens; otherwise at most 20 counted attempts, each outside the cone around the vector then in `_tmpV1` (the camera's forward vector for the first, then what the previous attempt's __getWorldSphere left there), in the band max(minDist, 20, near + 0.5) to min(maxDist, far * 0.9), at least 20 from the camera in the plane and tested against the frustum; every attempt but the last was visible; placement is the first hidden one, else one of the eight fallbacks at least 30 away with the last attempt's rotation kept; respawned-offscreen is emitted once per committed call; when the samples run out, the entity stays at the last attempted candidate (where it was if there was none); in the backup copy (random-compositions-frustum-backup.js:418-473): at most 12 counted attempts, band max(minDist, near + 0.5) to min(maxDist, far * 0.9), no planar check; the fallback is camPos - v * maxD for the vector v left in `_tmpV1` by the last attempt, with the last attempt's rotation kept; respawned-offscreen is emitted once per committed call |
| Visibility.OffscreenRespawn.Search | Components/random-compositions.js:575-613 | the attempt loop: every recorded trial is a good candidate for the vector its cone test used, those vectors are chained through `_tmpV1` (the camera's forward vector first), and each carries its frustum verdict; only the last may be hidden; the loop ends at the first hidden one or after the full budget; the entity stands at the last candidate tried; in the backup copy (random-compositions-frustum-backup.js:436-463): the same loop with a budget of 12 |
| Visibility.OffscreenRespawn.DrawCandidate | Components/random-compositions.js:578-579 | one pass of the loop body: a direction inside the cone around the given `camFwd` yields no candidate; a yielded candidate is good for that `camFwd` and points along the sampled direction |
| Visibility.OffscreenRespawn.Record | Components/random-compositions.js:596-612 | a counted attempt: the entity moves to the candidate, the trial records its frustum verdict and the vector its cone test used, and the next cone test uses what __getWorldSphere left in `_tmpV1` |
| Visibility.OffscreenRespawn.PlaceAlong | Components/random-compositions.js:581-608 | for a direction outside the cone around `camFwd`: the distance lies in the band and the position is the lerped candidate; only random-compositions.js rejects, and only a candidate nearer than 20 in the plane |
| Visibility.OffscreenRespawn.RandomRotation | Components/random-compositions.js:599-607 | randomYawOnly gives (0, yaw, 0) with yaw in [0, 2π) from one sample; otherwise three samples are used |
| Visibility.Without | Components/random-compositions.js:11 | Set.delete: the element is gone, every other element stays, distinctness is kept, and a non-member leaves the contents as they were |
| Visibility.WithoutAt | Components/random-compositions.js:11 | Set.delete keeps insertion order: deleting the element at index i of a distinct sequence leaves exactly the elements before i followed by those after it |
| Visibility.LightFrustum.constructor | Components/random-compositions.js:4-9 | init: no targets and last 0, with the given throttle |
| Visibility.LightFrustum.Register | Components/random-compositions.js:10 | Set.add: membership gains the component; an existing member leaves the order as it was, a new one is appended; every target names this system as its `lf`, the scene's single light-frustum system (random-compositions.js:450) |
| Visibility.LightFrustum.Unregister | Components/random-compositions.js:11 | Set.delete: membership loses the component and the other targets keep their order (it is cut out of its index); a non-member is a no-op |
| Visibility.LightFrustum.Tick | Components/random-compositions.js:12-24 | without a camera or within throttleMs of the last run nothing changes; otherwise last := t, the frustum is the camera's, and the targets, each keeping this system as its `lf`, are checked once each in order, all of them unless the samples run out, each respawn with the pose RespawnedTo states; the same gating and sweep in the backup copy (random-compositions-frustum-backup.js:12-24) |
| Visibility.Sweep | Components/random-compositions.js:24 | the checked targets are a prefix of the targets, each swept against the one frustum with its respawn's pose as RespawnedTo states, and the rest untouched; all are checked unless a respawn ran out of samples |
| Compositions.BackupCompositionSettings | Components/random-compositions-frustum-backup.js:76-85 | under the schema defaults, every composition of the backup driver is given the respawn settings radius 3, minDist 20, maxDist 60, the ones the Findings example uses |
| Compositions.Offset | Components/random-compositions.js:123-124 | (Math.random() - 0.5) * width lies in [-width/2, width/2), or in the mirrored (width/2, -width/2] for a negative width |
| Compositions.OffsetBound | Components/random-compositions.js:123-124 | the arithmetic bound behind Offset |
| Compositions.InAnnulusSquares | Components/random-compositions.js:125-129 | the do/while exit test holds exactly when minRadius^2 <= planar distance^2 <= maxRadius^2 |
| Compositions.BaseRotation | Components/random-compositions.js:177-181 | the Pamats base rotation starts within the ±45 limits on every axis |
| Compositions.StepAngle | Components/random-compositions.js:363-368 | one axis step: the result lies in [-45, 45]; the direction flips exactly when the unclamped angle reaches ±45, and the angle is then pinned at the limit; otherwise it is the plain sum |
| Compositions.Scrolled | Components/random-compositions.js:351-397 | one wheel event on one Pamats object changes only its assigned axis, by 5 * scroll sign * direction clamped into ±45, flips the direction exactly at a limit, and keeps the direction in {1, -1} |
| Compositions.Pamat.constructor | Components/random-compositions.js:230-234 | a pamatObjects entry starts with its random axis and direction 1 |
| Compositions.Pamat.Scroll | Components/random-compositions.js:359-396 | the handler's body for one object, equal to Scrolled, keeping the object's invariant |
| Compositions.Composition.constructor | Components/random-compositions.js:74-77 | a new entity has no position, zero rotation, is not yet in the scene and carries its respawn settings |
| Compositions.SampleAnnulus | Components/random-compositions.js:121-129 | the do/while, for any spread: the result is the first sampled pair inside the annulus, every earlier pair was outside; it fails only when the samples run out |
| Compositions.IsClear | Components/random-compositions.js:194-206 | the inner loop answers exactly whether every earlier base is at least 15 away |
| Compositions.PlaceBase | Components/random-compositions.js:184-214 | at most 50 attempts; the result is the last pair drawn and is clear of earlier bases unless 50 attempts were made; every earlier pair was blocked; with no earlier base the first pair is taken |
| Compositions.Driver.constructor | Components/random-compositions.js:42-59 | init: no compositions, no Pamats objects, no camera yet, lastSafetyCheck 0 |
| Compositions.Driver.CreateCompositions | Components/random-compositions.js:70-105 | count entities are appended in order, each on the ground in the annulus, unrotated, in the scene, with the respawn settings, and with its own new Pamats entry; fewer only when the samples run out; in the backup copy (random-compositions-frustum-backup.js:60-96): the same, with no Pamats entries |
| Compositions.Driver.NewComposition | Components/random-compositions.js:74-101 | one loop pass: a fresh entity, placed, with its tower and settings, in the scene |
| Compositions.Driver.OnLoaded | Components/random-compositions.js:61-67 | the loaded handler: createCompositions around the camera (or the origin), then the camera lookup |
| Compositions.Driver.Randomize | Components/random-compositions.js:108-133 | for any spread, negative ones included: y = 0 and (x, z) is a sampled pair inside the annulus around the camera's position attribute, or the origin without one; the same in the backup copy (random-compositions-frustum-backup.js:98-123) |
| Compositions.Driver.CreateTowerComposition | Components/random-compositions.js:165-234 | a new base with the drawn rotation, the first drawn position and the drawn axis, appended to pamatObjects with direction 1; the backup copy draws nothing that is modelled |
| Compositions.Driver.Regenerate | Components/random-compositions.js:135-149 | rotation.y becomes a sample times 360, in [0, 360), with x and z kept; in random-compositions.js a new base is appended; enough samples always succeed; the same yaw rule in the backup copy (random-compositions-frustum-backup.js:125-138) |
| Compositions.Driver.ForceReposition | Components/random-compositions.js:342-347 | the entity ends on the ground in the annulus with a new yaw in [0, 360) and pitch and roll kept; when the samples run out, nothing changes |
| Compositions.Driver.PerformSafetyCheck | Components/random-compositions.js:301-340 | without a camera or compositions, or within 5000 ms of the last check, nothing changes; otherwise lastSafetyCheck := time, and with a camera position every composition is checked, all unless the samples run out |
| Compositions.Driver.SafetySweep | Components/random-compositions.js:317-335 | the forEach: a prefix of the compositions is safety-checked, the rest untouched |
| Compositions.Driver.SafetyStep | Components/random-compositions.js:318-334 | a removed or position-less composition is skipped; one closer than minDist in the plane is force-repositioned; others are left alone |
| Compositions.Driver.OnScroll | Components/random-compositions.js:351-397 | every Pamats object takes exactly one Scrolled step, and the driver's invariant (angles within ±45, direction ±1) is kept |
| CompositionsNew2.Decide | Components/random-compositions-new2.js:317-334 | too close is always chosen with no draw; in the middle band one draw against chance * 0.3 decides; any chosen composition that was not too close had a draw below chance; with chance <= 0 only the too-close ones are chosen |
| CompositionsNew2.SampleBounded | Components/random-compositions-new2.js:71-82 | at most 50 iterations; the result is in the annulus or the 50th pair; each coordinate lies in [-width/2, width/2), or mirrored for a negative width; every earlier pair was outside; 100 samples always suffice |
| CompositionsNew2.Composition.constructor | Components/random-compositions-new2.js:37 | a new entity with no position, zero rotation and no userData |
| CompositionsNew2.Driver.constructor | Components/random-compositions-new2.js:17-21 | init, for any schema (a negative spread included): no compositions, no camera, lastRepositionTime 0 |
| CompositionsNew2.Driver.DrawPosition | Components/random-compositions-new2.js:59-85 | x and z in [-spread, spread) (in (spread, -spread] for a negative spread), y = 0, and the annulus reached unless 50 pairs were drawn, around the camera's position attribute, or around (0, 10, 0) without a camera or attribute |
| CompositionsNew2.Driver.Reposition | Components/random-compositions-new2.js:59-85 | the drawn position becomes the entity's |
| CompositionsNew2.Driver.Regenerate | Components/random-compositions-new2.js:90-108 | only rotation.y changes, to a sample times 360 in [0, 360); userData's lastRepositioned becomes now when userData exists, keeping the id, and stays absent otherwise |
| CompositionsNew2.Driver.CreateCompositions | Components/random-compositions-new2.js:30-54 | count entities appended in order, fewer only when the samples run out; each in the square, in the annulus around the camera centre unless its 50th pair was taken, unrotated, in the scene and stamped with now and its index |
| CompositionsNew2.Driver.NewComposition | Components/random-compositions-new2.js:36-53 | one loop pass: a fresh entity, placed by repositionComposition (annulus around the camera centre or the 50th pair) and stamped |
| CompositionsNew2.Driver.OnLoaded | Components/random-compositions-new2.js:23-27 | createCompositions runs before findCamera (whose default position is set at line 63): the entities are placed around the centre the driver knew on entry, and a fresh driver places them in the annulus around (0, 10, 0) |
| CompositionsNew2.ChanceDecidesMove | Components/random-compositions-new2.js:318-334 | after a check, a live composition closer than minDist has moved; one that is not and moved drew a sample below repositionChance; so with repositionChance <= 0 only the too-close ones move |
| CompositionsNew2.Driver.CheckOne | Components/random-compositions-new2.js:305-339 | removed or position-less compositions are skipped without a draw; otherwise Decide's verdict decides, and a chosen composition is repositioned and regenerated, in the annulus around the camera unless all 50 pairs were drawn; one closer than minDist is always moved; the result is CheckedFrom on the samples it was given |
| CompositionsNew2.Driver.Move | Components/random-compositions-new2.js:336-339 | repositionComposition then regenerateComposition: in the square and in the annulus [minRadius, maxRadius] around the camera unless all 50 pairs were drawn, a new yaw, timestamp refreshed; when the samples run out, nothing changes |
| CompositionsNew2.Driver.CheckRepositioning | Components/random-compositions-new2.js:292-341 | without a camera or compositions, or within repositionInterval of the last run, nothing changes; otherwise lastRepositionTime := time and, with a camera position, every composition is checked, all unless the samples run out; each is moved exactly when Decide, on the samples it was decided from, says so, and otherwise left as it was |
| CompositionsNew2.Driver.SweepAll | Components/random-compositions-new2.js:305-340 | the forEach: a prefix of the compositions is checked in order, each decided from a suffix of the samples and moved exactly when Decide says so, the rest untouched |
| Camera.WheelStep | Components/fixed-camera.js:48-95 | the scroll flag becomes deltaY < 0; the direction is reversed on a change of scroll sign; the value moves by exactly 0.3 unless it reaches 20 (pinned, direction -1) or 0 (pinned, direction 1); [0, 20] and {1, -1} are kept |
| Camera.WheelsInRange | Components/fixed-camera.js:57-94 | after any run of wheel events the value stays in [0, 20] and the direction in {1, -1} |
| Camera.SameSignKeepsDirection | Components/fixed-camera.js:49-71 | away from the limits, a wheel event in the same scroll sign keeps the direction and steps by 0.3 in it |
| Camera.SignChangeReverses | Components/fixed-camera.js:49-95 | away from the limits, a change of scroll sign reverses the direction and steps back by 0.3 |
| Camera.BackAndForth | Components/fixed-camera.js:49-95 | an up event followed by a down event away from the limits returns the value to where it was |
| Camera.EasedGap | Components/fixed-camera.js:114-115 | after n ticks with a fixed target the gap is 0.9^n of the original gap |
| Camera.FixedCamera.constructor | Components/fixed-camera.js:9-29 | init: position (0, height, 0), both rotations 0, displacement 10 going up, scrolling up |
| Camera.FixedCamera.OnWheel | Components/fixed-camera.js:42-104 | targetScrollRotation grows by deltaY * 0.1; the displacement state is WheelStep of the old one; the terrain receives the new value when it exists; the range invariant is kept |
| Camera.FixedCamera.Tick | Components/fixed-camera.js:106-119 | the position is pinned to (0, height, 0); the gap to the target shrinks by the factor 0.9; rotation is (-10, scrollRotation, 0) |
| Shooter.NatToString | Components/ball-shooter.js:79 | the decimal text of a count is non-empty and ends with its last digit |
| Shooter.DigitInjective | Components/ball-shooter.js:176 | different digits print differently |
| Shooter.NatToStringShort | Components/ball-shooter.js:176 | a number prints as one character exactly when it is below 10 |
| Shooter.NatToStringInjective | Components/ball-shooter.js:176 | different numbers print differently |
| Shooter.Round | Components/ball-shooter.js:312 | Math.round gives the integer within half of x, halves rounded up |
| Shooter.BallIdsDistinct | Components/ball-shooter.js:176 | 'ball-' + m and 'ball-' + n differ when m and n do |
| Shooter.SuccessiveBallsDistinct | Components/ball-shooter.js:176 | balls numbered by a strictly increasing counter all have different ids |
| Shooter.Increasing | Components/ball-shooter.js:176 | a strictly increasing counter sequence exceeds its first value everywhere after it |
| Shooter.CompositionId | Components/ball-shooter.js:311-313 | the made-up id starts with 'composition-' and is longer than that prefix, so it is never empty |
| Shooter.BezierEnds | Components/ball-shooter.js:253-256 | the arc is at start at t = 0 and at end at t = 1 |
| Shooter.BezierBetween | Components/ball-shooter.js:253-256 | for t in [0, 1] every coordinate lies between the smallest and largest of its control values |
| Shooter.Progress | Components/ball-shooter.js:241-242 | Math.min(elapsed / duration, 1) is at most 1, non-negative for elapsed >= 0, reaches 1 exactly when elapsed >= duration, and is elapsed / duration before that |
| Shooter.Countdown | Components/ball-shooter.js:110-121 | the bar width lies in [0, 100] for elapsed >= 0; another frame is requested exactly while elapsed < duration; the final width is 100 |
| Shooter.ShotDelay | Components/ball-shooter.js:89 | the delay between shots lies in [2000, 4000) |
| Shooter.BallPath | Components/ball-shooter.js:191-229 | distance in [5, 60), deviation in [-10, 10), arc height in [5, 10), deviated y equal to forward y, end on the ground, mid at start.y + arc height and halfway in the plane, end offset = deviated direction * distance |
| Shooter.DeviationKeepsPlanarLength | Components/ball-shooter.js:203-210 | with cos^2 + sin^2 = 1 the deviation keeps the planar length of the forward vector |
| Shooter.Ball.constructor | Components/ball-shooter.js:156-170 | a new ball at its start, unrotated, in the scene, animating |
| Shooter.Ball.Animate | Components/ball-shooter.js:236-268 | a stopped or removed ball is untouched; once the flight time is over it leaves the scene; otherwise it moves to the Bézier point at the progress, spins by (360, 180, 90) times the progress, and asks for another frame |
| Shooter.Ball.Stop | Components/ball-shooter.js:270-273 | stopAnimation clears the animation flag |
| Shooter.BallShooter.constructor | Components/ball-shooter.js:2-5 | init: no balls, no hits, hit text "0", the invariant hitCount == size of the hit set |
| Shooter.BallShooter.GetCompositionId | Components/ball-shooter.js:308-316 | an existing id is returned unchanged; otherwise the made-up id is assigned and returned; later calls return the same id; the result is never empty |
| Shooter.BallShooter.HandleBallCollision | Components/ball-shooter.js:278-306 | the ball stops and leaves the scene; with no composition nothing is scored; otherwise its id joins the hit set, and hitCount grows by one exactly when the id is new; hitCount == size of the set and the counter text are kept |
| Shooter.BallShooter.NextBallId | Components/ball-shooter.js:176 | the id is 'ball-' + the old count and the count grows by one |
| Shooter.BallShooter.ShootBall | Components/ball-shooter.js:128-145 | a fresh ball with the next id, starting at the camera position moved three units down, with the mid and end points of BallPath |

## Left out

- THREE.js matrix and bounds work is not modelled: no projection matrices, no world transforms, no quaternions. The frustum is given as planes. The scene graph's view of an entity in each pose is the `world` field, and the camera's forward vector is an input.
- `Math.cos`, `Math.sin` and `Math.sqrt` are `MathLib` inputs. Only sqrt is characterised, so the cone limit is taken as given. Floating point is modelled as reals.
- Termination of the unbounded loops is not claimed: the two annulus do/whiles and the `i--` attempt loop. The model reports that the samples ran out instead.
- Decorative random draws do not take samples from the oracle: tower geometry, asset choice, scales, colours, roughness, the Vidus stack and every tower primitive of the backup and new2 copies. They change nothing that is modelled.
- DOM and A-Frame plumbing is not modelled: element creation, attribute strings, event-listener registration, `emit` transport, console logging, `preventDefault`, removing children, `registerWithFrustumSystem`, `startSafetySystem`, `startRepositionSystem` and `findCamera` (whose results are the `cameraFound` flags), plus the cleanup in each `remove`.
- `setTimeout`, `requestAnimationFrame` and `Date.now()` are not modelled. Elapsed times and `now` are parameters, and one call models one frame or one event.
- `findCompositionFromElement` and `makeCompositionEmitBlue` are not modelled. The hit target is a parameter: what findCompositionFromElement returns, which is the composition entity when one is above the collided element and otherwise the collided element itself (ball-shooter.js:333), so a hit on any other element is scored under that element's own id. It is null only when the collision carries no element.
- Components/sound-effects.js and Components/terrain-component.js are not part of this model.
- The schema fields `minHeight`, `maxHeight` and `cameraSelector` and the fixed camera's `fov`, `maxRotation` and `displacementMin` are not modelled, because no modelled logic reads them.
- Visibility.LightFrustum.Tick: a run stops after a target whose respawn ran out of samples; the source has no such stop. A target unregistered in the middle of a run is not modelled.
- Visibility.Sweep: the same early stop when the samples run out.
- Compositions.Driver.SafetySweep: stops at the first composition whose repositioning ran out of samples, and leaves that one as it was. In the source a repositioning never runs out.
- Compositions.Driver.ForceReposition: writes the position only once the yaw sample is known to exist, so an exhausted call changes nothing. In the source the position is always written.
- CompositionsNew2.Driver.Move: the same atomic commit. CompositionsNew2.Driver.SweepAll stops at the first composition that ran out of samples.
- The `respawned-offscreen` listener that createCompositions attaches (random-compositions.js:98-99) is not modelled as a link: Compositions.Composition and Visibility.OffscreenRespawn are separate objects, and a caller models the event by calling Compositions.Driver.Regenerate.
- Visibility.OffscreenRespawn.RespawnOffscreen and Visibility.OffscreenRespawn.Search follow the code as written, with the `_tmpV1` alias. The intended cone test and the intended backup fallback are stated separately (Visibility.OutsideViewCone, Visibility.IntendedBackupFallback) and are not what the methods do.
- Visibility.OffscreenRespawn: each entity's scene-graph mapping `world` is fixed for the entity's lifetime. The regenerated children of a composition therefore do not change its bounds in the model.
- Shooter.BallShooter.HandleBallCollision: assumes the hit-number element exists and always writes the counter text. Shooter.Countdown likewise assumes the bar element exists.
- Shooter.BallPath: the deviated direction is stated in terms of the supplied cos and sin. DeviationKeepsPlanarLength states its property under cos^2 + sin^2 = 1.

## Findings

| source | as written | input that shows it | evidently intended | confidence | as-written member | corrected member |
|---|---|---|---|---|---|---|
| Components/random-compositions-frustum-backup.js:466-467 | the fallback is `camPos - camFwd * maxD`, but `camFwd` is `_tmpV1`, which __getWorldSphere has overwritten with the last candidate's world position (lines 376 and 461, with the fixed radius every composition has) | backup composition settings (maxDist 60, radius 3), camera at (100, 0, 0) looking along -z, far 1000, twelfth candidate at (100, 0, -30): the entity goes to (-5900, 0, 1800), about 6264 from the camera | "directly behind camera at maxD": `camPos - forward * maxD`, exactly maxD behind the camera | not executed | Visibility.AliasedFallbackFarAway | Visibility.BackupFallbackBehind |
| Components/random-compositions.js:563-611 | (lines 563, 579 and 611, and the same at random-compositions-frustum-backup.js:425, 440 and 461) every counted attempt after the first takes its cone test against `_tmpV1`, which now holds the previous candidate's world position rather than the camera's forward vector | camera looking along (0, 0, -1), fixed radius, first candidate at (0, 0, 20): the second attempt accepts the direction (0, 0, -1), the centre of the view | the cone test against the camera's forward vector, which never admits the view centre | not executed | Visibility.AliasedConeAdmitsViewCentre | Visibility.ViewCentreExcluded |
