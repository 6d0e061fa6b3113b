# flowstates core in Dafny

flowstates is a fluid art toy. Its Angular front end runs a FLIP fluid
simulation in a tank with a circular obstacle that you drag around. Users
can save and load the simulation's settings ("sim states"). A small Django
back end stores these states for signed-in users. This project models five
parts of that system:

- **`ArtFluid` (art-fluid.component.ts):** the fluid component. Its scene
  record and the keyboard, pointer and frame handlers change the obstacle
  and the pause state. It saves its view state as a payload and restores it
  in place. `setupScene` builds the tank: it seeds the particle block,
  marks the left, right and bottom walls, and stamps the obstacle into the
  solid-marker and velocity arrays.
- **`Grid`:** the part of the solver's state that the component writes. It
  holds the flat row-major arrays `s`, `u`, `v` and `particlePos`, and the
  component's loops over them: wall marking, particle seeding and the
  obstacle stamp.
- **`SimStateLoader` (simstate-loader.ts):** the defensive loader. It
  applies a saved state to any component-like target, touching only the
  fields the state holds with the right type. Its serializer is the
  loader's partner.
- **`Auth` (auth.service.ts):** the authentication service. It covers
  token storage in the browser's key/value storage, decoding of the JWT
  payload segment, the claims it reads the user from, logout and the
  refresh flow.
- **`Permissions` (api/permissions.py) and `Serializers`
  (simstates/serializers.py):** the back end's superuser-or-read-only
  permission and its payload validation.

JavaScript values are modelled by `Js.Value`: undefined, null, booleans,
numbers as reals, strings, arrays and objects. `Js` also defines property
access, truthiness, `||` and `??` chains, and object spread. `JsStrings`
has the string operations the core uses: count, split/join, replace-all
and ASCII lower-casing. `Wrappers` has `Option` and `Result`.

Each handler that changes state is a method on a class with the fields the
source updates. Each method's `ensures` ties the new state to a pure
function of the old state. The module-level lemmas prove what those
functions promise:

- a save followed by a restore gives back the saved fields, for the fields
  as the model stores them (see the ApplyColours line under "## Left out");
- applying a state is idempotent;
- an unrecognised payload changes nothing;
- the loops mark, seed and stamp exactly the cells the source names and
  leave every other cell alone;
- logout removes exactly the two token keys.

## Model

| member | source | states |
|---|---|---|
| Js.FirstTruthyIsFirst | appfludio/src/app/core/auth.service.ts:129 | the first truthy element of a list is truthy or `null`; it is `null` exactly when every element is falsy, and otherwise it is the element at a position before which every element is falsy |
| Js.OrChainIsFirstTruthy | appfludio/src/app/core/auth.service.ts:129 | `a \|\| b \|\| c \|\| null` is the first truthy of `a`, `b`, `c` |
| Js.CoalesceChainIsFirstPresent | appfludio/src/app/core/auth.service.ts:130 | `a ?? b ?? null` is the first of `a`, `b` that is neither null nor undefined |
| Js.NatToStringInjective | appfludio/src/app/art-fluid/simstate-loader.ts:296 | distinct array indices give distinct property keys |
| Js.SpreadIdempotent | appfludio/src/app/art-fluid/simstate-loader.ts:296 | copying an element with `{...p}` twice is the same as copying it once |
| Js.SpreadAllIdempotent | appfludio/src/app/art-fluid/simstate-loader.ts:353 | re-copying a copied particle array changes nothing |
| Js.Spread | appfludio/src/app/art-fluid/simstate-loader.ts:296 | `{...p}` is always an object and is `p` itself when `p` is an object |
| Js.IndexKeys | appfludio/src/app/art-fluid/simstate-loader.ts:296 | spreading an array gives an object keyed by exactly its indices, each holding that element |
| Js.SpreadAllObjects | appfludio/src/app/art-fluid/simstate-loader.ts:296 | copying an array of objects element by element gives it back unchanged |
| JsStrings.Split | appfludio/src/app/core/auth.service.ts:113 | splitting at a separator gives one more part than there are separators, no part holds the separator, and joining the parts gives back the string |
| JsStrings.ReplaceAll | appfludio/src/app/core/auth.service.ts:115 | a global replace keeps the length, puts the new character exactly where the old one was and keeps every other character |
| JsStrings.ToLower | appfludio/src/app/art-fluid/art-fluid.component.ts:255 | lower-casing keeps the length and maps each character to its lower-case form |
| JsStrings.ToLowerIdempotent | appfludio/src/app/art-fluid/art-fluid.component.ts:255 | lower-casing a lower-cased key changes nothing, and no upper-case ASCII letter is left |
| JsStrings.ToLowerIgnoresCase | appfludio/src/app/art-fluid/art-fluid.component.ts:255 | a string and its ASCII upper-case form lower-case to the same string |
| Grid.IdxOrder | appfludio/src/app/art-fluid/art-fluid.component.ts:552-560 | in the row-major layout `i * n + j`, a cell earlier in row-major order has a smaller index |
| Grid.IdxOrderAll | appfludio/src/app/art-fluid/art-fluid.component.ts:552-560 | the same ordering, for all pairs of cells |
| Grid.IdxBefore | appfludio/src/app/art-fluid/art-fluid.component.ts:584-599 | every cell the loops visit before (i, j) has a smaller index |
| Grid.IdxInjectiveAt | appfludio/src/app/art-fluid/art-fluid.component.ts:584-599 | no other cell shares a cell's index |
| Grid.IdxInRange | appfludio/src/app/art-fluid/art-fluid.component.ts:555-559 | every cell of a `rows` by `n` grid lies inside the flat array |
| Grid.LayoutIsInRange | appfludio/src/app/art-fluid/art-fluid.component.ts:555-559 | the same for every cell at once |
| Grid.IdxCovers | appfludio/src/app/art-fluid/art-fluid.component.ts:552-560 | every index of the flat array belongs to exactly one cell, `(k / n, k % n)` |
| Grid.FluidGrid.constructor | appfludio/src/app/art-fluid/art-fluid.component.ts:540 | the solver is created with the given sizes, cell size, particle capacity and colour configuration; no particles and zero-filled velocity and position arrays |
| Grid.FluidGrid.Simulate | appfludio/src/app/art-fluid/art-fluid.component.ts:647-652 | a solver step records its arguments in the given order and touches nothing else |
| Grid.FluidGrid.MarkTankWalls | appfludio/src/app/art-fluid/art-fluid.component.ts:552-560 | after the tank loop, cell (i, j) is solid (0) exactly when it is in the first or last column or the bottom row, and fluid (1) otherwise; only `s` is written |
| Grid.FluidGrid.TankFillsArray | appfludio/src/app/art-fluid/art-fluid.component.ts:552-560 | the per-cell wall description fixes every slot of the flat array |
| Grid.FluidGrid.SeedParticles | appfludio/src/app/art-fluid/art-fluid.component.ts:541-550 | `numParticles` is `max(0, numX * numY)`; with the setup's own spacing `h`, particle (i, j) sits at `h + r + dx*i` (plus `r` when j is odd) and `h + r + dy*j`, in slots `2*(i*numY + j)` and the next one; every later slot is unchanged |
| Grid.FluidGrid.SeededSlotsFit | appfludio/src/app/art-fluid/art-fluid.component.ts:532 | the slots the seeding loops write fit in the `2 * max(1, numX * numY)` buffer the setup allocates |
| Grid.FluidGrid.SeedRow | appfludio/src/app/art-fluid/art-fluid.component.ts:545-548 | the inner seeding loop writes row i's pairs from slot p0 on, returns the next slot and keeps every other slot |
| Grid.FluidGrid.SeedPair | appfludio/src/app/art-fluid/art-fluid.component.ts:546-547 | `particlePos[p++] = x; particlePos[p++] = y` writes exactly the two slots |
| Grid.FluidGrid.StampObstacle | appfludio/src/app/art-fluid/art-fluid.component.ts:584-599 | after the obstacle loop, every cell of the stamp range is solid exactly when its centre is strictly inside the circle; a `u` or `v` face takes the obstacle velocity when one of its two cells is covered; everything outside the range is unchanged |
| Grid.FluidGrid.StampFinished | appfludio/src/app/art-fluid/art-fluid.component.ts:584 | once the outer loop has passed its last row, the loop description is the full stamp |
| Grid.FluidGrid.StampFootprint | appfludio/src/app/art-fluid/art-fluid.component.ts:584-585 | the stamp never writes a cell or face outside the interior range the loops visit |
| Grid.FluidGrid.StampedTank | appfludio/src/app/art-fluid/art-fluid.component.ts:552-562 | stamping at rest into a fresh tank gives the wall markers with the circle cut out, and leaves every velocity zero |
| Grid.FluidGrid.StampRow | appfludio/src/app/art-fluid/art-fluid.component.ts:585-598 | the inner obstacle loop advances the loop description by one row |
| Grid.FluidGrid.StampStep | appfludio/src/app/art-fluid/art-fluid.component.ts:586-597 | one inner iteration keeps the loop description |
| Grid.FluidGrid.StepMarks | appfludio/src/app/art-fluid/art-fluid.component.ts:586-592 | the marker part of an iteration: only cell (i, j) changes, to 0 inside the circle and 1 outside |
| Grid.FluidGrid.StepFaces | appfludio/src/app/art-fluid/art-fluid.component.ts:592-596 | the velocity part of an iteration: the two faces of a covered cell take the velocity and no other face changes |
| Grid.FluidGrid.RowDone | appfludio/src/app/art-fluid/art-fluid.component.ts:585 | past the last column of the range, row i is done and row i + 1 starts |
| Grid.FluidGrid.StampCell | appfludio/src/app/art-fluid/art-fluid.component.ts:586-597 | one iteration sets the cell's marker and, inside the circle, the four faces `u[i,j]`, `u[i+1,j]`, `v[i,j]`, `v[i,j+1]` |
| ArtFluid.ResetObstacleAtRest | appfludio/src/app/art-fluid/art-fluid.component.ts:573-603 | a reset move leaves the obstacle at rest and shown at (x, y), with every other control kept |
| ArtFluid.DragVelocityRecoversMove | appfludio/src/app/art-fluid/art-fluid.component.ts:576-581 | without a reset, one time step at the recorded velocity leads from the old position to the new one |
| ArtFluid.DragInPlaceStops | appfludio/src/app/art-fluid/art-fluid.component.ts:576-581 | moving again to where the obstacle already is brings it to rest |
| ArtFluid.KeyEffects | appfludio/src/app/art-fluid/art-fluid.component.ts:254-269 | `p` toggles pause and twice is a no-op; `m` steps one frame and leaves the scene paused; `e` sets the vertical jet velocity to 3 and `r` to -3, `t` the horizontal one to 3 and `y` to -3; `w` moves the obstacle up 0.1 and `s` down, `a` left 0.1 and `d` right; each of these changes only that one control; every other key leaves the controls unchanged; lower-casing twice acts like once |
| ArtFluid.UpperCaseKeys | appfludio/src/app/art-fluid/art-fluid.component.ts:255 | any key and its upper-case form have the same effect on the controls |
| ArtFluid.ClearColourFrom | appfludio/src/app/art-fluid/art-fluid.component.ts:384-388 | the clear colour keeps its four components |
| ArtFluid.ColouredState | appfludio/src/app/art-fluid/art-fluid.component.ts:384-436 | the colour section keeps four clear-colour components |
| ArtFluid.AppliedState | appfludio/src/app/art-fluid/art-fluid.component.ts:326-455 | applying a payload keeps four clear-colour components |
| ArtFluid.SaveRestoreRoundTrip | appfludio/src/app/art-fluid/art-fluid.component.ts:326-471 | restoring the payload serializeState wrote gives back every saved field (toggles, sliders, the first three clear-colour components and the three colour triples) and keeps only the target's clear-colour alpha |
| ArtFluid.SerializedToggles | appfludio/src/app/art-fluid/art-fluid.component.ts:337-352 | the saved booleans come back whatever the target held |
| ArtFluid.SerializedSliders | appfludio/src/app/art-fluid/art-fluid.component.ts:358-379 | the saved flip ratio, threshold and gravity come back |
| ArtFluid.SerializedClearColour | appfludio/src/app/art-fluid/art-fluid.component.ts:462 | the saved clear colour is its first three components |
| ArtFluid.SerializedRgbs | appfludio/src/app/art-fluid/art-fluid.component.ts:402-436 | the saved low, high and ball triples come back whatever the target held |
| ArtFluid.RgbRoundTrip | appfludio/src/app/art-fluid/art-fluid.component.ts:463-465 | a colour triple read back from its saved object is itself, and that object is truthy |
| ArtFluid.ApplyIdempotent | appfludio/src/app/art-fluid/art-fluid.component.ts:326-455 | applying the same payload twice is the same as once |
| ArtFluid.ApplyIgnoresOtherKeys | appfludio/src/app/art-fluid/art-fluid.component.ts:326-455 | an object payload without any recognised key leaves the view state unchanged |
| ArtFluid.Scene.constructor | appfludio/src/app/art-fluid/art-fluid.component.ts:65-85 | the initial scene: gravity -0.3, flip ratio 0.7, 50 and 2 iterations, paused, shown obstacle of radius 0.1 at rest at the origin, particles shown, grid hidden, no fluid |
| ArtFluid.NewTank | appfludio/src/app/art-fluid/art-fluid.component.ts:532-560 | a fresh grid with capacity `max(1, numX*numY)`, the particle block seeded, the remaining slots zero, the wall markers set and zero velocities |
| ArtFluid.ArtFluidComponent.constructor | appfludio/src/app/art-fluid/art-fluid.component.ts:101-121 | the initial clear colour `[0.6, 0.1, 0.3, 1.0]`, threshold 0.8, the three default colour triples, pointer up, not loading, and the initial scene |
| ArtFluid.ArtFluidComponent.SetObstacle | appfludio/src/app/art-fluid/art-fluid.component.ts:568-604 | without a grid nothing changes; otherwise the controls are `ObstacleMoved` (velocity from the displacement over dt unless reset, shown) and the grid's arrays are the obstacle stamp with that velocity |
| ArtFluid.ArtFluidComponent.StartDrag | appfludio/src/app/art-fluid/art-fluid.component.ts:616-621 | the pointer is down, the scene is unpaused and, with a grid, the obstacle jumps to the point at rest and is stamped there |
| ArtFluid.ArtFluidComponent.Drag | appfludio/src/app/art-fluid/art-fluid.component.ts:623-627 | while the pointer is down and there is a grid, the obstacle moves with the drag velocity and is stamped into the grid with it; otherwise neither the controls nor the grid change |
| ArtFluid.ArtFluidComponent.EndDrag | appfludio/src/app/art-fluid/art-fluid.component.ts:629-633 | the pointer is up and the obstacle stops, with every other control kept |
| ArtFluid.ArtFluidComponent.Simulate | appfludio/src/app/art-fluid/art-fluid.component.ts:636-655 | when running with a grid, the grid gets the current colour configuration and one step with the scene's arguments; when paused the grid is untouched; the frame counter always advances by one |
| ArtFluid.ArtFluidComponent.OnKey | appfludio/src/app/art-fluid/art-fluid.component.ts:254-269 | the controls become `KeyControls` of the lower-cased key; `m` pushes the colours and steps the grid once, every other key leaves the grid's configuration and step log alone; no key changes the particle count |
| ArtFluid.ArtFluidComponent.OnFlipRatioChange | appfludio/src/app/art-fluid/art-fluid.component.ts:817-821 | the flip ratio takes the value unless a saved state is being applied |
| ArtFluid.ArtFluidComponent.OnThresholdChange | appfludio/src/app/art-fluid/art-fluid.component.ts:823-826 | the threshold takes the value unless a saved state is being applied |
| ArtFluid.ArtFluidComponent.RecalculateDerivedState | appfludio/src/app/art-fluid/art-fluid.component.ts:891-903 | the grid, if any, gets the current colour configuration and nothing else of it changes |
| ArtFluid.ArtFluidComponent.ApplyStatePayload | appfludio/src/app/art-fluid/art-fluid.component.ts:326-455 | the view state becomes `AppliedState` of the old one; a falsy payload changes nothing; otherwise the loading flag ends down and the grid has the new colour configuration |
| ArtFluid.ArtFluidComponent.ApplySections | appfludio/src/app/art-fluid/art-fluid.component.ts:337-445 | the three sections together, with the loading flag up |
| ArtFluid.ArtFluidComponent.ApplyToggles | appfludio/src/app/art-fluid/art-fluid.component.ts:337-352 | each toggle takes the payload's field only when it is a boolean |
| ArtFluid.ArtFluidComponent.ApplySliders | appfludio/src/app/art-fluid/art-fluid.component.ts:358-379 | each slider takes the payload's number; the handlers it calls do nothing while loading |
| ArtFluid.ArtFluidComponent.ApplyColours | appfludio/src/app/art-fluid/art-fluid.component.ts:384-436 | the colours become `ColouredState` of the old colours |
| ArtFluid.ArtFluidComponent.ApplyLow | appfludio/src/app/art-fluid/art-fluid.component.ts:402-412 | a truthy `low` replaces the low triple component by component |
| ArtFluid.ArtFluidComponent.ApplyHigh | appfludio/src/app/art-fluid/art-fluid.component.ts:414-424 | a truthy `high` replaces the high triple |
| ArtFluid.ArtFluidComponent.ApplyBall | appfludio/src/app/art-fluid/art-fluid.component.ts:426-436 | a truthy `ball` replaces the ball triple |
| ArtFluid.ArtFluidComponent.ApplyClearColour | appfludio/src/app/art-fluid/art-fluid.component.ts:384-388 | an array of at least three overwrites the first three components in place and keeps the alpha |
| ArtFluid.ArtFluidComponent.SerializeNow | appfludio/src/app/art-fluid/art-fluid.component.ts:457-471 | the payload serializeState builds from the current component restores into that same component without changing it |
| ArtFluid.ArtFluidComponent.BuildTank | appfludio/src/app/art-fluid/art-fluid.component.ts:532-562 | a fresh grid with the particles seeded, the walls marked and the obstacle stamped at rest at (x0, y0) |
| ArtFluid.ArtFluidComponent.SetupScene | appfludio/src/app/art-fluid/art-fluid.component.ts:508-565 | radius 0.1, over-relaxation 1.2, 50 and 2 iterations; the scene's fluid is a fresh tank with seeded particles, wall markers with the obstacle circle cut out, zero velocities and the current colours; the obstacle is at rest at (x0, y0) |
| SimStateLoader.Clamp | appfludio/src/app/art-fluid/simstate-loader.ts:144-146 | `max(a, min(b, n))` lies in [a, b], is n inside the range and the nearer bound outside it |
| SimStateLoader.SavedNumbers | appfludio/src/app/art-fluid/simstate-loader.ts:335-337 | the payload is a truthy object holding the gravity, flip ratio and threshold as they are |
| SimStateLoader.SavedFlags | appfludio/src/app/art-fluid/simstate-loader.ts:338-341 | the payload holds the four booleans as they are |
| SimStateLoader.SavedClearColour | appfludio/src/app/art-fluid/simstate-loader.ts:343-345 | `clearColor` is saved exactly when the target's is an array of at least three, as its first three elements |
| SimStateLoader.SavedColours | appfludio/src/app/art-fluid/simstate-loader.ts:347-349 | each triple is saved exactly when its `r` is a number, with missing `g`/`b` as 0 |
| SimStateLoader.SavedParticles | appfludio/src/app/art-fluid/simstate-loader.ts:352-354 | particles are saved exactly when they are a non-empty array, as element-wise copies |
| SimStateLoader.FalsyStateIsNoOp | appfludio/src/app/art-fluid/simstate-loader.ts:175 | a falsy state changes nothing |
| SimStateLoader.FlagsTakenOnlyFromBooleans | appfludio/src/app/art-fluid/simstate-loader.ts:184-199 | each flag takes the state's field exactly when that is a boolean, and is kept otherwise |
| SimStateLoader.ApplyIdempotent | appfludio/src/app/art-fluid/simstate-loader.ts:174-322 | applying a state twice is the same as once |
| SimStateLoader.SaveLoadRoundTrip | appfludio/src/app/art-fluid/simstate-loader.ts:174-357 | loading the serialized state of t into any target gives `Reloaded`: every typed field of t, each triple whose `r` is a number, a clear colour of at least three and non-empty particles if the target can take them; everything else stays as the target had it |
| SimStateLoader.LoadSaved | appfludio/src/app/art-fluid/simstate-loader.ts:184-301 | any object payload with the serializer's fields loads as `Reloaded` |
| SimStateLoader.SavedTriple | appfludio/src/app/art-fluid/simstate-loader.ts:243-289 | a saved triple is read back with missing `g`/`b` as 0, and an unsaved one leaves the target's |
| SimStateLoader.TypedFieldsRoundTrip | appfludio/src/app/art-fluid/simstate-loader.ts:184-223 | booleans and numbers saved from t come back exactly, into any target |
| SimStateLoader.CanonicalRoundTrip | appfludio/src/app/art-fluid/simstate-loader.ts:174-357 | for a target whose fields all have the types the loader expects, loading its own serialized state gives it back unchanged |
| SimStateLoader.LoaderScene.constructor | appfludio/src/app/art-fluid/simstate-loader.ts:40-50 | a `scene` of the target interface, holding the given flags, gravity and flip ratio |
| SimStateLoader.Target.constructor | appfludio/src/app/art-fluid/simstate-loader.ts:38-112 | a target of the interface with the given scene and with or without `reinitializeParticleBuffers`; `__isLoadingState` down and every optional field undefined |
| SimStateLoader.Target.Apply | appfludio/src/app/art-fluid/simstate-loader.ts:174-322 | the target's state becomes `Applied(old state, sim)`; a falsy state leaves `__isLoadingState` as it was, any other ends with it down |
| SimStateLoader.Target.ApplySections | appfludio/src/app/art-fluid/simstate-loader.ts:184-301 | the flags, numbers, palette and particles sections in turn |
| SimStateLoader.Target.ApplyFlags | appfludio/src/app/art-fluid/simstate-loader.ts:184-199 | each flag is replaced only by a boolean |
| SimStateLoader.Target.ApplyNumbers | appfludio/src/app/art-fluid/simstate-loader.ts:203-223 | flip ratio, threshold and gravity are replaced only by numbers, unclamped |
| SimStateLoader.Target.ApplyPalette | appfludio/src/app/art-fluid/simstate-loader.ts:226-289 | the palette becomes `AppliedPalette` of the old one |
| SimStateLoader.Target.ApplyClearColour | appfludio/src/app/art-fluid/simstate-loader.ts:226-227 | an array of at least three replaces the clear colour by its first three elements |
| SimStateLoader.Target.ApplyLow | appfludio/src/app/art-fluid/simstate-loader.ts:243-257 | a truthy `low` replaces the three low fields |
| SimStateLoader.Target.ApplyHigh | appfludio/src/app/art-fluid/simstate-loader.ts:259-273 | a truthy `high` replaces the three high fields |
| SimStateLoader.Target.ApplyBall | appfludio/src/app/art-fluid/simstate-loader.ts:275-289 | a truthy `ball` replaces the three ball fields |
| SimStateLoader.Target.ApplyParticles | appfludio/src/app/art-fluid/simstate-loader.ts:292-301 | a non-empty particle array is copied in only when the target has a reinitializer |
| SimStateLoader.ApplySimState | appfludio/src/app/art-fluid/simstate-loader.ts:174-178 | a missing target is left alone; otherwise as `Target.Apply` |
| Auth.Base64Segment | appfludio/src/app/core/auth.service.ts:115 | the segment keeps its length, `-` becomes `+`, `_` becomes `/`, and neither is left |
| Auth.DecodeJwtPayload | appfludio/src/app/core/auth.service.ts:110-123 | null for a missing or empty token and for one with other than two dots; otherwise the decoded middle segment, or null when decoding fails |
| Auth.DecodedTokenHasThreeSegments | appfludio/src/app/core/auth.service.ts:113-114 | a token that decodes to anything is non-empty, has exactly three segments, and joins back from them |
| Auth.UserClaims | appfludio/src/app/core/auth.service.ts:125-136 | a user is published exactly when the payload and one claim are truthy; its username is the first truthy of `username`, `user_name`, `sub` (else `''`) and its id the first present of `user_id`, `sub` (else 0) |
| Auth.FirstPresentIsPresent | appfludio/src/app/core/auth.service.ts:130 | the id claim is nullish exactly when both its sources are |
| Auth.EmptyUsernameSkipped | appfludio/src/app/core/auth.service.ts:129 | an empty `username` falls through to `user_name` |
| Auth.SubjectOnly | appfludio/src/app/core/auth.service.ts:129-130 | a `sub` claim alone names both the id and the username |
| Auth.ReadAfterWrite | appfludio/src/app/core/auth.service.ts:35-49 | a token written to storage reads back under its key in a browser (and as `null` without one), and no other key reads differently; storing the access token leaves the refresh token as it was |
| Auth.ReadAfterRemove | appfludio/src/app/core/auth.service.ts:71-78 | a removed key reads as `null`, and no other key reads differently |
| Auth.AuthService.constructor | appfludio/src/app/core/auth.service.ts:18-21 | the signed-in flag is whether a non-empty access token is stored, and the user is the one the token names |
| Auth.AuthService.HasAccessToken | appfludio/src/app/core/auth.service.ts:27-33 | true exactly when `getToken` gives a non-empty token |
| Auth.AuthService.LoadUserFromToken | appfludio/src/app/core/auth.service.ts:125-137 | the published user is the one the stored access token's payload names, or null |
| Auth.AuthService.Logout | appfludio/src/app/core/auth.service.ts:71-78 | both token keys are removed and every other key is kept; signed out, no user, no token |
| Auth.AuthService.RefreshAccessToken | appfludio/src/app/core/auth.service.ts:84-108 | no request is made exactly when the refresh token is missing or empty; then, and after a failed request, the service signs out as logout does: both token keys are removed, every other key is kept, and no token, user or signed-in flag remains; a reply without an access token changes nothing; a non-empty access token is stored, becomes the signed-in token and is returned, and the user is reloaded from it |
| Permissions.HasPermission | fludiobe/api/permissions.py:9-15 | GET, HEAD and OPTIONS are always allowed; any other method exactly when the user is present, authenticated and a superuser |
| Permissions.WriteNeedsSuperuser | fludiobe/api/permissions.py:14-15 | an allowed non-safe request comes from an authenticated superuser |
| Permissions.AnonymousCannotWrite | fludiobe/api/permissions.py:9-15 | without a user, POST, PUT, PATCH and DELETE are refused |
| Permissions.DecisionDependsOnlyOnMethodAndFlags | fludiobe/api/permissions.py:9-15 | two requests with the same method and user flags get the same decision, whatever their bodies |
| Permissions.SuperuserMayDoAnything | fludiobe/api/permissions.py:14-15 | an authenticated superuser is allowed every method |
| Serializers.ValidatePayload | fludiobe/simstates/serializers.py:11-20 | a non-object is refused as not an object; an object whose dump is longer than 200000 characters is refused as too large; otherwise the payload is returned unchanged |
| Serializers.LimitIsInclusive | fludiobe/simstates/serializers.py:18-19 | an object whose dump is exactly 200000 characters long is accepted unchanged |
| Serializers.TypeCheckFirst | fludiobe/simstates/serializers.py:13-19 | a non-object is refused for its type whatever its size |

## Left out

- The FLIP solver itself is not part of this model (flip-fluid.ts). The grid keeps the arrays the component writes, and `stepLog` records each step's arguments in place of the solver's effect on them.
- WebGL rendering, shaders, buffers, the canvas, `requestAnimationFrame` and starting or stopping the loop have no state in this model. The same goes for DOM sliders and checkboxes and the slider positions the loader computes with `Math.round` and `clamp`.
- Numbers are modelled as exact reals: no floating-point rounding, NaN or infinities.
- Grid sizes depend on `Math.floor` and `Math.sqrt` of the tank size. `numX`, `numY`, `dy`, the grid dimensions and the obstacle start `(4 / cScale, 2 / cScale)` are therefore parameters of `SetupScene`. The time step is the constant 1/60.
- ArtFluid.ArtFluidComponent.ApplyColours, ArtFluid.ArtFluidComponent.ApplyLow, ArtFluid.ArtFluidComponent.ApplyHigh, ArtFluid.ArtFluidComponent.ApplyBall, ArtFluid.ArtFluidComponent.ApplyStatePayload: the follow-up calls after the colour triples are written are not modelled. `updateBackgroundColor` only styles the page. `updateLowRGB`, `updateHighRGB` and `updateBallRGB` rewrite each stored triple from the slider values, or from ten times the restored component when there are no sliders, scaled by 0.1. With sliders a component becomes its slider position (rounded to tenths and limited by the slider's range). Without sliders a number comes back as itself up to floating-point rounding, and a non-number is coerced (null to 0, a numeric string to its number, undefined to NaN). So ArtFluid.SaveRestoreRoundTrip, ArtFluid.SerializedRgbs and ArtFluid.ApplyIdempotent hold for the program only for numeric components without sliders, up to floating-point rounding.
- ArtFluid.ArtFluidComponent.ApplyStatePayload: the component's particles branch only logs a message and is not modelled.
- Image loading and `setSimulationImage`/`clearSimulationImage`, `async`/`await` and `console` output are left out.
- ArtFluid.NewTank: the solver's constructor is not part of this model (flip-fluid.ts), and the model assumes it stores the cell size it is given, so the grid's `h`, which the obstacle stamp uses, is the setup's `h`, which the seeding uses. It also assumes the constructor allocates `s`, `u`, `v` and `particlePos` zero-filled, as typed arrays are, with no particles; the zero velocities and zero remaining particle slots after setup rest on this. The two are kept apart in the model: `SeedParticles` takes the setup's spacing as a parameter.
- JsStrings.ToLower: keys are strings, and lower-casing (and JsStrings.ToUpper's upper-casing) covers ASCII letters only.
- ArtFluid.ArtFluidComponent.StartDrag: takes simulation coordinates. `clientToSim` (art-fluid.component.ts:607-614), which maps a pointer position through the canvas bounds and `cScale` and flips `y`, is not modelled.
- ArtFluid.ArtFluidComponent.Drag: takes simulation coordinates for the same reason; `clientToSim` is not modelled.
- SimStateLoader.Target.Apply: the loader's optional callbacks on a generic target are foreign code and are not called: `stopSimulationAndCleanup`, `onFlipRatioChange`, `onThresholdChange`, `updateBackgroundColor`, `updateLowRGB`, `updateHighRGB`, `updateBallRGB`, `recalculateDerivedState` and `startSimulationLoop`. On the art-fluid component, `updateLowRGB`, `updateHighRGB` and `updateBallRGB` rewrite the triples the loader has just written, as the ApplyColours line describes. So SimStateLoader.SaveLoadRoundTrip and SimStateLoader.CanonicalRoundTrip describe the loader's own writes, not what such a target ends up holding. The loader raises `__isLoadingState`, which the component's handlers do not read, so on the component they also act. Exceptions from `reinitializeParticleBuffers` are not modelled. The canReinitialize flag says only whether the reinitializer exists.
- SimStateLoader.SerializeSimState: `target.scene?.` is modelled with the scene always present.
- HTTP is not modelled: login, registration, `fetchUserFromServer`, the HTTP interceptor and the refresh request itself. The refresh request's outcome is the `reply` parameter.
- `atob`, `decodeURIComponent` and `JSON.parse` are the `decode` parameter. It yields `None` where they would throw. Python's `json.dumps` is the `dumps` parameter.
- Auth.AuthService.RefreshAccessToken: a non-string `access` field in the reply is not modelled.
- Storage exceptions are modelled as "no browser" only (`hasWindow`). The Observables `isAuthenticated$` and `user$` are modelled by the last value published on them.
- The Django view, URL and model layers around the permission and serializer are left out.
