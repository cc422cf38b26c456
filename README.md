# SteeringTest core, modelled in Dafny

This project models the game logic of SteeringTest, a libGDX/Box2D demo in
which steering-driven characters move over a Tiled map. Five pieces are
modelled:

- **Map-to-body synthesis** (`MapBodyManager`). The physics layer of a map
  is looked up, one static Box2D body is made per rectangle, polygon,
  polyline or circle object, and each body gets the material resolved from a
  catalog. The catalog itself is loaded from a parsed materials file. The
  manager keeps track of the bodies it made and can destroy them.
- **Steering actuation** (`Character`). A steering output becomes a force
  and a torque, or a snap of the facing to the velocity. When some
  acceleration was applied, the speeds are capped. Then the position wraps
  around the screen.
- **Unit and vector helpers** (`PhysicsUtils`, `Box2DLocation`). These cover
  pixel/metre conversion, the angle/vector conversions and the
  distance-along-a-line helpers.
- **Camera helpers** (`CameraUtil`). One is the 10% follow step towards the
  player. The other is the clamp that keeps the view inside the map.
- **Layer partition** (`MapRenderer`). Layers are split into those drawn
  before the player and those drawn after it.

Coordinates and floats are `real`. The Box2D world is a class holding a map
from body ids to bodies (fixtures plus user data). The character's dynamic
body is the character's own fields: transform, velocities, the force and
torque collected for the next world step, and a count of transform writes.
`atan2`, `sin`, `cos` and `sqrt` are function-valued fields of a `MathLib`
passed in as a parameter. Where a proof needs a fact about them it is a
precondition: `SqrtSound` (a positive number's root is positive and squares
back) or `PythagoreanIdentity`. Screen and map sizes, which the code reads
from `Gdx.graphics` and from map properties, are parameters.

Module layout:

- `wrappers.dfy`: `Option`.
- `vectors.dfy`: `Vec2` values and the mutable `Vector2`.
- `real_math.dfy`: the abstract `MathLib`.
- `physics_utils.dfy`: PhysicsUtils.
- `box2d_location.dfy`: Box2DLocation.
- `camera_util.dfy`: CameraUtil.
- `maps.dfy`: Tiled layers, objects and properties.
- `map_renderer.dfy`: MapRenderer.
- `geometry.dfy`: the shape getters of MapBodyManager.
- `materials.dfy`: the material catalog.
- `box2d_world.dfy`: the Box2D world.
- `map_body_manager.dfy`: MapBodyManager.
- `character.dfy`: Character.

Where the code and the documented intent part ways, the model follows the
code:

- `angleToVector` ignores its `angle` argument. It rewrites the vector from
  the vector's own old components.
- The "npc" hollow rectangle is built from the pixel rectangle without
  dividing by `units`.
- Three cases end createPhysics with a null dereference: a layer material
  missing from the catalog, an object material missing from the catalog, and
  "npc" on a non-rectangle whose stored definition has no shape. If that
  definition still holds a shape (one given to addFixture), the npc object
  uses that stale shape and no crash happens; the model covers this case too.
  The model makes each crash an explicit error outcome, not a skip. The world
  and the catalog are kept as they were at the throw, which includes the
  fixture-less body that was just created.
- Records from the materials file default to mask 0x0000, so without a
  "mask" field such a material collides with nothing. The two built-ins keep
  Box2D's mask -1, so "default" and "physics" are the same definition.
- `applySteering` reads the shared static steering output, not its
  `steering` parameter.

## Model

| member | source | states |
|---|---|---|
| PhysicsUtils.PixelsToMeters | core/src/se/wastedtime/steering/PhysicsUtils.java:96-98 | the metre value times 50 is the pixel count again |
| PhysicsUtils.VectorToAngle | core/src/se/wastedtime/steering/PhysicsUtils.java:86-88 | the steering angle of a direction: atan2(−x, y), so 0 points along +y (no contract of its own; Locations.Box2DLocation.VectorToAngle and Entities.SteeringEffects state it) |
| PhysicsUtils.PixelsToMetersOfZero | core/src/se/wastedtime/steering/PhysicsUtils.java:96-98 | 0 pixels is 0 metres |
| PhysicsUtils.PixelsToMetersMonotone | core/src/se/wastedtime/steering/PhysicsUtils.java:96-98 | more pixels never give fewer metres |
| PhysicsUtils.TruncateToInt | core/src/se/wastedtime/steering/PhysicsUtils.java:101 | the int cast truncates toward zero: floor for non-negative values, ceiling for negative ones |
| PhysicsUtils.MetersToPixels | core/src/se/wastedtime/steering/PhysicsUtils.java:100-102 | metres times 50, cut toward zero: for non-negative metres p ≤ 50·m < p + 1, for negative ones p − 1 < 50·m ≤ p |
| PhysicsUtils.MetersToPixelsUndoesPixelsToMeters | core/src/se/wastedtime/steering/PhysicsUtils.java:96-102 | over the reals, converting pixels to metres and back gives the same pixel count |
| PhysicsUtils.AngleToVector | core/src/se/wastedtime/steering/PhysicsUtils.java:90-94 | returns the same object it was given; new x is -sin(old x) and new y is cos(old y); `angle` plays no part |
| PhysicsUtils.AddDistanceTowards | core/src/se/wastedtime/steering/PhysicsUtils.java:16-25 | returns a fresh vector: start plus distance along the direction to target; the inputs are untouched |
| PhysicsUtils.AddDistance | core/src/se/wastedtime/steering/PhysicsUtils.java:35-45 | returns a fresh vector: point plus distance along the point's own direction; the input is untouched |
| PhysicsUtils.SubDistanceTowards | core/src/se/wastedtime/steering/PhysicsUtils.java:56-65 | returns a fresh vector: start minus the same offset that addDistance adds; the inputs are untouched |
| PhysicsUtils.SubDistance | core/src/se/wastedtime/steering/PhysicsUtils.java:75-84 | returns a fresh vector: point minus the same offset that addDistance adds; the input is untouched |
| PhysicsUtils.TowardsHelpersAreSymmetric | core/src/se/wastedtime/steering/PhysicsUtils.java:16-65 | for equal arguments the add and sub results lie symmetrically about start, which is their midpoint |
| PhysicsUtils.OutwardsHelpersAreSymmetric | core/src/se/wastedtime/steering/PhysicsUtils.java:35-84 | the same for the one-point overloads |
| PhysicsUtils.OffsetHasRequestedLength | core/src/se/wastedtime/steering/PhysicsUtils.java:20-22 | an offset (d·cos a, d·sin a) has length d, given sin²+cos²=1 |
| PhysicsUtils.TowardsOffsetLength | core/src/se/wastedtime/steering/PhysicsUtils.java:16-25 | the two-point helpers move start by exactly `distance` |
| PhysicsUtils.OutwardsOffsetLength | core/src/se/wastedtime/steering/PhysicsUtils.java:35-45 | the one-point helpers move point by exactly `distance` |
| Locations.Box2DLocation.constructor | core/src/se/wastedtime/steering/Box2DLocation.java:11-14 | a fresh location owns a fresh vector at the origin and has orientation 0 |
| Locations.Box2DLocation.GetPosition | core/src/se/wastedtime/steering/Box2DLocation.java:17-19 | returns the stored vector itself |
| Locations.MoveThroughGetPosition | core/src/se/wastedtime/steering/Box2DLocation.java:17-19 | a write through the returned vector moves the location and keeps its orientation |
| Locations.Box2DLocation.SetOrientation | core/src/se/wastedtime/steering/Box2DLocation.java:27-29 | sets the orientation; the position object and its value are untouched |
| Locations.Box2DLocation.NewLocation | core/src/se/wastedtime/steering/Box2DLocation.java:32-34 | a fresh location at the origin with orientation 0, whatever the receiver holds; the receiver is not modified |
| Locations.Box2DLocation.VectorToAngle | core/src/se/wastedtime/steering/Box2DLocation.java:37-39 | delegates to PhysicsUtils: atan2(-x, y) |
| Locations.Box2DLocation.AngleToVector | core/src/se/wastedtime/steering/Box2DLocation.java:42-44 | delegates to PhysicsUtils: same object back, rewritten from its old components |
| CameraUtil.FollowAxis | core/src/se/wastedtime/steering/CameraUtil.java:12-13 | one axis of the follow step: p + (t − p)·0.1 (its properties are CameraUtil.FollowShrinksDistance) |
| CameraUtil.ClampAxis | core/src/se/wastedtime/steering/CameraUtil.java:30-38 | one axis of the clamp: raise to half, then lower to extent − half, in that order (its properties are the Clamp lemmas below) |
| CameraUtil.StickToPlayer | core/src/se/wastedtime/steering/CameraUtil.java:10-16 | x and y each move a tenth of the way to the target; z is kept |
| CameraUtil.FollowShrinksDistance | core/src/se/wastedtime/steering/CameraUtil.java:12-13 | the remaining distance shrinks to 0.9 of itself; being at the target is a fixed point |
| CameraUtil.Boundary | core/src/se/wastedtime/steering/CameraUtil.java:18-25 | clamps with half the viewport against the map's width and height |
| CameraUtil.BoundaryWithin | core/src/se/wastedtime/steering/CameraUtil.java:27-42 | per axis: raise to the half-extent first, then lower so the far edge is not passed; z kept |
| CameraUtil.ClampRespectsFarEdge | core/src/se/wastedtime/steering/CameraUtil.java:35-38 | after the clamp, position + half ≤ extent in every case |
| CameraUtil.ClampInsideWideMap | core/src/se/wastedtime/steering/CameraUtil.java:30-38 | if the map is at least as wide as the view, the position ends in [half, extent − half] |
| CameraUtil.ClampOnNarrowMap | core/src/se/wastedtime/steering/CameraUtil.java:30-36 | if the map is narrower than the view, the later upper clamp wins: position = extent − half |
| CameraUtil.ClampKeepsInBounds | core/src/se/wastedtime/steering/CameraUtil.java:30-38 | a position already in bounds is unchanged |
| CameraUtil.ClampIdempotent | core/src/se/wastedtime/steering/CameraUtil.java:27-41 | clamping twice is clamping once |
| Maps.GetLayer | core/src/se/wastedtime/steering/MapBodyManager.java:64-74 | MapLayers.get: the first layer with exactly that name, or none exactly when no layer has it |
| MapRendering.FirstPlayer | core/src/se/wastedtime/steering/MapRenderer.java:45 | index of the first layer named "player" in any case, or the length when there is none |
| MapRendering.Flatten | core/src/se/wastedtime/steering/MapRenderer.java:32-40 | the layers the constructor hands to addLayer: a top-level group by its children, any other layer by itself (its properties are FlattenWithoutGroups, FlattenOfGroup and FlattenAppend) |
| MapRendering.AddOne | core/src/se/wastedtime/steering/MapRenderer.java:43-55 | an invisible layer changes nothing; a visible one is appended to exactly one of the two lists; once switched, the first list stays as it is and the switch stays on |
| MapRendering.AddAll | core/src/se/wastedtime/steering/MapRenderer.java:29-41 | addLayer over a sequence of layers, in order (its properties are AddAllAfterSwitch, AddAllSplitsAtFirstPlayer and PartitionFacts) |
| MapRendering.FlattenWithoutGroups | core/src/se/wastedtime/steering/MapRenderer.java:32-40 | without top-level groups the constructor passes the layers on unchanged |
| MapRendering.FlattenOfGroup | core/src/se/wastedtime/steering/MapRenderer.java:33-37 | a top-level group is replaced by its children as they are, nested groups included |
| MapRendering.FlattenAppend | core/src/se/wastedtime/steering/MapRenderer.java:32-40 | flattening distributes over concatenation, so children keep their order |
| MapRendering.InvisibleLayerIgnored | core/src/se/wastedtime/steering/MapRenderer.java:44 | an invisible layer, "player" or not, changes nothing |
| MapRendering.AddAllAfterSwitch | core/src/se/wastedtime/steering/MapRenderer.java:45-53 | once switched, every further visible layer goes to the second list |
| MapRendering.AddAllSplitsAtFirstPlayer | core/src/se/wastedtime/steering/MapRenderer.java:43-55 | visible layers before the first visible "player" go first; it and all later visible layers go last |
| MapRendering.PartitionIsVisibleLayers | core/src/se/wastedtime/steering/MapRenderer.java:43-55 | the first list followed by the last list is exactly the visible layers, in order |
| MapRendering.PartitionFacts | core/src/se/wastedtime/steering/MapRenderer.java:29-55 | no "player" layer before the switch; the second list starts with the first visible "player" layer; switchList is set exactly when the second list is non-empty |
| MapRendering.SwitchIsMonotone | core/src/se/wastedtime/steering/MapRenderer.java:43-55 | switchList never goes back to false |
| MapRendering.MapRenderer.constructor | core/src/se/wastedtime/steering/MapRenderer.java:29-41 | the lists are the partition of the visible flattened layers; no player layer in the first; the last starts with one; switchList is set exactly when the last is non-empty |
| MapRendering.MapRenderer.AddLayer | core/src/se/wastedtime/steering/MapRenderer.java:43-55 | one layer added to the partition state |
| MapRendering.MapRenderer.RenderBefore | core/src/se/wastedtime/steering/MapRenderer.java:57-67 | firstRun is set |
| MapRendering.MapRenderer.RenderAfter | core/src/se/wastedtime/steering/MapRenderer.java:69-81 | the warning is given exactly when renderBefore has not run; drawing goes ahead either way |
| Geometry.GetRectangle | core/src/se/wastedtime/steering/MapBodyManager.java:218-228 | a box with angle 0 whose edges, times units, are exactly the rectangle's edges |
| Geometry.GetCircle | core/src/se/wastedtime/steering/MapBodyManager.java:230-236 | a circle whose centre and radius, times units, are the object's |
| Geometry.GetPolygon | core/src/se/wastedtime/steering/MapBodyManager.java:238-250 | same count and order of coordinates, each one times units giving the original |
| Geometry.GetPolyline | core/src/se/wastedtime/steering/MapBodyManager.java:252-265 | len/2 points; point i times units is (v[2i], v[2i+1]) |
| Geometry.GetHollowRectangle | core/src/se/wastedtime/steering/MapBodyManager.java:202-216 | 5 points: the corners (x,y), (x,y+h), (x+w,y+h), (x+w,y), then (x,y) again |
| Geometry.HollowRectangleIsUnscaledBoxOutline | core/src/se/wastedtime/steering/MapBodyManager.java:202-228 | the outline's corners are the box's corners at units = 1 |
| Geometry.HollowRectangleIgnoresUnits | core/src/se/wastedtime/steering/MapBodyManager.java:202-228 | for units ≠ 1 and x ≠ 0, the outline does not start at the box's corner: it is not scaled |
| Materials.ToShort | core/src/se/wastedtime/steering/MapBodyManager.java:175-176 | a 16-bit signed result congruent to the input mod 65536, equal to it when in range |
| Materials.RecordFixture | core/src/se/wastedtime/steering/MapBodyManager.java:171-176 | the definition one record gives, with the getters' defaults for absent fields and no shape (its properties are RecordDefaults and PutRecordsClean) |
| Materials.PutRecords | core/src/se/wastedtime/steering/MapBodyManager.java:168-183 | the puts of the record loop, ending at the first unreadable record (its properties are the PutRecords lemmas) |
| Materials.LoadedCatalog | core/src/se/wastedtime/steering/MapBodyManager.java:147-184 | the two built-ins, then the records when the file parses (its properties are LoadedHasBuiltins, UnreadableLoadsBuiltinsOnly and LoadedIsClean) |
| Materials.BuiltinsCoincide | core/src/se/wastedtime/steering/MapBodyManager.java:149-161 | "default" and "physics" are the same definition |
| Materials.RecordDefaults | core/src/se/wastedtime/steering/MapBodyManager.java:171-176 | a record with no fields gives density 1, friction 1, restitution 0, category 0x0001 and mask 0x0000 |
| Materials.LoadedHasBuiltins | core/src/se/wastedtime/steering/MapBodyManager.java:147-161 | after loading, "default" and "physics" are always present |
| Materials.UnreadableLoadsBuiltinsOnly | core/src/se/wastedtime/steering/MapBodyManager.java:164-183 | a file that fails to parse adds only the two built-ins |
| Materials.PutRecordsStopsAtUnreadable | core/src/se/wastedtime/steering/MapBodyManager.java:168-183 | records after the first unreadable one have no effect; the earlier puts stay |
| Materials.PutRecordsKeys | core/src/se/wastedtime/steering/MapBodyManager.java:168-179 | the new keys are exactly the names of the records read |
| Materials.PutRecordsKeepsUnnamed | core/src/se/wastedtime/steering/MapBodyManager.java:178 | an entry no record names is left as it was |
| Materials.PutRecordsLastWins | core/src/se/wastedtime/steering/MapBodyManager.java:178 | the last readable record of a name decides its definition |
| Materials.ReadablePrefix | core/src/se/wastedtime/steering/MapBodyManager.java:168-181 | the records read before the first one whose getter throws |
| Materials.NamesOf | core/src/se/wastedtime/steering/MapBodyManager.java:169 | the set of record names, both directions |
| Materials.LoadedIsClean | core/src/se/wastedtime/steering/MapBodyManager.java:147-184 | every loaded definition has no shape set |
| Materials.PutRecordsClean | core/src/se/wastedtime/steering/MapBodyManager.java:171-178 | each record's definition starts with no shape |
| Box2D.World.CreateBody | core/src/se/wastedtime/steering/MapBodyManager.java:103 | a fresh id with no fixtures and no user data; the other bodies are unchanged |
| Box2D.World.CreateFixture | core/src/se/wastedtime/steering/MapBodyManager.java:128 | appends a fixture of the definition's shape and material to that body |
| Box2D.World.SetUserData | core/src/se/wastedtime/steering/MapBodyManager.java:113 | sets the user data of that body only |
| Box2D.World.DestroyBody | core/src/se/wastedtime/steering/MapBodyManager.java:141 | the body leaves the world |
| MapBodies.GroupScan | core/src/se/wastedtime/steering/MapBodyManager.java:66-71 | the group loop's result names the requested layer |
| MapBodies.ResolveLayer | core/src/se/wastedtime/steering/MapBodyManager.java:64-77 | the layer found has the requested name; none is found only if no top-level layer has it |
| MapBodies.LastGroupDecides | core/src/se/wastedtime/steering/MapBodyManager.java:66-71 | the last top-level group alone decides the group lookup, even when it lacks the layer |
| MapBodies.GroupScanWithoutGroups | core/src/se/wastedtime/steering/MapBodyManager.java:66-71 | with no groups the group loop finds nothing |
| MapBodies.NoGroupsMeansTopLevelLookup | core/src/se/wastedtime/steering/MapBodyManager.java:64-74 | with no groups the layer is the top-level one of that name |
| MapBodies.Resolve | core/src/se/wastedtime/steering/MapBodyManager.java:105-126 | a resolved material is a catalog key |
| MapBodies.LayerMaterialTakesPrecedence | core/src/se/wastedtime/steering/MapBodyManager.java:107-114 | a layer material decides for every object whatever its own property says; the body has the direct shape and the "LOS" tag; it fails exactly when the material is missing |
| MapBodies.ObjectMaterialDefaultsToDefault | core/src/se/wastedtime/steering/MapBodyManager.java:115-126 | without a layer or object material, the object uses "default" with its direct shape |
| MapBodies.ObjectMaterialIsUsed | core/src/se/wastedtime/steering/MapBodyManager.java:115-126 | with no layer material and a non-"npc" object material M (the object's own property when it has one): the pass resolves iff M is in the catalog, fails with MissingObjectMaterial(M) otherwise, and the body is the direct shape with M's material and no user data |
| MapBodies.NpcRectangleBecomesOutline | core/src/se/wastedtime/steering/MapBodyManager.java:120-122 | an "npc" rectangle (any case) becomes the hollow outline with the npc material |
| MapBodies.NpcNonRectangleFails | core/src/se/wastedtime/steering/MapBodyManager.java:120-128 | an "npc" non-rectangle has no shape in a clean catalog, and the pass fails |
| MapBodies.Step | core/src/se/wastedtime/steering/MapBodyManager.java:82-132 | one pass of the object loop: an object of no accepted kind changes nothing; an accepted one takes the next id and adds that id to the world, whether or not its material then resolves |
| MapBodies.Run | core/src/se/wastedtime/steering/MapBodyManager.java:81-133 | the object loop, in object order, stopping at the first error (its properties are the Run lemmas below) |
| MapBodies.CreatePhysicsOutcome | core/src/se/wastedtime/steering/MapBodyManager.java:62-134 | the layer lookup, then the object loop over that layer; nothing changes when no layer is found (stated by MapBodies.MapBodyManager.CreatePhysics) |
| MapBodies.StepKeepsCoherent | core/src/se/wastedtime/steering/MapBodyManager.java:81-133 | tracked bodies stay live and distinct through one pass, failing or not |
| MapBodies.StepKeepsCatalog | core/src/se/wastedtime/steering/MapBodyManager.java:107-131 | the shape a pass puts into the shared definition is cleared again, so a clean catalog stays as it was |
| MapBodies.RunKeepsCoherent | core/src/se/wastedtime/steering/MapBodyManager.java:81-133 | the same over the whole object loop |
| MapBodies.Accepted | core/src/se/wastedtime/steering/MapBodyManager.java:82-101 | only rectangles, polygons, polylines and circles are kept, in order |
| MapBodies.Ids | core/src/se/wastedtime/steering/MapBodyManager.java:103-129 | notation: the n consecutive ids from a start that RunTracksOneIdPerAcceptedObject speaks of |
| MapBodies.RunTracksOneIdPerAcceptedObject | core/src/se/wastedtime/steering/MapBodyManager.java:81-133 | over a clean catalog (one with no shapes set, which is what the loader produces: LoadedIsClean), on success, one new consecutive id per accepted object, tracked in object order; catalog unchanged |
| MapBodies.RunMakesOneBodyPerAcceptedObject | core/src/se/wastedtime/steering/MapBodyManager.java:81-133 | over a clean catalog (one with no shapes set, which is what the loader produces: LoadedIsClean), on success, the k-th accepted object is the k-th new body, made from its resolved material; earlier bodies unchanged; no other ids appear |
| MapBodies.RunFailsIffSomeObjectUnresolved | core/src/se/wastedtime/steering/MapBodyManager.java:105-128 | over a clean catalog (one with no shapes set, which is what the loader produces: LoadedIsClean), the loop fails exactly when some accepted object's material does not resolve |
| MapBodies.FailureLeavesUntrackedBody | core/src/se/wastedtime/steering/MapBodyManager.java:103-128 | a failure leaves the body just created in the world, without fixtures and untracked |
| MapBodies.IceRectangleScenario | core/src/se/wastedtime/steering/MapBodyManager.java:62-184 | a 64×64 "ice" rectangle at 32 pixels per unit becomes one body: box (1,1) at (1,1), density 1, friction 0.1, restitution 0, category 1, mask 0 |
| MapBodies.MapBodyManager.constructor | core/src/se/wastedtime/steering/MapBodyManager.java:48-56 | with no materials file the catalog is empty; otherwise it is the loaded catalog |
| MapBodies.MapBodyManager.FindLayer | core/src/se/wastedtime/steering/MapBodyManager.java:64-74 | the lookup loop computes ResolveLayer |
| MapBodies.MapBodyManager.CreatePhysics | core/src/se/wastedtime/steering/MapBodyManager.java:62-134 | world, tracked list and catalog end as the synthesis says, including the error outcomes; with no layer found nothing changes |
| MapBodies.MapBodyManager.AddBody | core/src/se/wastedtime/steering/MapBodyManager.java:82-131 | one pass of the object loop |
| MapBodies.MapBodyManager.PrepareFixture | core/src/se/wastedtime/steering/MapBodyManager.java:105-128 | picks the definition and sets its shape, or fails, as Resolve says |
| MapBodies.MapBodyManager.AttachFixture | core/src/se/wastedtime/steering/MapBodyManager.java:113-131 | the body gets the "LOS" tag when asked, plus one fixture of the prepared shape and material; it is tracked; the definition's shape is cleared |
| MapBodies.MapBodyManager.DestroyPhysics | core/src/se/wastedtime/steering/MapBodyManager.java:139-145 | every tracked body leaves the world and the list is empty; a second call changes nothing |
| MapBodies.MapBodyManager.LoadMaterialsFile | core/src/se/wastedtime/steering/MapBodyManager.java:147-184 | the catalog becomes the built-ins plus the records read |
| MapBodies.MapBodyManager.AddFixture | core/src/se/wastedtime/steering/MapBodyManager.java:192-194 | puts the definition under the name, replacing any earlier one |
| Entities.CapLinearSpeed | core/src/se/wastedtime/steering/entities/Character.java:139-145 | unchanged if |v|² ≤ max²; otherwise speed exactly max on the same line, same direction iff max ≥ 0 |
| Entities.CapAngularSpeed | core/src/se/wastedtime/steering/entities/Character.java:147-151 | never raises ω; ω ≤ max is kept; ω > max becomes max |
| Entities.Character.constructor | core/src/se/wastedtime/steering/entities/Character.java:34-41 | at (5, 5), at rest, all limits zero |
| Entities.Character.At | core/src/se/wastedtime/steering/entities/Character.java:43-47 | at the given position, otherwise the same |
| Entities.Character.Update | core/src/se/wastedtime/steering/entities/Character.java:84-102 | steer when there is a behaviour, then wrap with the screen size in metres |
| Entities.Character.ApplySteering | core/src/se/wastedtime/steering/entities/Character.java:104-153 | the body becomes Steered of the old body and the shared output; the character's fields are kept |
| Entities.Character.FaceVelocity | core/src/se/wastedtime/steering/entities/Character.java:121-129 | turns to the velocity unless it is below the threshold |
| Entities.Character.CapBodySpeeds | core/src/se/wastedtime/steering/entities/Character.java:139-151 | both caps on the body's velocities |
| Entities.Character.WrapAround | core/src/se/wastedtime/steering/entities/Character.java:157-170 | the body becomes Wrapped of the old body |
| Entities.Character.SetOrientation | core/src/se/wastedtime/steering/entities/Character.java:185-187 | writes the transform with the same position and the new angle |
| Entities.Character.ApplyForceToCenter | core/src/se/wastedtime/steering/entities/Character.java:110 | the force adds to what the next world step applies |
| Entities.Character.ApplyTorque | core/src/se/wastedtime/steering/entities/Character.java:118 | the torque adds to what the next world step applies |
| Entities.Character.SetLinearVelocity | core/src/se/wastedtime/steering/entities/Character.java:144 | the body's linear velocity becomes the given vector; nothing else changes |
| Entities.Character.SetAngularVelocity | core/src/se/wastedtime/steering/entities/Character.java:150 | the body's angular velocity becomes the given value; nothing else changes |
| Entities.Character.SetTransform | core/src/se/wastedtime/steering/entities/Character.java:127 | sets position and angle, and counts the write |
| Entities.Character.SetMaxLinearSpeed | core/src/se/wastedtime/steering/entities/Character.java:233-241 | the getter returns the new value; no other field changes |
| Entities.Character.SetMaxLinearAcceleration | core/src/se/wastedtime/steering/entities/Character.java:243-251 | the getter returns the new value; no other field changes |
| Entities.Character.SetMaxAngularSpeed | core/src/se/wastedtime/steering/entities/Character.java:253-261 | the getter returns the new value; no other field changes |
| Entities.Character.SetMaxAngularAcceleration | core/src/se/wastedtime/steering/entities/Character.java:263-271 | the getter returns the new value; no other field changes |
| Entities.Character.SetTagged | core/src/se/wastedtime/steering/entities/Character.java:204-212 | isTagged returns the new value; no other field changes |
| Entities.Character.GetZeroLinearSpeedThreshold | core/src/se/wastedtime/steering/entities/Character.java:273-276 | always 0.001 |
| Entities.Character.SetZeroLinearSpeedThreshold | core/src/se/wastedtime/steering/entities/Character.java:278-281 | always throws UnsupportedOperationException and changes nothing |
| Entities.Steered | core/src/se/wastedtime/steering/entities/Character.java:104-153 | applySteering on body values (its properties are SteeringEffects, AccelerationLeavesSpeedsCapped and FacingAloneIsNotCapped) |
| Entities.Wrapped | core/src/se/wastedtime/steering/entities/Character.java:157-170 | wrapAround on body values (its properties are the Wrap lemmas) |
| Entities.Updated | core/src/se/wastedtime/steering/entities/Character.java:84-102 | update on body values: steer when there is a behaviour, then wrap at the screen size in metres (its property is UpdateWithoutBehaviourOnlyWraps) |
| Entities.CapLinearSpeedIdempotent | core/src/se/wastedtime/steering/entities/Character.java:139-145 | capping a capped velocity changes nothing |
| Entities.AccelerationLeavesSpeedsCapped | core/src/se/wastedtime/steering/entities/Character.java:131-152 | after a step that applied a force or torque, |v|² ≤ max² and ω ≤ maxAngularSpeed |
| Entities.AngularCapIsOneSided | core/src/se/wastedtime/steering/entities/Character.java:147-151 | an ω at or below the limit, however negative, is kept |
| Entities.FacingAloneIsNotCapped | core/src/se/wastedtime/steering/entities/Character.java:121-131 | the facing snap alone does not trigger the caps: velocity, force and torque are kept |
| Entities.SteeringEffects | core/src/se/wastedtime/steering/entities/Character.java:104-153 | position kept; force added only for a non-zero linear output; torque only with independent facing and a non-zero angular output; linear velocity changed only by the cap; angular velocity set to (facing angle − ω)·Δt when facing the velocity, otherwise kept, and then capped by maxAngularSpeed whenever some acceleration was applied; the angle snaps to atan2(−vx, vy) only when not independent and not standing still |
| Entities.UpdateWithoutBehaviourOnlyWraps | core/src/se/wastedtime/steering/entities/Character.java:84-102 | with no behaviour, update is wrapAround alone |
| Entities.WrapTouchesOnlyPosition | core/src/se/wastedtime/steering/entities/Character.java:157-170 | only the position changes, the angle is written back as it was, and the transform is written iff a rule fired |
| Entities.WrapKeepsOnScreen | core/src/se/wastedtime/steering/entities/Character.java:157-170 | on a non-negative screen the wrapped position is on the screen |
| Entities.WrapSendsToOppositeEdge | core/src/se/wastedtime/steering/entities/Character.java:161-167 | past the right edge → 0, left of 0 → maxX, below 0 → maxY, past the top → 0; in-range coordinates are kept |
| Entities.WrapOnScreenIsNoOp | core/src/se/wastedtime/steering/entities/Character.java:157-170 | an on-screen body is unchanged and no transform is written |
| Entities.WrapIdempotent | core/src/se/wastedtime/steering/entities/Character.java:157-170 | wrapping twice is wrapping once |

## Left out

- Floating point. Every float is a real, so rounding, NaN and infinities are not modelled. This includes the fact that 0.02 and 50 are not exact reciprocals in `float`, and Java's saturating int cast for values outside the int range.
- wrapAround's `k` sentinel is Float.POSITIVE_INFINITY. The model uses a flag instead, so the case of a screen edge at infinity (where the sentinel would hide a write) is not modelled.
- Trigonometry and square root are abstract, as described above.
- JSON parsing is not modelled. The loader takes parsed records: a field is given, absent, or malformed (a getter would throw), and a file is either unreadable or a record list. How `name()` maps a JSON entry to its key is a library detail.
- Box2D internals are not modelled: shape validation, polygon hull reordering, `shape.dispose`, fixture filters beyond category and mask, and all integration in `world.step`. Forces and torques are only collected.
- The character's own body creation (`initBody`: fixed rotation, the 0.3 box, density 70, mask 0x0007) and its user data are not modelled, and neither is the link between the character and the World class.
- Box2D's `getPosition` and `getLinearVelocity` return vectors that are refreshed on each call; the model reads values.
- Character's one-line accessors (getPosition, getOrientation, getLinearVelocity, getAngularVelocity, getBoundingRadius, the limiter getters) are reads of the fields and have no rows.
- Character's newLocation, vectorToAngle and angleToVector delegate to Box2DLocation and PhysicsUtils, which are modelled there.
- getSteeringBehavior and setSteeringBehavior are not modelled. The steering behaviour (gdx-ai `calculateSteering`) is an input, `Option<SteeringAcceleration>`, where none means no behaviour.
- Entities.Character.ApplySteering: the shared static steering output is passed in as a per-call value (`shared`). Writes to it by other characters between calls are not modelled.
- Drawing is not modelled: the tile and object rendering in MapRenderer, the renderer's unit scale, and `camera.update()`.
- Logging and printing (`Gdx.app.log`, `System.out`, `printStackTrace`) are not modelled.
- GameScreen is not part of this model: screen lifecycle, map loading, debug drawing and input.
- MapBodies.MapBodyManager.AddFixture: the catalog holds FixtureDef values, while the code stores the caller's mutable object and createPhysics writes `shape` on it. So a definition added under two names, or changed by the caller after addFixture, does not share later shape writes in the model. For example, take one definition holding shape S added as "npc" and as "NPC", then a non-rectangle "npc" object followed by a non-rectangle "NPC" object. Both names take the npc branch, which leaves the shape as it is. The code builds the first fixture from S and then clears the shared `shape`, so `createFixture` at line 128 gets no shape for the second object and throws. The model still holds S under "NPC" and succeeds.
- Maps.EqualsIgnoreCase: folds ASCII letters only. This agrees with Java's `equalsIgnoreCase` for the two constants it is compared with ("player" and "npc"), but not in general for other Unicode case pairs.
- MapBodies.MapBodyManager.constructor: `unitsPerPixel` is required to be non-zero, because the shape getters divide by it. The code does not check this.
- The `mapName` argument of createPhysics is unused in the code and in the model.
