# Asteroids on OpenGL, modelled in Dafny

This project models the core of a small OpenGL Asteroids game written in C++. The
player flies a wire-frame ship over a grid. Asteroids drift in from the edges of
the arena. The ship fires bullets that make asteroids swell, and two
missiles that explode, each scoring at most one kill per supply. A missile supply
and an ammo box sit at random spots. Colliding with an asteroid sends the ship
back to the centre and, if it has scored since its last death, costs a life.

The model has three layers:

- **GlUtilities**, **Adjustables**: the utility layer. `randRange`, `clamp`,
  the HSV-to-RGB conversion, and the `Adjustable` object that tunes registered
  floats from the keyboard (a class with its list of records and its selection).
- **MeshGeometry**, **Meshes**, **LitMeshes**: the mesh builders (grid, cube,
  cylinder, sphere, stars, trail particles, ship frame, and the lit cube,
  cylinder and sphere). Each builder's loops are methods proved equal to a
  functional description of the vertex and index lists. Lemmas then prove what
  the lists promise: every index names an existing vertex, every cube triangle
  lies on one face and every wire pair is a cube edge, the wire rings close, and
  cap normals point up and down.
- **GameMath**, **GameSpec**, **GameProperties**, **GameLoop**: the game.
  - `GameSpec` describes the global state of the game as one `World` value. It
    groups the fields as the source's own comments group the globals: ship,
    bullets, asteroids, missiles, pickups and trail.
  - It gives each part of a frame and each key callback as a function on
    `World`. The loops that erase while they scan are given one iteration at a
    time.
  - `GameLoop.AsteroidsGame` is the game as an object. It has one field per
    group of globals and one method per callback and display helper, each
    proved to change the state exactly as `GameSpec` says.
  - `GameProperties` proves what the game keeps and guarantees: the invariants
    of the state, what each loop touches, the spawner filling the field, the
    ammunition arithmetic, at most one kill per missile between supplies, the
    ship staying level, and the turn keys cancelling.

Random numbers, the rotation matrix `RotateY` and the window size are
parameters: a `rand()` result is a `draw` in `[0, RAND_MAX]`, and `RotateY(a) *
v` is `rot(a, v)`. Floats are exact reals.

Behaviour the model keeps as the code has it:

- `max_speed` starts at 0 and nothing changes it (term_proj.cpp:302), so the
  'a' key raises the speed by 0.03 with no bound —
  `GameProperties.SpeedKeyPassesMaxSpeed`.
- 'z' and 'x' relaunch their missile slot whether or not it is already
  flying (term_proj.cpp:900-911) — `GameLoop.AsteroidsGame.Keyboard`.
- A missile that hits keeps moving; only its collision point is fixed
  (term_proj.cpp:615-644) — `GameSpec.MissilesPhase`.
- The splash makes every asteroid within planar distance 15 of a set
  collision point grow by 0.1 each frame, not only while the explosion grows
  (term_proj.cpp:646-656) —
  `GameSpec.Splash`.
- After a pickup the missile supply is put two units below the ship's plane
  (term_proj.cpp:742), where the ship can never touch it again —
  `GameProperties.SupplyGoneForGood`.
- The roll correction leaves angles between -360 and -270 degrees alone,
  because the first disjunct of its last test cannot hold
  (term_proj.cpp:389) — `GameMath.CoordinateShipTurnStuckBand`.

## Model

| member | source | states |
|---|---|---|
| GlUtilities.RandRange | gl_utilities.cpp:42-45 | for any rand() value the result lies between min and max, whichever order they come in; rand() = 0 gives min and rand() = RAND_MAX gives max |
| GlUtilities.Clamp | gl_utilities.h:76-79 | the result is never below min; it is val inside [min, max], min below it and max above it; when max < min the lower bound wins |
| GlUtilities.TruncToInt | gl_utilities.cpp:72-73 | the (int) cast truncates toward zero: non-negative inputs round down, negative ones round up |
| GlUtilities.Hsv2Rgb | gl_utilities.cpp:51-118 | the three-argument conversion itself; what it returns is stated by the Hsv2Rgb lemmas below: gray when unsaturated or dark, black at value 0, gray at hue 1, the three primaries, sextants that join, and every channel in [0, 1] and in [m, v] |
| GlUtilities.Hsv2Rgba | gl_utilities.cpp:120-124 | the colour channels are those of the three-argument conversion and alpha is passed through |
| GlUtilities.Hsv2RgbUnsaturatedIsGray | gl_utilities.cpp:51-118 | with zero saturation every hue gives the gray (val, val, val) |
| GlUtilities.Hsv2RgbDarkIsGray | gl_utilities.cpp:56-61 | when the top of the range v is not positive the default gray is returned unchanged |
| GlUtilities.Hsv2RgbBlack | gl_utilities.cpp:51-118 | value 0 with a saturation in [0, 1] is black for every hue |
| GlUtilities.Hsv2RgbHueOneIsGray | gl_utilities.cpp:70-115 | hue 1 lands in sextant 6, which no case handles, so the result is the default gray |
| GlUtilities.Hsv2RgbPrimaries | gl_utilities.cpp:51-118 | hues 0, 1/3 and 2/3 at full saturation and value 0.5 give pure red, green and blue |
| GlUtilities.SextantsJoin | gl_utilities.cpp:78-115 | the end of each sextant (fraction 1) equals the start of the next, so the colour wheel has no jumps |
| GlUtilities.Hsv2RgbInRange | gl_utilities.cpp:51-118 | for hue in [0, 1) and saturation and value in [0, 1] every channel lies in [0, 1] |
| GlUtilities.Hsv2RgbInSextant | gl_utilities.cpp:59-115 | every channel lies between the bottom m and the top v of the colour range |
| GlUtilities.SextantOfHue | gl_utilities.cpp:70-73 | a hue in [0, 1) picks a sextant in 0..5 and a fraction in [0, 1) |
| GlUtilities.ScaledRampWithin | gl_utilities.cpp:69-74 | the ramp v * sv * fract stays within [0, v - m] |
| GlUtilities.SextantColourWithin | gl_utilities.cpp:75-115 | within one sextant, mid1 and mid2 and hence all channels stay in [m, v] |
| GlUtilities.TopBottomInUnit | gl_utilities.cpp:59-68 | for saturation and value in [0, 1], 0 <= m <= v <= 1 and v >= val |
| Adjustables.Pick | adjustable.cpp:42-49 | the pick is the last record with the pressed key, or the old selection when none has it |
| Adjustables.Step | adjustable.cpp:67-70 | shift selects the large adjustment, anything else the small one |
| Adjustables.Adjusted | adjustable.cpp:74-86 | UP adds the step to the target float and DOWN subtracts it; every other float, and every other key, leaves the store as it was |
| Adjustables.UpDownCancel | adjustable.cpp:76-83 | UP then DOWN, or DOWN then UP, with the same step restores the store |
| Adjustables.Adjustable.constructor | adjustable.cpp:20-24 | no records; the selection holds whatever the memory held |
| Adjustables.Adjustable.Add | adjustable.cpp:31-37 | appends exactly one record and keeps the selection |
| Adjustables.Adjustable.Key | adjustable.cpp:39-56 | the records are unchanged and the selection becomes Pick of the key |
| Adjustables.Adjustable.SpecialKey | adjustable.cpp:61-101 | with no records nothing changes and "" is returned; otherwise the selected float is adjusted as Adjusted says, and the description comes back exactly when UP or DOWN was pressed |
| MeshGeometry.ErrorCount | meshes.cpp:307-313 | never more errors than indices |
| MeshGeometry.ErrorCountZero | meshes.cpp:307-313 | for non-negative indices no error is reported exactly when every index names an existing vertex |
| MeshGeometry.CountIndexErrors | meshes.cpp:307-313 | the loop counts the indices past the last vertex, as ErrorCount says |
| MeshGeometry.DivideTriangle | meshes.cpp:398-432 | n <= 0 gives the triangle itself; n >= 0 gives 3 * 4^n corners, starting with the first corner |
| MeshGeometry.SphereVertices | meshes.cpp:365-394 | four faces of the tetrahedron subdivided n times: 12 * 4^n vertices, 12 for n <= 0 |
| Meshes.LinePair | meshes.cpp:64-77 | each grid line is one pair of vertices |
| Meshes.GridLines | meshes.cpp:64-77 | the loop up to i gives two vertices per line, none for an empty range |
| Meshes.GridLineAt | meshes.cpp:64-77 | the pair at position 2 * (i + n) is the line at coordinate i * sizeSquare spanning the other extent |
| Meshes.GridInit | meshes.cpp:56-91 | the vertical lines followed by the horizontal lines; for non-negative sizes 4 * (numX + numY + 1) vertices |
| Meshes.CubeIndicesBelow | meshes.cpp:115-171 | the constants CubeIndices (36 filled) and CubeWireIndices (24 wire) name only the 8 corners |
| Meshes.CubeTrianglesOnFaces | meshes.cpp:127-154 | each of the 12 filled triangles has three distinct corners on one face of the cube |
| Meshes.CubeWirePairsAreEdges | meshes.cpp:156-171 | each of the 12 wire pairs joins two corners along an edge of the cube |
| Meshes.RingPoints | meshes.cpp:242-247 | one point per facet |
| Meshes.Rings | meshes.cpp:238-248 | facets points per ring |
| Meshes.RingPointAt | meshes.cpp:242-247 | point f of ring s is on the circle of radius 0.5 at angle f / facets, at the height of layer s |
| Meshes.RingsAt | meshes.cpp:238-248 | point facets * s + f of the ring list is facet f of ring s |
| Meshes.CylinderVertexAt | meshes.cpp:234-251 | vertex 1 + facets * s + f is facet f of ring s, before the bottom centre |
| Meshes.CylinderVertices | meshes.cpp:232-251 | top centre, the rings, then the bottom centre; CylinderVertexAt and CylinderInit state its layout and count |
| Meshes.Cap | meshes.cpp:264-283 | three indices per facet |
| Meshes.SideRing | meshes.cpp:289-304 | six indices per facet |
| Meshes.Sides | meshes.cpp:285-305 | six indices per facet and segment |
| Meshes.WireRing | meshes.cpp:327-330 | one index per facet |
| Meshes.CylinderWire | meshes.cpp:321-333 | facets + 1 indices per ring |
| Meshes.CapBelow | meshes.cpp:264-283 | a cap's indices all name existing vertices when its centre and ring do |
| Meshes.SideRingBelow | meshes.cpp:289-304 | a side ring's indices stay below the start of the ring after the next one |
| Meshes.SidesBelow | meshes.cpp:285-305 | all side indices name existing vertices |
| Meshes.WireRingBelow | meshes.cpp:327-330 | a wire ring's indices stay within its ring |
| Meshes.CylinderWireBelow | meshes.cpp:321-333 | all wire indices name existing vertices |
| Meshes.CylinderIndicesBelow | meshes.cpp:261-313 | every index of the filled cylinder names one of its 2 + facets * (segments + 1) vertices, so the index check never fires |
| Meshes.CylinderWireClosed | meshes.cpp:325-333 | each wire ring ends with its own first vertex, closing the loop |
| Meshes.CylinderIndices | meshes.cpp:261-305 | the top cap, the bottom cap, then the sides; CylinderIndicesBelow states that every index names a vertex |
| Meshes.CylinderInit | meshes.cpp:224-341 | vertices, filled indices and wire indices are those the functions describe, with the stated counts; all indices are in range and no index error is counted |
| Meshes.CylinderRingVertices | meshes.cpp:232-251 | the centre, the rings and the bottom centre, in order |
| Meshes.CylinderCapIndices | meshes.cpp:264-272 | the top cap fan around vertex 0 |
| Meshes.CylinderSideIndices | meshes.cpp:285-305 | appends the side quads of every segment |
| Meshes.SideRingIndices | meshes.cpp:288-304 | the two triangles of each facet of one segment |
| Meshes.CylinderWireIndices | meshes.cpp:321-333 | one closed ring of indices per layer |
| Meshes.SphereInitCount | meshes.cpp:365-394 | 12 * 4^n vertices, the first face starting at the first tetrahedron corner and the second at the fourth |
| Meshes.StarsInit | meshes.cpp:466-485 | 4000 stars, each coordinate randRange(-130, 130) of its draw, so all inside the cube [-130, 130]^3 |
| Meshes.ShipParticlesInit | meshes.cpp:502-524 | 12 particles in the plane y = 0, within the random bounds, so inside [-0.15, 0.15]^2 |
| Meshes.ShipFrame | meshes.cpp:540-622 | the constant ShipVertices: 42 vertices drawn as 21 segments, none of them degenerate, inside [-1.6, 2] x [-0.1, 1.5] x [-3, 3] |
| LitMeshes.AddQuadFace | litmeshes.cpp:29-72 | four vertices carrying the normal, two triangles (i, i+1, i+2) and (i, i+2, i+3), and a normal line from the quad's centre only when one is asked for |
| LitMeshes.QuadIndicesBelow | litmeshes.cpp:43-58 | a face's indices stay below the vertex count after its four vertices |
| LitMeshes.FaceAppended | litmeshes.cpp:46-49 | appending face k keeps every vertex's normal equal to its face's normal |
| LitMeshes.AddCubeFace | litmeshes.cpp:75-158 | each face adds 4 vertices, 6 indices and 2 normal points, keeping the normals and index ranges right |
| LitMeshes.LitCubeInit | litmeshes.cpp:75-158 | 24 vertices, 36 in-range indices, 12 normal points; vertex k carries the normal of face k / 4 |
| LitMeshes.CapRing | litmeshes.cpp:349-368 | one vertex per facet, all with the cap's normal |
| LitMeshes.SideRingVertices | litmeshes.cpp:383-389 | one vertex per facet |
| LitMeshes.SideRings | litmeshes.cpp:379-390 | facets vertices per layer |
| LitMeshes.LitCylinderVertices | litmeshes.cpp:342-390 | top cap, bottom cap, then the side rings; LitCylinderCapNormals and LitCylinderInit state its normals and count |
| LitMeshes.LitCap | litmeshes.cpp:403-423 | three indices per facet |
| LitMeshes.LitSideRing | litmeshes.cpp:431-448 | six indices per facet |
| LitMeshes.LitSides | litmeshes.cpp:428-449 | six indices per facet and segment |
| LitMeshes.LitCylinderIndices | litmeshes.cpp:397-449 | both caps, then the sides; LitCylinderIndicesBelow states that every index names a vertex |
| LitMeshes.LitCapBelow | litmeshes.cpp:403-423 | a cap's indices name existing vertices |
| LitMeshes.LitSideRingBelow | litmeshes.cpp:431-448 | a side ring's indices stay below the end of the next ring |
| LitMeshes.LitSidesBelow | litmeshes.cpp:428-449 | all side indices name existing vertices |
| LitMeshes.LitCylinderIndicesBelow | litmeshes.cpp:398-457 | every index names one of the 2 * (facets + 1) + facets * (segments + 1) vertices, so the index check never fires |
| LitMeshes.LitCylinderCapNormals | litmeshes.cpp:342-368 | the top centre and ring point up, the bottom centre and ring point down |
| LitMeshes.NormalLines | litmeshes.cpp:477-485 | two points per vertex |
| LitMeshes.NormalLinesAt | litmeshes.cpp:479-485 | line k runs from vertex k to 0.3 along its normal |
| LitMeshes.LitCylinderInit | litmeshes.cpp:336-495 | vertices, indices and normal lines are those the functions describe, with the stated counts; all indices are in range and no index error is counted |
| LitMeshes.LitCylinderVertexLoops | litmeshes.cpp:342-390 | top cap, bottom cap, then the side rings |
| LitMeshes.LitCylinderIndexLoops | litmeshes.cpp:397-449 | caps, then sides |
| LitMeshes.LitCapLoops | litmeshes.cpp:400-423 | the top fan around vertex 0 and the bottom fan around vertex facets + 1, wound the other way |
| LitMeshes.LitSideLoops | litmeshes.cpp:428-449 | appends the side quads of every segment |
| LitMeshes.LitSideRingLoop | litmeshes.cpp:430-448 | the two triangles of each facet of one segment |
| LitMeshes.NormalLineLoop | litmeshes.cpp:477-485 | one line per vertex along its normal |
| LitMeshes.RadialLines | litmeshes.cpp:224-230 | two points per sphere vertex |
| LitMeshes.LitSphereInit | litmeshes.cpp:192-242 | the subdivided sphere's 12 * 4^n vertices and a normal line per vertex |
| GameMath.PlanarWithin | term_proj.cpp:358-361 | vec_length(v) < r over the x-z plane, compared as squares since the root is never negative; its effect is stated through Gate and SplashRing, in MissilesPhaseEffects and SplashAsteroids |
| GameMath.Collides | term_proj.cpp:364-373 | detect_collision; CollidesSymmetric states that the order of the two points does not matter, and HeightGapPreventsCollision that a height gap of at least the distance rules a collision out |
| GameMath.CollidesSymmetric | term_proj.cpp:364-373 | detect_collision does not depend on the order of its two points |
| GameMath.HeightGapPreventsCollision | term_proj.cpp:364-373 | points whose heights differ by at least the distance never collide |
| GameMath.FullTurnRem | term_proj.cpp:378 | fmodf by a full turn: the remainder lies strictly within one turn, has the dividend's sign and differs from it by whole turns |
| GameMath.CoordinateShipTurn | term_proj.cpp:376-393 | coordinateShipTurn on half-degrees: reduce by a full turn, then Nudge; CoordinateShipTurnReduces, CoordinateShipTurnRightAngles, CoordinateShipTurnStuckBand and CoordinateShipTurnLevels state what it returns |
| GameMath.Nudge | term_proj.cpp:380-390 | the four range tests on the reduced angle; NudgeLevelsBelow and its three siblings, through CoordinateShipTurnLevels, state that each moves half a degree toward level, and CoordinateShipTurnStuckBand the band none of them reaches |
| GameMath.CoordinateShipTurnReduces | term_proj.cpp:376-393 | the result depends only on the angle reduced by a full turn and moves it by at most half a degree |
| GameMath.CoordinateShipTurnRightAngles | term_proj.cpp:380-391 | multiples of 90 degrees are left as reduced |
| GameMath.CoordinateShipTurnStuckBand | term_proj.cpp:389 | between -360 and -270 degrees no test fires and the roll stays put |
| GameMath.CoordinateShipTurnLevels | term_proj.cpp:380-390 | everywhere else the roll moves half a degree closer to the nearest multiple of 180 degrees |
| GameMath.Reshape | term_proj.cpp:849-859 | the viewport is a square whose side is the shorter window side |
| GameMath.ReshapeCentred | term_proj.cpp:849-859 | the square fits the window and is centred along the longer side, to within a pixel |
| GameSpec.Initial | term_proj.cpp:300-347 | the initial globals, with main()'s 60 bullets and 4 lives, satisfy the state invariant |
| GameSpec.Erase | term_proj.cpp:521-525 | vector::erase drops element i and shifts the rest down by one |
| GameSpec.EraseAsteroid | term_proj.cpp:519-526 | erasing from the five asteroid vectors keeps them parallel and removes one asteroid |
| GameSpec.SplashRing | term_proj.cpp:649-655 | the explosion changes no asteroid count |
| GameSpec.Splash | term_proj.cpp:646-656 | the explosion changes no asteroid count |
| GameSpec.TrailPhase | term_proj.cpp:534-559 | one trail mark two units below the ship, keeping the newest 30; TrailKeepsNewest states it |
| GameSpec.Integrate | term_proj.cpp:823-827 | the ship moves by speed along its direction, rolls back by coordinateShipTurn and speeds up by 0.002 below max_speed; FrameSpeed and FrameKeepsShipLevel state it |
| GameSpec.Grow | term_proj.cpp:584-599 | an exploding missile whose scale lies in (0, 10) grows by 0.5; GrowExplosions and MissilesPhaseEffects state it |
| GameSpec.Strike | term_proj.cpp:615-625 | an unfired missile that hits any asteroid scores one kill, fixes its collision point and is marked fired; ScanForHit is proved equal to it and FlyEffects states when it scores |
| GameSpec.Fly | term_proj.cpp:603-626 | a parked missile (speed 0) stays; a moving one advances by speed times dir and then strikes; FlyEffects states the scoring rule |
| GameSpec.Gate | term_proj.cpp:627-644 | a missile beyond the range (250 for A, 140 for B) or already fired is marked fired; MissilesPhaseEffects states that fired marks only rise away from the supply |
| GameSpec.Pickup | term_proj.cpp:726-743 | touching the supply within 1.5 resets both missile slots and puts the supply at y = -2; MissilesPhaseEffects and SupplyGoneForGood state it |
| GameSpec.MissilesPhase | term_proj.cpp:582-745 | the missile phase moves no asteroid and keeps the vectors parallel |
| GameSpec.Bumped | term_proj.cpp:782-789 | a bullet's contact changes no asteroid count |
| GameSpec.Fire | term_proj.cpp:750-759 | a pending shot with bullets left appends one bullet and costs one round; EmptyMagazineWaits and ShotCostsOneBullet state both cases |
| GameSpec.AmmoPickup | term_proj.cpp:761-772 | touching the ammo box moves it and adds 15 rounds below 46; AmmoBoxBounded states it |
| GameSpec.BulletsPhase | term_proj.cpp:748-798 | fire, restock, then the bullet loop; BulletsKeepValid states what it changes and DisplayBullets is proved equal to it |
| GameSpec.BulletStep | term_proj.cpp:775-797 | one bullet iteration keeps the two bullet vectors parallel, moves no asteroid and removes at most one bullet; when it removes one is stated by GameProperties.BulletStepErases |
| GameProperties.BulletStepErases | term_proj.cpp:777-797 | bullet i is erased exactly when its moved position pos + 2.5 dir leaves [-140,140]^2, and then both bullet vectors lose slot i; otherwise slot i holds the moved position and the directions are kept; the asteroid sizes are bumped around the moved position and nothing else changes |
| GameSpec.BulletScan | term_proj.cpp:775-797 | the bullet loop keeps the bullet vectors parallel and moves no asteroid |
| GameSpec.Refill | term_proj.cpp:452-489 | one asteroid per draw, vectors kept parallel |
| GameSpec.EntryPosition | term_proj.cpp:454-487 | the entry point of side rand() % 4 at y = -1, across at randRange(-130, 130); SpawnedAsteroids states it |
| GameSpec.EntryDirection | term_proj.cpp:454-487 | the inward unit direction of that side; SpawnedAsteroids states it |
| GameSpec.Push | term_proj.cpp:458-486 | one spawned asteroid appended to all five vectors; RefillAt states its fields |
| GameSpec.Spawn | term_proj.cpp:449-490 | the loop from the current count up to num_spheres; SpawnFillsField states that exactly 60 remain, old ones first |
| GameSpec.AdvanceAsteroid | term_proj.cpp:507-526 | moving, growing and erasing asteroid i keeps the vectors parallel and removes at most one asteroid; when it removes one is stated by GameProperties.AdvanceAsteroidErases |
| GameSpec.MovedAsteroid | term_proj.cpp:508 | where asteroid i is after its move; AdvanceAsteroidErases states its role in the erasure rule |
| GameSpec.GrownSize | term_proj.cpp:513-516 | the size after one pass, +0.1 above 1; AdvanceAsteroidErases states its role in the erasure rule |
| GameSpec.AsteroidStep | term_proj.cpp:495-526 | one asteroid iteration keeps the vectors parallel and removes at most one asteroid |
| GameSpec.AsteroidScan | term_proj.cpp:493-528 | the asteroid loop keeps the five vectors parallel |
| GameSpec.AsteroidsPhase | term_proj.cpp:443-530 | spawn, then the asteroid loop; AsteroidsKeepValid states what it keeps and DisplayAsteroids is proved equal to it |
| GameSpec.Frame | term_proj.cpp:801-845 | display() in source order: missiles, trail, ship, bullets, asteroids; FrameKeepsValid, FrameKeepsShipLevel and FrameSpeed state it |
| GameSpec.Keyboard | term_proj.cpp:870-916 | the keyboard switch; SpeedKeyPassesMaxSpeed, KeysKeepValid and KeysLeaveFlags state it |
| GameSpec.SpecialKeyboard | term_proj.cpp:922-953 | the arrow keys; LeftRightCancel, KeysKeepValid and KeysLeaveFlags state it |
| GameProperties.AsteroidScanEffects | term_proj.cpp:493-528 | the asteroid loop changes only the ship's position, the kill count, the lives and the asteroids; it never adds asteroids; the kill count is kept or reset to 0 |
| GameProperties.AsteroidScanKeepsPrefix | term_proj.cpp:493-528 | asteroids before the loop index are never touched |
| GameProperties.AdvanceAsteroidErases | term_proj.cpp:507-526 | asteroid i is erased exactly when its moved position leaves [-100,100]^2 or its grown size is above 2, and then all five vectors lose slot i; otherwise slot i holds the moved position and grown size and nothing else changes |
| GameProperties.ErasedAsteroidSkipsSuccessor | term_proj.cpp:519-528 | when asteroid i leaves the arena or outgrows size 2, its successor slides into slot i and is skipped this frame, unmoved and ungrown |
| GameProperties.ShipContact | term_proj.cpp:495-505 | the ship either keeps its position or is sent to the origin; it loses at most one life, and only when it had kills, which resets them |
| GameProperties.ContactSendsHome | term_proj.cpp:495-505 | touching asteroid i puts the ship at the origin; after a kill it costs exactly one life and clears the kill count |
| GameProperties.NoDeathWithoutKill | term_proj.cpp:500-504 | without a kill since the last death the lives never drop |
| GameProperties.BulletScanEffects | term_proj.cpp:775-797 | the bullet loop changes only the bullets and the asteroid sizes, never adds bullets and keeps the asteroid count |
| GameProperties.BulletScanKeepsPrefix | term_proj.cpp:775-797 | bullets before the loop index are never touched |
| GameProperties.ErasedBulletSkipsSuccessor | term_proj.cpp:791-797 | when bullet i leaves the arena, its successor slides into slot i and is not moved this frame |
| GameProperties.BulletsInFieldAllMove | term_proj.cpp:775-797 | when no bullet leaves [-140, 140]^2, every bullet moves by 2.5 along its direction and none is erased |
| GameProperties.RefillAt | term_proj.cpp:452-489 | the old asteroids stay; the k-th new one has the entry position, direction, angle and speed of the k-th draw, and size 1 |
| GameProperties.SpawnFillsField | term_proj.cpp:449-490 | after the spawner there are exactly num_spheres asteroids, the old ones first and unchanged |
| GameProperties.SpawnedAsteroids | term_proj.cpp:452-489 | every new asteroid enters at an edge of the arena, one unit below the ship, heading across, with size 1, speed in [0.05, 0.15] and angle in [-50, 50] |
| GameProperties.EmptyMagazineWaits | term_proj.cpp:751-758 | a shot requested with no bullets stays pending and changes nothing |
| GameProperties.ShotCostsOneBullet | term_proj.cpp:751-758 | a shot clears the request, costs one bullet and appends one bullet one unit below the ship, along its heading |
| GameProperties.AmmoBoxBounded | term_proj.cpp:765-772 | the ammo never exceeds 60; it rises by 15 exactly when the ship touches the box with fewer than 46 bullets, and is otherwise unchanged |
| GameProperties.FlyEffects | term_proj.cpp:603-626 | a missile scores exactly when it is moving, unfired and reaches an asteroid after its move; scoring adds one kill and marks it fired, and otherwise the fired mark is kept |
| GameProperties.MissilesPhaseEffects | term_proj.cpp:582-745 | each slot adds at most one kill and only when it scores; touching the supply resets both slots and moves the supply two units down; otherwise fired marks only rise; nothing else but explosion sizes changes |
| GameProperties.TrailKeepsNewest | term_proj.cpp:534-559 | the trail grows to at most 30 marks, ends with the mark below the ship, and keeps the newest marks |
| GameProperties.MissilesKeepValid | term_proj.cpp:582-745 | the missile phase keeps the state invariant |
| GameProperties.BulletsKeepValid | term_proj.cpp:748-798 | the bullet phase keeps the invariant and changes only bullets, ammo box, ammunition and asteroid sizes |
| GameProperties.AsteroidsKeepValid | term_proj.cpp:443-530 | the asteroid phase keeps the invariant, in particular at most 60 asteroids |
| GameProperties.FrameKeepsValid | term_proj.cpp:801-845 | a whole frame keeps the invariant: parallel vectors, at most 60 asteroids, ammo in [0, 60], at most 30 trail marks, fired marks 0 or 1 |
| GameProperties.KeysKeepValid | term_proj.cpp:870-953 | both key callbacks keep the invariant |
| GameProperties.Step | term_proj.cpp:801-953 | every callback of a run keeps the invariant |
| GameProperties.SlotStep | term_proj.cpp:582-745 | away from the supply a slot's fired mark never falls, and a frame in which it scores marks it fired |
| GameProperties.OneKillPerSlot | term_proj.cpp:615-644 | over any run of callbacks that never touches the supply, each missile slot scores at most once, and not at all if it was already fired |
| GameProperties.FrameKeepsShipLevel | term_proj.cpp:801-845 | a frame keeps the ship in the plane y = 0 and leaves the supply where it is unless the ship touches it |
| GameProperties.StepKeepsShipLevel | term_proj.cpp:801-953 | every callback keeps the ship level and moves the supply only when a frame touches it |
| GameProperties.SupplyGoneForGood | term_proj.cpp:727-743 | once replaced two units below the plane, the supply can never be touched again, so no missile is ever restocked |
| GameProperties.FirstSupplyInPlane | term_proj.cpp:345-347 | the first supply lies in the ship's plane, with x and z inside [-100, 100] |
| GameProperties.FrameSpeed | term_proj.cpp:824-827 | a frame keeps max_speed; below it the speed rises by exactly 0.002, at or above it the speed is kept |
| GameProperties.SpeedKeyPassesMaxSpeed | term_proj.cpp:888-893 | the speed-up key adds 0.03 with no bound, so it takes the speed past max_speed |
| GameProperties.LeftRightCancel | term_proj.cpp:938-950 | LEFT then RIGHT restores the whole state when the two 3-degree rotations undo each other |
| GameProperties.KeysLeaveFlags | term_proj.cpp:870-953 | keys never touch the fired marks, ammunition, lives or asteroids, and the turn keys never move the ship |
| GameLoop.AsteroidsGame.constructor | term_proj.cpp:300-347 | the globals' initial values and main()'s player set-up, satisfying the invariant |
| GameLoop.AsteroidsGame.ScanForHit | term_proj.cpp:615-625 | the loop over the asteroids scores the first hit of an unfired missile and nothing after it |
| GameLoop.AsteroidsGame.SplashAsteroids | term_proj.cpp:649-655 | every asteroid within 15 of the explosion grows by 0.1; nothing else changes |
| GameLoop.AsteroidsGame.FlyMissile | term_proj.cpp:603-656 | the missile flies, is gated by its range and splashes, as Fly, Gate and Splash say |
| GameLoop.AsteroidsGame.GrowExplosions | term_proj.cpp:585-599 | both explosions grow as Grow says |
| GameLoop.AsteroidsGame.DisplayMissiles | term_proj.cpp:582-745 | the state after the call is MissilesPhase of the state before |
| GameLoop.AsteroidsGame.DisplayParticles | term_proj.cpp:534-578 | the state after the call is TrailPhase of the state before |
| GameLoop.AsteroidsGame.BumpAsteroids | term_proj.cpp:782-789 | every asteroid within 1.8 of the bullet grows by 0.05; nothing else changes |
| GameLoop.AsteroidsGame.FireAndRestock | term_proj.cpp:751-772 | the shot and the ammo box, as Fire and AmmoPickup say |
| GameLoop.AsteroidsGame.MoveBullet | term_proj.cpp:779-796 | one bullet iteration, as BulletStep says |
| GameLoop.AsteroidsGame.DisplayBullets | term_proj.cpp:748-798 | the state after the call is BulletsPhase of the state before |
| GameLoop.AsteroidsGame.SpawnAsteroid | term_proj.cpp:454-487 | appends one asteroid built from the draw to all five vectors |
| GameLoop.AsteroidsGame.SpawnAsteroids | term_proj.cpp:449-490 | the field becomes Spawn of the old field |
| GameLoop.AsteroidsGame.MoveAsteroid | term_proj.cpp:495-526 | one asteroid iteration, as AsteroidStep says |
| GameLoop.AsteroidsGame.AdvanceAsteroidAt | term_proj.cpp:507-526 | asteroid i moves, grows and is erased, as AdvanceAsteroid says |
| GameLoop.AsteroidsGame.DisplayAsteroids | term_proj.cpp:443-530 | the state after the call is AsteroidsPhase of the state before |
| GameLoop.AsteroidsGame.MoveShip | term_proj.cpp:824-827 | the ship's update inside display, as Integrate says |
| GameLoop.AsteroidsGame.Display | term_proj.cpp:801-845 | the invariant is kept and the new state is Frame of the old one |
| GameLoop.AsteroidsGame.Keyboard | term_proj.cpp:870-916 | Esc quits and changes nothing; any other key updates the state as GameSpec.Keyboard says, keeping the invariant; the adjustable tunables and their selection are unchanged for every key, Esc included |
| GameLoop.AsteroidsGame.SpecialKeyboard | term_proj.cpp:922-953 | the invariant is kept, the state changes as GameSpec.SpecialKeyboard says, and the tunable floats are untouched since none are registered |
| GameLoop.AsteroidsGame.Steer | term_proj.cpp:928-951 | UP points the ship along its nose; LEFT and RIGHT turn by 3 degrees and roll the other way |

## Left out

- Rendering: every OpenGL call, the shaders, the buffers, the draw methods, the camera (`updateCamera`, `toggleTopView` on '.') and the lighting code. The mesh builders are modelled up to the lists they hand to the GPU.
- `display_lives_rem`, `display_bullets_rem` and the star and particle drawing only draw, so they are not modelled. The colour pick `rand() % 2` in `display_particles` only chooses a colour.
- The trail's particle fields are not stored. Each trail entry is modelled by the mark it stores in `particle_dens`: the anchor below the ship and the ship's heading.
- `timerFunction`, the frame rate and `glutPostRedisplay` are not modelled: the game is the sequence of callbacks.
- `exit()` on Esc is modelled as `quit = true` with the state unchanged.
- `RotateY`, `sin` and `cos` are the parameter `rot` (or the point constructor `OnCircle`), because Dafny has no trigonometry. The asteroid motion takes `RotateY(a) * s * d` as `rot(a, s * d)`, which is linearity of the rotation.
- Floats are exact reals: no rounding, no NaN and no `-0.0`. `sqrt` comparisons are made on squares, which agree for non-negative distances.
- `rand()` is the parameter `draw`, which lies in `[0, RAND_MAX]` for glibc's `RAND_MAX`. The order in which C++ evaluates arguments that each call `rand()` is not modelled.
- `GLushort` indices are unbounded integers. The 16-bit truncation only matters for meshes of more than 65535 vertices, which the game never builds.
- The `w` component of the game's `vec4` positions is carried along but never constrained. The sphere meshes' vertices always have w == 1 (meshes.cpp:369-373, 453); `MeshGeometry.SphereVertices` leaves w out and keeps only x, y and z.
- The sphere's `unit()` normalisation is kept symbolic, as the point constructor `UnitSum`, because it needs a square root.
- The game registers no adjustable variables. The `Adjustable`'s tuned floats are an `array<real>`, and a record names its float by an index into it instead of by its address.
- Adjustables.Adjustable.Add: the default steps 0.1 and 1.0 are not modelled; callers pass both.
- Adjustables.Adjustable.Key: the source's debug output of the new selection is left out.
- Adjustables.Adjustable.constructor: `mCurrent` is never initialised, so its first value is a parameter. The game's instance is a global, so the game passes 0.
- GameSpec.Side: `rand() % 4` uses Dafny's `%`, which agrees with C's for the non-negative results of `rand()`.
- GameSpec.Keyboard: the adjustable's `key` call is modelled on the `Adjustable` object by `GameLoop.AsteroidsGame.Keyboard`, not in the pure function.
- The turn angle `turn_rot` is kept in half-degrees as an integer. It only ever changes by 3 and 0.5 degrees from 0, so this is exact.
