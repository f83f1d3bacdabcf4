/** The game state of term_proj.cpp as one value, and what each part of a
    frame and each key callback does to it.  The loops of the source that
    erase while they scan are specified one iteration at a time, so that a
    scan is the step applied at index i followed by the scan from i + 1. */
module GameSpec {
  import opened GameMath
  import GlUtilities
  import Adjustables

  /** num_spheres: the asteroid count the spawner tops the field up to. */
  const NumSpheres: int := 60
  /** The trail keeps this many particle fields. */
  const TrailLength: int := 30
  /** The ammunition main() starts with; the ammo box never tops it above this. */
  const FullAmmo: int := 60
  const StartingLives: int := 4

  /** The ship's nose direction before rotation, vec4(1,0,1,0). */
  const Forward: Vec4 := Vec4(1.0, 0.0, 1.0, 0.0)

  /** RotateY(angle) * v, with the angle in degrees. */
  type Rotation = (real, Vec4) -> Vec4

  // ---------------------------------------------------------------------
  // The state

  /** One missile slot: the source's missileX_pos, missileX_dir,
      missileX_fired, missileX_speed, collisionX_pos and
      explosion_scale_factX. */
  datatype Missile = Missile(
    pos: Vec4, dir: Vec4, fired: int, speed: real, collision: Vec4, explosionScale: real)

  /** A slot as the pickup leaves it: everything zero. */
  const IdleMissile: Missile := Missile(Origin, Origin, 0, 0.0, Origin, 0.0)

  /** The two counters of djv::Player the game uses. */
  datatype Player = Player(bulletsRemaining: int, livesRemaining: int)

  /** One entry of particle_dens: the trail's anchor below the ship and the
      ship's heading when it was laid down. */
  datatype TrailMark = TrailMark(centre: Vec4, angle: real)

  /** The five parallel vectors describing the asteroids. */
  datatype Asteroids = Asteroids(
    positions: seq<Vec4>, dirs: seq<Vec4>, angs: seq<real>, speeds: seq<real>, sizes: seq<real>)

  predicate Parallel(f: Asteroids) {
    |f.dirs| == |f.positions| && |f.angs| == |f.positions|
    && |f.speeds| == |f.positions| && |f.sizes| == |f.positions|
  }

  /** The ship's globals: speed, max_speed, current_dir, current_pos,
      initial_dir, angle_rot and turn_rot (kept in half-degrees). */
  datatype Ship = Ship(
    speed: real, maxSpeed: real, currentDir: Vec4, currentPos: Vec4, initialDir: Vec4,
    angleRot: real, turnRot: int)

  /** The bullet globals: bullet_fired, dir_vec and the two parallel vectors
      bullet_positions and bullet_directions. */
  datatype Bullets = Bullets(fired: bool, dirVec: Vec4, positions: seq<Vec4>, directions: seq<Vec4>)

  /** Every global the callbacks update, grouped as the source groups them. */
  datatype World = World(
    ship: Ship, bullets: Bullets, field: Asteroids, killedSinceDeath: int, player: Player,
    missileA: Missile, missileB: Missile, missilePos: Vec4, ammoBox: Vec4,
    particleDens: seq<TrailMark>)

  /** What the game keeps true between callbacks. */
  predicate Valid(w: World) {
    |w.bullets.positions| == |w.bullets.directions|
    && Parallel(w.field) && |w.field.positions| <= NumSpheres
    && 0 <= w.player.bulletsRemaining <= FullAmmo
    && w.killedSinceDeath >= 0
    && |w.particleDens| <= TrailLength
    && (w.missileA.fired == 0 || w.missileA.fired == 1)
    && (w.missileB.fired == 0 || w.missileB.fired == 1)
  }

  // ---------------------------------------------------------------------
  // Random draws

  /** The two rand() values a randRange-placed pickup consumes. */
  datatype Place = Place(x: int, z: int)

  predicate IsPlace(p: Place) {
    GlUtilities.IsDraw(p.x) && GlUtilities.IsDraw(p.z)
  }

  /** The rand() values one spawned asteroid consumes. */
  datatype SpawnDraw = SpawnDraw(side: int, speed: int, ang: int, coord: int)

  predicate IsSpawnDraw(d: SpawnDraw) {
    GlUtilities.IsDraw(d.side) && GlUtilities.IsDraw(d.speed)
    && GlUtilities.IsDraw(d.ang) && GlUtilities.IsDraw(d.coord)
  }

  /** The rand() values one frame consumes. */
  datatype FrameDraws = FrameDraws(pickup: Place, ammo: Place, spawn: seq<SpawnDraw>)

  predicate IsFrameDraws(d: FrameDraws) {
    IsPlace(d.pickup) && IsPlace(d.ammo) && |d.spawn| >= NumSpheres
    && forall k :: 0 <= k < |d.spawn| ==> IsSpawnDraw(d.spawn[k])
  }

  /** The missile supply at a random spot of the square [-100,100]^2 at
      height y. */
  function SupplyAt(p: Place, y: real): Vec4 {
    Vec4(GlUtilities.RandRange(-100.0, 100.0, p.x), y, GlUtilities.RandRange(-100.0, 100.0, p.z), 1.0)
  }

  /** The ammo box at a random spot of the square [-50,50]^2. */
  function AmmoBoxAt(p: Place): Vec4 {
    Vec4(GlUtilities.RandRange(-50.0, 50.0, p.x), 0.0, GlUtilities.RandRange(-50.0, 50.0, p.z), 0.0)
  }

  /** The globals' initial values, with main()'s 60 bullets and 4 lives. */
  function Initial(supply: Place, box: Place): (w: World)
    ensures Valid(w)
  {
    World(Ship(0.0, 0.0, Forward, Origin, Forward, 0.0, 0), Bullets(false, Forward, [], []),
          Asteroids([], [], [], [], []), 0, Player(FullAmmo, StartingLives),
          IdleMissile, IdleMissile, SupplyAt(supply, 0.0), AmmoBoxAt(box), [])
  }

  // ---------------------------------------------------------------------
  // Helpers

  /** vector::erase at index i. */
  function Erase<T>(s: seq<T>, i: int): (r: seq<T>)
    requires 0 <= i < |s|
    ensures |r| == |s| - 1
    ensures forall k :: 0 <= k < i ==> r[k] == s[k]
    ensures forall k :: i <= k < |r| ==> r[k] == s[k + 1]
  {
    s[..i] + s[i + 1..]
  }

  function EraseAsteroid(f: Asteroids, i: int): (r: Asteroids)
    requires Parallel(f) && 0 <= i < |f.positions|
    ensures Parallel(r) && |r.positions| == |f.positions| - 1
  {
    Asteroids(Erase(f.positions, i), Erase(f.dirs, i), Erase(f.angs, i), Erase(f.speeds, i), Erase(f.sizes, i))
  }

  /** Outside the square [-bound, bound]^2 of the x-z plane. */
  predicate Escaped(p: Vec4, bound: real) {
    p.x > bound || p.z > bound || p.x < -bound || p.z < -bound
  }

  function AbsReal(x: real): real {
    if x < 0.0 then -x else x
  }

  // ---------------------------------------------------------------------
  // display_missiles

  /** An explosion is under way at the slot's collision point. */
  predicate Exploded(m: Missile) {
    AbsReal(m.collision.x) > 0.1 && AbsReal(m.collision.z) > 0.1
  }

  /** The explosion grows by 0.5 per frame while its scale is in (0, 10). */
  function Grow(m: Missile): Missile {
    if Exploded(m) && m.explosionScale > 0.0 && m.explosionScale < 10.0
    then m.(explosionScale := m.explosionScale + 0.5)
    else m
  }

  /** Some asteroid lies within distance 2 of p. */
  predicate HitsAny(p: Vec4, spheres: seq<Vec4>) {
    exists i :: 0 <= i < |spheres| && Collides(p, spheres[i], 2.0)
  }

  /** The scan over the asteroids for a missile at m.pos: the first collision
      of an unfired missile counts a kill and marks the slot fired; later
      ones find it fired and change nothing. */
  function Strike(m: Missile, spheres: seq<Vec4>, killed: int): (Missile, int) {
    if m.fired == 0 && HitsAny(m.pos, spheres)
    then (m.(explosionScale := m.explosionScale + 0.3, collision := m.pos, fired := 1), killed + 1)
    else (m, killed)
  }

  /** A missile with no speed rides on the ship; otherwise it moves and
      strikes. */
  function Fly(m: Missile, spheres: seq<Vec4>, killed: int): (Missile, int) {
    if m.speed == 0.0 then (m, killed)
    else Strike(m.(pos := Plus(m.pos, Times(m.speed, m.dir))), spheres, killed)
  }

  /** Out of `range` (planar distance from the ship) a slot counts as fired. */
  function Gate(m: Missile, shipPos: Vec4, range: real): Missile {
    if PlanarWithin(Minus(m.pos, shipPos), range) && m.fired == 0 then m
    else m.(fired := 1)
  }

  /** Each asteroid within planar distance 15 of the centre grows by 0.1. */
  function SplashRing(sizes: seq<real>, spheres: seq<Vec4>, centre: Vec4): (r: seq<real>)
    requires |sizes| == |spheres|
    ensures |r| == |sizes|
  {
    seq(|sizes|, i requires 0 <= i < |sizes| =>
      if PlanarWithin(Minus(spheres[i], centre), 15.0) then sizes[i] + 0.1 else sizes[i])
  }

  /** The splash happens every frame an explosion point is set. */
  function Splash(sizes: seq<real>, spheres: seq<Vec4>, centre: Vec4): (r: seq<real>)
    requires |sizes| == |spheres|
    ensures |r| == |sizes|
  {
    if AbsReal(centre.x) > 0.1 && AbsReal(centre.z) > 0.1 then SplashRing(sizes, spheres, centre)
    else sizes
  }

  /** The ship is touching the missile supply. */
  predicate PicksUp(w: World) {
    Collides(w.ship.currentPos, w.missilePos, 1.5)
  }

  /** Touching the supply resets both slots and moves the supply. */
  function Pickup(w: World, p: Place): World {
    if PicksUp(w)
    then w.(missileA := IdleMissile, missileB := IdleMissile, missilePos := SupplyAt(p, -2.0))
    else w
  }

  /** display_missiles: explosions grow, missile A flies, is gated at 250
      and splashes, then missile B flies, is gated at 140 and splashes, then
      the supply is checked. */
  function MissilesPhase(w: World, p: Place): (r: World)
    requires Parallel(w.field)
    ensures Parallel(r.field) && r.field.positions == w.field.positions
  {
    var a := Grow(w.missileA);
    var b := Grow(w.missileB);
    var spheres := w.field.positions;
    var (a1, k1) := Fly(a, spheres, w.killedSinceDeath);
    var a2 := Gate(a1, w.ship.currentPos, 250.0);
    var sizes1 := Splash(w.field.sizes, spheres, a2.collision);
    var (b1, k2) := Fly(b, spheres, k1);
    var b2 := Gate(b1, w.ship.currentPos, 140.0);
    var sizes2 := Splash(sizes1, spheres, b2.collision);
    Pickup(w.(missileA := a2, missileB := b2, killedSinceDeath := k2,
              field := w.field.(sizes := sizes2)), p)
  }

  // ---------------------------------------------------------------------
  // display_particles

  /** The trail gains a mark two units below the ship; from 30 marks on, the
      oldest is dropped for it. */
  function TrailPhase(w: World): World {
    var mark := TrailMark(Plus(w.ship.currentPos, Vec4(0.0, -2.0, 0.0, 0.0)), w.ship.angleRot);
    var dens := w.particleDens + [mark];
    w.(particleDens := if |w.particleDens| < TrailLength then dens else dens[1..])
  }

  // ---------------------------------------------------------------------
  // The ship update inside display

  function Integrate(w: World): World {
    var s := w.ship;
    w.(ship := s.(currentPos := Plus(s.currentPos, Times(s.speed, s.currentDir)),
                  turnRot := CoordinateShipTurn(s.turnRot),
                  speed := if s.speed < s.maxSpeed then s.speed + 0.002 else s.speed))
  }

  // ---------------------------------------------------------------------
  // display_bullets

  /** A pending shot with ammunition left leaves from one unit below the
      ship along its heading. */
  function Fire(w: World, rot: Rotation): World {
    if w.bullets.fired && w.player.bulletsRemaining > 0 then
      w.(bullets := w.bullets.(fired := false,
                               positions := w.bullets.positions + [Plus(w.ship.currentPos, Vec4(0.0, -1.0, 0.0, 0.0))],
                               directions := w.bullets.directions + [rot(w.ship.angleRot, Forward)]),
         player := w.player.(bulletsRemaining := w.player.bulletsRemaining - 1))
    else w
  }

  /** Touching the ammo box moves it and adds 15 bullets when fewer than 46
      are left. */
  function AmmoPickup(w: World, p: Place): World {
    if Collides(w.ship.currentPos, w.ammoBox, 0.9) then
      w.(ammoBox := AmmoBoxAt(p),
         player := if w.player.bulletsRemaining < 46
                   then w.player.(bulletsRemaining := w.player.bulletsRemaining + 15)
                   else w.player)
    else w
  }

  /** Every asteroid within 1.8 of a bullet at p grows by 0.05. */
  function Bumped(sizes: seq<real>, spheres: seq<Vec4>, p: Vec4): (r: seq<real>)
    requires |sizes| == |spheres|
    ensures |r| == |sizes|
  {
    seq(|sizes|, m requires 0 <= m < |sizes| =>
      if Collides(spheres[m], p, 1.8) then sizes[m] + 0.05 else sizes[m])
  }

  predicate BulletsParallel(w: World) {
    |w.bullets.positions| == |w.bullets.directions| && Parallel(w.field)
  }

  /** One iteration of the bullet loop at index i. */
  function BulletStep(w: World, i: int): (r: World)
    requires BulletsParallel(w) && 0 <= i < |w.bullets.positions|
    ensures BulletsParallel(r) && r.field.positions == w.field.positions
    ensures |r.bullets.positions| == |w.bullets.positions| || |r.bullets.positions| == |w.bullets.positions| - 1
  {
    var b := w.bullets;
    var p := Plus(b.positions[i], Times(2.5, b.directions[i]));
    var sizes := Bumped(w.field.sizes, w.field.positions, p);
    var positions := b.positions[i := p];
    if Escaped(p, 140.0) then
      w.(bullets := b.(positions := Erase(positions, i), directions := Erase(b.directions, i)),
         field := w.field.(sizes := sizes))
    else
      w.(bullets := b.(positions := positions), field := w.field.(sizes := sizes))
  }

  /** The bullet loop from index i on. */
  function BulletScan(w: World, i: int): (r: World)
    requires BulletsParallel(w) && 0 <= i
    ensures BulletsParallel(r) && r.field.positions == w.field.positions
    decreases |w.bullets.positions| - i
  {
    if i >= |w.bullets.positions| then w else BulletScan(BulletStep(w, i), i + 1)
  }

  function BulletsPhase(w: World, p: Place, rot: Rotation): World
    requires BulletsParallel(w)
  {
    BulletScan(AmmoPickup(Fire(w, rot), p), 0)
  }

  // ---------------------------------------------------------------------
  // display_asteroids

  /** rand() % 4 picks the side an asteroid enters from. */
  function Side(d: SpawnDraw): int {
    d.side % 4
  }

  function EntryPosition(d: SpawnDraw): Vec4 {
    var across := GlUtilities.RandRange(-130.0, 130.0, d.coord);
    match Side(d)
    case 0 => Vec4(100.0, -1.0, across, 0.0)
    case 1 => Vec4(-100.0, -1.0, across, 0.0)
    case 2 => Vec4(across, -1.0, 100.0, 0.0)
    case _ => Vec4(across, -1.0, -100.0, 0.0)
  }

  function EntryDirection(d: SpawnDraw): Vec4 {
    match Side(d)
    case 0 => Vec4(-1.0, 0.0, 0.0, 0.0)
    case 1 => Vec4(1.0, 0.0, 0.0, 0.0)
    case 2 => Vec4(0.0, 0.0, -1.0, 0.0)
    case _ => Vec4(0.0, 0.0, 1.0, 0.0)
  }

  /** One spawned asteroid appended to the five vectors. */
  function Push(f: Asteroids, d: SpawnDraw): Asteroids {
    Asteroids(f.positions + [EntryPosition(d)], f.dirs + [EntryDirection(d)],
              f.angs + [GlUtilities.RandRange(-50.0, 50.0, d.ang)],
              f.speeds + [GlUtilities.RandRange(0.05, 0.15, d.speed)], f.sizes + [1.0])
  }

  /** One asteroid per draw, in order. */
  function Refill(f: Asteroids, draws: seq<SpawnDraw>): (r: Asteroids)
    requires Parallel(f)
    ensures Parallel(r) && |r.positions| == |f.positions| + |draws|
  {
    if |draws| == 0 then f else Push(Refill(f, draws[..|draws| - 1]), draws[|draws| - 1])
  }

  /** The spawner runs its loop from the current count up to num_spheres;
      from num_spheres on it adds nothing. */
  function Spawn(f: Asteroids, draws: seq<SpawnDraw>): Asteroids
    requires Parallel(f) && |draws| >= NumSpheres
  {
    if |f.positions| < NumSpheres then Refill(f, draws[..NumSpheres - |f.positions|]) else f
  }

  /** Where asteroid i is after one move: its speed along its direction,
      turned by its angle. */
  function MovedAsteroid(f: Asteroids, i: int, rot: Rotation): Vec4
    requires Parallel(f) && 0 <= i < |f.positions|
  {
    Plus(f.positions[i], rot(f.angs[i], Times(f.speeds[i], f.dirs[i])))
  }

  /** The size of asteroid i after one pass: a shot asteroid (size above 1)
      grows by 0.1, any other keeps its size. */
  function GrownSize(f: Asteroids, i: int): real
    requires Parallel(f) && 0 <= i < |f.positions|
  {
    if f.sizes[i] > 1.0 then f.sizes[i] + 0.1 else f.sizes[i]
  }

  /** The field part of one pass: asteroid i moves by its speed along its
      direction turned by its angle, grows while bigger than 1, and is erased
      once out of range 100 or bigger than 2. */
  function AdvanceAsteroid(f: Asteroids, i: int, rot: Rotation): (r: Asteroids)
    requires Parallel(f) && 0 <= i < |f.positions|
    ensures Parallel(r)
    ensures |r.positions| == |f.positions| || |r.positions| == |f.positions| - 1
  {
    var moved := MovedAsteroid(f, i, rot);
    var size := GrownSize(f, i);
    var f1 := f.(positions := f.positions[i := moved], sizes := f.sizes[i := size]);
    if Escaped(moved, 100.0) || size > 2.0 then EraseAsteroid(f1, i) else f1
  }

  /** One iteration of the asteroid loop at index i: the ship is checked
      against the asteroid, the asteroid moves and, if shot, grows; it is
      erased once outside [-100,100]^2 or larger than 2. */
  function AsteroidStep(w: World, i: int, rot: Rotation): (r: World)
    requires Parallel(w.field) && 0 <= i < |w.field.positions|
    ensures Parallel(r.field)
    ensures |r.field.positions| == |w.field.positions| || |r.field.positions| == |w.field.positions| - 1
  {
    var hit := Collides(w.ship.currentPos, w.field.positions[i], 2.0);
    var loses := hit && w.killedSinceDeath > 0;
    w.(ship := if hit then w.ship.(currentPos := Origin) else w.ship,
       killedSinceDeath := if loses then 0 else w.killedSinceDeath,
       player := if loses then w.player.(livesRemaining := w.player.livesRemaining - 1) else w.player,
       field := AdvanceAsteroid(w.field, i, rot))
  }

  /** The asteroid loop from index i on. */
  function AsteroidScan(w: World, i: int, rot: Rotation): (r: World)
    requires Parallel(w.field) && 0 <= i
    ensures Parallel(r.field)
    decreases |w.field.positions| - i
  {
    if i >= |w.field.positions| then w else AsteroidScan(AsteroidStep(w, i, rot), i + 1, rot)
  }

  function AsteroidsPhase(w: World, draws: seq<SpawnDraw>, rot: Rotation): World
    requires Parallel(w.field) && |draws| >= NumSpheres
  {
    AsteroidScan(w.(field := Spawn(w.field, draws)), 0, rot)
  }

  // ---------------------------------------------------------------------
  // display

  /** One frame: missiles, trail, ship update, bullets, asteroids. */
  function Frame(w: World, d: FrameDraws, rot: Rotation): World
    requires BulletsParallel(w) && |d.spawn| >= NumSpheres
  {
    var w1 := Integrate(TrailPhase(MissilesPhase(w, d.pickup)));
    var w2 := BulletsPhase(w1, d.ammo, rot);
    AsteroidsPhase(w2, d.spawn, rot)
  }

  // ---------------------------------------------------------------------
  // keyboard and specialKeyboard

  const KeyEscape: int := 27
  const KeyFire: int := ' ' as int
  const KeyCamera: int := '.' as int

  /** The slot set off along the ship's heading from the ship's position. */
  function Launch(m: Missile, from: Vec4, dir: Vec4): Missile {
    m.(pos := from, dir := dir, speed := 0.8)
  }

  /** keyboard: Esc exits (the caller stops), space toggles the shot
      request, a/A speed up, s/S slow down, z and x launch the missiles;
      '.' toggles the camera, which is not part of this state. */
  function Keyboard(w: World, key: Adjustables.Byte, rot: Rotation): World {
    var s := w.ship;
    if key == KeyFire then w.(bullets := w.bullets.(fired := !w.bullets.fired))
    else if key == 'a' as int || key == 'A' as int then w.(ship := s.(speed := s.speed + 0.03))
    else if key == 's' as int || key == 'S' as int then w.(ship := s.(speed := s.speed - 0.03))
    else if key == 'z' as int then w.(missileA := Launch(w.missileA, s.currentPos, rot(s.angleRot, Forward)))
    else if key == 'x' as int then w.(missileB := Launch(w.missileB, s.currentPos, rot(s.angleRot, Forward)))
    else w
  }

  /** specialKeyboard: UP points the ship along its nose, LEFT and RIGHT turn
      the nose by 3 degrees and roll the ship the other way. */
  function SpecialKeyboard(w: World, key: int, rot: Rotation): World {
    var s := w.ship;
    if key == Adjustables.GlutKeyUp then w.(ship := s.(currentDir := s.initialDir))
    else if key == Adjustables.GlutKeyLeft then
      w.(ship := s.(turnRot := s.turnRot - 6, angleRot := s.angleRot + 3.0, initialDir := rot(3.0, s.initialDir)),
         bullets := w.bullets.(dirVec := rot(3.0, w.bullets.dirVec)))
    else if key == Adjustables.GlutKeyRight then
      w.(ship := s.(turnRot := s.turnRot + 6, angleRot := s.angleRot - 3.0, initialDir := rot(-3.0, s.initialDir)),
         bullets := w.bullets.(dirVec := rot(-3.0, w.bullets.dirVec)))
    else w
  }
}
