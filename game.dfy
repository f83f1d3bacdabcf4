/** The game of term_proj.cpp as an object: one field per global the
    callbacks update, and one method per callback or display helper,
    each proved to change the state exactly as GameSpec says. */
module GameLoop {
  import opened GameMath
  import opened GameSpec
  import GameProperties
  import Adjustables

  class AsteroidsGame {
    var ship: Ship
    var bullets: Bullets
    var field: Asteroids
    var killedSinceDeath: int
    var player: Player
    var missileA: Missile
    var missileB: Missile
    var missilePos: Vec4
    var ammoBox: Vec4
    var particleDens: seq<TrailMark>

    /** The global Adjustable the key callbacks forward to, and the floats
        it may tune; the game registers none. */
    const adjustable: Adjustables.Adjustable
    const tunables: array<real>

    function Snapshot(): World
      reads this
    {
      World(ship, bullets, field, killedSinceDeath, player, missileA, missileB, missilePos, ammoBox, particleDens)
    }

    predicate Valid()
      reads this, adjustable
    {
      GameSpec.Valid(Snapshot()) && adjustable.mVars == []
    }

    /** The globals' initialisers followed by main()'s player set-up. The
        Adjustable is a global, so its selection starts zeroed. */
    constructor (supply: Place, box: Place)
      ensures Valid() && Snapshot() == Initial(supply, box)
      ensures fresh(adjustable) && fresh(tunables)
    {
      ship := Ship(0.0, 0.0, Forward, Origin, Forward, 0.0, 0);
      bullets := Bullets(false, Forward, [], []);
      field := Asteroids([], [], [], [], []);
      killedSinceDeath := 0;
      missileA := IdleMissile;
      missileB := IdleMissile;
      missilePos := SupplyAt(supply, 0.0);
      ammoBox := AmmoBoxAt(box);
      particleDens := [];
      adjustable := new Adjustables.Adjustable(0);
      tunables := new real[0];
      player := Player(FullAmmo, StartingLives);
    }

    // -------------------------------------------------------------------
    // display_missiles

    /** The collision loop of one missile: the first asteroid within 2 of an
        unfired missile scores. */
    method ScanForHit(m: Missile, killed: int) returns (r: Missile, killedAfter: int)
      ensures (r, killedAfter) == Strike(m, field.positions, killed)
    {
      r, killedAfter := m, killed;
      var spheres := field.positions;
      var i := 0;
      while i < |spheres|
        invariant 0 <= i <= |spheres|
        invariant (r, killedAfter) == Strike(m, spheres[..i], killed)
      {
        assert forall k :: 0 <= k < i ==> spheres[..i + 1][k] == spheres[..i][k];
        assert spheres[..i + 1][i] == spheres[i];
        if Collides(r.pos, spheres[i], 2.0) && r.fired == 0 {
          killedAfter := killedAfter + 1;
          r := r.(explosionScale := r.explosionScale + 0.3, collision := r.pos, fired := 1);
        }
        i := i + 1;
      }
      assert spheres[..i] == spheres;
    }

    /** The splash loop around an explosion at `centre`. */
    method SplashAsteroids(centre: Vec4)
      requires Parallel(field)
      modifies this`field
      ensures field == old(field).(sizes := SplashRing(old(field.sizes), old(field.positions), centre))
    {
      var i := 0;
      while i < |field.positions|
        invariant 0 <= i <= |field.positions| && Parallel(field)
        invariant field == old(field).(sizes := field.sizes)
        invariant forall k :: 0 <= k < |field.sizes| ==>
                    field.sizes[k] == if k < i && PlanarWithin(Minus(field.positions[k], centre), 15.0)
                                      then old(field.sizes)[k] + 0.1 else old(field.sizes)[k]
      {
        if PlanarWithin(Minus(field.positions[i], centre), 15.0) {
          field := field.(sizes := field.sizes[i := field.sizes[i] + 0.1]);
        }
        i := i + 1;
      }
    }

    /** One missile's block of display_missiles: it flies and strikes, is
        marked fired beyond `range` of the ship, and splashes the asteroids
        around its explosion. */
    method FlyMissile(m: Missile, range: real) returns (r: Missile)
      requires Parallel(field)
      modifies this`field, this`killedSinceDeath
      ensures var (flown, killed) := Fly(m, field.positions, old(killedSinceDeath));
              r == Gate(flown, ship.currentPos, range) && killedSinceDeath == killed
      ensures field == old(field).(sizes := Splash(old(field.sizes), old(field.positions), r.collision))
    {
      r := m;
      if r.speed != 0.0 {
        r := r.(pos := Plus(r.pos, Times(r.speed, r.dir)));
        r, killedSinceDeath := ScanForHit(r, killedSinceDeath);
      }
      if !(PlanarWithin(Minus(r.pos, ship.currentPos), range) && r.fired == 0) {
        r := r.(fired := 1);
      }
      if Exploded(r) {
        SplashAsteroids(r.collision);
      }
    }

    /** The explosions of both slots grow while their scale is in (0, 10). */
    method GrowExplosions()
      modifies this`missileA, this`missileB
      ensures missileA == Grow(old(missileA)) && missileB == Grow(old(missileB))
    {
      if Exploded(missileA) && missileA.explosionScale > 0.0 && missileA.explosionScale < 10.0 {
        missileA := missileA.(explosionScale := missileA.explosionScale + 0.5);
      }
      if Exploded(missileB) && missileB.explosionScale > 0.0 && missileB.explosionScale < 10.0 {
        missileB := missileB.(explosionScale := missileB.explosionScale + 0.5);
      }
    }

    method DisplayMissiles(p: Place)
      requires Parallel(field)
      modifies this`missileA, this`missileB, this`killedSinceDeath, this`field, this`missilePos
      ensures Snapshot() == MissilesPhase(old(Snapshot()), p)
    {
      GrowExplosions();
      missileA := FlyMissile(missileA, 250.0);
      missileB := FlyMissile(missileB, 140.0);
      ghost var flown := Snapshot();
      assert Pickup(flown, p) == MissilesPhase(old(Snapshot()), p);
      if Collides(ship.currentPos, missilePos, 1.5) {
        missileA := IdleMissile;
        missileB := IdleMissile;
        missilePos := SupplyAt(p, -2.0);
      }
    }

    // -------------------------------------------------------------------
    // display_particles

    method DisplayParticles()
      modifies this`particleDens
      ensures Snapshot() == TrailPhase(old(Snapshot()))
    {
      var mark := TrailMark(Plus(ship.currentPos, Vec4(0.0, -2.0, 0.0, 0.0)), ship.angleRot);
      if |particleDens| < TrailLength {
        particleDens := particleDens + [mark];
      } else {
        particleDens := particleDens + [mark];
        particleDens := particleDens[1..];
      }
    }

    // -------------------------------------------------------------------
    // display_bullets

    /** The inner loop: every asteroid near the bullet at p grows. */
    method BumpAsteroids(p: Vec4)
      requires Parallel(field)
      modifies this`field
      ensures field == old(field).(sizes := Bumped(old(field.sizes), old(field.positions), p))
    {
      var m := 0;
      while m < |field.positions|
        invariant 0 <= m <= |field.positions| && Parallel(field)
        invariant field == old(field).(sizes := field.sizes)
        invariant forall k :: 0 <= k < |field.sizes| ==>
                    field.sizes[k] == if k < m && Collides(field.positions[k], p, 1.8)
                                      then old(field.sizes)[k] + 0.05 else old(field.sizes)[k]
      {
        if Collides(field.positions[m], p, 1.8) {
          field := field.(sizes := field.sizes[m := field.sizes[m] + 0.05]);
        }
        m := m + 1;
      }
    }

    /** The firing and ammo-box steps at the top of display_bullets. */
    method FireAndRestock(p: Place, rot: Rotation)
      modifies this`bullets, this`player, this`ammoBox
      ensures Snapshot() == AmmoPickup(Fire(old(Snapshot()), rot), p)
    {
      if bullets.fired && player.bulletsRemaining > 0 {
        bullets := bullets.(fired := !bullets.fired,
                            positions := bullets.positions + [Plus(ship.currentPos, Vec4(0.0, -1.0, 0.0, 0.0))],
                            directions := bullets.directions + [rot(ship.angleRot, Forward)]);
        player := player.(bulletsRemaining := player.bulletsRemaining - 1);
      }
      if Collides(ship.currentPos, ammoBox, 0.9) {
        ammoBox := AmmoBoxAt(p);
        if player.bulletsRemaining < 46 {
          player := player.(bulletsRemaining := player.bulletsRemaining + 15);
        }
      }
    }

    /** One pass of the bullet loop at index i. */
    method MoveBullet(i: int)
      requires BulletsParallel(Snapshot()) && 0 <= i < |bullets.positions|
      modifies this`bullets, this`field
      ensures Snapshot() == BulletStep(old(Snapshot()), i)
    {
      bullets := bullets.(positions := bullets.positions[i := Plus(bullets.positions[i], Times(2.5, bullets.directions[i]))]);
      BumpAsteroids(bullets.positions[i]);
      if Escaped(bullets.positions[i], 140.0) {
        bullets := bullets.(positions := bullets.positions[..i] + bullets.positions[i + 1..],
                            directions := bullets.directions[..i] + bullets.directions[i + 1..]);
      }
    }

    method DisplayBullets(p: Place, rot: Rotation)
      requires BulletsParallel(Snapshot())
      modifies this`bullets, this`player, this`ammoBox, this`field
      ensures Snapshot() == BulletsPhase(old(Snapshot()), p, rot)
    {
      FireAndRestock(p, rot);
      ghost var start := Snapshot();
      var i := 0;
      while i < |bullets.positions|
        invariant 0 <= i && BulletsParallel(Snapshot())
        invariant BulletScan(Snapshot(), i) == BulletScan(start, 0)
        decreases |bullets.positions| - i
      {
        MoveBullet(i);
        i := i + 1;
      }
    }

    // -------------------------------------------------------------------
    // display_asteroids

    /** One pass of the spawner's loop body. */
    method SpawnAsteroid(d: SpawnDraw)
      modifies this`field
      ensures field == Push(old(field), d)
    {
      var side := d.side % 4;
      var position, dir;
      if side == 0 {
        dir := Vec4(-1.0, 0.0, 0.0, 0.0);
        position := Vec4(100.0, -1.0, GlUtilities.RandRange(-130.0, 130.0, d.coord), 0.0);
      } else if side == 1 {
        dir := Vec4(1.0, 0.0, 0.0, 0.0);
        position := Vec4(-100.0, -1.0, GlUtilities.RandRange(-130.0, 130.0, d.coord), 0.0);
      } else if side == 2 {
        dir := Vec4(0.0, 0.0, -1.0, 0.0);
        position := Vec4(GlUtilities.RandRange(-130.0, 130.0, d.coord), -1.0, 100.0, 0.0);
      } else {
        dir := Vec4(0.0, 0.0, 1.0, 0.0);
        position := Vec4(GlUtilities.RandRange(-130.0, 130.0, d.coord), -1.0, -100.0, 0.0);
      }
      field := field.(sizes := field.sizes + [1.0],
                      speeds := field.speeds + [GlUtilities.RandRange(0.05, 0.15, d.speed)],
                      angs := field.angs + [GlUtilities.RandRange(-50.0, 50.0, d.ang)],
                      dirs := field.dirs + [dir],
                      positions := field.positions + [position]);
    }

    /** The spawner tops the field up to num_spheres asteroids. */
    method SpawnAsteroids(draws: seq<SpawnDraw>)
      requires Parallel(field) && |draws| >= NumSpheres
      modifies this`field
      ensures field == Spawn(old(field), draws)
    {
      if |field.positions| != NumSpheres {
        ghost var f0 := field;
        var n0 := |field.positions|;
        var i := n0;
        while i < NumSpheres
          invariant n0 <= i <= (if n0 < NumSpheres then NumSpheres else n0)
          invariant field == Refill(f0, draws[..i - n0])
        {
          assert draws[..i + 1 - n0][..i - n0] == draws[..i - n0];
          SpawnAsteroid(draws[i - n0]);
          i := i + 1;
        }
      }
    }

    /** One pass of the asteroid loop at index i: contact with the ship,
        then the asteroid's own update. */
    method MoveAsteroid(i: int, rot: Rotation)
      requires Parallel(field) && 0 <= i < |field.positions|
      modifies this`ship, this`killedSinceDeath, this`player, this`field
      ensures Snapshot() == AsteroidStep(old(Snapshot()), i, rot)
    {
      if Collides(ship.currentPos, field.positions[i], 2.0) {
        ship := ship.(currentPos := Origin);
        if killedSinceDeath > 0 {
          killedSinceDeath := 0;
          player := player.(livesRemaining := player.livesRemaining - 1);
        }
      }
      AdvanceAsteroidAt(i, rot);
    }

    /** The motion, growth and removal of asteroid i. */
    method AdvanceAsteroidAt(i: int, rot: Rotation)
      requires Parallel(field) && 0 <= i < |field.positions|
      modifies this`field
      ensures field == AdvanceAsteroid(old(field), i, rot)
    {
      field := field.(positions := field.positions[i := Plus(field.positions[i], rot(field.angs[i], Times(field.speeds[i], field.dirs[i])))]);
      if field.sizes[i] > 1.0 {
        field := field.(sizes := field.sizes[i := field.sizes[i] + 0.1]);
      }
      if Escaped(field.positions[i], 100.0) || field.sizes[i] > 2.0 {
        field := EraseAsteroid(field, i);
      }
    }

    method DisplayAsteroids(draws: seq<SpawnDraw>, rot: Rotation)
      requires Parallel(field) && |draws| >= NumSpheres
      modifies this`ship, this`killedSinceDeath, this`player, this`field
      ensures Snapshot() == AsteroidsPhase(old(Snapshot()), draws, rot)
    {
      SpawnAsteroids(draws);
      ghost var start := Snapshot();
      var i := 0;
      while i < |field.positions|
        invariant 0 <= i && Parallel(field)
        invariant AsteroidScan(Snapshot(), i, rot) == AsteroidScan(start, 0, rot)
        decreases |field.positions| - i
      {
        MoveAsteroid(i, rot);
        i := i + 1;
      }
    }

    // -------------------------------------------------------------------
    // display

    /** The ship update of display: move along current_dir, level the roll
        and ease the speed up to max_speed. */
    method MoveShip()
      modifies this`ship
      ensures Snapshot() == Integrate(old(Snapshot()))
    {
      ship := ship.(currentPos := Plus(ship.currentPos, Times(ship.speed, ship.currentDir)),
                    turnRot := CoordinateShipTurn(ship.turnRot));
      if ship.speed < ship.maxSpeed {
        ship := ship.(speed := ship.speed + 0.002);
      }
    }

    /** One frame: missiles, trail, ship update, bullets, asteroids. */
    method Display(d: FrameDraws, rot: Rotation)
      requires Valid() && |d.spawn| >= NumSpheres
      modifies this
      ensures Valid()
      ensures Snapshot() == Frame(old(Snapshot()), d, rot)
    {
      GameProperties.FrameKeepsValid(Snapshot(), d, rot);
      DisplayMissiles(d.pickup);
      DisplayParticles();
      MoveShip();
      DisplayBullets(d.ammo, rot);
      DisplayAsteroids(d.spawn, rot);
    }

    // -------------------------------------------------------------------
    // keyboard and specialKeyboard

    /** keyboard: returns whether the key asks the program to exit. */
    method Keyboard(key: Adjustables.Byte, rot: Rotation) returns (quit: bool)
      requires Valid()
      modifies this`ship, this`bullets, this`missileA, this`missileB, adjustable
      ensures Valid()
      ensures quit <==> key == KeyEscape
      ensures !quit ==> Snapshot() == GameSpec.Keyboard(old(Snapshot()), key, rot)
      ensures quit ==> Snapshot() == old(Snapshot())
      ensures adjustable.mVars == old(adjustable.mVars) && adjustable.mCurrent == old(adjustable.mCurrent)
    {
      if key == KeyEscape {
        return true;
      }
      GameProperties.KeysKeepValid(Snapshot(), key, 0, rot);
      if key == KeyFire {
        bullets := bullets.(fired := !bullets.fired);
      } else if key == KeyCamera {
      } else if key == 'a' as int || key == 'A' as int {
        ship := ship.(speed := ship.speed + 0.03);
      } else if key == 's' as int || key == 'S' as int {
        ship := ship.(speed := ship.speed - 0.03);
      } else if key == 'z' as int {
        missileA := missileA.(pos := ship.currentPos, dir := rot(ship.angleRot, Forward), speed := 0.8);
      } else if key == 'x' as int {
        missileB := missileB.(pos := ship.currentPos, dir := rot(ship.angleRot, Forward), speed := 0.8);
      }
      adjustable.Key(key);
      quit := false;
    }

    /** specialKeyboard; glutGetModifiers() is passed in as `modifiers`. */
    method SpecialKeyboard(key: int, modifiers: int, rot: Rotation)
      requires Valid()
      modifies this`ship, this`bullets, tunables
      ensures Valid()
      ensures Snapshot() == GameSpec.SpecialKeyboard(old(Snapshot()), key, rot)
      ensures tunables[..] == old(tunables[..])
    {
      GameProperties.KeysKeepValid(Snapshot(), 0, key, rot);
      var result := adjustable.SpecialKey(key, modifiers, tunables);
      Steer(key, rot);
    }

    /** The switch of specialKeyboard: UP points the ship along initial_dir,
        LEFT and RIGHT turn it by 3 degrees. */
    method Steer(key: int, rot: Rotation)
      modifies this`ship, this`bullets
      ensures Snapshot() == GameSpec.SpecialKeyboard(old(Snapshot()), key, rot)
    {
      if key == Adjustables.GlutKeyUp {
        ship := ship.(currentDir := ship.initialDir);
      } else if key == Adjustables.GlutKeyDown {
      } else if key == Adjustables.GlutKeyLeft {
        ship := ship.(turnRot := ship.turnRot - 6, angleRot := ship.angleRot + 3.0);
        bullets := bullets.(dirVec := rot(3.0, bullets.dirVec));
        ship := ship.(initialDir := rot(3.0, ship.initialDir));
      } else if key == Adjustables.GlutKeyRight {
        ship := ship.(turnRot := ship.turnRot + 6, angleRot := ship.angleRot - 3.0);
        bullets := bullets.(dirVec := rot(-3.0, bullets.dirVec));
        ship := ship.(initialDir := rot(-3.0, ship.initialDir));
      }
    }
  }
}
