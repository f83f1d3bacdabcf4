/** What the game loop of term_proj.cpp keeps true and what it guarantees the
    player, proved over the state functions of GameSpec: the invariant every
    callback keeps, the ammunition rules, the asteroid spawner and the
    erase-while-scanning loops, the ship's collisions with asteroids, the
    missile slots and their supply, the ship's speed and the trail. */
module GameProperties {
  import opened GameMath
  import opened GameSpec
  import GlUtilities
  import Adjustables

  // ---------------------------------------------------------------------
  // The erase-while-scanning loops

  /** The asteroid loop changes only the ship's position, the kill and life
      counters and the asteroids; it never grows the field, and the kill
      counter is either kept or reset. */
  lemma {:induction false} AsteroidScanEffects(w: World, i: int, rot: Rotation)
    requires Parallel(w.field) && 0 <= i
    ensures var r := AsteroidScan(w, i, rot);
            r == w.(ship := w.ship.(currentPos := r.ship.currentPos), killedSinceDeath := r.killedSinceDeath,
                    player := w.player.(livesRemaining := r.player.livesRemaining), field := r.field)
            && |r.field.positions| <= |w.field.positions|
            && (r.killedSinceDeath == w.killedSinceDeath || r.killedSinceDeath == 0)
    decreases |w.field.positions| - i
  {
    if i < |w.field.positions| {
      AsteroidScanEffects(AsteroidStep(w, i, rot), i + 1, rot);
    }
  }

  /** Asteroids before index i are not touched by the loop from i on. */
  lemma {:induction false} AsteroidScanKeepsPrefix(w: World, i: int, j: int, rot: Rotation)
    requires Parallel(w.field) && 0 <= j < i <= |w.field.positions|
    ensures var f := AsteroidScan(w, i, rot).field;
            j < |f.positions| && f.positions[j] == w.field.positions[j] && f.sizes[j] == w.field.sizes[j]
            && f.dirs[j] == w.field.dirs[j] && f.speeds[j] == w.field.speeds[j] && f.angs[j] == w.field.angs[j]
    decreases |w.field.positions| - i
  {
    if i < |w.field.positions| {
      var s := AsteroidStep(w, i, rot);
      if i + 1 <= |s.field.positions| {
        AsteroidScanKeepsPrefix(s, i + 1, j, rot);
      } else {
        assert AsteroidScan(s, i + 1, rot) == s;
      }
    }
  }

  /** The erasure rule of one pass: asteroid i is erased exactly when its
      moved position leaves [-100,100]^2 or its grown size is above 2.
      Otherwise slot i holds the moved position and the grown size, and the
      rest of the field is untouched; when erased, all five vectors lose
      slot i. */
  lemma AdvanceAsteroidErases(f: Asteroids, i: int, rot: Rotation)
    requires Parallel(f) && 0 <= i < |f.positions|
    ensures var r := AdvanceAsteroid(f, i, rot);
            var gone := Escaped(MovedAsteroid(f, i, rot), 100.0) || GrownSize(f, i) > 2.0;
            (|r.positions| == |f.positions| - 1 <==> gone)
            && (gone ==> r == EraseAsteroid(f, i))
            && (!gone ==> r.positions == f.positions[i := MovedAsteroid(f, i, rot)]
                          && r.sizes == f.sizes[i := GrownSize(f, i)]
                          && r.dirs == f.dirs && r.angs == f.angs && r.speeds == f.speeds)
  {
  }

  /** When the asteroid at i leaves the arena or outgrows size 2, the one
      behind it slides into slot i and the loop moves on to i + 1: that
      asteroid is neither moved nor grown during this frame. */
  lemma ErasedAsteroidSkipsSuccessor(w: World, i: int, rot: Rotation)
    requires Parallel(w.field) && 0 <= i && i + 1 < |w.field.positions|
    requires Escaped(MovedAsteroid(w.field, i, rot), 100.0) || GrownSize(w.field, i) > 2.0
    ensures var f := AsteroidScan(w, i, rot).field;
            i < |f.positions| && f.positions[i] == w.field.positions[i + 1]
            && f.sizes[i] == w.field.sizes[i + 1]
  {
    AdvanceAsteroidErases(w.field, i, rot);
    var s := AsteroidStep(w, i, rot);
    assert s.field.positions[i] == w.field.positions[i + 1];
    assert s.field.sizes[i] == w.field.sizes[i + 1];
    AsteroidScanKeepsPrefix(s, i + 1, i, rot);
  }

  /** Colliding with asteroids moves the ship back to the origin and costs at
      most one life per pass of the asteroid loop, and only after a kill since
      the last death. */
  lemma {:induction false} ShipContact(w: World, i: int, rot: Rotation)
    requires Parallel(w.field) && 0 <= i
    ensures var r := AsteroidScan(w, i, rot);
            (r.ship.currentPos == w.ship.currentPos || r.ship.currentPos == Origin)
            && ((r.player.livesRemaining == w.player.livesRemaining
                 && (r.killedSinceDeath == w.killedSinceDeath || r.killedSinceDeath == 0))
                || (r.player.livesRemaining == w.player.livesRemaining - 1
                    && w.killedSinceDeath > 0 && r.killedSinceDeath == 0))
    decreases |w.field.positions| - i
  {
    if i < |w.field.positions| {
      ShipContact(AsteroidStep(w, i, rot), i + 1, rot);
    }
  }

  /** Touching asteroid i sends the ship home, and after a kill costs exactly
      one life and clears the kill count. */
  lemma ContactSendsHome(w: World, i: int, rot: Rotation)
    requires Parallel(w.field) && 0 <= i < |w.field.positions|
    requires Collides(w.ship.currentPos, w.field.positions[i], 2.0)
    ensures AsteroidScan(w, i, rot).ship.currentPos == Origin
    ensures w.killedSinceDeath > 0 ==>
              AsteroidScan(w, i, rot).player.livesRemaining == w.player.livesRemaining - 1
              && AsteroidScan(w, i, rot).killedSinceDeath == 0
  {
    ShipContact(AsteroidStep(w, i, rot), i + 1, rot);
  }

  /** Without any kill since the last death the ship can not lose a life. */
  lemma NoDeathWithoutKill(w: World, rot: Rotation)
    requires Parallel(w.field) && w.killedSinceDeath == 0
    ensures AsteroidScan(w, 0, rot).player == w.player
  {
    ShipContact(w, 0, rot);
    AsteroidScanEffects(w, 0, rot);
  }

  /** The bullet loop changes only the bullets and the asteroid sizes. */
  lemma {:induction false} BulletScanEffects(w: World, i: int)
    requires BulletsParallel(w) && 0 <= i
    ensures var r := BulletScan(w, i);
            r == w.(bullets := w.bullets.(positions := r.bullets.positions, directions := r.bullets.directions),
                    field := w.field.(sizes := r.field.sizes))
            && |r.bullets.positions| <= |w.bullets.positions|
            && |r.field.sizes| == |w.field.sizes|
    decreases |w.bullets.positions| - i
  {
    if i < |w.bullets.positions| {
      BulletScanEffects(BulletStep(w, i), i + 1);
    }
  }

  /** Bullets before index i are not touched by the loop from i on. */
  lemma {:induction false} BulletScanKeepsPrefix(w: World, i: int, j: int)
    requires BulletsParallel(w) && 0 <= j < i <= |w.bullets.positions|
    ensures var r := BulletScan(w, i);
            j < |r.bullets.positions| && r.bullets.positions[j] == w.bullets.positions[j]
            && r.bullets.directions[j] == w.bullets.directions[j]
    decreases |w.bullets.positions| - i
  {
    if i < |w.bullets.positions| {
      var s := BulletStep(w, i);
      if i + 1 <= |s.bullets.positions| {
        BulletScanKeepsPrefix(s, i + 1, j);
      } else {
        assert BulletScan(s, i + 1) == s;
      }
    }
  }

  /** The erasure rule of one bullet pass: bullet i is erased exactly when
      its moved position pos + 2.5 dir leaves [-140,140]^2. Otherwise slot i
      holds the moved position and the directions are kept. Either way the
      asteroid sizes are bumped around the moved position. */
  lemma BulletStepErases(w: World, i: int)
    requires BulletsParallel(w) && 0 <= i < |w.bullets.positions|
    ensures var r := BulletStep(w, i);
            var p := Plus(w.bullets.positions[i], Times(2.5, w.bullets.directions[i]));
            (|r.bullets.positions| == |w.bullets.positions| - 1 <==> Escaped(p, 140.0))
            && (Escaped(p, 140.0) ==>
                  r.bullets.positions == Erase(w.bullets.positions, i)
                  && r.bullets.directions == Erase(w.bullets.directions, i))
            && (!Escaped(p, 140.0) ==>
                  r.bullets.positions == w.bullets.positions[i := p]
                  && r.bullets.directions == w.bullets.directions)
            && r.field.sizes == Bumped(w.field.sizes, w.field.positions, p)
            && r == w.(bullets := w.bullets.(positions := r.bullets.positions, directions := r.bullets.directions),
                       field := w.field.(sizes := r.field.sizes))
  {
    var p := Plus(w.bullets.positions[i], Times(2.5, w.bullets.directions[i]));
    if Escaped(p, 140.0) {
      assert Erase(w.bullets.positions[i := p], i) == Erase(w.bullets.positions, i);
    }
  }

  /** The bullet behind an erased bullet is skipped: it does not move this
      frame. */
  lemma ErasedBulletSkipsSuccessor(w: World, i: int)
    requires BulletsParallel(w) && 0 <= i && i + 1 < |w.bullets.positions|
    requires Escaped(Plus(w.bullets.positions[i], Times(2.5, w.bullets.directions[i])), 140.0)
    ensures var r := BulletScan(w, i);
            i < |r.bullets.positions| && r.bullets.positions[i] == w.bullets.positions[i + 1]
  {
    var s := BulletStep(w, i);
    assert s.bullets.positions[i] == w.bullets.positions[i + 1];
    BulletScanKeepsPrefix(s, i + 1, i);
  }

  /** Where every bullet stays inside [-140,140]^2, the loop keeps them all and
      moves each 2.5 steps along its direction: hitting an asteroid does not
      remove a bullet. */
  lemma {:induction false} BulletsInFieldAllMove(w: World, i: int)
    requires BulletsParallel(w) && 0 <= i <= |w.bullets.positions|
    requires forall k :: i <= k < |w.bullets.positions| ==>
               !Escaped(Plus(w.bullets.positions[k], Times(2.5, w.bullets.directions[k])), 140.0)
    ensures var r := BulletScan(w, i);
            |r.bullets.positions| == |w.bullets.positions| && r.bullets.directions == w.bullets.directions
            && forall k :: i <= k < |w.bullets.positions| ==>
                 r.bullets.positions[k] == Plus(w.bullets.positions[k], Times(2.5, w.bullets.directions[k]))
    decreases |w.bullets.positions| - i
  {
    if i < |w.bullets.positions| {
      var s := BulletStep(w, i);
      BulletsInFieldAllMove(s, i + 1);
      BulletScanKeepsPrefix(s, i + 1, i);
    }
  }

  // ---------------------------------------------------------------------
  // The spawner

  /** The k-th refilled asteroid is the one built from the k-th draw, and the
      asteroids already there are kept. */
  lemma {:induction false} RefillAt(f: Asteroids, draws: seq<SpawnDraw>)
    requires Parallel(f)
    ensures var r := Refill(f, draws);
            r.positions[..|f.positions|] == f.positions && r.dirs[..|f.positions|] == f.dirs
            && r.angs[..|f.positions|] == f.angs && r.speeds[..|f.positions|] == f.speeds
            && r.sizes[..|f.positions|] == f.sizes
            && forall k :: 0 <= k < |draws| ==>
                 var n := |f.positions| + k;
                 r.positions[n] == EntryPosition(draws[k]) && r.dirs[n] == EntryDirection(draws[k])
                 && r.angs[n] == GlUtilities.RandRange(-50.0, 50.0, draws[k].ang)
                 && r.speeds[n] == GlUtilities.RandRange(0.05, 0.15, draws[k].speed)
                 && r.sizes[n] == 1.0
  {
    if |draws| > 0 {
      var init := draws[..|draws| - 1];
      RefillAt(f, init);
      var r0 := Refill(f, init);
      var r := Refill(f, draws);
      assert r == Push(r0, draws[|draws| - 1]);
      forall k | 0 <= k < |draws|
        ensures var n := |f.positions| + k;
                r.positions[n] == EntryPosition(draws[k]) && r.dirs[n] == EntryDirection(draws[k])
                && r.angs[n] == GlUtilities.RandRange(-50.0, 50.0, draws[k].ang)
                && r.speeds[n] == GlUtilities.RandRange(0.05, 0.15, draws[k].speed)
                && r.sizes[n] == 1.0
      {
        if k < |init| {
          assert draws[k] == init[k];
        }
      }
    }
  }

  /** After the spawner there are exactly num_spheres asteroids, the old ones
      first and unchanged. */
  lemma SpawnFillsField(f: Asteroids, draws: seq<SpawnDraw>)
    requires Parallel(f) && |f.positions| <= NumSpheres && |draws| >= NumSpheres
    ensures var r := Spawn(f, draws);
            Parallel(r) && |r.positions| == NumSpheres
            && r.positions[..|f.positions|] == f.positions && r.sizes[..|f.positions|] == f.sizes
            && r.dirs[..|f.positions|] == f.dirs && r.speeds[..|f.positions|] == f.speeds
            && r.angs[..|f.positions|] == f.angs
  {
    if |f.positions| < NumSpheres {
      RefillAt(f, draws[..NumSpheres - |f.positions|]);
    } else {
      assert f.positions[..|f.positions|] == f.positions;
      assert f.sizes[..|f.positions|] == f.sizes;
      assert f.dirs[..|f.positions|] == f.dirs;
      assert f.speeds[..|f.positions|] == f.speeds;
      assert f.angs[..|f.positions|] == f.angs;
    }
  }

  /** An asteroid enters at an edge of the square [-100,100]^2, one unit below
      the ship's plane, heading straight across, at size 1 and with a speed
      in [0.05, 0.15] and a turning angle in [-50, 50]. */
  predicate FreshAsteroid(f: Asteroids, n: int)
    requires Parallel(f) && 0 <= n < |f.positions|
  {
    var p := f.positions[n];
    var d := f.dirs[n];
    f.sizes[n] == 1.0 && 0.05 <= f.speeds[n] <= 0.15 && -50.0 <= f.angs[n] <= 50.0
    && p.y == -1.0 && p.w == 0.0 && d.y == 0.0 && d.w == 0.0
    && ((p.x == 100.0 && d == Vec4(-1.0, 0.0, 0.0, 0.0) && -130.0 <= p.z <= 130.0)
        || (p.x == -100.0 && d == Vec4(1.0, 0.0, 0.0, 0.0) && -130.0 <= p.z <= 130.0)
        || (p.z == 100.0 && d == Vec4(0.0, 0.0, -1.0, 0.0) && -130.0 <= p.x <= 130.0)
        || (p.z == -100.0 && d == Vec4(0.0, 0.0, 1.0, 0.0) && -130.0 <= p.x <= 130.0))
  }

  lemma SpawnedAsteroids(f: Asteroids, draws: seq<SpawnDraw>)
    requires Parallel(f) && |f.positions| <= NumSpheres && |draws| >= NumSpheres
    requires forall k :: 0 <= k < |draws| ==> IsSpawnDraw(draws[k])
    ensures var r := Spawn(f, draws);
            Parallel(r) && |r.positions| == NumSpheres
            && forall n :: |f.positions| <= n < NumSpheres ==> FreshAsteroid(r, n)
  {
    SpawnFillsField(f, draws);
    if |f.positions| < NumSpheres {
      var used := draws[..NumSpheres - |f.positions|];
      RefillAt(f, used);
      var r := Spawn(f, draws);
      forall n | |f.positions| <= n < NumSpheres
        ensures FreshAsteroid(r, n)
      {
        var d := used[n - |f.positions|];
        assert IsSpawnDraw(d);
        var across := GlUtilities.RandRange(-130.0, 130.0, d.coord);
        assert -130.0 <= across <= 130.0;
      }
    }
  }

  // ---------------------------------------------------------------------
  // The ammunition

  /** A shot asked for with an empty magazine stays pending and changes
      nothing else. */
  lemma EmptyMagazineWaits(w: World, rot: Rotation)
    requires w.bullets.fired && w.player.bulletsRemaining <= 0
    ensures Fire(w, rot) == w
  {
  }

  /** A shot costs one bullet and adds exactly one bullet, one unit below the
      ship, heading along the ship's nose. */
  lemma ShotCostsOneBullet(w: World, rot: Rotation)
    requires w.bullets.fired && w.player.bulletsRemaining > 0
    ensures var r := Fire(w, rot);
            !r.bullets.fired && r.player.bulletsRemaining == w.player.bulletsRemaining - 1
            && r.bullets.positions == w.bullets.positions + [Plus(w.ship.currentPos, Vec4(0.0, -1.0, 0.0, 0.0))]
            && r.bullets.directions == w.bullets.directions + [rot(w.ship.angleRot, Forward)]
            && r.bullets.positions[|r.bullets.positions| - 1].y == w.ship.currentPos.y - 1.0
  {
  }

  /** The ammo box never raises the ammunition above 60, and gives 15 when
      it can. */
  lemma AmmoBoxBounded(w: World, p: Place)
    requires 0 <= w.player.bulletsRemaining <= FullAmmo
    ensures var r := AmmoPickup(w, p).player.bulletsRemaining;
            0 <= r <= FullAmmo
            && (r == w.player.bulletsRemaining || r == w.player.bulletsRemaining + 15)
            && (Collides(w.ship.currentPos, w.ammoBox, 0.9) && w.player.bulletsRemaining < 46
                <==> r == w.player.bulletsRemaining + 15)
  {
  }

  // ---------------------------------------------------------------------
  // The missiles

  /** Missile slot A (slotA) or B. */
  function Slot(w: World, slotA: bool): Missile {
    if slotA then w.missileA else w.missileB
  }

  /** The slot scores this frame: it is unfired and in flight, and after its
      move some asteroid is within reach. */
  predicate SlotScores(m: Missile, spheres: seq<Vec4>) {
    m.speed != 0.0 && m.fired == 0 && HitsAny(Plus(m.pos, Times(m.speed, m.dir)), spheres)
  }

  lemma FlyEffects(m: Missile, spheres: seq<Vec4>, killed: int)
    ensures var (r, k) := Fly(m, spheres, killed);
            k == killed + (if SlotScores(m, spheres) then 1 else 0)
            && (SlotScores(m, spheres) ==> r.fired == 1)
            && (!SlotScores(m, spheres) ==> r.fired == m.fired)
  {
  }

  /** The missile phase credits each slot with at most one kill, only when
      it scores, marks a scoring slot fired and never clears a fired flag
      except on the supply; touching the supply resets both slots and
      moves the supply one unit below the asteroids. */
  lemma MissilesPhaseEffects(w: World, p: Place)
    requires Valid(w)
    ensures var r := MissilesPhase(w, p);
            var spheres := w.field.positions;
            r.killedSinceDeath == w.killedSinceDeath
              + (if SlotScores(w.missileA, spheres) then 1 else 0)
              + (if SlotScores(w.missileB, spheres) then 1 else 0)
            && (PicksUp(w) ==> r.missileA == IdleMissile && r.missileB == IdleMissile
                               && r.missilePos == SupplyAt(p, -2.0))
            && (!PicksUp(w) ==>
                  r.missilePos == w.missilePos
                  && r.missileA.fired >= w.missileA.fired && r.missileB.fired >= w.missileB.fired
                  && (SlotScores(w.missileA, spheres) ==> r.missileA.fired == 1)
                  && (SlotScores(w.missileB, spheres) ==> r.missileB.fired == 1))
            && r == w.(missileA := r.missileA, missileB := r.missileB, missilePos := r.missilePos,
                       killedSinceDeath := r.killedSinceDeath,
                       field := w.field.(sizes := r.field.sizes))
            && |r.field.sizes| == |w.field.sizes|
  {
    var spheres := w.field.positions;
    var a := Grow(w.missileA);
    var b := Grow(w.missileB);
    assert SlotScores(a, spheres) == SlotScores(w.missileA, spheres);
    assert SlotScores(b, spheres) == SlotScores(w.missileB, spheres);
    FlyEffects(a, spheres, w.killedSinceDeath);
    var (a1, k1) := Fly(a, spheres, w.killedSinceDeath);
    FlyEffects(b, spheres, k1);
  }

  // ---------------------------------------------------------------------
  // The trail

  /** The trail holds the last marks, at most 30, and ends with the new one. */
  lemma TrailKeepsNewest(w: World)
    requires |w.particleDens| <= TrailLength
    ensures var r := TrailPhase(w).particleDens;
            var mark := TrailMark(Plus(w.ship.currentPos, Vec4(0.0, -2.0, 0.0, 0.0)), w.ship.angleRot);
            |r| == (if |w.particleDens| < TrailLength then |w.particleDens| + 1 else TrailLength)
            && r[|r| - 1] == mark
            && r == (w.particleDens + [mark])[|w.particleDens| + 1 - |r|..]
  {
  }

  // ---------------------------------------------------------------------
  // The invariant

  lemma MissilesKeepValid(w: World, p: Place)
    requires Valid(w)
    ensures Valid(MissilesPhase(w, p))
  {
    MissilesPhaseEffects(w, p);
  }

  lemma BulletsKeepValid(w: World, p: Place, rot: Rotation)
    requires Valid(w)
    ensures Valid(BulletsPhase(w, p, rot))
    ensures var r := BulletsPhase(w, p, rot);
            r == w.(bullets := w.bullets.(fired := r.bullets.fired, positions := r.bullets.positions,
                                          directions := r.bullets.directions), ammoBox := r.ammoBox,
                    player := w.player.(bulletsRemaining := r.player.bulletsRemaining),
                    field := w.field.(sizes := r.field.sizes))
  {
    var w1 := AmmoPickup(Fire(w, rot), p);
    AmmoBoxBounded(Fire(w, rot), p);
    BulletScanEffects(w1, 0);
  }

  lemma AsteroidsKeepValid(w: World, draws: seq<SpawnDraw>, rot: Rotation)
    requires Valid(w) && |draws| >= NumSpheres
    ensures Valid(AsteroidsPhase(w, draws, rot))
  {
    SpawnFillsField(w.field, draws);
    AsteroidScanEffects(w.(field := Spawn(w.field, draws)), 0, rot);
  }

  /** A frame keeps the invariant: equal-length parallel vectors, at most 60
      asteroids, 0..60 bullets, at most 30 trail marks, 0/1 missile flags. */
  lemma FrameKeepsValid(w: World, d: FrameDraws, rot: Rotation)
    requires Valid(w) && |d.spawn| >= NumSpheres
    ensures Valid(Frame(w, d, rot))
  {
    MissilesKeepValid(w, d.pickup);
    var w1 := Integrate(TrailPhase(MissilesPhase(w, d.pickup)));
    BulletsKeepValid(w1, d.ammo, rot);
    AsteroidsKeepValid(BulletsPhase(w1, d.ammo, rot), d.spawn, rot);
  }

  lemma KeysKeepValid(w: World, key: Adjustables.Byte, special: int, rot: Rotation)
    requires Valid(w)
    ensures Valid(Keyboard(w, key, rot)) && Valid(SpecialKeyboard(w, special, rot))
  {
  }

  // ---------------------------------------------------------------------
  // Runs of callbacks

  /** One callback: a frame with its random draws, a key or a special key. */
  datatype Event = Tick(draws: FrameDraws) | Key(key: Adjustables.Byte) | Special(code: int)

  predicate IsEvent(e: Event) {
    e.Tick? ==> IsFrameDraws(e.draws)
  }

  predicate AllEvents(evs: seq<Event>) {
    forall k :: 0 <= k < |evs| ==> IsEvent(evs[k])
  }

  function Step(w: World, e: Event, rot: Rotation): (r: World)
    requires Valid(w) && IsEvent(e)
    ensures Valid(r)
  {
    match e
    case Tick(d) => FrameKeepsValid(w, d, rot); Frame(w, d, rot)
    case Key(k) => KeysKeepValid(w, k, 0, rot); Keyboard(w, k, rot)
    case Special(k) => KeysKeepValid(w, 0, k, rot); SpecialKeyboard(w, k, rot)
  }

  /** The frame that handles e touches the missile supply. */
  predicate TouchesSupply(w: World, e: Event) {
    e.Tick? && PicksUp(w)
  }

  /** No frame of the run touches the missile supply. */
  predicate NoSupplyIn(w: World, evs: seq<Event>, rot: Rotation)
    requires Valid(w) && AllEvents(evs)
    decreases |evs|
  {
    |evs| == 0
    || (!TouchesSupply(w, evs[0]) && NoSupplyIn(Step(w, evs[0], rot), evs[1..], rot))
  }

  /** How many frames of the run credit a kill to the slot. */
  function SlotKills(w: World, evs: seq<Event>, rot: Rotation, slotA: bool): nat
    requires Valid(w) && AllEvents(evs)
    decreases |evs|
  {
    if |evs| == 0 then 0
    else (if evs[0].Tick? && SlotScores(Slot(w, slotA), w.field.positions) then 1 else 0)
         + SlotKills(Step(w, evs[0], rot), evs[1..], rot, slotA)
  }

  /** The fired flag of a slot only rises between supplies, and a scoring
      slot is unfired before and fired after. */
  lemma SlotStep(w: World, e: Event, rot: Rotation, slotA: bool)
    requires Valid(w) && IsEvent(e) && !TouchesSupply(w, e)
    ensures var r := Step(w, e, rot);
            Slot(r, slotA).fired >= Slot(w, slotA).fired
            && (e.Tick? && SlotScores(Slot(w, slotA), w.field.positions) ==> Slot(r, slotA).fired == 1)
  {
    if e.Tick? {
      var d := e.draws;
      MissilesPhaseEffects(w, d.pickup);
      var w1 := Integrate(TrailPhase(MissilesPhase(w, d.pickup)));
      BulletsKeepValid(w1, d.ammo, rot);
      var w2 := BulletsPhase(w1, d.ammo, rot);
      AsteroidScanEffects(w2.(field := Spawn(w2.field, d.spawn)), 0, rot);
    }
  }

  /** Between two visits to the missile supply each slot destroys at most
      one asteroid, and none once it is marked fired. */
  lemma {:induction false} OneKillPerSlot(w: World, evs: seq<Event>, rot: Rotation, slotA: bool)
    requires Valid(w) && AllEvents(evs) && NoSupplyIn(w, evs, rot)
    ensures SlotKills(w, evs, rot, slotA) + Slot(w, slotA).fired <= 1
    decreases |evs|
  {
    if |evs| > 0 {
      SlotStep(w, evs[0], rot, slotA);
      OneKillPerSlot(Step(w, evs[0], rot), evs[1..], rot, slotA);
    }
  }

  /** The ship stays in the plane y = 0. */
  predicate ShipLevel(w: World) {
    w.ship.currentPos.y == 0.0 && w.ship.currentDir.y == 0.0 && w.ship.initialDir.y == 0.0
  }

  /** A rotation about the y axis keeps vectors of the plane in the plane. */
  ghost predicate KeepsPlane(rot: Rotation) {
    forall a: real, v: Vec4 :: v.y == 0.0 ==> rot(a, v).y == 0.0
  }

  /** A frame keeps the ship level, and leaves the supply where it is unless
      it touches it. */
  lemma FrameKeepsShipLevel(w: World, d: FrameDraws, rot: Rotation)
    requires Valid(w) && |d.spawn| >= NumSpheres && ShipLevel(w)
    ensures ShipLevel(Frame(w, d, rot))
    ensures !PicksUp(w) ==> Frame(w, d, rot).missilePos == w.missilePos
  {
    MissilesPhaseEffects(w, d.pickup);
    var w0 := MissilesPhase(w, d.pickup);
    var w1 := Integrate(TrailPhase(w0));
    assert ShipLevel(w1) && w1.missilePos == w0.missilePos;
    BulletsKeepValid(w1, d.ammo, rot);
    var w2 := BulletsPhase(w1, d.ammo, rot);
    var w3 := w2.(field := Spawn(w2.field, d.spawn));
    assert ShipLevel(w3) && w3.missilePos == w0.missilePos;
    AsteroidScanEffects(w3, 0, rot);
    ShipContact(w3, 0, rot);
    assert Frame(w, d, rot) == AsteroidScan(w3, 0, rot);
  }

  /** Every callback keeps the ship level, and leaves the supply where it is
      unless a frame touches it. */
  lemma StepKeepsShipLevel(w: World, e: Event, rot: Rotation)
    requires Valid(w) && IsEvent(e) && ShipLevel(w) && KeepsPlane(rot)
    ensures ShipLevel(Step(w, e, rot))
    ensures !TouchesSupply(w, e) ==> Step(w, e, rot).missilePos == w.missilePos
  {
    match e
    case Tick(d) =>
      FrameKeepsShipLevel(w, d, rot);
    case Key(k) =>
    case Special(k) =>
      assert rot(3.0, w.ship.initialDir).y == 0.0 && rot(-3.0, w.ship.initialDir).y == 0.0;
  }

  /** Once the supply has been picked up it is put back two units below the
      ship's plane, out of the ship's reach of 1.5: it can never be picked up
      again, so the missiles are never refilled a second time. */
  lemma {:induction false} SupplyGoneForGood(w: World, evs: seq<Event>, rot: Rotation)
    requires Valid(w) && AllEvents(evs) && ShipLevel(w) && KeepsPlane(rot)
    requires w.missilePos.y == -2.0
    ensures NoSupplyIn(w, evs, rot)
    decreases |evs|
  {
    HeightGapPreventsCollision(w.ship.currentPos, w.missilePos, 1.5, 2.0);
    if |evs| > 0 {
      StepKeepsShipLevel(w, evs[0], rot);
      SupplyGoneForGood(Step(w, evs[0], rot), evs[1..], rot);
    }
  }

  /** The first supply is placed in the ship's plane. */
  lemma FirstSupplyInPlane(supply: Place, box: Place)
    ensures Initial(supply, box).missilePos.y == 0.0 && ShipLevel(Initial(supply, box))
    ensures IsPlace(supply) ==> -100.0 <= Initial(supply, box).missilePos.x <= 100.0
    ensures IsPlace(supply) ==> -100.0 <= Initial(supply, box).missilePos.z <= 100.0
  {
  }

  // ---------------------------------------------------------------------
  // Speed and steering

  /** A frame only eases the speed up while it is below max_speed. */
  lemma FrameSpeed(w: World, d: FrameDraws, rot: Rotation)
    requires Valid(w) && |d.spawn| >= NumSpheres
    ensures var r := Frame(w, d, rot);
            r.ship.maxSpeed == w.ship.maxSpeed
            && (w.ship.speed < w.ship.maxSpeed ==> r.ship.speed == w.ship.speed + 0.002)
            && (w.ship.speed >= w.ship.maxSpeed ==> r.ship.speed == w.ship.speed)
  {
    MissilesPhaseEffects(w, d.pickup);
    var w1 := Integrate(TrailPhase(MissilesPhase(w, d.pickup)));
    BulletsKeepValid(w1, d.ammo, rot);
    var w2 := BulletsPhase(w1, d.ammo, rot);
    AsteroidScanEffects(w2.(field := Spawn(w2.field, d.spawn)), 0, rot);
  }

  /** max_speed is 0 and nothing ever changes it, so 'a' always takes the
      ship past it: the speed is not capped. */
  lemma SpeedKeyPassesMaxSpeed(w: World, rot: Rotation)
    requires w.ship.speed >= w.ship.maxSpeed
    ensures Keyboard(w, 'a' as int, rot).ship.speed > Keyboard(w, 'a' as int, rot).ship.maxSpeed
    ensures Keyboard(w, 'A' as int, rot).ship.speed == w.ship.speed + 0.03
  {
  }

  /** LEFT then RIGHT restores the whole state when the two 3-degree
      rotations undo each other. */
  lemma LeftRightCancel(w: World, rot: Rotation)
    requires forall v :: rot(-3.0, rot(3.0, v)) == v
    ensures SpecialKeyboard(SpecialKeyboard(w, Adjustables.GlutKeyLeft, rot), Adjustables.GlutKeyRight, rot) == w
  {
  }

  /** Keys never touch the missile flags, the ammunition or the asteroids. */
  lemma KeysLeaveFlags(w: World, key: Adjustables.Byte, special: int, rot: Rotation)
    ensures var r := Keyboard(w, key, rot);
            r.missileA.fired == w.missileA.fired && r.missileB.fired == w.missileB.fired
            && r.player == w.player && r.field == w.field
    ensures var s := SpecialKeyboard(w, special, rot);
            s.missileA == w.missileA && s.missileB == w.missileB && s.player == w.player
            && s.field == w.field && s.ship.currentPos == w.ship.currentPos
  {
  }
}
