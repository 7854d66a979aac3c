/** What one tick of update() guarantees. */
module StepProperties {
  import opened Levels
  import opened Session
  import opened Step

  // ---------------------------------------------------------------------
  // Gating, frame counter, forward motion

  lemma IdleUnlessPlaying(s: State, lv: Level)
    requires lv.endX > 0 && s.gameState != Playing
    ensures Tick(s, lv) == s
  {
  }

  /** The fields only the end of a tick (or die) writes. */
  predicate SameBookkeeping(a: State, b: State) {
    a.player.x == b.player.x && a.player.dead == b.player.dead &&
    a.gameState == b.gameState && a.jumpHeld == b.jumpHeld &&
    a.cameraX == b.cameraX && a.score == b.score && a.frameCount == b.frameCount &&
    a.trail == b.trail && a.deathParticles == b.deathParticles && a.levelIndex == b.levelIndex
  }

  /** The jump buffer after resolution is either what it was or cleared by a jump that had a reason to fire. */
  predicate BufferFrom(b0: real, held: bool, b: real) {
    b == b0 || (b == 0.0 && (held || b0 > 0.0))
  }

  lemma {:induction false} ScanPortalsKeeps(s: State, ps: seq<Portal>, tileX: int)
    ensures SameBookkeeping(ScanPortals(s, ps, tileX), s)
    ensures ScanPortals(s, ps, tileX).jumpBuffer == s.jumpBuffer
    decreases |ps|
  {
    if ps != [] {
      ScanPortalsKeeps(s, ps[..|ps| - 1], tileX);
    }
  }

  lemma {:induction false} ScanPlatformsKeeps(s: State, plats: seq<Platform>, bottom: real, top: real)
    ensures SameBookkeeping(ScanPlatforms(s, plats, bottom, top), s)
    ensures ScanPlatforms(s, plats, bottom, top).gameMode == s.gameMode
    ensures ScanPlatforms(s, plats, bottom, top).shipVY == s.shipVY
    ensures BufferFrom(s.jumpBuffer, s.jumpHeld, ScanPlatforms(s, plats, bottom, top).jumpBuffer)
    decreases |plats|
  {
    if plats != [] {
      ScanPlatformsKeeps(s, plats[..|plats| - 1], bottom, top);
    }
  }

  lemma IntegrateKeeps(s: State, lv: Level)
    ensures SameBookkeeping(Integrate(s, lv), Motion(s))
  {
    var m := Motion(s);
    var p := ScanPortals(m, lv.portals, TileX(m.player));
    ScanPortalsKeeps(m, lv.portals, TileX(m.player));
    ScanPlatformsKeeps(p, lv.platforms, Bottom(p.player), p.player.y);
  }

  /** While playing, each tick counts a frame and moves the avatar exactly SPEED to the right. */
  lemma TickAdvances(s: State, lv: Level)
    requires lv.endX > 0 && s.gameState == Playing
    ensures Tick(s, lv).frameCount == s.frameCount + 1
    ensures Tick(s, lv).player.x == s.player.x + SPEED
  {
    IntegrateKeeps(s, lv);
  }

  // ---------------------------------------------------------------------
  // The jump buffer

  function Countdowns(buffer: real, n: nat): (r: real) {
    if n == 0 then buffer else Countdown(Countdowns(buffer, n - 1))
  }

  lemma {:induction false} CountdownsEarly(n: nat)
    requires n <= 9
    ensures Countdowns(JUMP_BUFFER_TIME, n) == JUMP_BUFFER_TIME - TICK_MS * n as real
  {
    if n > 0 {
      CountdownsEarly(n - 1);
    }
  }

  lemma {:induction false} CountdownsLate(n: nat)
    requires n >= 9
    ensures Countdowns(JUMP_BUFFER_TIME, n) == JUMP_BUFFER_TIME - TICK_MS * 9.0
  {
    if n == 9 {
      CountdownsEarly(9);
    } else {
      CountdownsLate(n - 1);
    }
  }

  /** A fresh buffer is still live after 8 ticks of countdown and spent from the 9th on. */
  lemma BufferWindow(n: nat)
    ensures Countdowns(JUMP_BUFFER_TIME, n) > 0.0 <==> n <= 8
  {
    if n <= 9 {
      CountdownsEarly(n);
    } else {
      CountdownsLate(n);
    }
  }

  /** After a tick the buffer has been counted down once, or cleared by a jump it or the held key fired. */
  lemma TickBuffer(s: State, lv: Level)
    requires lv.endX > 0 && s.gameState == Playing
    ensures BufferFrom(Countdown(s.jumpBuffer), s.jumpHeld, Tick(s, lv).jumpBuffer)
  {
    var m := Motion(s);
    var p := ScanPortals(m, lv.portals, TileX(m.player));
    ScanPortalsKeeps(m, lv.portals, TileX(m.player));
    ScanPlatformsKeeps(p, lv.platforms, Bottom(p.player), p.player.y);
  }

  // ---------------------------------------------------------------------
  // Ship and cube motion

  /** Ship mode keeps its vertical speed inside the rise and fall limits. */
  lemma FlyStaysInRange(s: State)
    requires SHIP_MAX_RISE <= s.shipVY <= SHIP_MAX_FALL
    ensures SHIP_MAX_RISE <= Fly(s).shipVY <= SHIP_MAX_FALL
    ensures Fly(s).player.y == s.player.y + Fly(s).shipVY
  {
  }

  /** Landing puts the avatar's bottom on the surface; a held or buffered jump leaves at once. */
  lemma LandOutcome(s: State, top: real)
    ensures Bottom(Land(s, top).player) == top && Land(s, top).player.x == s.player.x
    ensures s.jumpHeld || s.jumpBuffer > 0.0 ==>
              Land(s, top).player.vy == JUMP_FORCE && !Land(s, top).player.onGround &&
              Land(s, top).jumpBuffer == 0.0
    ensures !(s.jumpHeld || s.jumpBuffer > 0.0) ==>
              Land(s, top).player.vy == 0.0 && Land(s, top).player.onGround &&
              Land(s, top).jumpBuffer == s.jumpBuffer
  {
  }

  /** Cube gravity never leaves the avatar's bottom below the ground line. */
  lemma FallStaysAboveGround(s: State)
    ensures Bottom(Fall(s).player) <= GROUND_TOP
    ensures s.player.y + s.player.vy + GRAVITY + PLAYER_HEIGHT < GROUND_TOP ==>
              Fall(s).player.vy == s.player.vy + GRAVITY &&
              Fall(s).player.y == s.player.y + s.player.vy + GRAVITY && !Fall(s).player.onGround
    ensures s.player.y + s.player.vy + GRAVITY + PLAYER_HEIGHT >= GROUND_TOP && !s.jumpHeld && s.jumpBuffer <= 0.0 ==>
              Fall(s).player.vy == 0.0 && Fall(s).player.onGround &&
              Fall(s).player.y == GROUND_TOP - PLAYER_HEIGHT
    ensures s.player.y + s.player.vy + GRAVITY + PLAYER_HEIGHT >= GROUND_TOP && (s.jumpHeld || s.jumpBuffer > 0.0) ==>
              Fall(s).player.vy == JUMP_FORCE && !Fall(s).player.onGround && Fall(s).jumpBuffer == 0.0
  {
  }

  /** A cube resting on the ground with no jump pending stays exactly where it is. */
  lemma RestingStaysResting(s: State)
    requires s.gameMode == Cube && !s.jumpHeld && s.jumpBuffer <= 0.0
    requires s.player.y == GROUND_TOP - PLAYER_HEIGHT && s.player.vy == 0.0
    ensures Motion(s).player.y == s.player.y && Motion(s).player.vy == 0.0 && Motion(s).player.onGround
    ensures Motion(s).player.x == s.player.x + SPEED && Motion(s).gameMode == Cube
  {
  }

  // ---------------------------------------------------------------------
  // Platforms and portals

  /** A platform stops the avatar only when it overlaps and comes from above. */
  lemma PlatformLanding(s: State, plat: Platform, bottom: real, top: real)
    ensures Overlaps(s.player, plat, bottom, top) && s.player.vy > 0.0 &&
            Bottom(s.player) - s.player.vy <= plat.y as real * TILE_SIZE + 5.0 ==>
              Bottom(MeetPlatform(s, plat, bottom, top).player) == plat.y as real * TILE_SIZE &&
              (s.jumpHeld || s.jumpBuffer > 0.0 ==>
                MeetPlatform(s, plat, bottom, top).player.vy == JUMP_FORCE &&
                !MeetPlatform(s, plat, bottom, top).player.onGround &&
                MeetPlatform(s, plat, bottom, top).jumpBuffer == 0.0) &&
              (!(s.jumpHeld || s.jumpBuffer > 0.0) ==>
                MeetPlatform(s, plat, bottom, top).player.vy == 0.0 &&
                MeetPlatform(s, plat, bottom, top).player.onGround)
    ensures !Overlaps(s.player, plat, bottom, top) ==> MeetPlatform(s, plat, bottom, top) == s
    ensures s.player.vy <= 0.0 ==> MeetPlatform(s, plat, bottom, top) == s
    ensures Bottom(s.player) - s.player.vy > plat.y as real * TILE_SIZE + 5.0 ==>
              MeetPlatform(s, plat, bottom, top) == s
  {
  }

  /** A portal that asks for the current mode changes nothing. */
  lemma SameModePortal(s: State, portal: Portal, tileX: int)
    requires portal.toMode == s.gameMode
    ensures EnterPortal(s, portal, tileX) == s
  {
  }

  lemma PortalToShip(s: State, portal: Portal, tileX: int)
    requires s.gameMode == Cube && portal.toMode == Ship && Touches(s.player, portal, tileX)
    ensures var r := EnterPortal(s, portal, tileX);
            r.gameMode == Ship && r.shipVY == 0.0 && r.shipRotation == 0.0 &&
            r.player.y == portal.y as real * TILE_SIZE && r.player.x == s.player.x
  {
  }

  lemma PortalToCube(s: State, portal: Portal, tileX: int)
    requires s.gameMode == Ship && portal.toMode == Cube && Touches(s.player, portal, tileX)
    ensures var r := EnterPortal(s, portal, tileX);
            r.gameMode == Cube && r.player.y <= START_Y && r.player.y <= s.player.y &&
            r.player.vy == 0.0 && r.player.onGround && r.player.x == s.player.x
  {
  }

  /** The portal loop has no break: when every portal asks for the current mode, the scan is a no-op. */
  lemma {:induction false} ScanSameMode(s: State, ps: seq<Portal>, tileX: int)
    requires forall i :: 0 <= i < |ps| ==> ps[i].toMode == s.gameMode
    ensures ScanPortals(s, ps, tileX) == s
    decreases |ps|
  {
    if ps != [] {
      ScanSameMode(s, ps[..|ps| - 1], tileX);
    }
  }

  /** ... and a later portal in the same scan can switch straight back. */
  lemma ScanCanSwitchBack(s: State, a: Portal, tileX: int)
    requires s.gameMode == Cube && a.toMode == Ship && Touches(s.player, a, tileX)
    ensures ScanPortals(s, [a, a.(toMode := Cube)], tileX).gameMode == Cube
  {
    var b := a.(toMode := Cube);
    assert [a, b][..1] == [a] && [a][..0] == [];
    var r1 := ScanPortals(s, [a], tileX);
    assert ScanPortals(s, [], tileX) == s;
    assert r1 == EnterPortal(ScanPortals(s, [], tileX), a, tileX);
    assert r1.gameMode == Ship && Touches(r1.player, b, tileX);
    assert ScanPortals(s, [a, b], tileX) == EnterPortal(r1, b, tileX);
  }

  // ---------------------------------------------------------------------
  // Death, win, camera, progress, trail

  /** A spike hit ends the tick: dead, 30 particles, and nothing of the finish is done. */
  lemma DeathTick(s: State, lv: Level)
    requires lv.endX > 0 && s.gameState == Playing
    requires var q := Integrate(s, lv); AnyHit(q.player, q.gameMode, lv.spikes)
    ensures var r := Tick(s, lv);
            r.gameState == Dead && r.player.dead &&
            |r.deathParticles| == |s.deathParticles| + BURST_SIZE &&
            r.deathParticles[..|s.deathParticles|] == s.deathParticles &&
            (forall k :: |s.deathParticles| <= k < |r.deathParticles| ==>
               r.deathParticles[k] == Particle(CenterX(r.player), CenterY(r.player), 1.0)) &&
            r.cameraX == s.cameraX && r.score == s.score && r.trail == s.trail
  {
    IntegrateKeeps(s, lv);
  }

  /** A tick ends in the death state exactly when a spike was hit. */
  lemma DeadIffHit(s: State, lv: Level)
    requires lv.endX > 0 && s.gameState == Playing
    ensures var q := Integrate(s, lv);
            Tick(s, lv).gameState == Dead <==> AnyHit(q.player, q.gameMode, lv.spikes)
  {
    IntegrateKeeps(s, lv);
  }

  lemma CameraInView(x: real, length: int)
    requires length >= VIEW_TILES
    ensures 0.0 <= Camera(x, length) <= (length - VIEW_TILES) as real * TILE_SIZE
  {
  }

  lemma ScoreBounds(x: real, endX: int)
    requires endX > 0
    ensures Score(x, endX) <= 100
    ensures x >= 0.0 ==> 0 <= Score(x, endX)
    ensures x >= endX as real * TILE_SIZE ==> Score(x, endX) == 100
  {
    var d := endX as real * TILE_SIZE;
    if x >= 0.0 {
      assert x / d >= 0.0;
    }
    if x >= d {
      var q := x / d;
      assert q * d == x;
      if q < 1.0 {
        assert false;
      }
    }
  }

  /** Progress never goes down as the avatar moves right. */
  lemma ScoreMonotone(x1: real, x2: real, endX: int)
    requires endX > 0 && x1 <= x2
    ensures Score(x1, endX) <= Score(x2, endX)
  {
    var d := endX as real * TILE_SIZE;
    assert x1 / d <= x2 / d by {
      assert x2 / d - x1 / d == (x2 - x1) / d;
    }
  }

  lemma {:induction false} FadedAlive(trail: seq<TrailSample>)
    ensures |Faded(trail)| <= |trail|
    ensures forall t <- Faded(trail) :: t.alpha > 0.0
    ensures forall t <- Faded(trail) :: exists i :: 0 <= i < |trail| && t == Fade(trail[i])
  {
    if trail != [] {
      FadedAlive(trail[1..]);
      forall t <- Faded(trail) ensures exists i :: 0 <= i < |trail| && t == Fade(trail[i]) {
        if t in Faded(trail[1..]) {
          var i :| 0 <= i < |trail[1..]| && t == Fade(trail[1..][i]);
          assert t == Fade(trail[i + 1]);
        } else {
          assert t == Fade(trail[0]);
        }
      }
    }
  }

  /** A sample that stays visible after fading is kept. */
  lemma {:induction false} FadedKeeps(trail: seq<TrailSample>, i: nat)
    requires i < |trail| && Fade(trail[i]).alpha > 0.0
    ensures Fade(trail[i]) in Faded(trail)
  {
    if i > 0 {
      FadedKeeps(trail[1..], i - 1);
    }
  }

  /** A tick that survives the spikes: the win check, the camera, the progress and the trail. */
  lemma SurvivedTick(s: State, lv: Level)
    requires WellFormed(lv) && s.gameState == Playing
    requires var q := Integrate(s, lv); !AnyHit(q.player, q.gameMode, lv.spikes)
    ensures var r := Tick(s, lv);
            && 0.0 <= r.cameraX <= (lv.length - VIEW_TILES) as real * TILE_SIZE
            && (r.player.x >= 0.0 ==> 0 <= r.score <= 100)
            && (r.player.x >= lv.endX as real * TILE_SIZE ==> r.score == 100)
            && (r.gameState == Win <==> r.player.x > lv.endX as real * TILE_SIZE)
            && (r.gameState != Win ==> r.gameState == Playing)
            && (forall t <- r.trail :: t.alpha > 0.0)
            && r.player.dead == s.player.dead && r.deathParticles == s.deathParticles
            && r.cameraX == Camera(r.player.x, lv.length) && r.score == Score(r.player.x, lv.endX)
  {
    var q := Integrate(s, lv);
    IntegrateKeeps(s, lv);
    CameraInView(q.player.x, lv.length);
    ScoreBounds(q.player.x, lv.endX);
    FadedAlive(WithSample(q));
  }

  /** Across two running ticks the completion percentage never drops. */
  lemma ScoreNeverDrops(s: State, lv: Level)
    requires WellFormed(lv) && s.gameState == Playing && Tick(s, lv).gameState == Playing
    ensures Tick(s, lv).score <= Tick(Tick(s, lv), lv).score
  {
    var t := Tick(s, lv);
    DeadIffHit(s, lv);
    IntegrateKeeps(s, lv);
    SurvivedTick(s, lv);
    TickAdvances(t, lv);
    if Tick(t, lv).gameState != Dead {
      DeadIffHit(t, lv);
      SurvivedTick(t, lv);
      ScoreMonotone(t.player.x, t.player.x + SPEED, lv.endX);
    } else {
      DeadIffHit(t, lv);
      DeathTick(t, lv);
    }
  }

  // ---------------------------------------------------------------------
  // A run on an empty stretch of course

  function Ticks(s: State, lv: Level, n: nat): (r: State)
    requires lv.endX > 0
  {
    if n == 0 then s else Tick(Ticks(s, lv, n - 1), lv)
  }

  /** One tick of a cube resting on a course free of spikes, portals and platforms, with no input and
      short of the finish: it moves SPEED to the right and keeps resting. */
  lemma RestingTick(s: State, lv: Level)
    requires lv.endX > 0 && lv.spikes == [] && lv.portals == [] && lv.platforms == []
    requires s.gameState == Playing && s.gameMode == Cube && !s.jumpHeld && s.jumpBuffer <= 0.0
    requires s.player.y == GROUND_TOP - PLAYER_HEIGHT && s.player.vy == 0.0
    requires s.player.x + SPEED <= lv.endX as real * TILE_SIZE
    ensures var r := Tick(s, lv);
            r.gameState == Playing && r.gameMode == Cube && !r.jumpHeld && r.jumpBuffer == s.jumpBuffer &&
            r.player == s.player.(x := s.player.x + SPEED, onGround := true) &&
            r.frameCount == s.frameCount + 1
  {
    RestingStaysResting(s);
    var m := Motion(s);
    assert ScanPortals(m, [], TileX(m.player)) == m;
    assert ScanPlatforms(m, [], Bottom(m.player), m.player.y) == m;
    assert !AnyHit(m.player, Cube, []);
  }

  /** Resting on the ground with no input over a course free of spikes, portals and platforms:
      each tick moves SPEED to the right and nothing else of the avatar changes. */
  lemma {:induction false} RestingRun(s: State, lv: Level, n: nat)
    requires lv.endX > 0 && lv.spikes == [] && lv.portals == [] && lv.platforms == []
    requires s.gameState == Playing && s.gameMode == Cube && !s.jumpHeld && s.jumpBuffer <= 0.0
    requires s.player.y == GROUND_TOP - PLAYER_HEIGHT && s.player.vy == 0.0
    requires s.player.x + SPEED * n as real <= lv.endX as real * TILE_SIZE
    ensures var r := Ticks(s, lv, n);
            r.gameState == Playing && r.gameMode == Cube && !r.jumpHeld && r.jumpBuffer == s.jumpBuffer &&
            r.player.x == s.player.x + SPEED * n as real &&
            r.player.y == s.player.y && r.player.vy == 0.0 &&
            (n > 0 ==> r.player.onGround) && r.player.dead == s.player.dead &&
            r.frameCount == s.frameCount + n
  {
    if n > 0 {
      RestingRun(s, lv, n - 1);
      RestingTick(Ticks(s, lv, n - 1), lv);
    }
  }
}
