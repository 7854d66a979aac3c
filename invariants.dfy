/** Facts about the state that the animation loop and the input handlers keep, for every sequence of events. */
module Invariants {
  import opened Levels
  import opened Session
  import opened Step
  import opened StepProperties
  import opened Control

  /** What holds of the state between any two events, whatever the level. */
  predicate Sane(s: State) {
    && s.levelIndex < LEVEL_COUNT
    && s.player.x >= START_X
    && SHIP_MAX_RISE <= s.shipVY <= SHIP_MAX_FALL
    && -TICK_MS < s.jumpBuffer <= JUMP_BUFFER_TIME
    && (forall t <- s.trail :: 0.0 < t.alpha <= 1.0)
    && 0 <= s.score <= 100
    && (s.player.dead <==> s.gameState == Dead)
    && (s.gameState != Dead ==> s.deathParticles == [])
    && |s.deathParticles| <= BURST_SIZE
    && (s.gameMode == Cube ==> Bottom(s.player) <= GROUND_TOP)
  }

  /** The camera shows a window that lies inside the level. */
  predicate InView(s: State, lv: Level) {
    0.0 <= s.cameraX <= (lv.length - VIEW_TILES) as real * TILE_SIZE
  }

  /** The loaded level records, one per blueprint, each playable. */
  predicate Ready(levels: seq<Level>) {
    |levels| == LEVEL_COUNT &&
    forall i :: 0 <= i < |levels| ==> WellFormed(levels[i]) && Floored(levels[i])
  }

  /** No platform's top lies below the ground line. */
  predicate Floored(lv: Level) {
    forall i :: 0 <= i < |lv.platforms| ==> lv.platforms[i].y as real * TILE_SIZE <= GROUND_TOP
  }

  // ---------------------------------------------------------------------
  // The parts of a tick

  lemma MotionSafe(s: State)
    requires Sane(s)
    ensures var m := Motion(s);
            && m.player.x == s.player.x + SPEED
            && SHIP_MAX_RISE <= m.shipVY <= SHIP_MAX_FALL
            && -TICK_MS < m.jumpBuffer <= JUMP_BUFFER_TIME
            && m.gameMode == s.gameMode
            && (m.gameMode == Cube ==> Bottom(m.player) <= GROUND_TOP)
  {
    var t := s.(frameCount := s.frameCount + 1,
                jumpBuffer := Countdown(s.jumpBuffer),
                player := s.player.(x := s.player.x + SPEED));
    if t.gameMode == Ship {
      FlyStaysInRange(t);
    } else {
      FallStaysAboveGround(t);
    }
  }

  /** Portals keep the ship's speed in range and never drop a cube below the ground. */
  lemma {:induction false} ScanPortalsSafe(s: State, ps: seq<Portal>, tileX: int)
    requires SHIP_MAX_RISE <= s.shipVY <= SHIP_MAX_FALL
    requires s.gameMode == Cube ==> Bottom(s.player) <= GROUND_TOP
    ensures var r := ScanPortals(s, ps, tileX);
            SHIP_MAX_RISE <= r.shipVY <= SHIP_MAX_FALL &&
            (r.gameMode == Cube ==> Bottom(r.player) <= GROUND_TOP)
    decreases |ps|
  {
    if ps != [] {
      ScanPortalsSafe(s, ps[..|ps| - 1], tileX);
    }
  }

  /** Landing on platforms whose tops are above the ground keeps a cube above the ground. */
  lemma {:induction false} ScanPlatformsSafe(s: State, lv: Level, n: nat, bottom: real, top: real)
    requires Floored(lv) && n <= |lv.platforms|
    requires Bottom(s.player) <= GROUND_TOP
    ensures Bottom(ScanPlatforms(s, lv.platforms[..n], bottom, top).player) <= GROUND_TOP
    decreases n
  {
    if n > 0 {
      var plats := lv.platforms[..n];
      assert plats[..n - 1] == lv.platforms[..n - 1];
      ScanPlatformsSafe(s, lv, n - 1, bottom, top);
    }
  }

  lemma IntegrateSafe(s: State, lv: Level)
    requires Sane(s) && Floored(lv)
    ensures var q := Integrate(s, lv);
            && SameBookkeeping(q, Motion(s))
            && SHIP_MAX_RISE <= q.shipVY <= SHIP_MAX_FALL
            && -TICK_MS < q.jumpBuffer <= JUMP_BUFFER_TIME
            && (q.gameMode == Cube ==> Bottom(q.player) <= GROUND_TOP)
  {
    var m := Motion(s);
    MotionSafe(s);
    IntegrateKeeps(s, lv);
    var p := ScanPortals(m, lv.portals, TileX(m.player));
    ScanPortalsKeeps(m, lv.portals, TileX(m.player));
    ScanPortalsSafe(m, lv.portals, TileX(m.player));
    if p.gameMode == Cube {
      ScanPlatformsKeeps(p, lv.platforms, Bottom(p.player), p.player.y);
      assert lv.platforms[..|lv.platforms|] == lv.platforms;
      ScanPlatformsSafe(p, lv, |lv.platforms|, Bottom(p.player), p.player.y);
    }
  }

  /** Fading keeps every opacity in (0, 1]. */
  lemma TrailSafe(s: State)
    requires forall t <- s.trail :: 0.0 < t.alpha <= 1.0
    ensures forall t <- Faded(WithSample(s)) :: 0.0 < t.alpha <= 1.0
  {
    var w := WithSample(s);
    assert forall i :: 0 <= i < |w| ==> w[i].alpha <= 1.0 by {
      forall i | 0 <= i < |w| ensures w[i].alpha <= 1.0 {
        if i < |s.trail| {
          assert w[i] == s.trail[i];
          assert w[i] in s.trail;
        }
      }
    }
    FadedAlive(w);
  }

  // ---------------------------------------------------------------------
  // Preservation

  /** update() keeps the state sane and the camera inside the level. */
  lemma TickPreservesSane(s: State, lv: Level)
    requires Sane(s) && InView(s, lv) && WellFormed(lv) && Floored(lv)
    ensures Sane(Tick(s, lv)) && InView(Tick(s, lv), lv)
    ensures Tick(s, lv).levelIndex == s.levelIndex
  {
    if s.gameState == Playing {
      var q := Integrate(s, lv);
      IntegrateSafe(s, lv);
      if !AnyHit(q.player, q.gameMode, lv.spikes) {
        SurvivedTick(s, lv);
        TrailSafe(q);
      }
    }
  }

  /** Every input handler keeps the state sane; the camera either stays or is reset to the start. */
  lemma InputPreservesSane(s: State, e: Press)
    requires Sane(s)
    ensures Sane(HandleInput(s, e))
    ensures var r := HandleInput(s, e);
            (r.levelIndex == s.levelIndex && r.cameraX == s.cameraX) || r.cameraX == 0.0
  {
    if !(e.Key? && !e.jumpKey) {
      var t := if e.Key? then
                 s.(jumpHeld := true,
                    jumpBuffer := if !s.player.onGround then JUMP_BUFFER_TIME else s.jumpBuffer)
               else s;
      RespondPreservesSane(t);
    }
  }

  /** The state-dependent branch of handleInput keeps the state sane. */
  lemma RespondPreservesSane(t: State)
    requires Sane(t)
    ensures Sane(Respond(t))
    ensures var r := Respond(t);
            (r.levelIndex == t.levelIndex && r.cameraX == t.cameraX) || r.cameraX == 0.0
  {
    CatalogueShape();
  }

  lemma KeyUpPreservesSane(s: State, jumpKey: bool)
    requires Sane(s)
    ensures Sane(HandleKeyUp(s, jumpKey)) && HandleKeyUp(s, jumpKey).levelIndex == s.levelIndex
    ensures HandleKeyUp(s, jumpKey).cameraX == s.cameraX
  {
  }

  lemma InitialSane()
    ensures Sane(Initial()) && Initial().cameraX == 0.0
  {
    CatalogueShape();
  }

  /** The built-in levels, built, are ready to play. */
  lemma CatalogueReady(levels: seq<Level>)
    requires |levels| == LEVEL_COUNT
    requires forall i {:trigger Build(CATALOGUE[i])} :: 0 <= i < |levels| ==> Sound(CATALOGUE[i]) && levels[i] == Build(CATALOGUE[i])
    ensures Ready(levels)
  {
    forall i | 0 <= i < |levels| ensures WellFormed(levels[i]) && Floored(levels[i]) {
      CatalogueSound(i);
    }
  }

  // ---------------------------------------------------------------------
  // Any sequence of events

  /** What reaches the simulation: an animation frame's update(), a press, or a key release.
      The visual decay of the death particles on frames spent dead is not modelled. */
  datatype Event = Frame | Down(press: Press) | Up(jumpKey: bool)

  /** One event: a frame runs update() on the current level. */
  function Apply(levels: seq<Level>, s: State, e: Event): (r: State)
    requires Ready(levels) && s.levelIndex < |levels|
    ensures r.levelIndex < |levels|
    ensures e == Frame ==> r.levelIndex == s.levelIndex
  {
    match e
    case Frame =>
      TickLevel(s, levels[s.levelIndex]);
      Tick(s, levels[s.levelIndex])
    case Down(p) =>
      NextIndexBound(s.levelIndex);
      HandleInput(s, p)
    case Up(k) => HandleKeyUp(s, k)
  }

  lemma TickLevel(s: State, lv: Level)
    requires lv.endX > 0
    ensures Tick(s, lv).levelIndex == s.levelIndex
  {
    if s.gameState == Playing {
      IntegrateKeeps(s, lv);
    }
  }

  lemma NextIndexBound(i: nat)
    ensures NextIndex(i) < LEVEL_COUNT
  {
    CatalogueShape();
  }

  /** The events applied in order. */
  function Replay(levels: seq<Level>, s: State, events: seq<Event>): (r: State)
    requires Ready(levels) && s.levelIndex < |levels|
    ensures r.levelIndex < |levels|
    decreases |events|
  {
    if events == [] then s
    else Apply(levels, Replay(levels, s, events[..|events| - 1]), events[|events| - 1])
  }

  /** One event of any kind keeps the state sane and the camera inside the current level. */
  lemma ApplySane(levels: seq<Level>, s: State, e: Event)
    requires Ready(levels) && Sane(s) && s.levelIndex < |levels| && InView(s, levels[s.levelIndex])
    ensures var r := Apply(levels, s, e); Sane(r) && InView(r, levels[r.levelIndex])
  {
    match e
    case Frame =>
      TickPreservesSane(s, levels[s.levelIndex]);
    case Down(p) =>
      InputPreservesSane(s, p);
      var r := HandleInput(s, p);
      assert WellFormed(levels[r.levelIndex]);
    case Up(k) =>
      KeyUpPreservesSane(s, k);
  }

  /** Every state the game can reach from start-up is sane and its camera lies inside its level. */
  lemma {:induction false} ReachableSane(levels: seq<Level>, events: seq<Event>)
    requires Ready(levels)
    ensures Initial().levelIndex < |levels|
    ensures var r := Replay(levels, Initial(), events); Sane(r) && InView(r, levels[r.levelIndex])
    decreases |events|
  {
    InitialSane();
    if events == [] {
      assert WellFormed(levels[Initial().levelIndex]);
    } else {
      ReachableSane(levels, events[..|events| - 1]);
      var s := Replay(levels, Initial(), events[..|events| - 1]);
      ApplySane(levels, s, events[|events| - 1]);
    }
  }
}
