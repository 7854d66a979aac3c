/** The game's globals as objects whose fields the simulation updates in place (game.js). Every method is
    proved to move the state exactly as the matching function of Step or Control does. */
module Simulation {
  import opened Levels
  import opened Session
  import opened Step
  import Control
  import opened Invariants

  /** The global `player` object (its width and height are the constants PLAYER_WIDTH and PLAYER_HEIGHT). */
  class Player {
    var x: real
    var y: real
    var vy: real
    var onGround: bool
    var dead: bool

    constructor ()
      ensures Value() == Avatar(START_X, 0.0, 0.0, false, false)
    {
      x, y, vy, onGround, dead := START_X, 0.0, 0.0, false, false;
    }

    function Value(): (a: Avatar)
      reads this
    {
      Avatar(x, y, vy, onGround, dead)
    }

    /** The avatar's part of loadLevel and resetPlayer: standing alive on the ground at the start column. */
    method Rest()
      modifies this
      ensures Value() == Avatar(START_X, START_Y, 0.0, true, false)
    {
      x := START_X;
      y := (GROUND_Y - 1) as real * TILE_SIZE - PLAYER_HEIGHT;
      vy := 0.0;
      dead := false;
      onGround := true;
    }
  }

  class Game {
    /** LEVELS, built once at start-up. */
    const levels: seq<Level>
    const player: Player
    var gameState: RunState
    var currentLevelIndex: nat
    var level: Level
    var cameraX: real
    var deathParticles: seq<Particle>
    var trail: seq<TrailSample>
    var gameMode: Mode
    var shipRotation: real
    var shipVY: real
    var score: int
    var frameCount: nat
    var jumpHeld: bool
    var jumpBuffer: real

    /** The globals as one value. */
    function Snapshot(): (s: State)
      reads this, player
    {
      State(player.Value(), gameState, gameMode, shipVY, shipRotation, jumpHeld, jumpBuffer,
            cameraX, score, frameCount, trail, deathParticles, currentLevelIndex)
    }

    /** `level` is the entry of LEVELS that currentLevelIndex selects. */
    predicate Loaded()
      reads this
    {
      currentLevelIndex < |levels| && level == levels[currentLevelIndex]
    }

    predicate Valid()
      reads this, player
    {
      Ready(levels) && Loaded() && Sane(Snapshot()) && InView(Snapshot(), level)
    }

    /** Script start-up: the LEVELS literal, the globals' initial values, then loadLevel(0). */
    constructor ()
      ensures Valid() && Snapshot() == Control.Initial()
      ensures |levels| == LEVEL_COUNT
      ensures forall i {:trigger Build(CATALOGUE[i])} :: 0 <= i < |levels| ==> levels[i] == Build(CATALOGUE[i])
    {
      CatalogueShape();
      forall i | 0 <= i < |CATALOGUE| ensures Sound(CATALOGUE[i]) {
        CatalogueSound(i);
      }
      var built := BuildLevels(CATALOGUE);
      CatalogueReady(built);
      levels := built;
      player := new Player();
      gameState := Menu;
      currentLevelIndex := 0;
      cameraX := 0.0;
      deathParticles := [];
      trail := [];
      gameMode := Cube;
      shipRotation := 0.0;
      shipVY := 0.0;
      score := 0;
      frameCount := 0;
      jumpHeld := false;
      jumpBuffer := 0.0;
      new;
      LoadLevel(0);
      InitialSane();
    }

    // -------------------------------------------------------------------
    // The run state machine

    method LoadLevel(index: nat)
      requires |levels| == LEVEL_COUNT
      modifies this, player
      ensures Snapshot() == Control.LoadLevel(old(Snapshot()), index) && Loaded()
    {
      var i := index;
      if i >= |levels| {
        i := 0;
      }
      currentLevelIndex := i;
      level := levels[i];
      ResetRun();
    }

    method ResetPlayer()
      modifies this, player
      ensures Snapshot() == Control.ResetPlayer(old(Snapshot())) && level == old(level)
    {
      ResetRun();
      jumpHeld := false;
      jumpBuffer := 0.0;
    }

    /** The assignments loadLevel and resetPlayer share. */
    method ResetRun()
      modifies this, player
      ensures Snapshot() == Control.ResetRun(old(Snapshot()))
      ensures level == old(level) && currentLevelIndex == old(currentLevelIndex)
    {
      player.Rest();
      cameraX := 0.0;
      score := 0;
      deathParticles := [];
      trail := [];
      gameMode := Cube;
      shipRotation := 0.0;
      shipVY := 0.0;
    }

    method StartGame()
      modifies this, player
      ensures Snapshot() == Control.StartGame(old(Snapshot())) && level == old(level)
    {
      gameState := Playing;
      ResetPlayer();
    }

    /** handleInput, after the event has been classified. */
    method HandleInput(e: Control.Press)
      requires Valid()
      modifies this, player
      ensures Snapshot() == Control.HandleInput(old(Snapshot()), e) && Valid()
    {
      if e.Key? && !e.jumpKey {
        return;
      }
      if e.Key? {
        HoldJump();
      }
      ghost var t := Snapshot();
      Respond();
      RespondPreservesSane(t);
      assert WellFormed(levels[currentLevelIndex]);
    }

    /** A jump key pressed: the jump is held and, in the air, the buffer is armed. */
    method HoldJump()
      modifies this
      ensures Snapshot() == old(Snapshot()).(jumpHeld := true,
                                            jumpBuffer := if !player.onGround then JUMP_BUFFER_TIME else old(jumpBuffer))
      ensures level == old(level)
    {
      jumpHeld := true;
      if !player.onGround {
        jumpBuffer := JUMP_BUFFER_TIME;
      }
    }

    /** The state-dependent branch of handleInput. */
    method Respond()
      requires |levels| == LEVEL_COUNT && Loaded()
      modifies this, player
      ensures Snapshot() == Control.Respond(old(Snapshot())) && Loaded()
    {
      match gameState
      case Menu =>
        StartGame();
      case Playing =>
        if player.onGround {
          player.vy := JUMP_FORCE;
          player.onGround := false;
        }
      case Dead =>
        gameState := Playing;
        ResetPlayer();
      case Win =>
        currentLevelIndex := currentLevelIndex + 1;
        if currentLevelIndex >= |levels| {
          currentLevelIndex := 0;
        }
        LoadLevel(currentLevelIndex);
        StartGame();
    }

    method HandleKeyUp(jumpKey: bool)
      requires Valid()
      modifies this
      ensures Snapshot() == Control.HandleKeyUp(old(Snapshot()), jumpKey) && Valid()
    {
      if jumpKey {
        jumpHeld := false;
      }
      KeyUpPreservesSane(old(Snapshot()), jumpKey);
    }

    // -------------------------------------------------------------------
    // update()

    method Update()
      requires Valid()
      modifies this, player
      ensures level == old(level)
      ensures Snapshot() == Tick(old(Snapshot()), level) && Valid()
    {
      if gameState != Playing {
        return;
      }
      ghost var s0 := Snapshot();
      Advance();
      var playerCenterX := player.x + PLAYER_WIDTH / 2.0;
      var playerTileX := (playerCenterX / TILE_SIZE).Floor;
      EnterPortals(playerTileX);
      if gameMode == Cube {
        var playerBottom := player.y + PLAYER_HEIGHT;
        var playerTop := player.y;
        LandOnPlatforms(playerBottom, playerTop);
      }
      assert Snapshot() == Integrate(s0, level);
      var hit := SpikeHit();
      if hit {
        Die();
      } else {
        Finish();
      }
      TickPreservesSane(s0, level);
    }

    /** The frame counter, the buffer countdown, forward motion and the mode's vertical step. */
    method Advance()
      modifies this, player
      ensures Snapshot() == Motion(old(Snapshot())) && level == old(level)
    {
      frameCount := frameCount + 1;
      if jumpBuffer > 0.0 {
        jumpBuffer := jumpBuffer - TICK_MS;
      }
      player.x := player.x + SPEED;
      if gameMode == Ship {
        Glide();
      } else {
        Drop();
      }
    }

    /** Ship mode: thrust or sink, clamped, then tilt toward the velocity. */
    method Glide()
      modifies this, player
      ensures Snapshot() == Fly(old(Snapshot())) && level == old(level)
    {
      if jumpHeld {
        shipVY := shipVY + SHIP_UP_FORCE;
        if shipVY < SHIP_MAX_RISE {
          shipVY := SHIP_MAX_RISE;
        }
      } else {
        shipVY := shipVY + SHIP_GRAVITY;
        if shipVY > SHIP_MAX_FALL {
          shipVY := SHIP_MAX_FALL;
        }
      }
      player.y := player.y + shipVY;
      var targetRotation := shipVY * 0.05;
      shipRotation := shipRotation + (targetRotation - shipRotation) * 0.2;
    }

    /** Cube mode: gravity, then the ground check. */
    method Drop()
      modifies this, player
      ensures Snapshot() == Fall(old(Snapshot())) && level == old(level)
    {
      player.vy := player.vy + GRAVITY;
      player.y := player.y + player.vy;
      var groundY := GROUND_Y as real * TILE_SIZE;
      var playerBottom := player.y + PLAYER_HEIGHT;
      player.onGround := false;
      if playerBottom >= groundY {
        LandOn(groundY);
      }
    }

    /** Rest on the surface at `top`, then fire a held or buffered jump. */
    method LandOn(top: real)
      modifies this, player
      ensures Snapshot() == Land(old(Snapshot()), top) && level == old(level)
    {
      player.y := top - PLAYER_HEIGHT;
      player.vy := 0.0;
      player.onGround := true;
      if jumpHeld || jumpBuffer > 0.0 {
        player.vy := JUMP_FORCE;
        player.onGround := false;
        jumpBuffer := 0.0;
      }
    }

    /** The portal loop, which does not stop after a switch. */
    method EnterPortals(playerTileX: int)
      modifies this, player
      ensures Snapshot() == ScanPortals(old(Snapshot()), level.portals, playerTileX) && level == old(level)
    {
      ghost var s0 := Snapshot();
      var portals := level.portals;
      for i := 0 to |portals|
        invariant level == old(level)
        invariant Snapshot() == ScanPortals(s0, portals[..i], playerTileX)
      {
        assert portals[..i + 1][..i] == portals[..i];
        TryPortal(portals[i], playerTileX);
      }
      assert portals[..|portals|] == portals;
    }

    /** The platform loop, with the avatar's bottom and top as they were before it began. */
    method LandOnPlatforms(playerBottom: real, playerTop: real)
      modifies this, player
      ensures Snapshot() == ScanPlatforms(old(Snapshot()), level.platforms, playerBottom, playerTop)
      ensures level == old(level)
    {
      ghost var s0 := Snapshot();
      var platforms := level.platforms;
      for i := 0 to |platforms|
        invariant level == old(level)
        invariant Snapshot() == ScanPlatforms(s0, platforms[..i], playerBottom, playerTop)
      {
        assert platforms[..i + 1][..i] == platforms[..i];
        TryPlatform(platforms[i], playerBottom, playerTop);
      }
      assert platforms[..|platforms|] == platforms;
    }

    /** One pass of the portal loop. */
    method TryPortal(portal: Portal, playerTileX: int)
      modifies this, player
      ensures Snapshot() == EnterPortal(old(Snapshot()), portal, playerTileX) && level == old(level)
    {
      if portal.x == playerTileX {
        var portalTop := portal.y as real * TILE_SIZE;
        var portalBottom := portal.y as real * TILE_SIZE + TILE_SIZE;
        if player.y + PLAYER_HEIGHT > portalTop && player.y < portalBottom {
          if portal.toMode != gameMode {
            gameMode := portal.toMode;
            if gameMode == Ship {
              shipVY := 0.0;
              shipRotation := 0.0;
              player.y := portal.y as real * TILE_SIZE;
            } else {
              var restY := (GROUND_Y - 1) as real * TILE_SIZE - PLAYER_HEIGHT;
              player.y := if player.y < restY then player.y else restY;
              player.vy := 0.0;
              player.onGround := true;
            }
          }
        }
      }
    }

    /** One pass of the platform loop. */
    method TryPlatform(plat: Platform, playerBottom: real, playerTop: real)
      modifies this, player
      ensures Snapshot() == MeetPlatform(old(Snapshot()), plat, playerBottom, playerTop) && level == old(level)
    {
      var platX := plat.x as real * TILE_SIZE;
      var platY := plat.y as real * TILE_SIZE;
      var platW := plat.w as real * TILE_SIZE;
      var platH := plat.h as real * TILE_SIZE;
      if player.x + PLAYER_WIDTH > platX && player.x < platX + platW &&
         playerBottom > platY && playerTop < platY + platH {
        if player.vy > 0.0 && player.y + PLAYER_HEIGHT - player.vy <= platY + 5.0 {
          LandOn(platY);
        }
      }
    }

    /** The spike loop: is any spike centre closer than the collision size? */
    method SpikeHit() returns (hit: bool)
      ensures hit <==> exists i :: 0 <= i < |level.spikes| && HitsSpike(player.Value(), gameMode, level.spikes[i])
    {
      var collisionSize := if gameMode == Ship then 20.0 else 25.0;
      var spikes := level.spikes;
      hit := false;
      var i := 0;
      while i < |spikes| && !hit
        invariant 0 <= i <= |spikes|
        invariant !hit ==> forall j :: 0 <= j < i ==> !HitsSpike(player.Value(), gameMode, spikes[j])
        invariant hit ==> i > 0 && HitsSpike(player.Value(), gameMode, spikes[i - 1])
      {
        var spike := spikes[i];
        var spikeX := spike.x as real * TILE_SIZE + TILE_SIZE / 2.0;
        var spikeY := spike.y as real * TILE_SIZE + TILE_SIZE;
        var dx := (player.x + PLAYER_WIDTH / 2.0) - spikeX;
        var dy := (player.y + PLAYER_HEIGHT / 2.0) - (spikeY - TILE_SIZE / 2.0);
        if dx * dx + dy * dy < collisionSize * collisionSize {
          hit := true;
        }
        i := i + 1;
      }
    }

    /** die(): 30 particles pushed at the avatar's centre. */
    method Die()
      modifies this, player
      ensures Snapshot() == Step.Die(old(Snapshot())) && level == old(level)
    {
      ghost var p0 := player.Value();
      player.dead := true;
      gameState := Dead;
      ghost var s1 := Snapshot();
      var cx := player.x + PLAYER_WIDTH / 2.0;
      var cy := player.y + PLAYER_HEIGHT / 2.0;
      var i := 0;
      while i < BURST_SIZE
        invariant 0 <= i <= BURST_SIZE && level == old(level)
        invariant Snapshot() == s1.(deathParticles := s1.deathParticles + seq(i, _ => Particle(cx, cy, 1.0)))
      {
        assert s1.deathParticles + seq(i + 1, _ => Particle(cx, cy, 1.0)) ==
               s1.deathParticles + seq(i, _ => Particle(cx, cy, 1.0)) + [Particle(cx, cy, 1.0)];
        deathParticles := deathParticles + [Particle(cx, cy, 1.0)];
        i := i + 1;
      }
      assert seq(BURST_SIZE, _ => Particle(cx, cy, 1.0)) == Burst(p0);
    }

    /** The end of a tick that survived the spikes: win check, camera, progress, trail. */
    method Finish()
      requires level.endX > 0
      modifies this
      ensures level == old(level)
      ensures Snapshot() == Step.Finish(old(Snapshot()), level)
    {
      if player.x > level.endX as real * TILE_SIZE {
        gameState := Win;
      }
      Track();
      LeaveTrail();
    }

    /** The camera follows the avatar inside the level, and the progress is the capped percentage covered. */
    method Track()
      requires level.endX > 0
      modifies this
      ensures level == old(level)
      ensures Snapshot() == old(Snapshot()).(cameraX := Camera(player.x, level.length),
                                            score := Score(player.x, level.endX))
    {
      cameraX := player.x - CAMERA_LEAD;
      if cameraX < 0.0 {
        cameraX := 0.0;
      }
      if cameraX > (level.length - VIEW_TILES) as real * TILE_SIZE {
        cameraX := (level.length - VIEW_TILES) as real * TILE_SIZE;
      }
      var percent := ((player.x / (level.endX as real * TILE_SIZE)) * 100.0).Floor;
      score := if percent < 100 then percent else 100;
    }

    /** Every TRAIL_EVERY frames a new sample at the avatar's centre, then the fade. */
    method LeaveTrail()
      modifies this
      ensures Snapshot() == old(Snapshot()).(trail := Faded(WithSample(old(Snapshot())))) && level == old(level)
    {
      if frameCount % TRAIL_EVERY == 0 {
        trail := trail + [TrailSample(player.x + PLAYER_WIDTH / 2.0, player.y + PLAYER_HEIGHT / 2.0, 1.0,
                                      NEON_COLORS[currentLevelIndex % |NEON_COLORS|])];
      }
      FadeTrail();
    }

    /** The backward loop that fades every sample and splices out the ones at or below zero. */
    method FadeTrail()
      modifies this
      ensures Snapshot() == old(Snapshot()).(trail := Faded(old(trail))) && level == old(level)
    {
      ghost var t0 := trail;
      var i := |trail|;
      while i > 0
        invariant 0 <= i <= |t0| && level == old(level)
        invariant trail == t0[..i] + Faded(t0[i..])
        invariant Snapshot() == old(Snapshot()).(trail := trail)
      {
        i := i - 1;
        assert trail[..i] == t0[..i] && trail[i] == t0[i] && trail[i + 1..] == Faded(t0[i + 1..]);
        assert t0[i..][0] == t0[i] && t0[i..][1..] == t0[i + 1..];
        var faded := trail[i].(alpha := trail[i].alpha - TRAIL_FADE);
        if faded.alpha <= 0.0 {
          trail := trail[..i] + trail[i + 1..];
        } else {
          trail := trail[..i] + [faded] + trail[i + 1..];
        }
      }
      assert t0[0..] == t0;
    }
  }
}
