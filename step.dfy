/** One call of update() (game.js:110-270) and die() (game.js:272-291), as functions on the state snapshot. */
module Step {
  import opened Levels
  import opened Session

  // ---------------------------------------------------------------------
  // Locomotion

  /** The jump buffer runs down by one tick's worth only while it is positive. */
  function Countdown(buffer: real): (r: real) {
    if buffer > 0.0 then buffer - TICK_MS else buffer
  }

  /** Ship thrust: up while the jump key is held, down otherwise, clamped at the rise and fall limits. */
  function Thrust(vy: real, held: bool): (r: real)
    ensures held ==> SHIP_MAX_RISE <= r && (r == vy + SHIP_UP_FORCE || r == SHIP_MAX_RISE)
    ensures held && vy + SHIP_UP_FORCE >= SHIP_MAX_RISE ==> r == vy + SHIP_UP_FORCE
    ensures !held ==> r <= SHIP_MAX_FALL && (r == vy + SHIP_GRAVITY || r == SHIP_MAX_FALL)
    ensures !held && vy + SHIP_GRAVITY <= SHIP_MAX_FALL ==> r == vy + SHIP_GRAVITY
    ensures SHIP_MAX_RISE <= vy <= SHIP_MAX_FALL ==> SHIP_MAX_RISE <= r <= SHIP_MAX_FALL
  {
    if held then
      var up := vy + SHIP_UP_FORCE;
      if up < SHIP_MAX_RISE then SHIP_MAX_RISE else up
    else
      var down := vy + SHIP_GRAVITY;
      if down > SHIP_MAX_FALL then SHIP_MAX_FALL else down
  }

  /** Ship mode: thrust, move, and ease the ship's tilt toward its velocity. No ground clamp. */
  function Fly(s: State): (r: State) {
    var v := Thrust(s.shipVY, s.jumpHeld);
    s.(shipVY := v,
       player := s.player.(y := s.player.y + v),
       shipRotation := s.shipRotation + (v * 0.05 - s.shipRotation) * 0.2)
  }

  /** The avatar comes to rest with its bottom on `top`; a held or buffered jump fires at once. */
  function Land(s: State, top: real): (r: State) {
    var rest := s.player.(y := top - PLAYER_HEIGHT, vy := 0.0, onGround := true);
    if s.jumpHeld || s.jumpBuffer > 0.0 then
      s.(player := rest.(vy := JUMP_FORCE, onGround := false), jumpBuffer := 0.0)
    else
      s.(player := rest)
  }

  /** Cube mode: gravity, move, and resolve the ground line. */
  function Fall(s: State): (r: State) {
    var vy := s.player.vy + GRAVITY;
    var air := s.(player := s.player.(vy := vy, y := s.player.y + vy, onGround := false));
    if Bottom(air.player) >= GROUND_TOP then Land(air, GROUND_TOP) else air
  }

  /** The first part of a tick: frame counter, jump buffer, forward motion and the mode's vertical step. */
  function Motion(s: State): (r: State) {
    var t := s.(frameCount := s.frameCount + 1,
                jumpBuffer := Countdown(s.jumpBuffer),
                player := s.player.(x := s.player.x + SPEED));
    if t.gameMode == Ship then Fly(t) else Fall(t)
  }

  // ---------------------------------------------------------------------
  // Portals

  /** The tile column of the avatar's centre. */
  function TileX(p: Avatar): (r: int) {
    (CenterX(p) / TILE_SIZE).Floor
  }

  /** The avatar is in the portal's column and overlaps its row. */
  predicate Touches(p: Avatar, portal: Portal, tileX: int) {
    portal.x == tileX &&
    Bottom(p) > portal.y as real * TILE_SIZE &&
    p.y < portal.y as real * TILE_SIZE + TILE_SIZE
  }

  function EnterPortal(s: State, portal: Portal, tileX: int): (r: State) {
    if Touches(s.player, portal, tileX) && portal.toMode != s.gameMode then
      if portal.toMode == Ship then
        s.(gameMode := Ship, shipVY := 0.0, shipRotation := 0.0,
           player := s.player.(y := portal.y as real * TILE_SIZE))
      else
        s.(gameMode := Cube,
           player := s.player.(y := if s.player.y < START_Y then s.player.y else START_Y,
                               vy := 0.0, onGround := true))
    else s
  }

  /** The portal loop, in declared order, without stopping at the first switch. */
  function ScanPortals(s: State, portals: seq<Portal>, tileX: int): (r: State)
    decreases |portals|
  {
    if portals == [] then s
    else EnterPortal(ScanPortals(s, portals[..|portals| - 1], tileX), portals[|portals| - 1], tileX)
  }

  // ---------------------------------------------------------------------
  // Platforms (cube mode only)

  /** Box overlap, with the avatar's bottom and top taken before the platform loop began. */
  predicate Overlaps(p: Avatar, plat: Platform, bottom: real, top: real) {
    var px := plat.x as real * TILE_SIZE;
    var py := plat.y as real * TILE_SIZE;
    p.x + PLAYER_WIDTH > px && p.x < px + plat.w as real * TILE_SIZE &&
    bottom > py && top < py + plat.h as real * TILE_SIZE
  }

  /** A landing counts only while falling and when the bottom was at most 5 units below the top before this tick's move. */
  predicate FromAbove(p: Avatar, plat: Platform) {
    p.vy > 0.0 && Bottom(p) - p.vy <= plat.y as real * TILE_SIZE + 5.0
  }

  function MeetPlatform(s: State, plat: Platform, bottom: real, top: real): (r: State) {
    if Overlaps(s.player, plat, bottom, top) && FromAbove(s.player, plat) then
      Land(s, plat.y as real * TILE_SIZE)
    else s
  }

  function ScanPlatforms(s: State, plats: seq<Platform>, bottom: real, top: real): (r: State)
    decreases |plats|
  {
    if plats == [] then s
    else MeetPlatform(ScanPlatforms(s, plats[..|plats| - 1], bottom, top), plats[|plats| - 1], bottom, top)
  }

  // ---------------------------------------------------------------------
  // Spikes

  /** The radius of the hit circle: tighter for the ship. */
  function CollisionSize(m: Mode): (r: real) {
    if m == Ship then 20.0 else 25.0
  }

  /** The avatar's centre is closer than the collision size to the spike's centre (distances compared squared). */
  predicate HitsSpike(p: Avatar, m: Mode, spike: Spike) {
    var dx := CenterX(p) - (spike.x as real * TILE_SIZE + TILE_SIZE / 2.0);
    var dy := CenterY(p) - (spike.y as real * TILE_SIZE + TILE_SIZE - TILE_SIZE / 2.0);
    dx * dx + dy * dy < CollisionSize(m) * CollisionSize(m)
  }

  predicate AnyHit(p: Avatar, m: Mode, spikes: seq<Spike>) {
    exists i :: 0 <= i < |spikes| && HitsSpike(p, m, spikes[i])
  }

  /** The death burst: BURST_SIZE particles at the avatar's centre, fully opaque. */
  function Burst(p: Avatar): (r: seq<Particle>) {
    seq(BURST_SIZE, _ => Particle(CenterX(p), CenterY(p), 1.0))
  }

  /** die(): mark the avatar dead, switch to the death state and emit the burst. */
  function Die(s: State): (r: State) {
    s.(player := s.player.(dead := true), gameState := Dead, deathParticles := s.deathParticles + Burst(s.player))
  }

  // ---------------------------------------------------------------------
  // Finish line, camera, progress and trail

  function Camera(x: real, length: int): (r: real) {
    var c := x - CAMERA_LEAD;
    var c1 := if c < 0.0 then 0.0 else c;
    var limit := (length - VIEW_TILES) as real * TILE_SIZE;
    if c1 > limit then limit else c1
  }

  function Score(x: real, endX: int): (r: int)
    requires endX > 0
  {
    var f := ((x / (endX as real * TILE_SIZE)) * 100.0).Floor;
    if f < 100 then f else 100
  }

  function Fade(t: TrailSample): (r: TrailSample) {
    t.(alpha := t.alpha - TRAIL_FADE)
  }

  /** The backward splice loop: every sample fades, and the ones at or below zero opacity are dropped. */
  function Faded(trail: seq<TrailSample>): (r: seq<TrailSample>) {
    if trail == [] then []
    else (if Fade(trail[0]).alpha <= 0.0 then [] else [Fade(trail[0])]) + Faded(trail[1..])
  }

  /** Every third frame a fresh sample is pushed at the avatar's centre. */
  function WithSample(s: State): (r: seq<TrailSample>) {
    if s.frameCount % TRAIL_EVERY == 0 then
      s.trail + [TrailSample(CenterX(s.player), CenterY(s.player), 1.0,
                             NEON_COLORS[s.levelIndex % |NEON_COLORS|])]
    else s.trail
  }

  /** The part of a tick after a survived spike check. The win branch does not return early. */
  function Finish(s: State, lv: Level): (r: State)
    requires lv.endX > 0
  {
    var won := if s.player.x > lv.endX as real * TILE_SIZE then s.(gameState := Win) else s;
    won.(cameraX := Camera(s.player.x, lv.length),
         score := Score(s.player.x, lv.endX),
         trail := Faded(WithSample(s)))
  }

  // ---------------------------------------------------------------------
  // The whole tick

  /** Everything a tick does before the spike check. */
  function Integrate(s: State, lv: Level): (r: State) {
    var m := Motion(s);
    var p := ScanPortals(m, lv.portals, TileX(m.player));
    if p.gameMode == Cube then ScanPlatforms(p, lv.platforms, Bottom(p.player), p.player.y) else p
  }

  function Tick(s: State, lv: Level): (r: State)
    requires lv.endX > 0
  {
    if s.gameState != Playing then s
    else
      var q := Integrate(s, lv);
      if AnyHit(q.player, q.gameMode, lv.spikes) then Die(q) else Finish(q, lv)
  }
}
