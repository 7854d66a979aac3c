/** The run state machine: loadLevel, resetPlayer, startGame, handleInput and handleKeyUp (game.js:66-103, 577-623). */
module Control {
  import opened Levels
  import opened Session
  import opened Step

  /** What handleInput sees of an event: a key press (jump key or not) or a click, mouse press or touch. */
  datatype Press = Key(jumpKey: bool) | Pointer

  /** The fields loadLevel and resetPlayer both restore. */
  function ResetRun(s: State): (r: State) {
    s.(player := s.player.(x := START_X, y := START_Y, vy := 0.0, dead := false, onGround := true),
       cameraX := 0.0, score := 0, deathParticles := [], trail := [],
       gameMode := Cube, shipRotation := 0.0, shipVY := 0.0)
  }

  /** loadLevel: an index past the last level selects the first. The held key and the buffer are left as they are. */
  function LoadLevel(s: State, index: nat): (r: State) {
    var i := if index >= LEVEL_COUNT then 0 else index;
    ResetRun(s).(levelIndex := i)
  }

  /** resetPlayer: like loadLevel's reset, and also releases the jump key and clears the buffer. */
  function ResetPlayer(s: State): (r: State) {
    ResetRun(s).(jumpHeld := false, jumpBuffer := 0.0)
  }

  function StartGame(s: State): (r: State) {
    ResetPlayer(s.(gameState := Playing))
  }

  /** The level after i, wrapping past the last one. */
  function NextIndex(i: nat): (r: nat) {
    if i + 1 >= LEVEL_COUNT then 0 else i + 1
  }

  function HandleInput(s: State, e: Press): (r: State) {
    if e.Key? && !e.jumpKey then s
    else
      var t := if e.Key? then
                 s.(jumpHeld := true,
                    jumpBuffer := if !s.player.onGround then JUMP_BUFFER_TIME else s.jumpBuffer)
               else s;
      Respond(t)
  }

  /** The state-dependent branch of handleInput. */
  function Respond(t: State): (r: State) {
    match t.gameState
    case Menu => StartGame(t)
    case Playing =>
      if t.player.onGround then t.(player := t.player.(vy := JUMP_FORCE, onGround := false)) else t
    case Dead => ResetPlayer(t.(gameState := Playing))
    case Win => StartGame(LoadLevel(t.(levelIndex := NextIndex(t.levelIndex)), NextIndex(t.levelIndex)))
  }

  /** handleKeyUp: releasing a jump key lets go of the held jump; other keys do nothing. */
  function HandleKeyUp(s: State, jumpKey: bool): (r: State) {
    if jumpKey then s.(jumpHeld := false) else s
  }

  /** The globals' initial values followed by the start-up loadLevel(0). */
  function Initial(): (r: State) {
    var globals := State(Avatar(START_X, 0.0, 0.0, false, false), Menu, Cube, 0.0, 0.0, false, 0.0,
                         0.0, 0, 0, [], [], 0);
    LoadLevel(globals, 0)
  }

  // ---------------------------------------------------------------------
  // Properties of the transitions

  /** The avatar and run fields every fresh start puts back. */
  predicate AtStart(s: State) {
    s.player.x == START_X && s.player.y == START_Y && s.player.vy == 0.0 &&
    s.player.onGround && !s.player.dead && s.gameMode == Cube &&
    s.shipVY == 0.0 && s.shipRotation == 0.0 &&
    s.trail == [] && s.deathParticles == [] && s.cameraX == 0.0 && s.score == 0
  }

  lemma LoadLevelSelects(s: State, index: nat)
    ensures AtStart(LoadLevel(s, index))
    ensures LoadLevel(s, index).levelIndex == if index < LEVEL_COUNT then index else 0
    ensures LoadLevel(s, index).jumpHeld == s.jumpHeld && LoadLevel(s, index).jumpBuffer == s.jumpBuffer
    ensures LoadLevel(s, index).gameState == s.gameState
  {
  }

  lemma ResetPlayerRestores(s: State)
    ensures AtStart(ResetPlayer(s)) && !ResetPlayer(s).jumpHeld && ResetPlayer(s).jumpBuffer == 0.0
    ensures ResetPlayer(s).levelIndex == s.levelIndex && ResetPlayer(s).gameState == s.gameState
    ensures ResetPlayer(s).frameCount == s.frameCount
  {
  }

  /** A key that is not a jump key is ignored entirely. */
  lemma OtherKeysIgnored(s: State)
    ensures HandleInput(s, Key(false)) == s
  {
  }

  /** From the menu or after a death, any jump input starts the same level afresh. */
  lemma InputRestarts(s: State, e: Press)
    requires s.gameState == Menu || s.gameState == Dead
    requires e == Pointer || e == Key(true)
    ensures var r := HandleInput(s, e);
            r.gameState == Playing && AtStart(r) && !r.jumpHeld && r.jumpBuffer == 0.0 &&
            r.levelIndex == s.levelIndex
  {
  }

  /** After a win, any jump input starts the next level, wrapping to the first after the last. */
  lemma InputAdvancesLevel(s: State, e: Press)
    requires s.gameState == Win && s.levelIndex < LEVEL_COUNT
    requires e == Pointer || e == Key(true)
    ensures var r := HandleInput(s, e);
            r.gameState == Playing && AtStart(r) && !r.jumpHeld && r.jumpBuffer == 0.0 &&
            r.levelIndex == (s.levelIndex + 1) % LEVEL_COUNT
  {
    WrapIsMod(s.levelIndex, LEVEL_COUNT);
  }

  /** Wrapping past the last of n levels is the remainder of the successor modulo n. */
  lemma WrapIsMod(i: nat, n: nat)
    requires i < n
    ensures (if i + 1 >= n then 0 else i + 1) == (i + 1) % n
  {
    if i + 1 >= n {
      assert i + 1 == n;
    }
  }

  /** While playing, a jump input jumps only from the ground; a key press also holds the jump and,
      in the air, arms the buffer. */
  lemma InputWhilePlaying(s: State, e: Press)
    requires s.gameState == Playing && (e == Pointer || e == Key(true))
    ensures var r := HandleInput(s, e);
            r.gameState == Playing && r.player.x == s.player.x && r.player.y == s.player.y &&
            (s.player.onGround ==> r.player.vy == JUMP_FORCE && !r.player.onGround) &&
            (!s.player.onGround ==> r.player == s.player) &&
            (e == Key(true) ==> r.jumpHeld && (!s.player.onGround ==> r.jumpBuffer == JUMP_BUFFER_TIME)) &&
            (e == Pointer ==> r.jumpHeld == s.jumpHeld && r.jumpBuffer == s.jumpBuffer)
  {
  }

  /** A jump from the ground rises: on the next tick's motion the velocity is JUMP_FORCE plus one step of gravity. */
  lemma JumpThenRise(s: State, e: Press)
    requires s.gameState == Playing && s.gameMode == Cube && (e == Pointer || e == Key(true))
    requires s.player.onGround && Bottom(s.player) <= GROUND_TOP
    ensures HandleInput(s, e).player.vy == JUMP_FORCE
    ensures Motion(HandleInput(s, e)).player.vy == JUMP_FORCE + GRAVITY
    ensures !Motion(HandleInput(s, e)).player.onGround
  {
  }

  lemma KeyUpReleases(s: State, jumpKey: bool)
    ensures HandleKeyUp(s, jumpKey).jumpHeld == (s.jumpHeld && !jumpKey)
    ensures HandleKeyUp(s, jumpKey).(jumpHeld := s.jumpHeld) == s
  {
  }

  lemma InitialState()
    ensures Initial().gameState == Menu && Initial().levelIndex == 0 && AtStart(Initial())
    ensures !Initial().jumpHeld && Initial().jumpBuffer == 0.0 && Initial().frameCount == 0
  {
    CatalogueShape();
  }
}
