/**
 The game view's state machine: the session counters and flags, `reset`, the
 per-frame update, key presses and releases, and mouse clicks.

 A `World` holds what the game reads from disk: the per-stage timer table and,
 for each stage whose tile map exists, its coins, enemies and start tile. A
 `Frame` holds what the framework computes during one update: the elapsed
 time, the collision results, the two ground tests and the physics step.
 An uncaught exception (a missing tile map, an index outside the timer
 table) ends the game; every handler that can raise one returns `None` then.
 */
module Game {
  import opened Wrappers
  import opened Keys
  import opened PlayerLogic
  import opened EnvironmentLogic

  /** Most jumps the player may start before touching the ground again. */
  const MaxJumps: int := 2
  /** Vertical speed a jump gives the player. */
  const JumpVelocity: real := 10.0

  /** The two difficulties, which are also offsets into the timer table. */
  const NormalMode: int := -1
  const HardMode: int := 20

  const TitleStage: int := 0
  const RunawayStage: int := 18
  const FinalStage: int := 21
  const ControlsStage: int := 22

  /** What a stage's tile map provides. */
  datatype StageMap = StageMap(coins: seq<Sprite>, enemies: seq<Sprite>, startX: real, startY: real)

  /**
   The game's fixed inputs: the timer table (one integer per line of the
   timer file), the tile maps by stage, the screen width and the size of a
   freshly created player sprite.
   */
  datatype World = World(
    stageTimes: seq<int>,
    maps: map<int, StageMap>,
    screenWidth: real,
    playerWidth: real,
    playerHeight: real)

  datatype Game = Game(
    stage: int,
    start: bool,
    devMode: bool,
    difficulty: int,
    gameOver: bool,
    deaths: int,
    totalTime: real,
    stageTime: real,
    jumps: int,
    coinsCollected: int,
    coinsToCollect: int,
    portalHidden: bool,
    animationClock: real,
    player: Player,
    coins: seq<Sprite>,
    enemies: seq<Sprite>,
    keys: set<Key>,
    background: Color)

  /** The player's centre and speeds after the framework's physics step. */
  datatype Motion = Motion(centerX: real, centerY: real, changeX: real, changeY: real)

  /**
   What the framework reports during one update: seconds elapsed, the ids of
   the coins, hazards, enemies and portal sections the player overlaps,
   `grounded` (can jump, default distance), `landed` (can jump within 18
   pixels), the sine and cosine of the angle from a sprite to the player, and
   the physics step.
   */
  datatype Frame = Frame(
    delta: real,
    coinHits: set<int>,
    hazardHits: set<int>,
    enemyHits: set<int>,
    portalHits: set<int>,
    grounded: bool,
    landed: bool,
    bearing: Sprite -> Vec,
    motion: Motion)

  /** 1 for a condition that holds, 0 otherwise. */
  function Count(b: bool): int {
    if b then 1 else 0
  }

  /** Python list indexing: a negative index counts from the end; anything else raises. */
  function PyIndex<T>(s: seq<T>, i: int): (r: Option<T>)
    ensures r.Some? <==> -|s| <= i < |s|
    ensures r.Some? ==> r.value in s
    ensures 0 <= i < |s| ==> r == Some(s[i])
  {
    if 0 <= i < |s| then Some(s[i])
    else if -|s| <= i < 0 then Some(s[|s| + i])
    else None
  }

  /** Counting from the end reaches the same element as counting from the front. */
  lemma PyIndexFromEnd<T>(s: seq<T>, i: int)
    requires 0 <= i < |s|
    ensures PyIndex(s, i - |s|) == PyIndex(s, i)
  {
  }

  /** `reset` succeeds for this stage and difficulty: the map exists and the timer index is valid. */
  predicate Loadable(w: World, stage: int, difficulty: int) {
    && stage in w.maps
    && -|w.stageTimes| <= stage + difficulty < |w.stageTimes|
  }

  /** A new player sprite standing on the stage's start tile. */
  function Spawn(w: World, stage: int): Player
    requires stage in w.maps
  {
    Player(w.maps[stage].startX, w.maps[stage].startY, w.playerWidth, w.playerHeight, 0.0, 0.0, StandRight)
  }

  /** Everything `reset` sets, as it sets it for the current stage and difficulty. */
  predicate Fresh(w: World, g: Game) {
    && g.stage in w.maps
    && PyIndex(w.stageTimes, g.stage + g.difficulty).Some?
    && g.stageTime == PyIndex(w.stageTimes, g.stage + g.difficulty).value as real
    && g.coins == w.maps[g.stage].coins
    && g.enemies == w.maps[g.stage].enemies
    && g.coinsToCollect == |g.coins|
    && g.coinsCollected == 0
    && g.portalHidden
    && g.jumps == 1
    && g.animationClock == 0.0
    && g.player == Spawn(w, g.stage)
  }

  /** `r` agrees with `g` on everything `reset` leaves alone. */
  predicate SameSession(g: Game, r: Game) {
    && r.stage == g.stage
    && r.start == g.start
    && r.devMode == g.devMode
    && r.difficulty == g.difficulty
    && r.gameOver == g.gameOver
    && r.deaths == g.deaths
    && r.totalTime == g.totalTime
    && r.keys == g.keys
    && r.background == g.background
  }

  /** The session facts every reachable state keeps: a known difficulty and counters that never go negative. */
  predicate SessionValid(g: Game) {
    && (g.difficulty == NormalMode || g.difficulty == HardMode)
    && 0 <= g.deaths
    && 0.0 <= g.totalTime
  }

  /**
   The facts every reachable state keeps: the session facts; the jump counter
   is 1 or 2; every coin of the stage is either still on screen or counted;
   the portal shows only once all coins are counted; the animation clock
   stays within one cycle.
   */
  predicate Valid(g: Game) {
    && SessionValid(g)
    && 1 <= g.jumps <= MaxJumps
    && 0 <= g.coinsCollected
    && g.coinsCollected + |g.coins| == g.coinsToCollect
    && (!g.portalHidden ==> g.coinsCollected == g.coinsToCollect)
    && 0.0 <= g.animationClock <= 1.0
  }

  /** The title screen as F12 and a click on the last screens leave it. */
  predicate AtTitle(g: Game) {
    && g.stage == TitleStage
    && g.deaths == 0
    && g.totalTime == 0.0
    && !g.devMode
    && !g.start
    && !g.gameOver
    && g.background == DarkBrown
  }

  /**
   Reloads the current stage: its map and coins, the timer from entry
   `stage + difficulty` of the timer table, a fresh player, a hidden portal,
   and the coin, jump and clock counters.
   */
  function Reset(w: World, g: Game): (r: Option<Game>)
    ensures r.Some? <==> Loadable(w, g.stage, g.difficulty)
    ensures r.Some? ==> Fresh(w, r.value) && SameSession(g, r.value)
    ensures r.Some? && SessionValid(g) ==> Valid(r.value)
  {
    if g.stage !in w.maps then None
    else
      var seconds :- PyIndex(w.stageTimes, g.stage + g.difficulty);
      var m := w.maps[g.stage];
      Some(g.(stageTime := seconds as real,
              coins := m.coins,
              enemies := m.enemies,
              animationClock := 0.0,
              coinsToCollect := |m.coins|,
              portalHidden := true,
              player := Spawn(w, g.stage),
              coinsCollected := 0,
              jumps := 1))
  }

  /** A death: one more on the counter, then the stage restarts. */
  function Die(w: World, g: Game): (r: Option<Game>)
    ensures r.Some? <==> Loadable(w, g.stage, g.difficulty)
    ensures r.Some? ==> Fresh(w, r.value) && SameSession(g.(deaths := g.deaths + 1), r.value)
  {
    Reset(w, g.(deaths := DiesSequence(g.deaths)))
  }

  /** Back to the title screen with a clean session (F12, or a click on the last screens). */
  function ReturnToTitle(w: World, g: Game): (r: Option<Game>)
    ensures r.Some? <==> Loadable(w, TitleStage, g.difficulty)
    ensures r.Some? ==> && AtTitle(r.value) && Fresh(w, r.value)
                        && r.value.difficulty == g.difficulty && r.value.keys == g.keys
  {
    var g1 :- Reset(w, g.(stage := TitleStage));
    var g2 := g1.(deaths := DiesSequence(g1.deaths));
    Some(g2.(gameOver := false, deaths := 0, totalTime := 0.0, devMode := false, start := false,
             background := DarkBrown))
  }

  /** B on the title screen: the run starts on the next stage with a clean session. */
  function StartRun(w: World, g: Game): (r: Option<Game>)
    ensures r.Some? <==> Loadable(w, g.stage + 1, g.difficulty)
    ensures r.Some? ==> && Fresh(w, r.value)
                        && r.value.stage == g.stage + 1 && r.value.start
                        && r.value.deaths == 0 && r.value.totalTime == 0.0
                        && !r.value.gameOver && r.value.background == DarkBrown
                        && r.value.devMode == g.devMode && r.value.difficulty == g.difficulty
                        && r.value.keys == g.keys
  {
    var g1 :- Reset(w, g.(start := true, stage := g.stage + 1));
    var g2 := g1.(deaths := DiesSequence(g1.deaths));
    Some(g2.(gameOver := false, deaths := 0, totalTime := 0.0, background := DarkBrown))
  }

  /** C on the title screen: the controls screen, at the price of a death. */
  function ShowControls(w: World, g: Game): (r: Option<Game>)
    ensures r.Some? <==> Loadable(w, ControlsStage, g.difficulty)
    ensures r.Some? ==> Fresh(w, r.value) && SameSession(g.(stage := ControlsStage, deaths := g.deaths + 1), r.value)
  {
    var g1 :- Reset(w, g.(stage := ControlsStage));
    Some(g1.(deaths := DiesSequence(g1.deaths)))
  }

  /** M: switches between the two difficulties. */
  function ToggleDifficulty(g: Game): (r: Game)
    ensures r == g.(difficulty := r.difficulty)
    ensures g.difficulty == NormalMode ==> r.difficulty == HardMode
    ensures g.difficulty != NormalMode ==> r.difficulty == NormalMode
  {
    g.(difficulty := if g.difficulty == NormalMode then HardMode else NormalMode)
  }

  /** Space: an upward kick, counted against the jump limit. */
  function Jump(g: Game): Game {
    g.(player := g.player.(changeY := JumpVelocity), jumps := g.jumps + 1)
  }

  /** The game as it starts: title screen, normal difficulty, no key held. */
  function Init(w: World): (r: Option<Game>)
    ensures r.Some? <==> Loadable(w, TitleStage, NormalMode)
    ensures r.Some? ==> && AtTitle(r.value) && Fresh(w, r.value) && Valid(r.value)
                        && r.value.difficulty == NormalMode && r.value.keys == {}
  {
    var blank := Game(
      stage := TitleStage, start := false, devMode := false, difficulty := NormalMode,
      gameOver := false, deaths := 0, totalTime := 0.0, stageTime := 0.0, jumps := 1,
      coinsCollected := 0, coinsToCollect := 0, portalHidden := true, animationClock := 0.0,
      player := Player(0.0, 0.0, 0.0, 0.0, 0.0, 0.0, StandRight), coins := [], enemies := [],
      keys := {}, background := DarkBrown);
    Reset(w, blank)
  }

  /** A key press: each test of the handler in turn, then the key joins the held keys. */
  function KeyPress(w: World, g: Game, key: Key): (r: Option<Game>)
  {
    var g1 :- (if key == Escape then Die(w, g) else Some(g));
    var g2 := if key == Space && g1.jumps < MaxJumps then Jump(g1) else g1;
    var g3 :- (if key == F12 then ReturnToTitle(w, g2) else Some(g2));
    var g4 :- (if g3.stage == TitleStage && key == B then StartRun(w, g3) else Some(g3));
    var g5 := if g4.stage == TitleStage && key == M && !g4.devMode then ToggleDifficulty(g4) else g4;
    var g6 := if key == Backslash then g5.(devMode := true) else g5;
    var g7 :- (if g6.devMode && key == Up then Reset(w, g6.(stage := g6.stage + 1)) else Some(g6));
    var g8 :- (if g7.devMode && key == Down then Reset(w, g7.(stage := g7.stage - 1)) else Some(g7));
    var g9 :- (if g8.stage == TitleStage && key == C then ShowControls(w, g8) else Some(g8));
    Some(g9.(keys := g9.keys + {key}))
  }

  /** A key release: the key is no longer held. */
  function KeyRelease(g: Game, key: Key): (r: Game)
    ensures r == g.(keys := r.keys)
    ensures key !in r.keys && r.keys + {key} == g.keys + {key}
  {
    g.(keys := g.keys - {key})
  }

  /** A mouse click returns to the title from the final and controls screens and does nothing elsewhere. */
  function MousePress(w: World, g: Game): (r: Option<Game>)
    ensures g.stage != FinalStage && g.stage != ControlsStage ==> r == Some(g)
    ensures g.stage == FinalStage || g.stage == ControlsStage ==>
      && (r.Some? <==> Loadable(w, TitleStage, g.difficulty))
      && (r.Some? ==> && AtTitle(r.value) && Fresh(w, r.value)
                      && r.value.difficulty == g.difficulty && r.value.keys == g.keys)
  {
    if g.stage == FinalStage || g.stage == ControlsStage then ReturnToTitle(w, g) else Some(g)
  }

  // ---------------------------------------------------------------------
  // The steps of one update, in the order the update performs them.
  // ---------------------------------------------------------------------

  /** The stage timer runs down; the total time runs only until the game is over. */
  function Tick(g: Game, dt: real): (r: Game)
    ensures r == g.(stageTime := g.stageTime - dt, totalTime := r.totalTime)
    ensures r.totalTime == if g.gameOver then g.totalTime else g.totalTime + dt
    ensures SameSession(g.(totalTime := r.totalTime), r)
    ensures Valid(g) && 0.0 <= dt ==> Valid(r)
  {
    var g1 := g.(stageTime := g.stageTime - dt);
    if !g1.gameOver then g1.(totalTime := g1.totalTime + dt) else g1
  }

  /** A death when the stage timer has run out. */
  function Expire(w: World, g: Game): (r: Option<Game>)
    ensures 0.0 <= g.stageTime ==> r == Some(g)
    ensures g.stageTime < 0.0 ==> (r.Some? <==> Loadable(w, g.stage, g.difficulty))
    ensures g.stageTime < 0.0 && r.Some? ==>
      Fresh(w, r.value) && SameSession(g.(deaths := g.deaths + 1), r.value)
    ensures r.Some? ==> SameSession(g.(deaths := g.deaths + Count(g.stageTime < 0.0)), r.value)
    ensures r.Some? && Valid(g) ==> Valid(r.value)
  {
    if g.stageTime < 0.0 then Die(w, g) else Some(g)
  }

  /** Keyboard movement, then the horizontal clamp, then a death if the player fell out. */
  function MoveAndBound(w: World, g: Game): (r: Option<Game>)
    ensures var bounded := OutOfBounds(Movement(g.player, w.playerHeight, g.keys), w.screenWidth);
      && (!bounded.fellOut ==> r == Some(g.(player := bounded.player)))
      && (bounded.fellOut ==> (r.Some? <==> Loadable(w, g.stage, g.difficulty)))
      && (bounded.fellOut && r.Some? ==>
            Fresh(w, r.value) && SameSession(g.(deaths := g.deaths + 1), r.value))
    ensures r.Some? ==> SameSession(g.(deaths := g.deaths + Count(
      OutOfBounds(Movement(g.player, w.playerHeight, g.keys), w.screenWidth).fellOut)), r.value)
    ensures r.Some? && Valid(g) ==> Valid(r.value)
  {
    var g1 := g.(player := Movement(g.player, w.playerHeight, g.keys));
    var bounded := OutOfBounds(g1.player, w.screenWidth);
    var g2 := g1.(player := bounded.player);
    if bounded.fellOut then Die(w, g2) else Some(g2)
  }

  /** Coin pickup, then the animation clock and the coin frame. */
  function CollectAndAnimate(g: Game, hits: set<int>, dt: real): (r: Game)
    ensures r == g.(coins := r.coins, coinsCollected := r.coinsCollected, animationClock := r.animationClock)
    ensures r.coinsCollected == g.coinsCollected + |Touched(g.coins, hits)|
    // the untouched coins stay, in order, each showing the frame of the advanced clock
    ensures |r.coins| == |Untouched(g.coins, hits)|
    ensures forall i :: 0 <= i < |r.coins| ==>
      r.coins[i] == Untouched(g.coins, hits)[i].(texture := CoinFrame(g.animationClock + dt))
    // the clock advances by the frame time and starts over once past one second
    ensures r.animationClock == if g.animationClock + dt > 1.0 then 0.0 else g.animationClock + dt
    ensures SameSession(g, r) && r.portalHidden == g.portalHidden
    ensures r.coinsToCollect == g.coinsToCollect && r.jumps == g.jumps
    ensures r.coinsCollected + |r.coins| == g.coinsCollected + |g.coins|
    ensures r.coinsCollected >= g.coinsCollected
    ensures |g.coins| == 0 ==> r.coinsCollected == g.coinsCollected
    ensures 0.0 <= g.animationClock && 0.0 <= dt ==> 0.0 <= r.animationClock <= 1.0
    ensures Valid(g) && 0.0 <= dt ==> Valid(r)
  {
    var collection := CollectCoin(g.coins, hits, g.coinsCollected);
    var g1 := g.(coins := collection.remaining, coinsCollected := collection.collected);
    var g2 := g1.(animationClock := g1.animationClock + dt);
    var g3 := g2.(coins := SetTextures(g2.coins, CoinFrame(g2.animationClock)));
    if g3.animationClock > 1.0 then g3.(animationClock := 0.0) else g3
  }

  /** A death when the collision test reports any sprite of a deadly layer. */
  function DieOnContact(w: World, g: Game, hits: set<int>): (r: Option<Game>)
    ensures hits == {} ==> r == Some(g)
    ensures hits != {} ==> (r.Some? <==> Loadable(w, g.stage, g.difficulty))
    ensures hits != {} && r.Some? ==> Fresh(w, r.value) && SameSession(g.(deaths := g.deaths + 1), r.value)
    ensures r.Some? ==> SameSession(g.(deaths := g.deaths + Count(hits != {})), r.value)
    ensures r.Some? && Valid(g) ==> Valid(r.value)
  {
    if InContact(hits) then Die(w, g) else Some(g)
  }

  /** Texture and idle animation of the player, the jump counter on landing, and the stage's special logic. */
  function AnimateAndLand(g: Game, f: Frame): (r: Game)
    ensures r == g.(player := r.player, jumps := r.jumps, enemies := r.enemies, background := r.background)
    ensures r.player == PlayerIdle(AnimatePlayer(g.player, f.grounded), g.animationClock)
    ensures g.stage in StageColors ==> r.background == StageColors[g.stage]
    ensures g.stage !in StageColors ==> r.background == g.background
    ensures g.stage in FloatSpeeds ==>
      r.enemies == MoveFloatingEnemies(g.enemies, g.player.changeX, FloatSpeeds[g.stage], f.bearing)
    ensures g.stage == CoinEnemyStage ==> r.enemies == SetTextures(g.enemies, CoinFrame(g.animationClock))
    ensures g.stage !in FloatSpeeds && g.stage != CoinEnemyStage ==> r.enemies == g.enemies
    ensures r.jumps == if f.landed then 1 else g.jumps
    ensures Valid(g) ==> Valid(r)
  {
    var g1 := g.(player := PlayerIdle(AnimatePlayer(g.player, f.grounded), g.animationClock));
    var g2 := if f.landed then g1.(jumps := 1) else g1;
    assert g2.player.changeX == g.player.changeX;
    var effect := UniqueStageLogic(g2.stage, g2.player.changeX, g2.enemies, g2.animationClock,
                                   g2.background, f.bearing);
    g2.(background := effect.background, enemies := effect.enemies)
  }

  /** The portal comes on screen once every coin is collected. */
  function RevealPortal(g: Game): (r: Game)
    ensures r == g.(portalHidden := r.portalHidden)
    ensures r.portalHidden != g.portalHidden ==> g.portalHidden && g.coinsCollected == g.coinsToCollect
    ensures g.portalHidden && g.coinsCollected == g.coinsToCollect ==> !r.portalHidden
    ensures Valid(g) ==> Valid(r)
  {
    if CoinsCollected(g.coinsCollected, g.coinsToCollect) && g.portalHidden
    then g.(portalHidden := !g.portalHidden)
    else g
  }

  /** Touching the shown portal loads the next stage. */
  function EnterPortal(w: World, g: Game, hits: set<int>): (r: Option<Game>)
    ensures g.portalHidden || hits == {} ==> r == Some(g)
    ensures !g.portalHidden && hits != {} ==> (r.Some? <==> Loadable(w, g.stage + 1, g.difficulty))
    ensures !g.portalHidden && hits != {} && r.Some? ==>
      Fresh(w, r.value) && SameSession(g.(stage := g.stage + 1), r.value)
    ensures r.Some? ==> SameSession(g.(stage := g.stage + Count(!g.portalHidden && hits != {})), r.value)
    ensures r.Some? ==> r.value.portalHidden == (g.portalHidden || hits != {})
    ensures r.Some? && Valid(g) ==> Valid(r.value)
  {
    if !g.portalHidden && InContact(hits) then Reset(w, g.(stage := g.stage + 1)) else Some(g)
  }

  /** The run-away stage's coins flee, the final stage ends the game, and the physics step moves the sprites. */
  function Finish(g: Game, f: Frame): (r: Game)
    ensures r == g.(gameOver := r.gameOver, player := r.player, coins := r.coins, enemies := r.enemies)
    ensures r.player == g.player.(centerX := f.motion.centerX, centerY := f.motion.centerY,
                                  changeX := f.motion.changeX, changeY := f.motion.changeY)
    // every enemy takes one step at its own velocity
    ensures |r.enemies| == |g.enemies|
    ensures forall i :: 0 <= i < |r.enemies| ==> r.enemies[i] == Step(g.enemies[i])
    // every coin takes one step; on the run-away stage its velocity is first set to flee or to stop
    ensures |r.coins| == |g.coins|
    ensures g.stage != RunawayStage ==> forall i :: 0 <= i < |r.coins| ==> r.coins[i] == Step(g.coins[i])
    ensures g.stage == RunawayStage ==> forall i :: 0 <= i < |r.coins| ==>
      r.coins[i] == Step(g.coins[i].(velocity :=
        if Near(g.player.centerX, g.player.centerY, g.coins[i]) then f.bearing(g.coins[i]).Scale(-FleeSpeed)
        else Still))
    ensures SameSession(g.(gameOver := r.gameOver), r)
    ensures r.gameOver == (g.gameOver || g.stage == FinalStage)
    ensures r.coinsCollected == g.coinsCollected && r.coinsToCollect == g.coinsToCollect
    ensures |r.coins| == |g.coins| && r.portalHidden == g.portalHidden
    ensures r.jumps == g.jumps && r.animationClock == g.animationClock
    ensures Valid(g) ==> Valid(r)
  {
    var coins := if g.stage == RunawayStage
                 then CoinRunAway(g.coins, g.player.centerX, g.player.centerY, f.bearing)
                 else g.coins;
    var over := if g.stage == FinalStage && !g.gameOver then true else g.gameOver;
    var p := g.player.(centerX := f.motion.centerX, centerY := f.motion.centerY,
                       changeX := f.motion.changeX, changeY := f.motion.changeY);
    g.(gameOver := over, player := p, coins := Drift(coins), enemies := Drift(g.enemies))
  }

  /** One update of the game, the steps in the order the update performs them. */
  function OnUpdate(w: World, g: Game, f: Frame): (r: Option<Game>)
  {
    var g1 := Tick(g, f.delta);
    var g2 :- Expire(w, g1);
    var g3 :- MoveAndBound(w, g2);
    var g4 := CollectAndAnimate(g3, f.coinHits, f.delta);
    var g5 :- DieOnContact(w, g4, f.hazardHits);
    var g6 :- DieOnContact(w, g5, f.enemyHits);
    var g7 := AnimateAndLand(g6, f);
    var g8 := RevealPortal(g7);
    var g9 :- EnterPortal(w, g8, f.portalHits);
    Some(Finish(g9, f))
  }
}
