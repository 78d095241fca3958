/**
 Properties of the game's state machine: what each key, click and update
 does to the session, the invariants every event keeps, and how deaths,
 time, the jump counter and the portal evolve.
 */
module GameProperties {
  import opened Wrappers
  import opened Keys
  import opened PlayerLogic
  import opened EnvironmentLogic
  import opened Game

  // ---------------------------------------------------------------------
  // reset
  // ---------------------------------------------------------------------

  /** Resetting a freshly reset stage changes nothing. */
  lemma ResetIdempotent(w: World, g: Game)
    requires Reset(w, g).Some?
    ensures Reset(w, Reset(w, g).value) == Reset(w, g)
  {
  }

  /**
   The stage timer after a reset is the timer table's entry `stage +
   difficulty`, a negative index counting from the end of the table.
   */
  lemma ResetTimer(w: World, g: Game)
    requires Reset(w, g).Some?
    ensures var i := g.stage + g.difficulty;
      Reset(w, g).value.stageTime == w.stageTimes[if i < 0 then |w.stageTimes| + i else i] as real
  {
  }

  /** The game starts on the title stage in normal difficulty, so its first timer is the table's last entry. */
  lemma InitReadsLastTimer(w: World)
    requires Init(w).Some?
    ensures Init(w).value.stageTime == w.stageTimes[|w.stageTimes| - 1] as real
  {
  }

  // ---------------------------------------------------------------------
  // key presses
  // ---------------------------------------------------------------------

  /** Every key press keeps the invariants and adds the key to the held keys. */
  lemma KeyPressKeepsValid(w: World, g: Game, key: Key)
    requires Valid(g)
    ensures KeyPress(w, g, key).Some? ==>
      Valid(KeyPress(w, g, key).value) && KeyPress(w, g, key).value.keys == g.keys + {key}
  {
    if key == Escape {
      EscapeRestartsStage(w, g);
    } else if key == Space {
      SpaceJumps(w, g);
    } else if key == F12 {
      F12ReturnsToTitle(w, g);
    } else if key == B && g.stage == TitleStage {
      BStartsRun(w, g);
    } else if key == C && g.stage == TitleStage {
      CShowsControls(w, g);
    } else if key == B || key == C {
      BAndCOnlyOnTitle(w, g, key);
    } else if key == M {
      MTogglesDifficulty(w, g);
    } else if key == Backslash {
      BackslashEntersDevMode(w, g);
    } else if key == Up {
      UpLoadsNextStage(w, g);
    } else if key == Down {
      DownLoadsPreviousStage(w, g);
    } else {
      OtherKeysOnlyHeld(w, g, key);
    }
  }

  /** Which keys are held is no part of what `reset` sets. */
  lemma FreshIgnoresKeys(w: World, g: Game, keys: set<Key>)
    requires Fresh(w, g)
    ensures Fresh(w, g.(keys := keys))
  {
  }

  /** Escape and F12 each hand the game to their one restart; nothing after it changes more than the held keys. */
  lemma RestartKeyPress(w: World, g: Game, key: Key)
    requires key == Escape || key == F12
    ensures KeyPress(w, g, key) ==
      var load := if key == Escape then Die(w, g) else ReturnToTitle(w, g);
      if load.Some? then Some(load.value.(keys := g.keys + {key})) else None
  {
  }

  /** Escape restarts the stage and counts a death. */
  lemma EscapeRestartsStage(w: World, g: Game)
    ensures var r := KeyPress(w, g, Escape);
      && (r.Some? <==> Loadable(w, g.stage, g.difficulty))
      && (r.Some? ==> && Fresh(w, r.value)
                      && SameSession(g.(deaths := g.deaths + 1, keys := g.keys + {Escape}), r.value))
  {
    RestartKeyPress(w, g, Escape);
    if Die(w, g).Some? {
      var r := Die(w, g).value;
      FreshIgnoresKeys(w, r, g.keys + {Escape});
    }
  }

  /** Space starts a jump while fewer than two have been started, and otherwise changes nothing. */
  lemma SpaceJumps(w: World, g: Game)
    ensures g.jumps < MaxJumps ==>
      KeyPress(w, g, Space) ==
        Some(g.(player := g.player.(changeY := JumpVelocity), jumps := g.jumps + 1, keys := g.keys + {Space}))
    ensures g.jumps >= MaxJumps ==> KeyPress(w, g, Space) == Some(g.(keys := g.keys + {Space}))
  {
  }

  /** F12 returns to the title screen from anywhere, with a clean session. */
  lemma F12ReturnsToTitle(w: World, g: Game)
    ensures var r := KeyPress(w, g, F12);
      && (r.Some? <==> Loadable(w, TitleStage, g.difficulty))
      && (r.Some? ==> && AtTitle(r.value) && Fresh(w, r.value)
                      && r.value.difficulty == g.difficulty && r.value.keys == g.keys + {F12})
  {
    RestartKeyPress(w, g, F12);
    if ReturnToTitle(w, g).Some? {
      var r := ReturnToTitle(w, g).value;
      FreshIgnoresKeys(w, r, g.keys + {F12});
    }
  }

  /** B and C reach their title-screen tests with the game unchanged; elsewhere they are only held. */
  lemma TitleKeyPress(w: World, g: Game, key: Key)
    requires key == B || key == C
    ensures KeyPress(w, g, key) ==
      var load := if key == B then StartRun(w, g) else ShowControls(w, g);
      if g.stage != TitleStage then Some(g.(keys := g.keys + {key}))
      else if load.Some? then Some(load.value.(keys := g.keys + {key}))
      else None
  {
  }

  /** On the title screen B starts stage 1 with a clean session. */
  lemma BStartsRun(w: World, g: Game)
    requires g.stage == TitleStage
    ensures var r := KeyPress(w, g, B);
      && (r.Some? <==> Loadable(w, 1, g.difficulty))
      && (r.Some? ==> && Fresh(w, r.value) && r.value.stage == 1 && r.value.start
                      && r.value.deaths == 0 && r.value.totalTime == 0.0 && !r.value.gameOver
                      && r.value.devMode == g.devMode && r.value.difficulty == g.difficulty
                      && r.value.keys == g.keys + {B})
  {
    TitleKeyPress(w, g, B);
    if StartRun(w, g).Some? {
      var r := StartRun(w, g).value;
      FreshIgnoresKeys(w, r, g.keys + {B});
    }
  }

  /** On the title screen C shows the controls screen and counts a death. */
  lemma CShowsControls(w: World, g: Game)
    requires g.stage == TitleStage
    ensures var r := KeyPress(w, g, C);
      && (r.Some? <==> Loadable(w, ControlsStage, g.difficulty))
      && (r.Some? ==> && Fresh(w, r.value) && r.value.stage == ControlsStage
                      && SameSession(g.(stage := ControlsStage, deaths := g.deaths + 1, keys := g.keys + {C}),
                                     r.value))
  {
    TitleKeyPress(w, g, C);
    if ShowControls(w, g).Some? {
      var r := ShowControls(w, g).value;
      FreshIgnoresKeys(w, r, g.keys + {C});
    }
  }

  /** Away from the title screen B and C only join the held keys. */
  lemma BAndCOnlyOnTitle(w: World, g: Game, key: Key)
    requires key == B || key == C
    requires g.stage != TitleStage
    ensures KeyPress(w, g, key) == Some(g.(keys := g.keys + {key}))
  {
  }

  /** M switches the difficulty on the title screen outside developer mode, and nowhere else. */
  lemma MTogglesDifficulty(w: World, g: Game)
    ensures g.stage == TitleStage && !g.devMode ==>
      KeyPress(w, g, M) == Some(g.(difficulty := if g.difficulty == NormalMode then HardMode else NormalMode,
                                   keys := g.keys + {M}))
    ensures g.stage != TitleStage || g.devMode ==> KeyPress(w, g, M) == Some(g.(keys := g.keys + {M}))
  {
  }

  /** Pressing M twice on the title screen restores a valid difficulty. */
  lemma {:induction false} MTwiceRestores(w: World, g: Game)
    requires g.stage == TitleStage && !g.devMode
    requires g.difficulty == NormalMode || g.difficulty == HardMode
    ensures KeyPress(w, KeyPress(w, g, M).value, M) == Some(g.(keys := g.keys + {M}))
  {
    MTogglesDifficulty(w, g);
    MTogglesDifficulty(w, KeyPress(w, g, M).value);
  }

  /** Backslash enters developer mode; nothing else about the session changes. */
  lemma BackslashEntersDevMode(w: World, g: Game)
    ensures KeyPress(w, g, Backslash) == Some(g.(devMode := true, keys := g.keys + {Backslash}))
  {
  }

  /** Up and Down reach the developer-mode tests with the game unchanged; outside developer mode they are only held. */
  lemma StageKeyPress(w: World, g: Game, key: Key)
    requires key == Up || key == Down
    ensures KeyPress(w, g, key) ==
      var next := if key == Up then g.stage + 1 else g.stage - 1;
      if !g.devMode then Some(g.(keys := g.keys + {key}))
      else if Reset(w, g.(stage := next)).Some?
      then Some(Reset(w, g.(stage := next)).value.(keys := g.keys + {key}))
      else None
  {
  }

  /** In developer mode Up loads the next stage; otherwise it only joins the held keys. */
  lemma UpLoadsNextStage(w: World, g: Game)
    ensures g.devMode ==> (KeyPress(w, g, Up).Some? <==> Loadable(w, g.stage + 1, g.difficulty))
    ensures g.devMode && KeyPress(w, g, Up).Some? ==>
      && Fresh(w, KeyPress(w, g, Up).value)
      && SameSession(g.(stage := g.stage + 1, keys := g.keys + {Up}), KeyPress(w, g, Up).value)
    ensures !g.devMode ==> KeyPress(w, g, Up) == Some(g.(keys := g.keys + {Up}))
  {
    StageKeyPress(w, g, Up);
    if g.devMode {
      var loaded := Reset(w, g.(stage := g.stage + 1));
      if loaded.Some? {
        assert Fresh(w, loaded.value);
        FreshIgnoresKeys(w, loaded.value, g.keys + {Up});
      }
    }
  }

  /** In developer mode Down loads the previous stage; otherwise it only joins the held keys. */
  lemma DownLoadsPreviousStage(w: World, g: Game)
    ensures g.devMode ==> (KeyPress(w, g, Down).Some? <==> Loadable(w, g.stage - 1, g.difficulty))
    ensures g.devMode && KeyPress(w, g, Down).Some? ==>
      && Fresh(w, KeyPress(w, g, Down).value)
      && SameSession(g.(stage := g.stage - 1, keys := g.keys + {Down}), KeyPress(w, g, Down).value)
    ensures !g.devMode ==> KeyPress(w, g, Down) == Some(g.(keys := g.keys + {Down}))
  {
    StageKeyPress(w, g, Down);
    if g.devMode {
      var loaded := Reset(w, g.(stage := g.stage - 1));
      if loaded.Some? {
        assert Fresh(w, loaded.value);
        FreshIgnoresKeys(w, loaded.value, g.keys + {Down});
      }
    }
  }

  /** Keys the handler does not test for state (movement, modifiers, F9 to F11, the rest) only join the held keys. */
  lemma OtherKeysOnlyHeld(w: World, g: Game, key: Key)
    requires key !in {Escape, Space, F12, B, M, Backslash, Up, Down, C}
    ensures KeyPress(w, g, key) == Some(g.(keys := g.keys + {key}))
  {
  }

  /**
   A shown portal is hidden again by a key press only through a key that can
   reload a stage: every other key succeeds and leaves the portal shown.
   */
  lemma KeyPressHidesPortalOnlyByReset(w: World, g: Game, key: Key)
    requires !g.portalHidden
    requires key !in {Escape, F12, B, C, Up, Down}
    ensures KeyPress(w, g, key).Some? && !KeyPress(w, g, key).value.portalHidden
  {
    if key == Space {
      SpaceJumps(w, g);
    } else if key == M {
      MTogglesDifficulty(w, g);
    } else if key == Backslash {
      BackslashEntersDevMode(w, g);
    } else {
      OtherKeysOnlyHeld(w, g, key);
    }
  }

  // ---------------------------------------------------------------------
  // key releases and clicks
  // ---------------------------------------------------------------------

  /** Pressing and then releasing a key that was not held leaves the held keys as they were. */
  lemma PressThenReleaseOtherKey(w: World, g: Game, key: Key)
    requires key !in {Escape, Space, F12, B, M, Backslash, Up, Down, C}
    requires key !in g.keys
    ensures KeyRelease(KeyPress(w, g, key).value, key) == g
  {
    OtherKeysOnlyHeld(w, g, key);
  }

  /** Releasing a key keeps the invariants. */
  lemma KeyReleaseKeepsValid(g: Game, key: Key)
    requires Valid(g)
    ensures Valid(KeyRelease(g, key)) && KeyRelease(g, key).keys == g.keys - {key}
  {
  }

  /** Clicks keep the invariants. */
  lemma MousePressKeepsValid(w: World, g: Game)
    requires Valid(g)
    requires MousePress(w, g).Some?
    ensures Valid(MousePress(w, g).value)
  {
  }

  /** The starting state satisfies the invariants. */
  lemma InitValid(w: World)
    requires Init(w).Some?
    ensures Valid(Init(w).value) && Init(w).value.jumps == 1 && Init(w).value.portalHidden
  {
  }

  // ---------------------------------------------------------------------
  // the update
  // ---------------------------------------------------------------------

  /** An update that succeeds passes every step that can fail. */
  lemma {:induction false} UpdateSteps(w: World, g: Game, f: Frame) returns (g2: Game, g3: Game, g5: Game, g6: Game, g9: Game)
    requires OnUpdate(w, g, f).Some?
    ensures Expire(w, Tick(g, f.delta)) == Some(g2)
    ensures MoveAndBound(w, g2) == Some(g3)
    ensures DieOnContact(w, CollectAndAnimate(g3, f.coinHits, f.delta), f.hazardHits) == Some(g5)
    ensures DieOnContact(w, g5, f.enemyHits) == Some(g6)
    ensures EnterPortal(w, RevealPortal(AnimateAndLand(g6, f)), f.portalHits) == Some(g9)
    ensures OnUpdate(w, g, f) == Some(Finish(g9, f))
  {
    g2 := Expire(w, Tick(g, f.delta)).value;
    g3 := MoveAndBound(w, g2).value;
    g5 := DieOnContact(w, CollectAndAnimate(g3, f.coinHits, f.delta), f.hazardHits).value;
    g6 := DieOnContact(w, g5, f.enemyHits).value;
    g9 := EnterPortal(w, RevealPortal(AnimateAndLand(g6, f)), f.portalHits).value;
  }

  /** Every update keeps the invariants, given a non-negative frame time. */
  lemma UpdateKeepsValid(w: World, g: Game, f: Frame)
    requires Valid(g) && 0.0 <= f.delta
    requires OnUpdate(w, g, f).Some?
    ensures Valid(OnUpdate(w, g, f).value)
  {
    var g2, g3, g5, g6, g9 := UpdateSteps(w, g, f);
    var g4 := CollectAndAnimate(g3, f.coinHits, f.delta);
    var g7 := AnimateAndLand(g6, f);
    var g8 := RevealPortal(g7);
  }

  /** The timer and the fall test, the first two death triggers of an update, each count once. */
  lemma {:induction false} DeathsBeforeCollection(w: World, g: Game, f: Frame, g2: Game, g3: Game)
    requires Expire(w, Tick(g, f.delta)) == Some(g2)
    requires MoveAndBound(w, g2) == Some(g3)
    ensures var expired := g.stageTime - f.delta < 0.0;
      var p := if expired && g.stage in w.maps then Spawn(w, g.stage) else g.player;
      g3.deaths == g.deaths + Count(expired) + Count(OutOfBounds(Movement(p, w.playerHeight, g.keys), w.screenWidth).fellOut)
  {
    var expired := g.stageTime - f.delta < 0.0;
    assert g2.deaths == g.deaths + Count(expired);
    assert g2.player == if expired && g.stage in w.maps then Spawn(w, g.stage) else g.player;
    assert g2.keys == g.keys;
  }

  /**
   Every death trigger of an update counts exactly once: the timer running
   out, falling out of the map (tested on the player after the timer's
   restart and the frame's movement), a hazard and an enemy.
   */
  lemma {:induction false} UpdateCountsDeaths(w: World, g: Game, f: Frame)
    requires OnUpdate(w, g, f).Some?
    ensures var expired := g.stageTime - f.delta < 0.0;
      var p := if expired && g.stage in w.maps then Spawn(w, g.stage) else g.player;
      var fell := OutOfBounds(Movement(p, w.playerHeight, g.keys), w.screenWidth).fellOut;
      OnUpdate(w, g, f).value.deaths
        == g.deaths + Count(expired) + Count(fell) + Count(f.hazardHits != {}) + Count(f.enemyHits != {})
  {
    var g2, g3, g5, g6, g9 := UpdateSteps(w, g, f);
    var g4 := CollectAndAnimate(g3, f.coinHits, f.delta);
    var g7 := AnimateAndLand(g6, f);
    var g8 := RevealPortal(g7);
    DeathsBeforeCollection(w, g, f, g2, g3);
    assert g4.deaths == g3.deaths;
    assert g5.deaths == g4.deaths + Count(f.hazardHits != {});
    assert g6.deaths == g5.deaths + Count(f.enemyHits != {});
    assert g9.deaths == g6.deaths;
  }

  /** The total time grows by the frame time until the game is over, and then stands still. */
  lemma {:induction false} UpdateTotalTime(w: World, g: Game, f: Frame)
    requires OnUpdate(w, g, f).Some?
    ensures OnUpdate(w, g, f).value.totalTime == if g.gameOver then g.totalTime else g.totalTime + f.delta
    ensures g.gameOver ==> OnUpdate(w, g, f).value.gameOver
  {
    var g2, g3, g5, g6, g9 := UpdateSteps(w, g, f);
    var g4 := CollectAndAnimate(g3, f.coinHits, f.delta);
    var g7 := AnimateAndLand(g6, f);
    var g8 := RevealPortal(g7);
  }

  /**
   An update stays on its stage or moves to the next one, never loses a
   death, and ends the game exactly when it ends on the final stage.
   */
  lemma {:induction false} UpdateStageAndGameOver(w: World, g: Game, f: Frame)
    requires OnUpdate(w, g, f).Some?
    ensures var r := OnUpdate(w, g, f).value;
      && (r.stage == g.stage || r.stage == g.stage + 1)
      && r.deaths >= g.deaths
      && r.gameOver == (g.gameOver || r.stage == FinalStage)
  {
    var g2, g3, g5, g6, g9 := UpdateSteps(w, g, f);
    var g4 := CollectAndAnimate(g3, f.coinHits, f.delta);
    var g7 := AnimateAndLand(g6, f);
    var g8 := RevealPortal(g7);
  }

  /** Landing anywhere in an update leaves the jump counter at 1. */
  lemma {:induction false} UpdateLandingResetsJumps(w: World, g: Game, f: Frame)
    requires f.landed
    requires OnUpdate(w, g, f).Some?
    ensures OnUpdate(w, g, f).value.jumps == 1
  {
    var g2, g3, g5, g6, g9 := UpdateSteps(w, g, f);
    var g4 := CollectAndAnimate(g3, f.coinHits, f.delta);
    var g7 := AnimateAndLand(g6, f);
    assert g7.jumps == 1;
    var g8 := RevealPortal(g7);
    assert g9.jumps == 1;
  }

  /**
   Once shown, the portal is hidden again only by a restart: either a death
   in the update or the move to the next stage.
   */
  lemma {:induction false} UpdateHidesPortalOnlyByReset(w: World, g: Game, f: Frame)
    requires OnUpdate(w, g, f).Some?
    requires !g.portalHidden && OnUpdate(w, g, f).value.portalHidden
    ensures var r := OnUpdate(w, g, f).value;
      r.deaths > g.deaths || r.stage == g.stage + 1
  {
    var g2, g3, g5, g6, g9 := UpdateSteps(w, g, f);
    var g4 := CollectAndAnimate(g3, f.coinHits, f.delta);
    var g7 := AnimateAndLand(g6, f);
    var g8 := RevealPortal(g7);
  }

  /** The player after the keyboard step and the horizontal clamp, and whether it fell out. */
  function Moved(w: World, g: Game): Bounded {
    OutOfBounds(Movement(g.player, w.playerHeight, g.keys), w.screenWidth)
  }

  /** An update without a death: the timer holds, the player stays on the map, no hazard or enemy is touched. */
  predicate Quiet(w: World, g: Game, f: Frame) {
    && 0.0 <= g.stageTime - f.delta
    && !Moved(w, g).fellOut
    && f.hazardHits == {} && f.enemyHits == {}
  }

  /**
   An update in which the timer holds, the player stays on the map and no
   deadly sprite is touched reaches the portal step with the session intact
   and a shown portal still shown.
   */
  lemma {:induction false} QuietUpdate(w: World, g: Game, f: Frame) returns (g4: Game, g8: Game)
    requires Quiet(w, g, f)
    ensures g4 == CollectAndAnimate(Tick(g, f.delta).(player := Moved(w, g).player), f.coinHits, f.delta)
    ensures g8 == RevealPortal(AnimateAndLand(g4, f))
    ensures g8.stage == g.stage && g8.difficulty == g.difficulty && g8.deaths == g.deaths
    ensures !g.portalHidden ==> !g8.portalHidden
    ensures OnUpdate(w, g, f) ==
      if EnterPortal(w, g8, f.portalHits).Some? then Some(Finish(EnterPortal(w, g8, f.portalHits).value, f))
      else None
  {
    var g1 := Tick(g, f.delta);
    assert Expire(w, g1) == Some(g1);
    var g3 := g1.(player := Moved(w, g).player);
    assert MoveAndBound(w, g1) == Some(g3);
    g4 := CollectAndAnimate(g3, f.coinHits, f.delta);
    assert DieOnContact(w, g4, f.hazardHits) == Some(g4);
    assert DieOnContact(w, g4, f.enemyHits) == Some(g4);
    g8 := RevealPortal(AnimateAndLand(g4, f));
  }

  /** Without a portal contact a quiet update is its first steps followed by the final one. */
  lemma {:induction false} QuietResult(w: World, g: Game, f: Frame) returns (g4: Game, g8: Game)
    requires Quiet(w, g, f) && f.portalHits == {}
    ensures g4 == CollectAndAnimate(Tick(g, f.delta).(player := Moved(w, g).player), f.coinHits, f.delta)
    ensures g8 == RevealPortal(AnimateAndLand(g4, f))
    ensures OnUpdate(w, g, f) == Some(Finish(g8, f))
  {
    g4, g8 := QuietUpdate(w, g, f);
    assert EnterPortal(w, g8, f.portalHits) == Some(g8);
  }

  /**
   Touching the shown portal in an update without a death moves to the next
   stage exactly once, with its coins uncounted and its portal hidden again.
   */
  lemma {:induction false} UpdateEntersPortal(w: World, g: Game, f: Frame)
    requires !g.portalHidden && f.portalHits != {}
    requires Quiet(w, g, f)
    ensures var r := OnUpdate(w, g, f);
      && (r.Some? <==> Loadable(w, g.stage + 1, g.difficulty))
      && (r.Some? ==> && r.value.stage == g.stage + 1
                      && r.value.deaths == g.deaths
                      && r.value.coinsCollected == 0
                      && r.value.coinsToCollect == |w.maps[g.stage + 1].coins|
                      && r.value.portalHidden
                      && r.value.jumps == 1)
  {
    var _, g8 := QuietUpdate(w, g, f);
    if EnterPortal(w, g8, f.portalHits).Some? {
      var g9 := EnterPortal(w, g8, f.portalHits).value;
      assert Fresh(w, g9) && g9.stage == g.stage + 1 && g9.deaths == g.deaths;
    }
  }

  // ---------------------------------------------------------------------
  // coins and enemies in an update without a death or a portal
  // ---------------------------------------------------------------------

  /**
   The last steps of an update on the run-away stage, coin by coin: a coin
   near the player flees, any other coin stops where it is.
   */
  lemma {:induction false} RunawayStep(g4: Game, f: Frame, kept: seq<Sprite>, frame: nat)
    requires g4.stage == RunawayStage
    requires |g4.coins| == |kept| && forall i :: 0 <= i < |kept| ==> g4.coins[i] == kept[i].(texture := frame)
    ensures var r := Finish(RevealPortal(AnimateAndLand(g4, f)), f);
      && |r.coins| == |kept|
      && forall i :: 0 <= i < |kept| ==>
           var c := kept[i].(texture := frame);
           && (!Near(g4.player.centerX, g4.player.centerY, c) ==> r.coins[i] == c.(velocity := Still))
           && (Near(g4.player.centerX, g4.player.centerY, c) ==>
                 r.coins[i] == Step(c.(velocity := f.bearing(c).Scale(-FleeSpeed))))
  {
    var g8 := RevealPortal(AnimateAndLand(g4, f));
    assert g8.coins == g4.coins && g8.stage == RunawayStage;
    assert g8.player.centerX == g4.player.centerX && g8.player.centerY == g4.player.centerY;
  }

  /** Floating enemies hover in place for a slow player and otherwise step along their bearing. */
  lemma FloatingStep(enemies: seq<Sprite>, v: real, speed: real, bearing: Sprite -> Vec)
    ensures var moved := MoveFloatingEnemies(enemies, v, speed, bearing);
      && |moved| == |enemies|
      && (Abs(v) <= 1.0 ==> forall i :: 0 <= i < |enemies| ==> Step(moved[i]) == enemies[i].(velocity := Still))
      && (Abs(v) > 1.0 ==> forall i :: 0 <= i < |enemies| ==>
            Step(moved[i]) == Step(enemies[i].(velocity := bearing(enemies[i]).Scale(speed))))
  {
  }

  /**
   The coins of a quiet update: the untouched ones stay, in order, and all
   show the animation frame of the advanced clock; the counter grows by the
   touched ones. Away from the run-away stage each coin then takes one step
   at its own velocity.
   */
  lemma {:induction false} UpdateCoins(w: World, g: Game, f: Frame)
    requires Quiet(w, g, f) && f.portalHits == {}
    ensures var r := OnUpdate(w, g, f);
      var kept := Untouched(g.coins, f.coinHits);
      var frame := CoinFrame(g.animationClock + f.delta);
      && r.Some?
      && r.value.coinsCollected == g.coinsCollected + |Touched(g.coins, f.coinHits)|
      && |r.value.coins| == |kept|
      && (forall i :: 0 <= i < |kept| ==> r.value.coins[i].texture == frame && r.value.coins[i].id == kept[i].id)
      && (g.stage != RunawayStage ==>
            forall i :: 0 <= i < |kept| ==> r.value.coins[i] == Step(kept[i].(texture := frame)))
  {
    var g4, g8 := QuietResult(w, g, f);
    assert g4.coins == g8.coins && g8.stage == g.stage && g8.coinsCollected == g4.coinsCollected;
  }

  /**
   On the run-away stage a quiet update moves every coin within distance
   100 of the player straight away from it at speed 10, and leaves every
   other coin where it was, stopped.
   */
  lemma {:induction false} UpdateRunawayCoins(w: World, g: Game, f: Frame)
    requires g.stage == RunawayStage
    requires Quiet(w, g, f) && f.portalHits == {}
    ensures var r := OnUpdate(w, g, f);
      var p := Moved(w, g).player;
      var kept := Untouched(g.coins, f.coinHits);
      var frame := CoinFrame(g.animationClock + f.delta);
      && r.Some?
      && |r.value.coins| == |kept|
      && forall i :: 0 <= i < |kept| ==>
           var c := kept[i].(texture := frame);
           && (!Near(p.centerX, p.centerY, c) ==> r.value.coins[i] == c.(velocity := Still))
           && (Near(p.centerX, p.centerY, c) ==>
                 r.value.coins[i] == Step(c.(velocity := f.bearing(c).Scale(-FleeSpeed))))
  {
    var g4, g8 := QuietResult(w, g, f);
    assert g4.player == Moved(w, g).player && g4.stage == g.stage;
    RunawayStep(g4, f, Untouched(g.coins, f.coinHits), CoinFrame(g.animationClock + f.delta));
  }

  /**
   On a floating-enemy stage a quiet update leaves every enemy hovering in
   place while the player's horizontal speed is at most 1; otherwise every
   enemy takes one step along its bearing to the player at the stage's speed.
   */
  lemma {:induction false} UpdateFloatingEnemies(w: World, g: Game, f: Frame)
    requires g.stage in FloatSpeeds
    requires Quiet(w, g, f) && f.portalHits == {}
    ensures var r := OnUpdate(w, g, f);
      var v := Moved(w, g).player.changeX;
      && r.Some?
      && |r.value.enemies| == |g.enemies|
      && (Abs(v) <= 1.0 ==> forall i :: 0 <= i < |g.enemies| ==> r.value.enemies[i] == g.enemies[i].(velocity := Still))
      && (Abs(v) > 1.0 ==> forall i :: 0 <= i < |g.enemies| ==>
            r.value.enemies[i] == Step(g.enemies[i].(velocity := f.bearing(g.enemies[i]).Scale(FloatSpeeds[g.stage]))))
  {
    var g4, g8 := QuietResult(w, g, f);
    assert g4.enemies == g.enemies && g4.stage == g.stage && g4.player.changeX == Moved(w, g).player.changeX;
    assert g8.enemies == MoveFloatingEnemies(g.enemies, Moved(w, g).player.changeX, FloatSpeeds[g.stage], f.bearing);
    FloatingStep(g.enemies, Moved(w, g).player.changeX, FloatSpeeds[g.stage], f.bearing);
  }

  /**
   On every other stage a quiet update moves each enemy one step at its own
   velocity; on stage 15 the enemies also show the coins' animation frame.
   */
  lemma {:induction false} UpdateOtherEnemies(w: World, g: Game, f: Frame)
    requires g.stage !in FloatSpeeds
    requires Quiet(w, g, f) && f.portalHits == {}
    ensures var r := OnUpdate(w, g, f);
      && r.Some?
      && |r.value.enemies| == |g.enemies|
      && forall i :: 0 <= i < |g.enemies| ==>
           r.value.enemies[i] == Step(g.enemies[i]).(texture :=
             if g.stage == CoinEnemyStage then CoinFrame(g.animationClock + f.delta) else g.enemies[i].texture)
  {
    var g4, g8 := QuietResult(w, g, f);
    assert g4.enemies == g.enemies && g4.stage == g.stage;
    assert CoinFrame(g4.animationClock) == CoinFrame(g.animationClock + f.delta);
  }
}
