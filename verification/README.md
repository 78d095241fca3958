# Time Attack Andy — a Dafny model of the game's state machine

Time Attack Andy is a 2D platformer. The player crosses about twenty tile-map stages, collects every coin of a stage, and enters the portal before the stage timer runs out. The fewer deaths on the way, the better. The framework (`arcade`) does the rendering, physics, collision detection, tile-map loading and audio. Underneath sits a small state machine of counters and flags, plus a few pure decision functions. This project models that part and proves properties about it.

- `player_logic.dfy` (`PlayerLogic`) covers speed and direction from the held keys, texture choice, the idle squash, the death counter, and the horizontal clamp with the fall-out test.
- `environment_logic.dfy` (`EnvironmentLogic`) covers the coin animation frame, coin collection, the contact tests, the all-coins test, the per-stage background and enemy behaviour, and the run-away coins.
- `game.dfy` (`Game`) covers the game view: its state, `reset`, every step of the per-frame update, key presses and releases, and mouse clicks.
- `game_properties.dfy` (`GameProperties`) has the lemmas about whole events: the invariants they keep, and what each key, click and update does.
- `keys.dfy` and `wrappers.dfy` hold the key datatype and the `Option` type.

Framework objects are replaced by plain values:
- Sprites are records of reals.
- The timer file is a `seq<int>`.
- Each tile map is a `StageMap` (coins, enemies, start tile). `World` maps stage numbers to these and holds the screen width and the size of a new player sprite.
- One update's framework results are fields of a `Frame`: the elapsed time, the ids of the sprites the player overlaps in each layer, the two `can_jump` tests, the sine and cosine towards the player, and the player's position and speeds after the physics step.

`reset` can raise an exception in two cases: the stage has no tile map, or `stage + difficulty` is not a valid index into the timer list. Every handler that can reach `reset` therefore returns `Option<Game>`, and `None` means the game stopped with an exception. Python's negative list indices are modelled as Python defines them. Index -1 is not just a developer-mode curiosity: the title stage in normal difficulty (stage 0, difficulty -1) reads the last entry of the timer list every time the game starts.

The invariant `Game.Valid` holds in every reachable state: `Init`, then any sequence of key presses, key releases, clicks and updates whose frame time is not negative (`InitValid`, `KeyPressKeepsValid`, `KeyReleaseKeepsValid`, `MousePressKeepsValid`, `UpdateKeepsValid`). The invariant says:
- the jump counter is 1 or 2;
- the difficulty is -1 or 20;
- every coin of the stage is either still on screen or counted;
- the portal is shown only when every coin is counted;
- the animation clock stays in `[0, 1]`;
- deaths and total time are non-negative.

The portal becomes visible only when the counters agree (`RevealPortal`, `Valid`). It becomes hidden again only through a restart (`UpdateHidesPortalOnlyByReset`, `KeyPressHidesPortalOnlyByReset`). So it is revealed at most once per stage.

## Model

| member | source | states |
|---|---|---|
| `PlayerLogic.ChooseGait` | assets/player_logic.py:44-58 | Left shift gives speed 5 at 0.8 of the default height. Otherwise left control gives speed 1 at 1.2 of the height. Otherwise speed 4 at the default height. The speed is always positive. |
| `PlayerLogic.GaitDependsOnModifiersOnly` | assets/player_logic.py:48-58 | Only shift and control decide the gait. While shift is held, control makes no difference. |
| `PlayerLogic.Movement` | assets/player_logic.py:39-68 | Only the height and horizontal speed change. D held gives +speed. A without D gives -speed, or +speed if the right arrow is also held. Without A and D, the speed set by an arrow (or the old speed) is multiplied by 0.9. |
| `PlayerLogic.RightWins` | assets/player_logic.py:61-64 | With a left key and a right key both held, the player moves right. |
| `PlayerLogic.GlideDecays` | assets/player_logic.py:67-68 | With no direction key held, the speed after n keyboard steps is the start speed times 0.9^n, and its magnitude never grows. The physics step between frames is not part of this. |
| `PlayerLogic.AnimatePlayer` | assets/player_logic.py:73-88 | Only the texture changes. On the ground it is 0 (right) or 1 (left). Rising it is 2/3, falling 4/5. With zero horizontal speed it is unchanged. A changed texture is at most 5 and is even exactly when moving right. |
| `PlayerLogic.PlayerIdle` | assets/player_logic.py:91-101 | Only the height can change, and only when the horizontal speed is below 0.1. Then it is kept below clock 0.5 and multiplied by 0.9 from 0.5 on. It never grows. |
| `Game.Die` | assets/player_logic.py:104-117 | A death adds exactly one to the death counter, then the same stage restarts. It fails exactly when the restart fails. |
| `PlayerLogic.OutOfBounds` | assets/player_logic.py:120-136 | Only the horizontal centre moves: it is clamped to `[width/2, screen - width/2]`, left edge first. When the player fits on screen, afterwards `left >= 0` and `right <= screen width`. A player already inside is untouched. Fell out iff `center_y < -5 * height`. |
| `EnvironmentLogic.CoinFrame` | assets/environment_logic.py:34-54 | The frame is below 4. On `[0, 1)` it is `floor(4 * clock)`. It is 0 from 1 on and for a negative clock. |
| `EnvironmentLogic.Touched` | assets/environment_logic.py:64-69 | Every touched coin is a coin of the list that the collision test reported. |
| `EnvironmentLogic.Untouched` | assets/environment_logic.py:64-69 | The remaining coins are exactly the unreported coins of the list, and there are no more of them than before. |
| `EnvironmentLogic.CoinsPartition` | assets/environment_logic.py:64-74 | Touched and remaining coins together are the original coins as a multiset. Their counts add up to the list length. |
| `EnvironmentLogic.NothingTouched` | assets/environment_logic.py:64-74 | When no coin was reported, nothing is removed. |
| `EnvironmentLogic.CollectCoin` | assets/environment_logic.py:57-74 | The counter grows by the number of touched coins. Counter plus remaining coins is conserved. Touched coins are removed and untouched coins stay. With no hit, nothing changes. |
| `GameProperties.UpdateFloatingEnemies` | assets/environment_logic.py:107-117 | On stages 4, 10 and 14, while the player's horizontal speed is at most 1, every enemy stays where it was with zero velocity. Otherwise each enemy moves one step along its bearing at the stage's speed. |
| `EnvironmentLogic.UniqueStageLogic` | assets/environment_logic.py:120-155 | Stages 4, 8, 11, 14, 16, 18 and 20 paint their fixed colour. Every other stage, 10 and 15 included, keeps the input colour. Stages 4/10/14 move floating enemies at 11/3/8. Stage 15 gives its enemies the coin frame. Other stages leave the enemies alone. |
| `EnvironmentLogic.BackgroundSettles` | assets/environment_logic.py:120-155 | Running the stage logic again leaves the background where the first run put it. |
| `GameProperties.UpdateRunawayCoins` | assets/environment_logic.py:77-88 | On stage 18, a coin at distance 100 or more from the player stays where it is with zero velocity. A nearer coin moves one step away from the player at speed 10. |
| `Game.PyIndex` | main.py:129 | The timer lookup succeeds iff `-len <= i < len`. A non-negative index reads the i-th entry. |
| `Game.PyIndexFromEnd` | main.py:129 | A negative index reaches the same entry as its non-negative counterpart. |
| `Game.Reset` | main.py:122-171 | Succeeds iff the stage has a map and `stage + difficulty` indexes the timer list. The stage is then reloaded: timer from that entry, coins and count from the map, coins collected 0, portal hidden, jump counter 1, clock 0, new player at the start tile. Session fields are kept, and the invariant is established. |
| `Game.ReturnToTitle` | main.py:344-353 | Stage 0, deaths 0, total time 0, developer mode, start and game-over off, brown background. Difficulty and held keys are kept. Fails iff stage 0 cannot be loaded. |
| `Game.StartRun` | main.py:356-364 | The next stage is loaded with `start` on, deaths 0, total time 0, game over off and a brown background. Developer mode and difficulty are kept. |
| `Game.ShowControls` | main.py:397-400 | Stage 22 is loaded and one death is counted. |
| `Game.ToggleDifficulty` | main.py:367-373 | -1 becomes 20, and anything else becomes -1. Nothing else changes. |
| `Game.Init` | main.py:48-87 | The game starts on the title stage in normal difficulty with no key held and the invariant holding. It fails iff the title stage cannot be loaded. |
| `Game.KeyRelease` | main.py:406-412 | Only the held keys change, and the released key is no longer among them. |
| `Game.MousePress` | main.py:415-428 | On stage 21 or 22 a click returns to the title state, failing iff stage 0 cannot be loaded. Difficulty and held keys are kept. On any other stage it changes nothing. |
| `Game.Tick` | main.py:227-229 | The stage timer drops by the frame time. The total time grows by it only while the game is not over. Nothing else changes. |
| `Game.Expire` | main.py:238-241 | Only a timer below zero kills the player: one death and a restart of the stage. |
| `Game.MoveAndBound` | main.py:243-249 | After the key movement and the clamp, a player below the map dies once and the stage restarts. Otherwise only the player changed. |
| `Game.CollectAndAnimate` | main.py:251-260 | The counter grows by the number of touched coins. The untouched coins stay, in order, each showing the frame of the clock advanced by the frame time. The clock then goes back to 0 once past 1. Nothing else changes. |
| `Game.DieOnContact` | main.py:262-270 | A hazard or enemy layer kills the player exactly when its collision set is non-empty: one death and a restart. Without contact, nothing changes. |
| `Game.AnimateAndLand` | main.py:272-281 | The player gets its motion texture and idle squash. Landing sets the jump counter to 1. The background becomes the stage's own colour on stages 4, 8, 11, 14, 16, 18 and 20 and is kept elsewhere. Enemies float on stages 4, 10 and 14, wear the coin frame on stage 15, and are untouched elsewhere. Nothing else changes. |
| `Game.RevealPortal` | main.py:283-289 | The portal flips only from hidden to shown, and only when the collected count equals the number to collect. When the counts agree, it is shown. |
| `Game.EnterPortal` | main.py:291-294 | Touching the shown portal moves exactly one stage on and restarts there. Otherwise nothing changes. |
| `Game.Finish` | main.py:296-320 | The game is over afterwards iff it was already over or the stage is 21. The player takes the physics step's position and speeds. Every enemy and coin moves by its velocity. On stage 18 each coin's velocity is first set to flee or stop. Nothing else changes. |
| `GameProperties.ResetIdempotent` | main.py:122-171 | Resetting a stage that was just reset changes nothing. |
| `GameProperties.ResetTimer` | main.py:129 | After a reset the stage timer is entry `stage + difficulty` of the timer list. A negative index counts from the end. |
| `GameProperties.InitReadsLastTimer` | main.py:81-87 | The game starts with the last entry of the timer list as its stage timer. |
| `GameProperties.KeyPressKeepsValid` | main.py:323-403 | Every key press keeps the invariant (jump counter in 1..2, difficulty -1 or 20, ...) and adds the key to the held keys. |
| `GameProperties.RestartKeyPress` | main.py:329-353 | ESC gives exactly the result of a death and F12 exactly the return to the title. None of the later tests fires, so only the held keys change after that. |
| `GameProperties.EscapeRestartsStage` | main.py:329-331 | ESC counts exactly one death and restarts the same stage. |
| `GameProperties.SpaceJumps` | main.py:339-341 | SPACE sets the vertical speed to 10 and adds one to the jump counter only while it is below 2. Otherwise only the key is recorded. |
| `GameProperties.F12ReturnsToTitle` | main.py:344-353 | F12 gives the title state from anywhere. |
| `GameProperties.TitleKeyPress` | main.py:356-400 | On the title stage, B gives exactly the start of a run and C exactly the controls screen. On any other stage both only join the held keys. |
| `GameProperties.BStartsRun` | main.py:356-364 | On the title stage, B starts stage 1 with `start` on and deaths and total time zero. |
| `GameProperties.CShowsControls` | main.py:397-400 | On the title stage, C moves to stage 22 and adds one death. |
| `GameProperties.BAndCOnlyOnTitle` | main.py:356-400 | Away from the title stage, B and C only join the held keys. |
| `GameProperties.MTogglesDifficulty` | main.py:367-373 | M toggles the difficulty only on stage 0 outside developer mode. Otherwise it only joins the held keys. |
| `GameProperties.MTwiceRestores` | main.py:367-373 | Two M presses on the title stage restore the difficulty. |
| `GameProperties.BackslashEntersDevMode` | main.py:376-377 | Backslash turns developer mode on and changes nothing else but the held keys. |
| `GameProperties.StageKeyPress` | main.py:379-385 | In developer mode, UP and DOWN give exactly the reset of the next or the previous stage. Otherwise they only join the held keys. |
| `GameProperties.UpLoadsNextStage` | main.py:379-381 | In developer mode, UP loads the next stage. Otherwise it only joins the held keys. |
| `GameProperties.DownLoadsPreviousStage` | main.py:383-385 | In developer mode, DOWN loads the previous stage. Otherwise it only joins the held keys. |
| `GameProperties.OtherKeysOnlyHeld` | main.py:323-403 | Movement keys, modifiers, F9-F11 and unknown keys only join the held keys. |
| `GameProperties.KeyPressHidesPortalOnlyByReset` | main.py:323-403 | A key other than ESC, F12, B, C, UP and DOWN never fails and leaves a shown portal shown. Only a key that can reload a stage hides it again. |
| `GameProperties.PressThenReleaseOtherKey` | main.py:403-412 | Pressing and releasing a key that was not held and is not a command key leaves the state as it was. |
| `GameProperties.KeyReleaseKeepsValid` | main.py:406-412 | Releasing a key keeps the invariant and only drops that key from the held keys. |
| `GameProperties.MousePressKeepsValid` | main.py:415-428 | Clicks keep the invariant. |
| `GameProperties.InitValid` | main.py:48-87 | The starting state satisfies the invariant, with jump counter 1 and the portal hidden. |
| `GameProperties.UpdateKeepsValid` | main.py:221-320 | Every update with a non-negative frame time keeps the invariant. |
| `GameProperties.UpdateCountsDeaths` | main.py:238-270 | An update adds exactly one death per trigger that fires: timer below zero, fell out of the map, hazard, enemy. |
| `GameProperties.UpdateTotalTime` | main.py:227-229 | The total time grows by the frame time until the game is over, then stands still. Game over is never undone by an update. |
| `GameProperties.UpdateStageAndGameOver` | main.py:291-305 | An update stays on its stage or advances by one, never lowers deaths, and sets game over exactly when it ends on stage 21. |
| `GameProperties.UpdateLandingResetsJumps` | main.py:276-278 | When the 18-pixel ground test succeeds, the update ends with jump counter 1. |
| `GameProperties.UpdateHidesPortalOnlyByReset` | main.py:283-294 | A shown portal is hidden again by an update only through a death or the move to the next stage. |
| `GameProperties.QuietUpdate` | main.py:221-294 | If the timer holds, the player stays on the map and no hazard or enemy is touched, the update reaches the portal test with the same stage, difficulty and deaths, and a shown portal is still shown. |
| `GameProperties.UpdateEntersPortal` | main.py:291-294 | Touching the shown portal in an update without a death advances the stage by exactly 1, with zero coins collected, the portal hidden and jump counter 1. The update fails iff the next stage cannot be loaded. |
| `GameProperties.UpdateCoins` | main.py:251-260 | After an update without a death or portal contact, the counter grew by the touched coins. The untouched coins remain, in order, with their ids, all showing the frame of the advanced clock. Away from stage 18 each one also moved by its own velocity. |
| `GameProperties.RunawayStep` | main.py:296-298 | From the coin step to the end of the update on stage 18, a coin near the player flees one step and any other coin stops where it is. |
| `GameProperties.FloatingStep` | assets/environment_logic.py:107-117 | A slow player leaves floating enemies still after their step. A fast one makes them step along their bearing at the given speed. |
| `GameProperties.UpdateOtherEnemies` | main.py:281-320 | On any stage without floating enemies, each enemy moves by its own velocity in an update, and the list keeps its length and order. On stage 15 the enemies show the same frame as the coins. |
| `GameProperties.QuietResult` | main.py:221-320 | Without a death or portal contact, an update is the coin step, the player and stage step, the portal reveal and the final step, in that order. |
| `GameProperties.UpdateSteps` | main.py:221-320 | An update that succeeds has passed every step that can fail, and its result is the final step applied to the state after the portal test. |
| `GameProperties.DeathsBeforeCollection` | main.py:238-249 | The timer death and the fall death each add one to the counter exactly when they fire. |

## Left out

- Rendering and the GUI (`on_draw`, every `arcade.Text`, fonts, the F11 fullscreen toggle) are presentation only. This includes `on_draw` painting the background dark red on stage 21 in developer mode, because it happens in the draw callback rather than in the state logic.
- Audio is left out because it is a side effect with float volumes: background music, F9/F10 volume, the death and coin sounds, and the `print` calls.
- Asset loading is file I/O on framework objects: `resource_path`, texture loading, `add_player_textures`, `add_coin_textures`, and reading `stage_times.txt`. The timer list and the tile maps are inputs (`World`). The growing texture lists that stage 15 produces by adding coin textures to its enemies every frame are not modelled.
- The physics engine, gravity, `check_for_collision_with_list` and `can_jump` are framework code. Their results are `Frame` fields. The player's position and speeds after the physics step are taken as given.
- The sine and cosine vectors of `coin_run_away` and `move_floating_enemies` are floating-point trigonometry. They arrive as the `bearing` parameter, and only the scaling and the zero-velocity branches are modelled. The distance test compares squared distances with 100², which is the same test on reals.
- Portal sprite positions are not modelled. Moving the portal off screen and back, and `forward(5)` on stage 18, are represented by `portalHidden` alone, and portal contact is a `Frame` input.
- Floats are modelled as exact reals, and Python ints as unbounded ints.
- Setting the player's `height` is modelled as changing the height alone, with the width left as it was.
- Sprite identity is the `id` field of a coin or enemy record. Nothing requires the ids of a tile map's coins to be distinct, because the framework's sprites are distinct objects and the tile maps are inputs here. Two coins of a map sharing an id would both be removed and counted by one reported hit, where the game removes only the touched object.
