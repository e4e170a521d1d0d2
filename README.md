# Gameplay state machines of a 3-D action sample

This project is a Dafny model of the frame-stepped state machines at the
heart of a small DxLib 3-D action game:

- **the gameplay manager** (`GamePlayManager`). It counts defeated minor
  enemies and latches the boss-defeated and player-dead flags from event
  messages. It moves one way from the minor-enemy phase (Phase1) to the boss
  phase (Phase2), and it sends `StageClear` and `GameOver` behind timers. It
  also ramps a screen fade counter that is clamped to [0,255].
- **the title scene** (`SceneTitle`). It fades in with input locked, latches
  the start key (with a sound), fades out, and ends once the screen is dark
  and 180 time units have passed. A "press start" message blinks at two
  speeds.
- **the gameplay scene** (`SceneGamePlay`). A pause toggle gates the world
  update, and an end flag is set by `GameOver` or `StageClear`.
- **the player actor** (`Player`). It has ten states dispatched by a switch.
  `change_state` sets the state and motion and restarts the state timer.
  Attack and recovery states return to normal once their motion has played,
  and the player is forced into Death when the hit points are gone.

Each C++ class is modelled in two layers:

- **A value layer.** This is a state datatype plus pure step functions: the
  specification of each call, where the lemmas live.
- **A `class`.** It has the same fields, and its methods mirror the C++ methods
  statement by statement. Each method is proved to produce exactly the state
  (and requests) its step function gives. `Player.Update` follows
  Player.cpp as written (`PlayerFrameAsWritten`); the intended frame
  (`PlayerFrame`) is kept beside it for the one finding below.

The step functions are also driven through arbitrary sequences of frames and
messages (`Run`, `TitleRun`, `PlayRun`, `PlayerRun`). This is how the
multi-frame properties are stated: monotone phase, the boss added exactly
once, the counter equal to the number of `EnemyDead` messages, fade in/out,
pause parity, and the Death state completing.

Everything the code reads from outside is a frame input. That covers:

- the answers of `Timer::is_time_out`;
- the `PlayerInput`/`GamePad` polls;
- `mesh_.motion_end_time()`;
- the frame time.

Each timer's value is modelled as the total frame time fed to its `update`
since `reset`, because the `Timer` class is not part of this model.
`EnemyPopNo` is a constructor parameter. Requests to the world and the sound
system are appended, in order, to a `requests` log of `Effect` values:

- `world_->send_message`;
- `world_->add_actor` of an enemy;
- `Sound::play_bgm`, `stop_bgm` and `play_se`.

The event message enumeration is `EventMessages.EventMessage`.

## Model

| member | source | states |
|---|---|---|
| MathHelper.Clamp | 3DActionSample/DxLib_Game_Framework_Re/src/Scene/GamePlayScene/GamePlayManager.cpp:58 | the clamped counter lies in [lo,hi], equals the input inside the range and the nearer bound outside it |
| GamePlayManagerModel.Initial | 3DActionSample/DxLib_Game_Framework_Re/src/Scene/GamePlayScene/GamePlayManager.cpp:38-46 | a new manager is in Phase1 with no enemy defeated, every flag false, fade 0 and the three timers reset |
| GamePlayManagerModel.GameStartRequests | 3DActionSample/DxLib_Game_Framework_Re/src/Scene/GamePlayScene/GamePlayManager.cpp:130-143 | `game_start` adds exactly three Ghouls and no boss, sends no message, and ends by starting the stage music |
| GamePlayManagerModel.Receive | 3DActionSample/DxLib_Game_Framework_Re/src/Scene/GamePlayScene/GamePlayManager.cpp:79-97 | EnemyDead adds exactly one to the defeat counter; BossDead and PlayerDead set their latch (iff); no other field changes for any message |
| GamePlayManagerModel.ChangePhaseStep | 3DActionSample/DxLib_Game_Framework_Re/src/Scene/GamePlayScene/GamePlayManager.cpp:146-152 | `change_phase` moves to Phase2 and changes nothing else, adds exactly one boss and no minor enemy, sends no message |
| GamePlayManagerModel.SkipPhase1Requests | 3DActionSample/DxLib_Game_Framework_Re/src/Scene/GamePlayScene/GamePlayManager.cpp:273-277 | `skip_phase1` sends exactly EnemyDestroy and adds no actor |
| GamePlayManagerModel.Phase1FrameFacts | 3DActionSample/DxLib_Game_Framework_Re/src/Scene/GamePlayScene/GamePlayManager.cpp:155-175 | the fade rises by 4 while below 255; the phase becomes Phase2, with one boss, iff phase 1 is over and the phase-change timer is out; that timer runs only while phase 1 is over and not yet out; EnemyDestroy is sent iff skip was pressed and the phase did not change in this frame; counters, latches and other timers unchanged |
| GamePlayManagerModel.Phase2FrameFacts | 3DActionSample/DxLib_Game_Framework_Re/src/Scene/GamePlayScene/GamePlayManager.cpp:178-193 | StageClear is sent iff the boss is down and the clear timer is out; the clear timer runs only while the boss is down and the timer not out; nothing else changes; no actor added |
| GamePlayManagerModel.GameOverRequests | 3DActionSample/DxLib_Game_Framework_Re/src/Scene/GamePlayScene/GamePlayManager.cpp:114-124 | the game-over block sends GameOver iff its timer is out, and adds no actor |
| GamePlayManagerModel.UpdatePhaseFrameFacts | 3DActionSample/DxLib_Game_Framework_Re/src/Scene/GamePlayScene/GamePlayManager.cpp:100-127 | the phase changes iff in Phase1 with phase 1 over and the timer out; Phase2 is kept; exactly one boss iff the phase changed; the messages of one frame are, in order, EnemyDestroy, StageClear and GameOver, each exactly under its condition; the game-over timer runs only once the player is dead |
| GamePlayManagerModel.FrameFacts | 3DActionSample/DxLib_Game_Framework_Re/src/Scene/GamePlayScene/GamePlayManager.cpp:53-59 | after `update` the fade is in [0,255]; in Phase1 it rises by 4 up to 255, in Phase2 it stays; counter and latches unchanged; phase, boss, messages and timers as in `update_phase` |
| GamePlayManagerModel.ApplyFacts | 3DActionSample/DxLib_Game_Framework_Re/src/Scene/GamePlayScene/GamePlayManager.cpp:53-97 | one frame or one message: only messages move the counter and latches; only frames move the phase, one way, adding the boss as they do and only with phase 1 over; the fade never falls; StageClear and GameOver only with their flags set |
| GamePlayManagerModel.RunCounts | 3DActionSample/DxLib_Game_Framework_Re/src/Scene/GamePlayScene/GamePlayManager.cpp:79-97 | over any sequence of frames and messages the defeat counter grows by exactly the number of EnemyDead messages, and each latch is set iff its message arrived |
| GamePlayManagerModel.RunPhases | 3DActionSample/DxLib_Game_Framework_Re/src/Scene/GamePlayScene/GamePlayManager.cpp:146-175 | over any run Phase2 is absorbing; the number of bosses added equals the number of phase changes (at most one); no minor enemy is added; entering Phase2 implies phase 1 is over |
| GamePlayManagerModel.RunFade | 3DActionSample/DxLib_Game_Framework_Re/src/Scene/GamePlayScene/GamePlayManager.cpp:53-59 | over any run an in-range fade stays in [0,255] and never decreases |
| GamePlayManagerModel.RunMessages | 3DActionSample/DxLib_Game_Framework_Re/src/Scene/GamePlayScene/GamePlayManager.cpp:100-193 | over any run StageClear is only sent in Phase2 with the boss down, and GameOver only with the player dead |
| GamePlayManagerModel.GameFromStart | 3DActionSample/DxLib_Game_Framework_Re/src/Scene/GamePlayScene/GamePlayManager.cpp:38-50 | from construction: exactly three Ghouls ever, one boss iff in Phase2, Phase2 only after at least `EnemyPopNo` EnemyDead messages, fade always in range |
| GamePlayManagerModel.GamePlayManager.constructor | 3DActionSample/DxLib_Game_Framework_Re/src/Scene/GamePlayScene/GamePlayManager.cpp:38-50 | the fields are the initial state and the requests are those of `game_start` |
| GamePlayManagerModel.GamePlayManager.GameStart | 3DActionSample/DxLib_Game_Framework_Re/src/Scene/GamePlayScene/GamePlayManager.cpp:130-143 | resets the three timers, changes no other field, appends the `game_start` requests |
| GamePlayManagerModel.GamePlayManager.Update | 3DActionSample/DxLib_Game_Framework_Re/src/Scene/GamePlayScene/GamePlayManager.cpp:53-59 | the new fields and requests are those of one `Frame` |
| GamePlayManagerModel.GamePlayManager.HandleMessage | 3DActionSample/DxLib_Game_Framework_Re/src/Scene/GamePlayScene/GamePlayManager.cpp:79-97 | the new fields are `Receive`'s, with no request |
| GamePlayManagerModel.GamePlayManager.UpdatePhase | 3DActionSample/DxLib_Game_Framework_Re/src/Scene/GamePlayScene/GamePlayManager.cpp:100-127 | fields and requests follow `UpdatePhaseFrame` |
| GamePlayManagerModel.GamePlayManager.ChangePhase | 3DActionSample/DxLib_Game_Framework_Re/src/Scene/GamePlayScene/GamePlayManager.cpp:146-152 | fields and requests follow `ChangePhaseStep` |
| GamePlayManagerModel.GamePlayManager.UpdatePhase1 | 3DActionSample/DxLib_Game_Framework_Re/src/Scene/GamePlayScene/GamePlayManager.cpp:155-175 | fields and requests follow `Phase1Frame`, including the early return after `change_phase` |
| GamePlayManagerModel.GamePlayManager.UpdatePhase2 | 3DActionSample/DxLib_Game_Framework_Re/src/Scene/GamePlayScene/GamePlayManager.cpp:178-193 | fields and requests follow `Phase2Frame`, including the early return after StageClear |
| GamePlayManagerModel.GamePlayManager.SkipPhase1 | 3DActionSample/DxLib_Game_Framework_Re/src/Scene/GamePlayScene/GamePlayManager.cpp:273-277 | no field changes; EnemyDestroy is appended |
| SceneTitleModel.StartState | 3DActionSample/DxLib_Game_Framework_Re/src/Scene/SceneTitle.cpp:30-37 | after `start` the three flags are false, both timers 0 and the fade 0 |
| SceneTitleModel.TitleFrameFacts | 3DActionSample/DxLib_Game_Framework_Re/src/Scene/SceneTitle.cpp:51-109 | the stored fade is always in [-1,256]; while locked only the fade moves (clamped value + 2) and nothing is requested; started iff already started or the key pressed while unlocked; the start sound iff just started; once started the fade falls by 2 while positive, and while unlocked and not started it stays at 255; the end flag never clears and is newly set iff started, end timer >= 180 and fade <= 0; the end timer runs iff started; the blink flag flips iff its timer reached 5 (started) or 60 (not started), and the blink timer then restarts at the frame time, otherwise grows by it |
| SceneTitleModel.InputIgnoredWhileFadingIn | 3DActionSample/DxLib_Game_Framework_Re/src/Scene/SceneTitle.cpp:58-70 | while locked, pressing the start key or not gives the same frame |
| SceneTitleModel.FadeIn | 3DActionSample/DxLib_Game_Framework_Re/src/Scene/SceneTitle.cpp:56-63 | for the first 128 frames after `start`, whatever the input, the fade is exactly 2 per frame and nothing else changes or is requested |
| SceneTitleModel.TitleRunInvariant | 3DActionSample/DxLib_Game_Framework_Re/src/Scene/SceneTitle.cpp:66-84 | over any run: end implies started, the end timer stays 0 until started, the fade stays in [-1,256]; started and end never clear; the start sound is played exactly once if the scene was started during the run, never otherwise |
| SceneTitleModel.EndsAfterFadeOut | 3DActionSample/DxLib_Game_Framework_Re/src/Scene/SceneTitle.cpp:73-84 | once started with the end timer past 180, fade/2 + 1 frames of non-negative time end the scene |
| SceneTitleModel.SceneTitle.Start | 3DActionSample/DxLib_Game_Framework_Re/src/Scene/SceneTitle.cpp:28-48 | the fields become the start state and the title music is requested |
| SceneTitleModel.SceneTitle.Update | 3DActionSample/DxLib_Game_Framework_Re/src/Scene/SceneTitle.cpp:51-109 | fields and requests follow `TitleFrame`, including the early return while locked |
| SceneTitleModel.SceneTitle.IsEnd | 3DActionSample/DxLib_Game_Framework_Re/src/Scene/SceneTitle.cpp:124-128 | returns the end flag |
| SceneTitleModel.SceneTitle.Next | 3DActionSample/DxLib_Game_Framework_Re/src/Scene/SceneTitle.cpp:131-134 | always the gameplay scene |
| SceneTitleModel.SceneTitle.End | 3DActionSample/DxLib_Game_Framework_Re/src/Scene/SceneTitle.cpp:137-141 | no field changes; the music is stopped |
| SceneTitleModel.SceneTitle.HandleMessage | 3DActionSample/DxLib_Game_Framework_Re/src/Scene/SceneTitle.cpp:144-147 | no field changes for any message |
| SceneGamePlayModel.StartState | 3DActionSample/DxLib_Game_Framework_Re/src/Scene/SceneGamePlay.cpp:38-40 | after `start` neither ended nor paused |
| SceneGamePlayModel.PlayFrame | 3DActionSample/DxLib_Game_Framework_Re/src/Scene/SceneGamePlay.cpp:60-69 | the world advances iff the scene was unpaused at the start of the frame; the pause key flips the pause flag; the end flag is untouched |
| SceneGamePlayModel.Receive | 3DActionSample/DxLib_Game_Framework_Re/src/Scene/SceneGamePlay.cpp:110-127 | ended iff already ended or the message is GameOver or StageClear; pause untouched |
| SceneGamePlayModel.PauseTwice | 3DActionSample/DxLib_Game_Framework_Re/src/Scene/SceneGamePlay.cpp:67-68 | two pause presses restore the state, and the world advances on exactly one of those two frames |
| SceneGamePlayModel.PlayRunEnd | 3DActionSample/DxLib_Game_Framework_Re/src/Scene/SceneGamePlay.cpp:110-127 | over any run of frames and messages the scene has ended iff it had ended or a GameOver or StageClear arrived; the flag never clears |
| SceneGamePlayModel.PlayRunPause | 3DActionSample/DxLib_Game_Framework_Re/src/Scene/SceneGamePlay.cpp:60-69 | over any run the pause flag is its start value flipped by the parity of the pause presses; the world advances at most once per frame |
| SceneGamePlayModel.PausedStaysStill | 3DActionSample/DxLib_Game_Framework_Re/src/Scene/SceneGamePlay.cpp:63-64 | while paused and no pause press arrives, the world never advances and the game stays paused |
| SceneGamePlayModel.SceneGamePlay.Start | 3DActionSample/DxLib_Game_Framework_Re/src/Scene/SceneGamePlay.cpp:35-57 | both flags cleared |
| SceneGamePlayModel.SceneGamePlay.Update | 3DActionSample/DxLib_Game_Framework_Re/src/Scene/SceneGamePlay.cpp:60-69 | flags and the world-advanced answer follow `PlayFrame` |
| SceneGamePlayModel.SceneGamePlay.IsEnd | 3DActionSample/DxLib_Game_Framework_Re/src/Scene/SceneGamePlay.cpp:91-95 | returns the end flag |
| SceneGamePlayModel.SceneGamePlay.HandleMessage | 3DActionSample/DxLib_Game_Framework_Re/src/Scene/SceneGamePlay.cpp:110-127 | flags follow `Receive` |
| PlayerModel.Initial | 3DActionSample/DxLib_Game_Framework_Re/Player.cpp:8-18 | a new player is Normal, idle, timer 0, full hit points (100), not moving, not dead |
| PlayerModel.ChangeStateStep | 3DActionSample/DxLib_Game_Framework_Re/Player.cpp:117-122 | the given state and motion with timer 0, whatever the prior state; nothing else changes |
| PlayerModel.NormalStep | 3DActionSample/DxLib_Game_Framework_Re/Player.cpp:125-174 | attack moves to Slash1 with the slash motion; otherwise Normal with timer 0, walk motion iff a direction is held (else idle), forward over back and left over right |
| PlayerModel.RecoverStep | 3DActionSample/DxLib_Game_Framework_Re/Player.cpp:177-219 | before the motion end nothing changes; from the motion end on it is the normal handler |
| PlayerModel.DeathStep | 3DActionSample/DxLib_Game_Framework_Re/Player.cpp:254-260 | `die()` has been called iff it had been or the timer reached the motion end; nothing else changes |
| PlayerModel.UpdateStateFacts | 3DActionSample/DxLib_Game_Framework_Re/Player.cpp:74-114 | hit points unchanged; guard states and unfinished recovery states only advance the timer; Normal and finished recovery states go to Slash1 on attack, else Normal, with timer = frame time; any state change leaves timer = frame time; Death stays Death and calls `die()` once the motion has played |
| PlayerModel.PlayerFrameFacts | 3DActionSample/DxLib_Game_Framework_Re/Player.cpp:21-52 | as written: with hit points gone the frame ends in Death with the death motion and timer 0, also when it was already in Death; with hit points left the frame is just the state update; hit points unchanged |
| PlayerModel.IntendedFrameFacts | 3DActionSample/DxLib_Game_Framework_Re/Player.cpp:47-51 | as intended: with hit points gone the frame ends in Death; entering it selects the death motion and timer 0, while a player already in Death keeps the state update and its advanced timer; with hit points left the frame is just the state update |
| PlayerModel.DeathNeverCompletesAsWritten | 3DActionSample/DxLib_Game_Framework_Re/Player.cpp:47-51 | as written, a player in Death without hit points and a positive-length death motion stays in Death with timer 0 and never calls `die()` |
| PlayerModel.DeathCompletesAtMotionEnd | 3DActionSample/DxLib_Game_Framework_Re/Player.cpp:254-260 | as intended, a player in Death without hit points stays in Death and has called `die()` iff it had, or the timer plus the time of every frame but the last reached the motion end |
| PlayerModel.ReachableRun | 3DActionSample/DxLib_Game_Framework_Re/Player.cpp:21-52 | from any reachable state (full hit points, Normal with idle/walk or Slash1 with the slash motion, not dead) every run stays reachable and the intended and as-written `update` agree |
| PlayerModel.Player.constructor | 3DActionSample/DxLib_Game_Framework_Re/Player.cpp:8-18 | the fields are the initial state |
| PlayerModel.Player.Update | 3DActionSample/DxLib_Game_Framework_Re/Player.cpp:21-52 | the fields follow `PlayerFrameAsWritten`: the state update, then Death with the death motion and timer 0 whenever the hit points are gone |
| PlayerModel.Player.React | 3DActionSample/DxLib_Game_Framework_Re/Player.cpp:62-65 | a collision changes nothing |
| PlayerModel.Player.HandleMessage | 3DActionSample/DxLib_Game_Framework_Re/Player.cpp:68-71 | a message changes nothing |
| PlayerModel.Player.UpdateState | 3DActionSample/DxLib_Game_Framework_Re/Player.cpp:74-114 | the fields follow `UpdateStateStep` |
| PlayerModel.Player.ChangeState | 3DActionSample/DxLib_Game_Framework_Re/Player.cpp:117-122 | the fields follow `ChangeStateStep` |
| PlayerModel.Player.UpdateNormal | 3DActionSample/DxLib_Game_Framework_Re/Player.cpp:125-174 | the fields follow `NormalStep`, including the early return on attack |
| PlayerModel.Player.UpdateSlash1 | 3DActionSample/DxLib_Game_Framework_Re/Player.cpp:177-187 | the fields follow `RecoverStep` |
| PlayerModel.Player.UpdateSlash2 | 3DActionSample/DxLib_Game_Framework_Re/Player.cpp:190-199 | the fields follow `RecoverStep` |
| PlayerModel.Player.UpdateSlash3 | 3DActionSample/DxLib_Game_Framework_Re/Player.cpp:202-209 | the fields follow `RecoverStep` |
| PlayerModel.Player.UpdateDamage | 3DActionSample/DxLib_Game_Framework_Re/Player.cpp:212-219 | the fields follow `RecoverStep` |
| PlayerModel.Player.UpdateGuard | 3DActionSample/DxLib_Game_Framework_Re/Player.cpp:222-225 | nothing changes |
| PlayerModel.Player.UpdateBlocking | 3DActionSample/DxLib_Game_Framework_Re/Player.cpp:228-231 | nothing changes |
| PlayerModel.Player.UpdateGuardAttack | 3DActionSample/DxLib_Game_Framework_Re/Player.cpp:234-241 | nothing changes, with or without the motion finished |
| PlayerModel.Player.UpdateGuardEnd | 3DActionSample/DxLib_Game_Framework_Re/Player.cpp:244-251 | the fields follow `RecoverStep` |
| PlayerModel.Player.UpdateDeath | 3DActionSample/DxLib_Game_Framework_Re/Player.cpp:254-260 | the fields follow `DeathStep` |

`phase1_end` (GamePlayManager.cpp:266-270) is the predicate
`GamePlayManagerModel.Phase1End`. It is used by the contracts above. The event
message enumeration (src/ID/EventMessage.h:6-19) is the datatype
`EventMessages.EventMessage`, and `HP` (src/Actor/Player/PlayerParameter.h:8)
is `PlayerModel.HP`.

## Left out

- Drawing. All `draw` methods, the HUD gauges, the logo and the start and
  pause images, and `SetDrawBright` are rendering.
- The world itself:
  - `world_.initialize`, `update`, `clear`;
  - the field, camera and light added by the two scenes' `start`;
  - the player and manager actors that `SceneGamePlay::start` adds;
  - the listener registration.

  The gameplay scene's `update` reports whether it advanced the world; the
  title scene's unconditional `world_.update` is not recorded.
- Synchronous delivery of `send_message`. The world delivers a message to
  its listeners, including the gameplay scene and the manager, inside the
  sending call. The model records each message in the sender's `requests`
  instead, and the delivery is modelled separately on each receiver. The
  receivers of EnemyDestroy, StageClear and GameOver other than the two
  scenes and the manager (the enemies, among them) are not modelled; an
  EnemyDead one of them sends back reaches the manager in `Run` as a later
  `Deliver` event.
- `SceneGamePlay::next` and `SceneGamePlay::end`. They return `next_scene_`
  and clear the world, and `next_scene_` is declared and set in
  SceneGamePlay.h, which is not part of this model.
- The `Timer` class. A timer's value is the total time fed to it since
  `reset`, and `is_time_out` is a frame input. The two are not tied
  together, because the time-out length is set in GamePlayManager.h, which is
  not part of this model.
- `GamePad`, `PlayerInput` and `mesh_.motion_end_time()`. These are frame
  inputs. The mesh animation calls in `Player::update` (`change_motion`,
  `update`, `transform`) are not modelled.
- The player's 3-D movement. `rotation_`, `velocity_` and `position_` are
  float vector arithmetic over unseen types. The model keeps the direction
  chosen as a `Heading`.
- Motion ids are names (`MotionIdle`, `MotionWalk`, `MotionSlash1`,
  `MotionDeath`). Their numeric values are in an unseen header.
- `MathHelper::clamp` is not part of this model. It is taken to be the usual
  clamp, applied to ints; the float round trip is exact for these values.
- `float` timers are `real`, so rounding is not modelled.
- `enemy_defeated_` is an unbounded int, so 32-bit overflow after 2^31
  messages is not modelled.
- The enemies' own behaviour (Ghoul, DragonBoar) is not modelled: only their
  creation is recorded.

Two facts about the phase change in GamePlayManager.cpp that the model
follows:

- The phase changes when the EnemyDead count is *at least* `EnemyPopNo` *and*
  the phase-change timer is out.
- The skip key only sends EnemyDestroy, and it is not looked at in the frame
  that changes phase.

## Findings

| source | as written | input that shows it | evidently intended | confidence | as-written member | corrected member |
|---|---|---|---|---|---|---|
| 3DActionSample/DxLib_Game_Framework_Re/Player.cpp:47-51 | while `current_hp_ <= 0`, every `update` calls `change_state(Death, MOTION_DEATH)`, also when already in Death, so `state_timer_` is back to 0 before `death` next compares it with the motion end time | a player in Death with `current_hp_ == 0` and a death motion of positive length: `die()` is never called, however many frames pass | enter Death once; then the timer runs and `die()` is called when the death motion has played | not executed; latent, since nothing in this code lowers `current_hp_` | PlayerModel.DeathNeverCompletesAsWritten | PlayerModel.DeathCompletesAtMotionEnd |
