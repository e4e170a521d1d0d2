/** The gameplay phase manager (`GamePlayManager`): counts defeated enemies,
    latches the boss-defeated and player-dead flags, moves once from the minor
    enemy phase to the boss phase, and sends the stage-clear and game-over
    messages behind timers, while ramping the screen brightness.

    The pure functions below are the specification of one call each; the class
    at the end is the manager itself and is proved to follow them. */
module GamePlayManagerModel {
  import opened EventMessages
  import opened Effects
  import opened MathHelper

  datatype GamePlayPhase = Phase1 | Phase2

  /** Brightness limit of the fade counter. */
  const FadeMax := 255
  /** Brightness added per Phase1 frame while fading in. */
  const FadeInStep := 4

  /** The three minor enemies created when the game starts, and the boss. */
  const GhoulA := AddEnemy(Ghoul, 0.0, 0.0, -50.0, 180.0)
  const GhoulB := AddEnemy(Ghoul, 60.0, 0.0, -35.0, 160.0)
  const GhoulC := AddEnemy(Ghoul, -60.0, 0.0, -35.0, 200.0)
  const BossSpawn := AddEnemy(DragonBoar, 0.0, 0.0, -50.0, 180.0)

  /** The manager's fields. A timer is represented by the total time fed to its
      `update` since its last `reset`; whether it has timed out is an input. */
  datatype ManagerState = ManagerState(
    phase: GamePlayPhase,
    enemyDefeated: int,
    bossDefeated: bool,
    phase2End: bool,
    playerDead: bool,
    gameEnd: bool,
    fadeCounter: int,
    phaseChangeTimer: real,
    gameoverSceneTimer: real,
    gameclearSceneTimer: real)

  /** What one frame reads from outside: the frame time, the skip key
      (`PlayerInput::skip_phase1`) and the answers of the three timers'
      `is_time_out`. */
  datatype FrameInput = FrameInput(
    deltaTime: real,
    skipPhase1: bool,
    phaseChangeTimeOut: bool,
    gameclearTimeOut: bool,
    gameoverTimeOut: bool)

  /** A new state together with the requests made on the way. */
  datatype Stepped = Stepped(state: ManagerState, out: seq<Effect>)

  /** The fields after construction and `game_start`. */
  function Initial(): (s: ManagerState)
    ensures s.phase == Phase1 && s.enemyDefeated == 0 && s.fadeCounter == 0
    ensures !s.bossDefeated && !s.phase2End && !s.playerDead && !s.gameEnd
    ensures s.phaseChangeTimer == 0.0 && s.gameoverSceneTimer == 0.0 && s.gameclearSceneTimer == 0.0
  {
    ManagerState(Phase1, 0, false, false, false, false, 0, 0.0, 0.0, 0.0)
  }

  /** The requests of `game_start`: three minor enemies, then the stage music. */
  function GameStartRequests(): (out: seq<Effect>)
    ensures Spawned(out, Ghoul) == 3 && Spawned(out, DragonBoar) == 0
    ensures Messages(out) == []
    ensures out[|out| - 1] == PlayBgm(BgmStage)
  {
    Single(GhoulA); Single(GhoulB); Single(GhoulC); Single(PlayBgm(BgmStage));
    Concat([GhoulC], [PlayBgm(BgmStage)]);
    Concat([GhoulB], [GhoulC, PlayBgm(BgmStage)]);
    Concat([GhoulA], [GhoulB, GhoulC, PlayBgm(BgmStage)]);
    [GhoulA, GhoulB, GhoulC, PlayBgm(BgmStage)]
  }

  /** `phase1_end`: every minor enemy has been defeated. */
  predicate Phase1End(s: ManagerState, enemyPopNo: int)
  {
    s.enemyDefeated >= enemyPopNo
  }

  /** `handle_message`: the defeat counter and the two latches, nothing else. */
  function Receive(s: ManagerState, message: EventMessage): (r: ManagerState)
    ensures r.enemyDefeated == s.enemyDefeated + (if message == EnemyDead then 1 else 0)
    ensures r.bossDefeated <==> s.bossDefeated || message == BossDead
    ensures r.playerDead <==> s.playerDead || message == PlayerDead
    ensures r.(enemyDefeated := s.enemyDefeated, bossDefeated := s.bossDefeated, playerDead := s.playerDead) == s
  {
    match message
    case EnemyDead => s.(enemyDefeated := s.enemyDefeated + 1)
    case BossDead => s.(bossDefeated := true)
    case PlayerDead => s.(playerDead := true)
    case _ => s
  }

  /** `change_phase`: boss music, one boss, and the boss phase. */
  function ChangePhaseStep(s: ManagerState): (r: Stepped)
    ensures r.state == s.(phase := Phase2)
    ensures Spawned(r.out, DragonBoar) == 1 && Spawned(r.out, Ghoul) == 0
    ensures Messages(r.out) == []
  {
    Single(PlayBgm(BgmBoss)); Single(BossSpawn);
    Concat([PlayBgm(BgmBoss)], [BossSpawn]);
    Stepped(s.(phase := Phase2), [PlayBgm(BgmBoss), BossSpawn])
  }

  /** `skip_phase1`: ask the world to remove every enemy. */
  function SkipPhase1Requests(): (out: seq<Effect>)
    ensures Messages(out) == [EnemyDestroy]
    ensures Spawned(out, DragonBoar) == 0 && Spawned(out, Ghoul) == 0
  {
    Single(SendMessage(EnemyDestroy));
    [SendMessage(EnemyDestroy)]
  }

  /** `phase1`: fade in; once every minor enemy is down, stop the music and
      wait for the phase-change timer, then change phase and leave at once;
      otherwise poll the skip key. */
  function Phase1Frame(s: ManagerState, input: FrameInput, enemyPopNo: int): Stepped
  {
    var faded := if s.fadeCounter < FadeMax then s.(fadeCounter := s.fadeCounter + FadeInStep) else s;
    var skip := if input.skipPhase1 then SkipPhase1Requests() else [];
    if Phase1End(faded, enemyPopNo) then
      if input.phaseChangeTimeOut then
        var c := ChangePhaseStep(faded);
        Stepped(c.state, [StopBgm] + c.out)
      else
        Stepped(faded.(phaseChangeTimer := faded.phaseChangeTimer + input.deltaTime), [StopBgm] + skip)
    else
      Stepped(faded, skip)
  }

  /** What a `phase1` frame does: the fade rises by one step below the limit;
      the boss phase starts, with one boss, exactly when every minor enemy is
      down and the phase-change timer has run out; the timer runs only while
      it is waited on; the skip request goes out unless the phase changed. */
  lemma Phase1FrameFacts(s: ManagerState, input: FrameInput, enemyPopNo: int, r: Stepped)
    requires r == Phase1Frame(s, input, enemyPopNo)
    ensures r.state.fadeCounter == if s.fadeCounter < FadeMax then s.fadeCounter + FadeInStep else s.fadeCounter
    ensures r.state.phase == if Phase1End(s, enemyPopNo) && input.phaseChangeTimeOut then Phase2 else s.phase
    ensures r.state.phaseChangeTimer != s.phaseChangeTimer ==> Phase1End(s, enemyPopNo) && !input.phaseChangeTimeOut
    ensures r.state.enemyDefeated == s.enemyDefeated && r.state.bossDefeated == s.bossDefeated
    ensures r.state.playerDead == s.playerDead && r.state.phase2End == s.phase2End && r.state.gameEnd == s.gameEnd
    ensures r.state.gameoverSceneTimer == s.gameoverSceneTimer && r.state.gameclearSceneTimer == s.gameclearSceneTimer
    ensures Spawned(r.out, DragonBoar) == (if Phase1End(s, enemyPopNo) && input.phaseChangeTimeOut then 1 else 0)
    ensures Spawned(r.out, Ghoul) == 0
    ensures Messages(r.out) ==
              if input.skipPhase1 && !(Phase1End(s, enemyPopNo) && input.phaseChangeTimeOut) then [EnemyDestroy] else []
  {
    var faded := if s.fadeCounter < FadeMax then s.(fadeCounter := s.fadeCounter + FadeInStep) else s;
    var skip := if input.skipPhase1 then SkipPhase1Requests() else [];
    Single(StopBgm);
    if Phase1End(faded, enemyPopNo) {
      if input.phaseChangeTimeOut {
        Concat([StopBgm], ChangePhaseStep(faded).out);
      } else {
        Concat([StopBgm], skip);
        assert [] + Messages(skip) == Messages(skip);
      }
    }
  }

  /** `phase2`: once the boss is down, stop the music and, when the clear timer
      has run out, send StageClear; otherwise keep feeding the clear timer. */
  function Phase2Frame(s: ManagerState, input: FrameInput): Stepped
  {
    if s.bossDefeated then
      if input.gameclearTimeOut then
        Stepped(s, [StopBgm, SendMessage(StageClear)])
      else
        Stepped(s.(gameclearSceneTimer := s.gameclearSceneTimer + input.deltaTime), [StopBgm])
    else
      Stepped(s, [])
  }

  /** What a `phase2` frame does: StageClear goes out exactly when the boss is
      down and the clear timer has run out; the clear timer runs only while it
      is waited on; nothing else changes and nothing is spawned. */
  lemma Phase2FrameFacts(s: ManagerState, input: FrameInput, r: Stepped)
    requires r == Phase2Frame(s, input)
    ensures r.state.gameclearSceneTimer != s.gameclearSceneTimer ==> s.bossDefeated && !input.gameclearTimeOut
    ensures r.state.(gameclearSceneTimer := s.gameclearSceneTimer) == s
    ensures Spawned(r.out, DragonBoar) == 0 && Spawned(r.out, Ghoul) == 0
    ensures Messages(r.out) == if s.bossDefeated && input.gameclearTimeOut then [StageClear] else []
  {
    Single(StopBgm); Single(SendMessage(StageClear));
    Concat([StopBgm], [SendMessage(StageClear)]);
  }

  /** The requests of the game-over block of `update_phase`. */
  function GameOverRequests(input: FrameInput): (out: seq<Effect>)
    ensures Spawned(out, DragonBoar) == 0 && Spawned(out, Ghoul) == 0
    ensures Messages(out) == if input.gameoverTimeOut then [GameOver] else []
  {
    Single(StopBgm); Single(SendMessage(GameOver));
    Concat([StopBgm], [SendMessage(GameOver)]);
    if input.gameoverTimeOut then [StopBgm, SendMessage(GameOver)] else [StopBgm]
  }

  /** `update_phase`: the handler of the current phase, then, in either phase,
      the game-over countdown once the player is dead. */
  function UpdatePhaseFrame(s: ManagerState, input: FrameInput, enemyPopNo: int): Stepped
  {
    var p := if s.phase == Phase1 then Phase1Frame(s, input, enemyPopNo) else Phase2Frame(s, input);
    if p.state.playerDead then
      Stepped(p.state.(gameoverSceneTimer := p.state.gameoverSceneTimer + input.deltaTime), p.out + GameOverRequests(input))
    else
      p
  }

  /** What one `update_phase` frame does: the phase moves one way, exactly when
      phase 1 is over and its timer has run out, adding one boss; the messages
      of the handlers, in order; the game-over timer runs only once the player
      is dead. */
  lemma UpdatePhaseFrameFacts(s: ManagerState, input: FrameInput, enemyPopNo: int, r: Stepped)
    requires r == UpdatePhaseFrame(s, input, enemyPopNo)
    ensures r.state.phase != s.phase <==> s.phase == Phase1 && Phase1End(s, enemyPopNo) && input.phaseChangeTimeOut
    ensures s.phase == Phase2 ==> r.state.phase == Phase2
    ensures r.state.gameoverSceneTimer != s.gameoverSceneTimer ==> s.playerDead
    ensures Spawned(r.out, DragonBoar) == (if r.state.phase != s.phase then 1 else 0)
    ensures Spawned(r.out, Ghoul) == 0
    ensures Messages(r.out) ==
              (if s.phase == Phase1 && input.skipPhase1 && !(Phase1End(s, enemyPopNo) && input.phaseChangeTimeOut)
               then [EnemyDestroy] else [])
              + (if s.phase == Phase2 && s.bossDefeated && input.gameclearTimeOut then [StageClear] else [])
              + (if s.playerDead && input.gameoverTimeOut then [GameOver] else [])
  {
    var p := if s.phase == Phase1 then Phase1Frame(s, input, enemyPopNo) else Phase2Frame(s, input);
    if s.phase == Phase1 {
      Phase1FrameFacts(s, input, enemyPopNo, p);
    } else {
      Phase2FrameFacts(s, input, p);
    }
    var skipped := if s.phase == Phase1 && input.skipPhase1 && !(Phase1End(s, enemyPopNo) && input.phaseChangeTimeOut)
                   then [EnemyDestroy] else [];
    var cleared := if s.phase == Phase2 && s.bossDefeated && input.gameclearTimeOut then [StageClear] else [];
    assert Messages(p.out) == skipped + cleared by {
      if s.phase == Phase1 { assert cleared == [] && skipped + [] == skipped; }
      else { assert skipped == [] && [] + cleared == cleared; }
    }
    if p.state.playerDead {
      Concat(p.out, GameOverRequests(input));
    } else {
      assert skipped + cleared + [] == skipped + cleared;
    }
  }

  /** `UpdatePhaseFrame` in terms of the result of the phase handler. */
  lemma UpdatePhaseFrameIs(s: ManagerState, input: FrameInput, enemyPopNo: int, p: Stepped)
    requires p == if s.phase == Phase1 then Phase1Frame(s, input, enemyPopNo) else Phase2Frame(s, input)
    ensures p.state.playerDead ==>
              UpdatePhaseFrame(s, input, enemyPopNo)
              == Stepped(p.state.(gameoverSceneTimer := p.state.gameoverSceneTimer + input.deltaTime),
                         p.out + GameOverRequests(input))
    ensures !p.state.playerDead ==> UpdatePhaseFrame(s, input, enemyPopNo) == p
  {
  }

  /** `update`: one frame of the manager, after which the fade counter is
      clamped to the brightness range. */
  function Frame(s: ManagerState, input: FrameInput, enemyPopNo: int): Stepped
  {
    var u := UpdatePhaseFrame(s, input, enemyPopNo);
    Stepped(u.state.(fadeCounter := Clamp(u.state.fadeCounter, 0, FadeMax)), u.out)
  }

  /** What one `update` frame does. */
  lemma FrameFacts(s: ManagerState, input: FrameInput, enemyPopNo: int, r: Stepped)
    requires r == Frame(s, input, enemyPopNo)
    // brightness: always in range; in Phase1 it rises by 4 until it reaches the limit
    ensures 0 <= r.state.fadeCounter <= FadeMax
    ensures s.phase == Phase1 && 0 <= s.fadeCounter ==>
              r.state.fadeCounter == if s.fadeCounter + FadeInStep < FadeMax then s.fadeCounter + FadeInStep else FadeMax
    ensures s.phase == Phase2 && 0 <= s.fadeCounter <= FadeMax ==> r.state.fadeCounter == s.fadeCounter
    // only messages change the counter and the latches
    ensures r.state.enemyDefeated == s.enemyDefeated && r.state.bossDefeated == s.bossDefeated
    ensures r.state.playerDead == s.playerDead && r.state.phase2End == s.phase2End && r.state.gameEnd == s.gameEnd
    // the phase moves one way, exactly when phase 1 is over and its timer has run out, adding one boss
    ensures s.phase == Phase2 ==> r.state.phase == Phase2
    ensures r.state.phase != s.phase <==> s.phase == Phase1 && Phase1End(s, enemyPopNo) && input.phaseChangeTimeOut
    ensures Spawned(r.out, DragonBoar) == (if r.state.phase != s.phase then 1 else 0)
    ensures Spawned(r.out, Ghoul) == 0
    // the messages sent, in order, each exactly under its condition
    ensures Messages(r.out) ==
              (if s.phase == Phase1 && input.skipPhase1 && !(Phase1End(s, enemyPopNo) && input.phaseChangeTimeOut)
               then [EnemyDestroy] else [])
              + (if s.phase == Phase2 && s.bossDefeated && input.gameclearTimeOut then [StageClear] else [])
              + (if s.playerDead && input.gameoverTimeOut then [GameOver] else [])
    // each timer is fed only while it is being waited on
    ensures r.state.phaseChangeTimer != s.phaseChangeTimer ==> s.phase == Phase1 && Phase1End(s, enemyPopNo)
    ensures r.state.gameclearSceneTimer != s.gameclearSceneTimer ==> s.phase == Phase2 && s.bossDefeated
    ensures r.state.gameoverSceneTimer != s.gameoverSceneTimer ==> s.playerDead
  {
    var u := UpdatePhaseFrame(s, input, enemyPopNo);
    UpdatePhaseFrameFacts(s, input, enemyPopNo, u);
    if s.phase == Phase1 {
      Phase1FrameFacts(s, input, enemyPopNo, Phase1Frame(s, input, enemyPopNo));
    } else {
      Phase2FrameFacts(s, input, Phase2Frame(s, input));
    }
  }

  /** One thing that can happen to the manager between two looks at it: a frame
      of `update`, or a message delivered to `handle_message`. */
  datatype ManagerEvent = Tick(input: FrameInput) | Deliver(message: EventMessage)

  function Apply(s: ManagerState, ev: ManagerEvent, enemyPopNo: int): Stepped
  {
    match ev
    case Tick(input) => Frame(s, input, enemyPopNo)
    case Deliver(message) => Stepped(Receive(s, message), [])
  }

  /** The manager driven through a sequence of events, with every request made. */
  function Run(s: ManagerState, evs: seq<ManagerEvent>, enemyPopNo: int): Stepped
    decreases |evs|
  {
    if evs == [] then Stepped(s, [])
    else
      var a := Apply(s, evs[0], enemyPopNo);
      var b := Run(a.state, evs[1..], enemyPopNo);
      Stepped(b.state, a.out + b.out)
  }

  /** 0 before the boss phase, 1 in it. */
  function PhaseRank(p: GamePlayPhase): nat
  {
    if p == Phase1 then 0 else 1
  }

  /** One event: only a message moves the defeat counter or a latch; only a
      frame moves the phase, adding the boss as it does; the brightness never
      falls; StageClear and GameOver go out only with their conditions met. */
  lemma ApplyFacts(s: ManagerState, ev: ManagerEvent, enemyPopNo: int, a: Stepped)
    requires a == Apply(s, ev, enemyPopNo)
    ensures a.state.enemyDefeated == s.enemyDefeated + (if ev == Deliver(EnemyDead) then 1 else 0)
    ensures a.state.bossDefeated <==> s.bossDefeated || ev == Deliver(BossDead)
    ensures a.state.playerDead <==> s.playerDead || ev == Deliver(PlayerDead)
    ensures s.phase == Phase2 ==> a.state.phase == Phase2
    ensures a.state.phase != s.phase ==> Phase1End(s, enemyPopNo)
    ensures Spawned(a.out, DragonBoar) + PhaseRank(s.phase) == PhaseRank(a.state.phase)
    ensures Spawned(a.out, Ghoul) == 0
    ensures 0 <= s.fadeCounter <= FadeMax ==> s.fadeCounter <= a.state.fadeCounter <= FadeMax
    ensures StageClear in Messages(a.out) ==> a.state.phase == Phase2 && a.state.bossDefeated
    ensures GameOver in Messages(a.out) ==> a.state.playerDead
  {
    if ev.Tick? {
      FrameFacts(s, ev.input, enemyPopNo, a);
    }
  }

  /** Over any sequence of frames and messages, the defeat counter is the
      number of EnemyDead messages and each latch is set exactly by its message. */
  lemma {:induction false} RunCounts(s: ManagerState, evs: seq<ManagerEvent>, enemyPopNo: int)
    decreases |evs|
    ensures Run(s, evs, enemyPopNo).state.enemyDefeated == s.enemyDefeated + multiset(evs)[Deliver(EnemyDead)]
    ensures Run(s, evs, enemyPopNo).state.bossDefeated <==> s.bossDefeated || Deliver(BossDead) in evs
    ensures Run(s, evs, enemyPopNo).state.playerDead <==> s.playerDead || Deliver(PlayerDead) in evs
  {
    if evs != [] {
      var a := Apply(s, evs[0], enemyPopNo);
      ApplyFacts(s, evs[0], enemyPopNo, a);
      RunCounts(a.state, evs[1..], enemyPopNo);
      assert Run(s, evs, enemyPopNo).state == Run(a.state, evs[1..], enemyPopNo).state;
      assert evs == [evs[0]] + evs[1..];
      assert multiset(evs) == multiset([evs[0]]) + multiset(evs[1..]);
    }
  }

  /** Over any sequence of frames and messages the phase never goes back, the
      boss is added exactly once on the way into Phase2 and never otherwise, no
      minor enemy is added, and Phase2 is only entered once phase 1 is over. */
  lemma {:induction false} RunPhases(s: ManagerState, evs: seq<ManagerEvent>, enemyPopNo: int)
    decreases |evs|
    ensures s.phase == Phase2 ==> Run(s, evs, enemyPopNo).state.phase == Phase2
    ensures Spawned(Run(s, evs, enemyPopNo).out, DragonBoar) + PhaseRank(s.phase)
              == PhaseRank(Run(s, evs, enemyPopNo).state.phase)
    ensures Spawned(Run(s, evs, enemyPopNo).out, Ghoul) == 0
    ensures s.phase == Phase1 && Run(s, evs, enemyPopNo).state.phase == Phase2 ==>
              Phase1End(Run(s, evs, enemyPopNo).state, enemyPopNo)
  {
    if evs != [] {
      var a := Apply(s, evs[0], enemyPopNo);
      ApplyFacts(s, evs[0], enemyPopNo, a);
      RunPhases(a.state, evs[1..], enemyPopNo);
      RunCounts(a.state, evs[1..], enemyPopNo);
      Concat(a.out, Run(a.state, evs[1..], enemyPopNo).out);
    }
  }

  /** The brightness, once in range, stays in range and never falls. */
  lemma {:induction false} RunFade(s: ManagerState, evs: seq<ManagerEvent>, enemyPopNo: int)
    decreases |evs|
    requires 0 <= s.fadeCounter <= FadeMax
    ensures s.fadeCounter <= Run(s, evs, enemyPopNo).state.fadeCounter <= FadeMax
  {
    if evs != [] {
      var a := Apply(s, evs[0], enemyPopNo);
      ApplyFacts(s, evs[0], enemyPopNo, a);
      RunFade(a.state, evs[1..], enemyPopNo);
    }
  }

  /** StageClear is only ever sent in Phase2 after the boss has died, and
      GameOver only after the player has died. */
  lemma {:induction false} RunMessages(s: ManagerState, evs: seq<ManagerEvent>, enemyPopNo: int)
    decreases |evs|
    ensures StageClear in Messages(Run(s, evs, enemyPopNo).out) ==>
              Run(s, evs, enemyPopNo).state.phase == Phase2 && Run(s, evs, enemyPopNo).state.bossDefeated
    ensures GameOver in Messages(Run(s, evs, enemyPopNo).out) ==> Run(s, evs, enemyPopNo).state.playerDead
  {
    if evs != [] {
      var a := Apply(s, evs[0], enemyPopNo);
      ApplyFacts(s, evs[0], enemyPopNo, a);
      RunMessages(a.state, evs[1..], enemyPopNo);
      RunPhases(a.state, evs[1..], enemyPopNo);
      RunCounts(a.state, evs[1..], enemyPopNo);
      Concat(a.out, Run(a.state, evs[1..], enemyPopNo).out);
    }
  }

  /** A whole game as the manager sees it: construction adds three minor
      enemies; afterwards one boss has been added if the manager is in Phase2
      and none otherwise, and Phase2 means that at least `enemyPopNo` EnemyDead
      messages have been delivered. */
  lemma GameFromStart(evs: seq<ManagerEvent>, enemyPopNo: int)
    ensures Spawned(GameStartRequests() + Run(Initial(), evs, enemyPopNo).out, Ghoul) == 3
    ensures Spawned(GameStartRequests() + Run(Initial(), evs, enemyPopNo).out, DragonBoar)
              == (if Run(Initial(), evs, enemyPopNo).state.phase == Phase2 then 1 else 0)
    ensures Run(Initial(), evs, enemyPopNo).state.phase == Phase2 ==> multiset(evs)[Deliver(EnemyDead)] >= enemyPopNo
    ensures 0 <= Run(Initial(), evs, enemyPopNo).state.fadeCounter <= FadeMax
  {
    RunCounts(Initial(), evs, enemyPopNo);
    RunPhases(Initial(), evs, enemyPopNo);
    RunFade(Initial(), evs, enemyPopNo);
    Concat(GameStartRequests(), Run(Initial(), evs, enemyPopNo).out);
  }

  /** The manager (`GamePlayManager`). `requests` is everything it has asked of
      the world and the sound system, oldest first. */
  class GamePlayManager {
    const enemyPopNo: int
    var phase: GamePlayPhase
    var enemyDefeated: int
    var bossDefeated: bool
    var phase2End: bool
    var playerDead: bool
    var gameEnd: bool
    var fadeCounter: int
    var phaseChangeTimer: real
    var gameoverSceneTimer: real
    var gameclearSceneTimer: real
    var requests: seq<Effect>

    function State(): ManagerState
      reads this
    {
      ManagerState(phase, enemyDefeated, bossDefeated, phase2End, playerDead, gameEnd,
                   fadeCounter, phaseChangeTimer, gameoverSceneTimer, gameclearSceneTimer)
    }

    /** The constructor: initial fields, then `game_start`. */
    constructor (enemyPopNo: int)
      ensures this.enemyPopNo == enemyPopNo
      ensures State() == Initial()
      ensures requests == GameStartRequests()
    {
      this.enemyPopNo := enemyPopNo;
      phase := Phase1;
      enemyDefeated := 0;
      bossDefeated := false;
      phase2End := false;
      playerDead := false;
      gameEnd := false;
      fadeCounter := 0;
      requests := [];
      new;
      GameStart();
    }

    /** `game_start`: reset the timers, add three minor enemies, start the music. */
    method GameStart()
      modifies this
      ensures State() == old(State()).(phaseChangeTimer := 0.0, gameoverSceneTimer := 0.0, gameclearSceneTimer := 0.0)
      ensures requests == old(requests) + GameStartRequests()
    {
      phaseChangeTimer := 0.0;
      gameoverSceneTimer := 0.0;
      gameclearSceneTimer := 0.0;
      requests := requests + [GhoulA];
      requests := requests + [GhoulB];
      requests := requests + [GhoulC];
      requests := requests + [PlayBgm(BgmStage)];
    }

    /** `update`. */
    method Update(input: FrameInput)
      modifies this
      ensures State() == Frame(old(State()), input, enemyPopNo).state
      ensures requests == old(requests) + Frame(old(State()), input, enemyPopNo).out
    {
      UpdatePhase(input);
      fadeCounter := Clamp(fadeCounter, 0, FadeMax);
    }

    /** `handle_message`. */
    method HandleMessage(message: EventMessage)
      modifies this
      ensures State() == Receive(old(State()), message)
      ensures requests == old(requests)
    {
      match message {
        case EnemyDead => enemyDefeated := enemyDefeated + 1;
        case BossDead => bossDefeated := true;
        case PlayerDead => playerDead := true;
        case _ =>
      }
    }

    /** `update_phase`. */
    method UpdatePhase(input: FrameInput)
      modifies this
      ensures State() == UpdatePhaseFrame(old(State()), input, enemyPopNo).state
      ensures requests == old(requests) + UpdatePhaseFrame(old(State()), input, enemyPopNo).out
    {
      ghost var s0, r0 := State(), requests;
      ghost var p: Stepped;
      if phase == Phase1 {
        p := Phase1Frame(s0, input, enemyPopNo);
        UpdatePhase1(input);
      } else {
        p := Phase2Frame(s0, input);
        UpdatePhase2(input);
      }
      UpdatePhaseFrameIs(s0, input, enemyPopNo, p);
      if playerDead {
        ghost var g := GameOverRequests(input);
        requests := requests + [StopBgm];
        if input.gameoverTimeOut {
          requests := requests + [SendMessage(GameOver)];
        }
        assert requests == r0 + (p.out + g) by {
          assert requests == (r0 + p.out) + g;
        }
        gameoverSceneTimer := gameoverSceneTimer + input.deltaTime;
      }
    }

    /** `change_phase`. */
    method ChangePhase()
      modifies this
      ensures State() == ChangePhaseStep(old(State())).state
      ensures requests == old(requests) + ChangePhaseStep(old(State())).out
    {
      requests := requests + [PlayBgm(BgmBoss)];
      requests := requests + [BossSpawn];
      phase := Phase2;
    }

    /** `phase1`. */
    method UpdatePhase1(input: FrameInput)
      modifies this
      ensures State() == Phase1Frame(old(State()), input, enemyPopNo).state
      ensures requests == old(requests) + Phase1Frame(old(State()), input, enemyPopNo).out
    {
      if fadeCounter < FadeMax {
        fadeCounter := fadeCounter + FadeInStep;
      }
      if Phase1End(State(), enemyPopNo) {
        requests := requests + [StopBgm];
        if input.phaseChangeTimeOut {
          ChangePhase();
          return;
        }
        phaseChangeTimer := phaseChangeTimer + input.deltaTime;
      }
      if input.skipPhase1 {
        SkipPhase1();
      }
    }

    /** `phase2`. */
    method UpdatePhase2(input: FrameInput)
      modifies this
      ensures State() == Phase2Frame(old(State()), input).state
      ensures requests == old(requests) + Phase2Frame(old(State()), input).out
    {
      if bossDefeated {
        requests := requests + [StopBgm];
        if input.gameclearTimeOut {
          requests := requests + [SendMessage(StageClear)];
          return;
        }
        gameclearSceneTimer := gameclearSceneTimer + input.deltaTime;
      }
    }

    /** `skip_phase1`. */
    method SkipPhase1()
      modifies this
      ensures State() == old(State())
      ensures requests == old(requests) + SkipPhase1Requests()
    {
      requests := requests + [SendMessage(EnemyDestroy)];
    }
  }
}
