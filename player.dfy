/** The player actor's state machine (`Player`): a closed set of states, one
    handler per state chosen every frame, a state timer that `change_state`
    resets, attack and recovery states that fall back to the normal state once
    their motion has played, and a forced Death state once the hit points are
    gone.

    The mesh, its motions and the 3-D movement are outside the model: the
    length of the current motion (`motion_end_time`) and the pad are read as
    frame inputs, a motion is a name, and the velocity is kept as the pair of
    directions it was built from. */
module PlayerModel {
  import EventMessages

  /** The player's states, as dispatched by `update_state`. */
  datatype PlayerState = Normal | Slash1 | Slash2 | Slash3 | Damage | GuardBegin | Blocking | GuardAttack | GuardEnd | Death

  /** The mesh motions Player.cpp selects. */
  datatype Motion = MotionIdle | MotionWalk | MotionSlash1 | MotionDeath

  /** Hit points of a new player (`PlayerParameter::HP`). */
  const HP := 100

  /** The direction of the last walk: `forward` is 1 forward, -1 back, 0 none;
      `left` is 1 left, -1 right, 0 none. The velocity of `normal` is
      `WalkSpeed` times these along the player's forward and left axes. */
  datatype Heading = Heading(forward: int, left: int)

  datatype PlayerData = PlayerData(
    state: PlayerState,
    motion: Motion,
    stateTimer: real,
    hp: int,
    heading: Heading,
    died: bool)   // `die()` has been called

  /** What one frame reads from outside: the frame time, the attack trigger
      and the four direction keys of the pad, and the length of the motion the
      mesh is playing. */
  datatype PadInput = PadInput(
    deltaTime: real,
    attack: bool,
    up: bool,
    down: bool,
    left: bool,
    right: bool,
    motionEndTime: real)

  /** The fields after construction. */
  function Initial(): (p: PlayerData)
    ensures p.state == Normal && p.motion == MotionIdle && p.stateTimer == 0.0
    ensures p.hp == HP && p.heading == Heading(0, 0) && !p.died
  {
    PlayerData(Normal, MotionIdle, 0.0, HP, Heading(0, 0), false)
  }

  /** `change_state`: the new state and motion, and a fresh timer, whatever
      the state was before. */
  function ChangeStateStep(p: PlayerData, state: PlayerState, motion: Motion): (r: PlayerData)
    ensures r.state == state && r.motion == motion && r.stateTimer == 0.0
    ensures r.hp == p.hp && r.heading == p.heading && r.died == p.died
  {
    p.(state := state, motion := motion, stateTimer := 0.0)
  }

  /** `normal`: the attack trigger starts the first slash; otherwise the
      player walks in the direction held, forward winning over back and left
      over right, and the state is entered again with the walk or idle
      motion. */
  function NormalStep(p: PlayerData, input: PadInput): (r: PlayerData)
    ensures input.attack ==> r == ChangeStateStep(p, Slash1, MotionSlash1)
    ensures !input.attack ==> r.state == Normal && r.stateTimer == 0.0
    ensures !input.attack ==>
              (r.motion == MotionWalk <==> input.up || input.down || input.left || input.right)
    ensures !input.attack ==> r.motion == MotionWalk || r.motion == MotionIdle
    ensures !input.attack ==> r.heading.forward == if input.up then 1 else if input.down then -1 else 0
    ensures !input.attack ==> r.heading.left == if input.left then 1 else if input.right then -1 else 0
    ensures r.hp == p.hp && r.died == p.died
  {
    if input.attack then
      ChangeStateStep(p, Slash1, MotionSlash1)
    else
      var forward := if input.up then 1 else if input.down then -1 else 0;
      var left := if input.left then 1 else if input.right then -1 else 0;
      var motion := if forward != 0 || left != 0 then MotionWalk else MotionIdle;
      ChangeStateStep(p.(heading := Heading(forward, left)), Normal, motion)
  }

  /** `slash1`, `slash2`, `slash3`, `damage` and `guard_end`: nothing until
      the motion has played, then the normal handler. */
  function RecoverStep(p: PlayerData, input: PadInput): (r: PlayerData)
    ensures p.stateTimer < input.motionEndTime ==> r == p
    ensures p.stateTimer >= input.motionEndTime ==> r == NormalStep(p, input)
  {
    if p.stateTimer >= input.motionEndTime then NormalStep(p, input) else p
  }

  /** `death`: once the death motion has played, `die()`. */
  function DeathStep(p: PlayerData, input: PadInput): (r: PlayerData)
    ensures r.died <==> p.died || p.stateTimer >= input.motionEndTime
    ensures r.(died := p.died) == p
  {
    if p.stateTimer >= input.motionEndTime then p.(died := true) else p
  }

  /** The handler `update_state` runs for the current state. */
  function Handler(p: PlayerData, input: PadInput): PlayerData
  {
    match p.state
    case Normal => NormalStep(p, input)
    case Slash1 => RecoverStep(p, input)
    case Slash2 => RecoverStep(p, input)
    case Slash3 => RecoverStep(p, input)
    case Damage => RecoverStep(p, input)
    case GuardBegin => p
    case Blocking => p
    case GuardAttack => p  // `guard_attack` only ever calls the empty `guard`
    case GuardEnd => RecoverStep(p, input)
    case Death => DeathStep(p, input)
  }

  /** `update_state`: exactly one handler, then the frame time is added to
      the state timer. */
  function UpdateStateStep(p: PlayerData, input: PadInput): PlayerData
  {
    var h := Handler(p, input);
    h.(stateTimer := h.stateTimer + input.deltaTime)
  }

  /** What one `update_state` does. The hit points never change. The guard
      states never leave themselves, and nor does a recovery state before its
      motion has played. A recovery state whose motion has played, and the
      normal state, act as the normal handler: the first slash on the attack
      trigger, the normal state otherwise. A state change always restarts the
      timer, so after a change the timer holds just this frame's time; without
      one, the timer either advanced by the frame time or was restarted by
      the normal state entering itself again. Death never leaves itself and
      calls `die()` once its motion has played. */
  lemma UpdateStateFacts(p: PlayerData, input: PadInput, r: PlayerData)
    requires r == UpdateStateStep(p, input)
    ensures r.hp == p.hp
    ensures p.state in {GuardBegin, Blocking, GuardAttack} ==>
              r == p.(stateTimer := p.stateTimer + input.deltaTime)
    ensures p.state in {Slash1, Slash2, Slash3, Damage, GuardEnd} && p.stateTimer < input.motionEndTime ==>
              r == p.(stateTimer := p.stateTimer + input.deltaTime)
    ensures p.state == Normal || (p.state in {Slash1, Slash2, Slash3, Damage, GuardEnd} && p.stateTimer >= input.motionEndTime) ==>
              r.state == (if input.attack then Slash1 else Normal) && r.stateTimer == input.deltaTime
    ensures r.state != p.state ==> r.stateTimer == input.deltaTime
    ensures r.stateTimer == p.stateTimer + input.deltaTime || r.stateTimer == input.deltaTime
    ensures p.state == Death ==> r.state == Death && (r.died <==> p.died || p.stateTimer >= input.motionEndTime)
    ensures p.state != Death ==> r.died == p.died
  {
  }

  /** `update` as written: after the state update, a player without hit
      points is put into Death again on every frame, even when already in it. */
  function PlayerFrameAsWritten(p: PlayerData, input: PadInput): PlayerData
  {
    var q := UpdateStateStep(p, input);
    if q.hp <= 0 then ChangeStateStep(q, Death, MotionDeath) else q
  }

  /** `update` as intended: a player without hit points enters Death once,
      and then stays in it while the death motion plays. */
  function PlayerFrame(p: PlayerData, input: PadInput): PlayerData
  {
    var q := UpdateStateStep(p, input);
    if q.hp <= 0 && q.state != Death then ChangeStateStep(q, Death, MotionDeath) else q
  }

  /** What one `update` does as written: the state update, after which a
      player without hit points is put into Death with the death motion and a
      restarted timer, whatever state it was in; a player with hit points
      left is only updated. */
  lemma PlayerFrameFacts(p: PlayerData, input: PadInput, r: PlayerData)
    requires r == PlayerFrameAsWritten(p, input)
    ensures p.hp <= 0 ==> r.state == Death && r.motion == MotionDeath && r.stateTimer == 0.0
    ensures p.hp > 0 ==> r == UpdateStateStep(p, input)
    ensures r.hp == p.hp
  {
    UpdateStateFacts(p, input, UpdateStateStep(p, input));
  }

  /** What one `update` does as intended: a player without hit points ends
      the frame in Death; entering it selects the death motion and restarts
      the timer, while a player already in Death keeps the state update's
      advanced timer, so the death motion can play out. */
  lemma IntendedFrameFacts(p: PlayerData, input: PadInput, r: PlayerData)
    requires r == PlayerFrame(p, input)
    ensures p.hp <= 0 ==> r.state == Death
    ensures p.hp <= 0 && p.state != Death ==> r.motion == MotionDeath && r.stateTimer == 0.0
    ensures p.state == Death ==> r == UpdateStateStep(p, input) && r.stateTimer == p.stateTimer + input.deltaTime
    ensures p.hp > 0 ==> r == UpdateStateStep(p, input)
    ensures r.hp == p.hp
  {
    UpdateStateFacts(p, input, UpdateStateStep(p, input));
  }

  /** The sum of the frame times. */
  function TotalTime(frames: seq<PadInput>): real
    decreases |frames|
  {
    if frames == [] then 0.0 else frames[0].deltaTime + TotalTime(frames[1..])
  }

  /** The player driven through a sequence of frames, as intended and as
      written. */
  function PlayerRun(p: PlayerData, frames: seq<PadInput>): PlayerData
    decreases |frames|
  {
    if frames == [] then p else PlayerRun(PlayerFrame(p, frames[0]), frames[1..])
  }

  function PlayerRunAsWritten(p: PlayerData, frames: seq<PadInput>): PlayerData
    decreases |frames|
  {
    if frames == [] then p else PlayerRunAsWritten(PlayerFrameAsWritten(p, frames[0]), frames[1..])
  }

  /** Every frame plays a death motion of the same positive length and takes
      no negative time. */
  predicate SteadyDeathMotion(frames: seq<PadInput>, endTime: real)
  {
    forall i :: 0 <= i < |frames| ==> frames[i].motionEndTime == endTime && frames[i].deltaTime >= 0.0
  }

  lemma {:induction false} TotalTimeNonNegative(frames: seq<PadInput>, endTime: real)
    decreases |frames|
    requires SteadyDeathMotion(frames, endTime)
    ensures TotalTime(frames) >= 0.0
  {
    if frames != [] {
      assert SteadyDeathMotion(frames[1..], endTime) by {
        forall i | 0 <= i < |frames[1..]| ensures frames[1..][i] == frames[i + 1] { }
      }
      TotalTimeNonNegative(frames[1..], endTime);
    }
  }

  /** As written, a player without hit points never dies: each frame of
      Death restarts the timer after the death handler has looked at it, so
      the handler only ever sees a timer of 0, which never reaches a motion
      of positive length. */
  lemma {:induction false} DeathNeverCompletesAsWritten(p: PlayerData, frames: seq<PadInput>, endTime: real)
    decreases |frames|
    requires p.state == Death && p.stateTimer == 0.0 && p.hp <= 0 && !p.died
    requires endTime > 0.0 && SteadyDeathMotion(frames, endTime)
    ensures PlayerRunAsWritten(p, frames).state == Death
    ensures PlayerRunAsWritten(p, frames).stateTimer == 0.0
    ensures !PlayerRunAsWritten(p, frames).died
  {
    if frames != [] {
      assert frames[0].motionEndTime == endTime;
      assert SteadyDeathMotion(frames[1..], endTime) by {
        forall i | 0 <= i < |frames[1..]| ensures frames[1..][i] == frames[i + 1] { }
      }
      DeathNeverCompletesAsWritten(PlayerFrameAsWritten(p, frames[0]), frames[1..], endTime);
    }
  }

  /** The death motion completes: as intended, a player in Death without hit
      points calls `die()` exactly when the timer, advanced by every frame but
      the last, has reached the length of the death motion (or had already
      died), and stays in Death. */
  lemma {:induction false} DeathCompletesAtMotionEnd(p: PlayerData, frames: seq<PadInput>, endTime: real)
    decreases |frames|
    requires p.state == Death && p.hp <= 0
    requires frames != [] && SteadyDeathMotion(frames, endTime)
    ensures PlayerRun(p, frames).state == Death
    ensures PlayerRun(p, frames).died <==> p.died || p.stateTimer + TotalTime(frames[..|frames| - 1]) >= endTime
  {
    var q := PlayerFrame(p, frames[0]);
    UpdateStateFacts(p, frames[0], UpdateStateStep(p, frames[0]));
    assert frames[0].motionEndTime == endTime && frames[0].deltaTime >= 0.0;
    assert q.state == Death && q.stateTimer == p.stateTimer + frames[0].deltaTime;
    assert q.died <==> p.died || p.stateTimer >= endTime;
    var rest := frames[1..];
    if rest == [] {
      assert frames[..|frames| - 1] == [];
    } else {
      assert SteadyDeathMotion(rest, endTime) by {
        forall i | 0 <= i < |rest| ensures rest[i] == frames[i + 1] { }
      }
      DeathCompletesAtMotionEnd(q, rest, endTime);
      var init := frames[..|frames| - 1];
      assert init[0] == frames[0];
      assert init[1..] == rest[..|rest| - 1];
      assert TotalTime(init) == frames[0].deltaTime + TotalTime(rest[..|rest| - 1]);
      var mid := rest[..|rest| - 1];
      assert SteadyDeathMotion(mid, endTime) by {
        forall i | 0 <= i < |mid| ensures mid[i] == frames[i + 1] { }
      }
      TotalTimeNonNegative(mid, endTime);
    }
  }

  /** The states a player reaches from construction. Nothing in Player.cpp
      lowers the hit points, and only the normal handler changes state,
      so a player only ever walks, stands or makes the first slash. */
  predicate Reachable(p: PlayerData)
  {
    p.hp == HP && !p.died
    && (p.state == Normal || p.state == Slash1)
    && (p.state == Normal ==> p.motion == MotionIdle || p.motion == MotionWalk)
    && (p.state == Slash1 ==> p.motion == MotionSlash1)
  }

  /** Every frame keeps a player reachable. */
  lemma {:induction false} ReachableRun(p: PlayerData, frames: seq<PadInput>)
    decreases |frames|
    requires Reachable(p)
    ensures Reachable(PlayerRun(p, frames))
    ensures PlayerRun(p, frames) == PlayerRunAsWritten(p, frames)
  {
    if frames != [] {
      var q := UpdateStateStep(p, frames[0]);
      UpdateStateFacts(p, frames[0], q);
      assert PlayerFrame(p, frames[0]) == q == PlayerFrameAsWritten(p, frames[0]);
      ReachableRun(q, frames[1..]);
    }
  }

  /** The player actor (`Player`). */
  class Player {
    var state: PlayerState
    var motion: Motion
    var stateTimer: real
    var currentHp: int
    var heading: Heading
    var died: bool

    function Data(): PlayerData
      reads this
    {
      PlayerData(state, motion, stateTimer, currentHp, heading, died)
    }

    /** The constructor: idle, in the normal state, with full hit points. */
    constructor ()
      ensures Data() == Initial()
    {
      state := Normal;
      motion := MotionIdle;
      stateTimer := 0.0;
      heading := Heading(0, 0);
      currentHp := HP;
      died := false;
    }

    /** `update`: the state update, then Death whenever the hit points are
        gone (as written, also when already in Death). */
    method Update(input: PadInput)
      modifies this
      ensures Data() == PlayerFrameAsWritten(old(Data()), input)
    {
      UpdateState(input);
      if currentHp <= 0 {
        ChangeState(Death, MotionDeath);
      }
    }

    /** `react`: collisions do not affect the player. */
    method React()
      ensures Data() == old(Data())
    {
    }

    /** `handle_message`: messages do not affect the player. */
    method HandleMessage(message: EventMessages.EventMessage)
      ensures Data() == old(Data())
    {
    }

    /** `update_state`. */
    method UpdateState(input: PadInput)
      modifies this
      ensures Data() == UpdateStateStep(old(Data()), input)
    {
      match state {
        case Normal => UpdateNormal(input);
        case Slash1 => UpdateSlash1(input);
        case Slash2 => UpdateSlash2(input);
        case Slash3 => UpdateSlash3(input);
        case Damage => UpdateDamage(input);
        case GuardBegin => UpdateGuard(input);
        case Blocking => UpdateBlocking(input);
        case GuardAttack => UpdateGuardAttack(input);
        case GuardEnd => UpdateGuardEnd(input);
        case Death => UpdateDeath(input);
      }
      stateTimer := stateTimer + input.deltaTime;
    }

    /** `change_state`. */
    method ChangeState(newState: PlayerState, newMotion: Motion)
      modifies this
      ensures Data() == ChangeStateStep(old(Data()), newState, newMotion)
    {
      motion := newMotion;
      state := newState;
      stateTimer := 0.0;
    }

    /** `normal`. */
    method UpdateNormal(input: PadInput)
      modifies this
      ensures Data() == NormalStep(old(Data()), input)
    {
      if input.attack {
        ChangeState(PlayerState.Slash1, MotionSlash1);
        return;
      }
      var newMotion := MotionIdle;
      var forward := 0;
      var left := 0;
      if input.up {
        forward := 1;
      } else if input.down {
        forward := -1;
      }
      if input.left {
        left := 1;
      } else if input.right {
        left := -1;
      }
      if forward != 0 || left != 0 {
        newMotion := MotionWalk;
      }
      ChangeState(Normal, newMotion);
      heading := Heading(forward, left);
    }

    /** `slash1`. */
    method UpdateSlash1(input: PadInput)
      modifies this
      ensures Data() == RecoverStep(old(Data()), input)
    {
      if stateTimer >= input.motionEndTime {
        UpdateNormal(input);
      }
    }

    /** `slash2`. */
    method UpdateSlash2(input: PadInput)
      modifies this
      ensures Data() == RecoverStep(old(Data()), input)
    {
      if stateTimer >= input.motionEndTime {
        UpdateNormal(input);
      }
    }

    /** `slash3`. */
    method UpdateSlash3(input: PadInput)
      modifies this
      ensures Data() == RecoverStep(old(Data()), input)
    {
      if stateTimer >= input.motionEndTime {
        UpdateNormal(input);
      }
    }

    /** `damage`. */
    method UpdateDamage(input: PadInput)
      modifies this
      ensures Data() == RecoverStep(old(Data()), input)
    {
      if stateTimer >= input.motionEndTime {
        UpdateNormal(input);
      }
    }

    /** `guard`: does nothing. */
    method UpdateGuard(input: PadInput)
      ensures Data() == old(Data())
    {
    }

    /** `blocking`: does nothing. */
    method UpdateBlocking(input: PadInput)
      ensures Data() == old(Data())
    {
    }

    /** `guard_attack`: once the motion has played, `guard`, which does
        nothing. */
    method UpdateGuardAttack(input: PadInput)
      ensures Data() == old(Data())
    {
      if stateTimer >= input.motionEndTime {
        UpdateGuard(input);
      }
    }

    /** `guard_end`. */
    method UpdateGuardEnd(input: PadInput)
      modifies this
      ensures Data() == RecoverStep(old(Data()), input)
    {
      if stateTimer >= input.motionEndTime {
        UpdateNormal(input);
      }
    }

    /** `death`. */
    method UpdateDeath(input: PadInput)
      modifies this
      ensures Data() == DeathStep(old(Data()), input)
    {
      if stateTimer >= input.motionEndTime {
        died := true;
      }
    }
  }
}
