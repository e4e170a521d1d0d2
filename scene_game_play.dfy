/** The gameplay scene (`SceneGamePlay`): it advances the world every frame
    unless paused, toggles the pause on the pause key, and ends when the world
    tells it that the game is over or the stage is cleared.

    `PlayFrame` and `Receive` are the specification of `update` and
    `handle_message`; the class `SceneGamePlay` holds the two flags and its
    methods are proved to follow them. */
module SceneGamePlayModel {
  import opened EventMessages

  datatype PlayState = PlayState(isEnd: bool, isPause: bool)

  /** The flags after one `update`, and whether the world was advanced. */
  datatype PlayStepped = PlayStepped(state: PlayState, worldAdvanced: bool)

  /** The flags after `start`. */
  function StartState(): (s: PlayState)
    ensures !s.isEnd && !s.isPause
  {
    PlayState(false, false)
  }

  /** One call of `update`, given the answer of the pause key poll
      (`PlayerInput::pause`): the world advances exactly when the game was not
      paused at the start of the frame, the key flips the pause flag, and the
      end flag is left alone. */
  function PlayFrame(s: PlayState, pausePressed: bool): (r: PlayStepped)
    ensures r.worldAdvanced <==> !s.isPause
    ensures r.state.isPause <==> (s.isPause <==> !pausePressed)
    ensures r.state.isEnd == s.isEnd
  {
    PlayStepped(s.(isPause := if pausePressed then !s.isPause else s.isPause), !s.isPause)
  }

  /** `handle_message`: GameOver and StageClear end the scene; every other
      message leaves the flags as they are. */
  function Receive(s: PlayState, message: EventMessage): (r: PlayState)
    ensures r.isEnd <==> s.isEnd || message == GameOver || message == StageClear
    ensures r.isPause == s.isPause
  {
    if message == GameOver then s.(isEnd := true)
    else if message == StageClear then s.(isEnd := true)
    else s
  }

  /** Pressing the pause key on two frames in a row comes back to the same
      pause state, and the world advances on exactly one of the two frames. */
  lemma PauseTwice(s: PlayState)
    ensures PlayFrame(PlayFrame(s, true).state, true).state == s
    ensures PlayFrame(s, true).worldAdvanced != PlayFrame(PlayFrame(s, true).state, true).worldAdvanced
  {
  }

  /** What can happen to the scene between two looks at it: a frame of
      `update` with the pause key pressed or not, or a delivered message. */
  datatype PlayEvent = Frame(pausePressed: bool) | Deliver(message: EventMessage)

  function PlayApply(s: PlayState, ev: PlayEvent): PlayStepped
  {
    match ev
    case Frame(pressed) => PlayFrame(s, pressed)
    case Deliver(message) => PlayStepped(Receive(s, message), false)
  }

  /** The final flags after a sequence of events, and the number of frames on
      which the world was advanced. */
  datatype PlayRunResult = PlayRunResult(state: PlayState, advances: nat)

  function PlayRun(s: PlayState, evs: seq<PlayEvent>): PlayRunResult
    decreases |evs|
  {
    if evs == [] then PlayRunResult(s, 0)
    else
      var a := PlayApply(s, evs[0]);
      var b := PlayRun(a.state, evs[1..]);
      PlayRunResult(b.state, (if a.worldAdvanced then 1 else 0) + b.advances)
  }

  /** Over any sequence of events the scene has ended exactly when it had
      already ended or a GameOver or StageClear message arrived. */
  lemma {:induction false} PlayRunEnd(s: PlayState, evs: seq<PlayEvent>)
    decreases |evs|
    ensures PlayRun(s, evs).state.isEnd <==> s.isEnd || Deliver(GameOver) in evs || Deliver(StageClear) in evs
  {
    if evs != [] {
      PlayRunEnd(PlayApply(s, evs[0]).state, evs[1..]);
      assert evs == [evs[0]] + evs[1..];
    }
  }

  /** Over any sequence of events the game is paused exactly when an odd
      number of pause presses has flipped its starting state, and the world
      has advanced at most once per frame. */
  lemma {:induction false} PlayRunPause(s: PlayState, evs: seq<PlayEvent>)
    decreases |evs|
    ensures PlayRun(s, evs).state.isPause <==> (s.isPause <==> multiset(evs)[Frame(true)] % 2 == 0)
    ensures PlayRun(s, evs).advances <= multiset(evs)[Frame(true)] + multiset(evs)[Frame(false)]
  {
    if evs != [] {
      PlayRunPause(PlayApply(s, evs[0]).state, evs[1..]);
      assert evs == [evs[0]] + evs[1..];
      assert multiset(evs) == multiset([evs[0]]) + multiset(evs[1..]);
    }
  }

  /** A paused game stays still: while no pause press arrives, the world is
      never advanced. */
  lemma {:induction false} PausedStaysStill(s: PlayState, evs: seq<PlayEvent>)
    decreases |evs|
    requires s.isPause
    requires Frame(true) !in evs
    ensures PlayRun(s, evs).advances == 0
    ensures PlayRun(s, evs).state.isPause
  {
    if evs != [] {
      assert evs[0] != Frame(true);
      assert Frame(true) !in evs[1..] by {
        assert forall e :: e in evs[1..] ==> e in evs;
      }
      PausedStaysStill(PlayApply(s, evs[0]).state, evs[1..]);
    }
  }

  /** The gameplay scene (`SceneGamePlay`). */
  class SceneGamePlay {
    var isEnd: bool
    var isPause: bool

    function State(): PlayState
      reads this
    {
      PlayState(isEnd, isPause)
    }

    constructor ()
      ensures State() == StartState()
    {
      isEnd := false;
      isPause := false;
    }

    /** `start`: clear both flags. */
    method Start()
      modifies this
      ensures State() == StartState()
    {
      isEnd := false;
      isPause := false;
    }

    /** `update`, given the pause key poll; `worldAdvanced` reports whether
        `world_.update` was called. */
    method Update(pausePressed: bool) returns (worldAdvanced: bool)
      modifies this
      ensures State() == PlayFrame(old(State()), pausePressed).state
      ensures worldAdvanced == PlayFrame(old(State()), pausePressed).worldAdvanced
    {
      worldAdvanced := false;
      if !isPause {
        worldAdvanced := true;
      }
      if pausePressed {
        isPause := if isPause then false else true;
      }
    }

    /** `is_end`. */
    method IsEnd() returns (b: bool)
      ensures b == isEnd
    {
      b := isEnd;
    }

    /** `handle_message`. */
    method HandleMessage(message: EventMessage)
      modifies this
      ensures State() == Receive(old(State()), message)
    {
      if message == GameOver {
        isEnd := true;
        return;
      }
      if message == StageClear {
        isEnd := true;
        return;
      }
    }
  }
}
