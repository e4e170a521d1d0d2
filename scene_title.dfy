/** The title scene (`SceneTitle`): the screen fades in, input is locked until
    it is fully bright, the start key plays a sound and starts a fade out, and
    the scene ends once the screen is dark and three seconds (180 frame units)
    have passed since the key was pressed. A "press start" message blinks all
    the while, faster once the key has been pressed.

    `TitleFrame` is the specification of one call of `update`; the class
    `SceneTitle` holds the fields and its methods are proved to follow it. */
module SceneTitleModel {
  import EventMessages
  import opened Effects
  import opened MathHelper

  /** The scenes the game moves between. */
  datatype Scene = Title | GamePlay

  /** Full brightness, and the per-frame fade step of this scene. */
  const FadeMax := 255
  const FadeStep := 2
  /** The end delay after the start key, and the two blink periods. */
  const EndDelay: real := 180.0
  const FastBlink: real := 5.0
  const SlowBlink: real := 60.0

  datatype TitleState = TitleState(
    isEnd: bool,
    isStarted: bool,
    showStart: bool,
    showStartTimer: real,
    endTimer: real,
    fadeCounter: int)

  datatype TitleStepped = TitleStepped(state: TitleState, out: seq<Effect>)

  /** The fields after `start`. */
  function StartState(): (s: TitleState)
    ensures !s.isEnd && !s.isStarted && !s.showStart
    ensures s.showStartTimer == 0.0 && s.endTimer == 0.0 && s.fadeCounter == 0
  {
    TitleState(false, false, false, 0.0, 0.0, 0)
  }

  /** Input is refused while the screen is still fading in. */
  predicate Locked(s: TitleState)
  {
    Clamp(s.fadeCounter, 0, FadeMax) < FadeMax && !s.isStarted
  }

  /** One call of `update`, given the frame time and the answer of the start
      key poll (`PlayerInput::game_start`). */
  function TitleFrame(s: TitleState, deltaTime: real, gameStart: bool): TitleStepped
  {
    var f := Clamp(s.fadeCounter, 0, FadeMax);
    if f < FadeMax && !s.isStarted then
      TitleStepped(s.(fadeCounter := f + FadeStep), [])
    else
      var pressed := gameStart && !s.isStarted;
      var started := s.isStarted || pressed;
      var f2 := if started && f > 0 then f - FadeStep else f;
      var isEnd := if started && s.endTimer >= EndDelay && f2 <= 0 then true else s.isEnd;
      var endTimer := if started then s.endTimer + deltaTime else s.endTimer;
      var period := if started then FastBlink else SlowBlink;
      var show := if s.showStartTimer >= period then !s.showStart else s.showStart;
      var blinkTimer := (if s.showStartTimer >= period then 0.0 else s.showStartTimer) + deltaTime;
      TitleStepped(TitleState(isEnd, started, show, blinkTimer, endTimer, f2),
                   if pressed then [PlaySe(SeStart)] else [])
  }

  /** What one `update` does. While locked, only the fade moves, by one step
      from its clamped value, and the start key is not looked at. Otherwise:
      the key starts the scene, with the start sound, at most once; once
      started the screen darkens by one step a frame until it is dark, the end
      timer runs, and the scene ends as soon as the timer has reached the
      delay with the screen dark; the end flag never goes back; the blink flag
      flips exactly when its timer has reached the period in force, and that
      timer then restarts from the frame time (otherwise it grows by it); a scene
      not yet started stays fully faded in. */
  lemma TitleFrameFacts(s: TitleState, deltaTime: real, gameStart: bool, r: TitleStepped)
    requires r == TitleFrame(s, deltaTime, gameStart)
    ensures -1 <= r.state.fadeCounter <= FadeMax + 1
    ensures Locked(s) ==> r.state == s.(fadeCounter := Clamp(s.fadeCounter, 0, FadeMax) + FadeStep) && r.out == []
    ensures r.state.isStarted <==> s.isStarted || (gameStart && !Locked(s))
    ensures r.out == if !s.isStarted && r.state.isStarted then [PlaySe(SeStart)] else []
    ensures r.state.isStarted ==>
              r.state.fadeCounter == if Clamp(s.fadeCounter, 0, FadeMax) > 0
                                     then Clamp(s.fadeCounter, 0, FadeMax) - FadeStep
                                     else Clamp(s.fadeCounter, 0, FadeMax)
    ensures s.isEnd ==> r.state.isEnd
    ensures r.state.isEnd && !s.isEnd <==>
              !s.isEnd && r.state.isStarted && s.endTimer >= EndDelay && r.state.fadeCounter <= 0
    ensures r.state.endTimer == if r.state.isStarted then s.endTimer + deltaTime else s.endTimer
    ensures !Locked(s) ==>
              (r.state.showStart != s.showStart <==>
                 s.showStartTimer >= (if r.state.isStarted then FastBlink else SlowBlink))
    ensures !Locked(s) ==>
              r.state.showStartTimer ==
                (if s.showStartTimer >= (if r.state.isStarted then FastBlink else SlowBlink)
                 then 0.0 else s.showStartTimer) + deltaTime
    ensures !Locked(s) && !r.state.isStarted ==> r.state.fadeCounter == FadeMax
  {
  }

  /** The start key has no effect while the screen fades in. */
  lemma InputIgnoredWhileFadingIn(s: TitleState, deltaTime: real)
    requires Locked(s)
    ensures TitleFrame(s, deltaTime, true) == TitleFrame(s, deltaTime, false)
  {
  }

  /** One frame of the title scene as seen from outside. */
  datatype TitleInput = TitleInput(deltaTime: real, gameStart: bool)

  /** The title scene driven through a sequence of frames, with every request made. */
  function TitleRun(s: TitleState, frames: seq<TitleInput>): TitleStepped
    decreases |frames|
  {
    if frames == [] then TitleStepped(s, [])
    else
      var a := TitleFrame(s, frames[0].deltaTime, frames[0].gameStart);
      var b := TitleRun(a.state, frames[1..]);
      TitleStepped(b.state, a.out + b.out)
  }

  /** The fade in: during the first 128 frames after `start`, whatever keys
      are pressed, the brightness rises by 2 a frame and nothing else
      happens. */
  lemma {:induction false} FadeIn(frames: seq<TitleInput>)
    requires |frames| <= 128
    ensures TitleRun(StartState(), frames) == TitleStepped(StartState().(fadeCounter := FadeStep * |frames|), [])
  {
    if frames != [] {
      var init := frames[..|frames| - 1];
      var last := frames[|frames| - 1];
      FadeIn(init);
      RunSnoc(StartState(), init, last);
      var s := StartState().(fadeCounter := FadeStep * |init|);
      assert Locked(s);
      assert TitleFrame(s, last.deltaTime, last.gameStart) == TitleStepped(s.(fadeCounter := FadeStep * |frames|), []);
      assert frames == init + [last];
    }
  }

  /** Running one more frame. */
  lemma {:induction false} RunSnoc(s: TitleState, frames: seq<TitleInput>, f: TitleInput)
    decreases |frames|
    ensures TitleRun(s, frames + [f]).state
              == TitleFrame(TitleRun(s, frames).state, f.deltaTime, f.gameStart).state
    ensures TitleRun(s, frames + [f]).out
              == TitleRun(s, frames).out + TitleFrame(TitleRun(s, frames).state, f.deltaTime, f.gameStart).out
  {
    if frames == [] {
      assert [] + [f] == [f];
      var a := TitleFrame(s, f.deltaTime, f.gameStart);
      assert TitleRun(s, [f]) == TitleStepped(TitleRun(a.state, []).state, a.out + TitleRun(a.state, []).out);
      assert a.out + [] == a.out;
    } else {
      var a := TitleFrame(s, frames[0].deltaTime, frames[0].gameStart);
      assert (frames + [f])[0] == frames[0];
      assert (frames + [f])[1..] == frames[1..] + [f];
      RunSnoc(a.state, frames[1..], f);
      var last := TitleFrame(TitleRun(a.state, frames[1..]).state, f.deltaTime, f.gameStart).out;
      assert a.out + (TitleRun(a.state, frames[1..]).out + last) == (a.out + TitleRun(a.state, frames[1..]).out) + last;
    }
  }

  /** The states reachable from `start`: the end flag is only set after the
      start key; the end timer does not run before it; the brightness stays
      within one step of its range. */
  ghost predicate Reachable(s: TitleState)
  {
    (s.isEnd ==> s.isStarted) && (!s.isStarted ==> s.endTimer == 0.0) && -1 <= s.fadeCounter <= FadeMax + 1
  }

  /** Over any sequence of frames from a reachable state the invariant holds,
      and the start sound has been played exactly once if the scene has been
      started during the run and never otherwise. */
  lemma {:induction false} TitleRunInvariant(s: TitleState, frames: seq<TitleInput>)
    decreases |frames|
    requires Reachable(s)
    ensures Reachable(TitleRun(s, frames).state)
    ensures multiset(TitleRun(s, frames).out)[PlaySe(SeStart)]
              == if !s.isStarted && TitleRun(s, frames).state.isStarted then 1 else 0
    ensures s.isStarted ==> TitleRun(s, frames).state.isStarted
    ensures s.isEnd ==> TitleRun(s, frames).state.isEnd
  {
    if frames != [] {
      var a := TitleFrame(s, frames[0].deltaTime, frames[0].gameStart);
      TitleFrameFacts(s, frames[0].deltaTime, frames[0].gameStart, a);
      TitleRunInvariant(a.state, frames[1..]);
      assert multiset(a.out + TitleRun(a.state, frames[1..]).out)
             == multiset(a.out) + multiset(TitleRun(a.state, frames[1..]).out);
    }
  }

  /** The scene ends: once started with the end delay already over, and with
      time not running backwards, enough frames to darken the screen end the
      scene. */
  lemma {:induction false} EndsAfterFadeOut(s: TitleState, frames: seq<TitleInput>)
    decreases |frames|
    requires s.isStarted && s.endTimer >= EndDelay
    requires forall i :: 0 <= i < |frames| ==> frames[i].deltaTime >= 0.0
    requires |frames| >= Clamp(s.fadeCounter, 0, FadeMax) / 2 + 1
    ensures TitleRun(s, frames).state.isEnd
  {
    var a := TitleFrame(s, frames[0].deltaTime, frames[0].gameStart);
    TitleFrameFacts(s, frames[0].deltaTime, frames[0].gameStart, a);
    if a.state.fadeCounter > 0 {
      assert forall i :: 0 <= i < |frames[1..]| ==> frames[1..][i].deltaTime >= 0.0 by {
        forall i | 0 <= i < |frames[1..]| ensures frames[1..][i].deltaTime >= 0.0 {
          assert frames[1..][i] == frames[i + 1];
        }
      }
      EndsAfterFadeOut(a.state, frames[1..]);
    } else {
      TitleRunInvariant(a.state, frames[1..]);
    }
  }

  /** The title scene (`SceneTitle`). `requests` is everything it has asked of
      the sound system, oldest first. */
  class SceneTitle {
    var isEnd: bool
    var isStarted: bool
    var showStart: bool
    var showStartTimer: real
    var endTimer: real
    var fadeCounter: int
    var requests: seq<Effect>

    function State(): TitleState
      reads this
    {
      TitleState(isEnd, isStarted, showStart, showStartTimer, endTimer, fadeCounter)
    }

    constructor ()
      ensures requests == []
    {
      requests := [];
    }

    /** `start`: reset every flag and timer, then start the title music. */
    method Start()
      modifies this
      ensures State() == StartState()
      ensures requests == old(requests) + [PlayBgm(BgmTitle)]
    {
      isEnd := false;
      isStarted := false;
      showStart := false;
      showStartTimer := 0.0;
      endTimer := 0.0;
      fadeCounter := 0;
      requests := requests + [PlayBgm(BgmTitle)];
    }

    /** `update`, given the frame time and the start key poll. */
    method Update(deltaTime: real, gameStart: bool)
      modifies this
      ensures State() == TitleFrame(old(State()), deltaTime, gameStart).state
      ensures requests == old(requests) + TitleFrame(old(State()), deltaTime, gameStart).out
    {
      fadeCounter := Clamp(fadeCounter, 0, FadeMax);
      if fadeCounter < FadeMax && !isStarted {
        fadeCounter := fadeCounter + FadeStep;
        return;
      }
      if gameStart && !isStarted {
        requests := requests + [PlaySe(SeStart)];
        isStarted := true;
      }
      if isStarted {
        if fadeCounter > 0 {
          fadeCounter := fadeCounter - FadeStep;
        }
        if endTimer >= EndDelay && fadeCounter <= 0 {
          isEnd := true;
        }
        endTimer := endTimer + deltaTime;
      }
      if isStarted {
        if showStartTimer >= FastBlink {
          showStart := !showStart;
          showStartTimer := 0.0;
        }
      } else {
        if showStartTimer >= SlowBlink {
          showStart := !showStart;
          showStartTimer := 0.0;
        }
      }
      showStartTimer := showStartTimer + deltaTime;
    }

    /** `is_end`. */
    method IsEnd() returns (b: bool)
      ensures b == isEnd
    {
      b := isEnd;
    }

    /** `next`: the title is always followed by the game. */
    method Next() returns (scene: Scene)
      ensures scene == GamePlay
    {
      scene := GamePlay;
    }

    /** `end`: stop the title music. */
    method End()
      modifies this
      ensures State() == old(State())
      ensures requests == old(requests) + [StopBgm]
    {
      requests := requests + [StopBgm];
    }

    /** `handle_message`: the title scene ignores every message. */
    method HandleMessage(message: EventMessages.EventMessage)
      ensures State() == old(State())
    {
    }
  }
}
