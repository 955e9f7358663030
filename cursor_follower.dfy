/**
 * The cursor companion (components/CursorFollower.tsx): a tilt that
 * follows horizontal pointer motion, and a single-flight scheduler that
 * asks for a remark on a click or on a random periodic tick, shows it,
 * and clears it with a 4000 ms timer.
 *
 * The host's timers, `Math.random()` and the awaited remote call become
 * explicit events. `FollowerState` is the whole state the handlers
 * touch, `Step` says what one event does to it, and the class
 * `Follower` at the end holds that state in fields and updates it in
 * place, one method per event handler.
 */
module CursorFollower {
  import opened Wrappers
  import opened Types
  import GeminiService

  /** A move changes the tilt only when it exceeds this in x or in y. */
  const MoveThreshold: int := 1
  /** The tilt is kept within [-MaxTilt, MaxTilt] degrees. */
  const MaxTilt: int := 25
  /** How long a remark stays visible. */
  const ThoughtDurationMs: nat := 4000
  /** A periodic tick asks for a remark only when its draw is above this. */
  const TickChance: real := 0.7
  /** The action labels passed to the remark generator. */
  const ClickAction: string := "clicked the mouse"
  const TickAction: string := "moved the cursor randomly"
  /** The first handle the host gives a timer; browsers never hand out 0. */
  const FirstHandle: nat := 1

  function Abs(n: int): nat
  {
    if n < 0 then -n else n
  }

  function Min(a: int, b: int): int
  {
    if a <= b then a else b
  }

  function Max(a: int, b: int): int
  {
    if a >= b then a else b
  }

  /** `Math.max(Math.min(dx * 2, 25), -25)`: twice the horizontal step, clamped. */
  function TiltFor(dx: int): (t: int)
    ensures -MaxTilt <= t <= MaxTilt
    ensures -MaxTilt <= 2 * dx <= MaxTilt ==> t == 2 * dx
    ensures 2 * dx > MaxTilt ==> t == MaxTilt
    ensures 2 * dx < -MaxTilt ==> t == -MaxTilt
  {
    Max(Min(dx * 2, MaxTilt), -MaxTilt)
  }

  /** True when a remark is on screen: JavaScript treats null and "" as false. */
  predicate Shown(thought: Option<string>)
  {
    thought.Some? && thought.value != ""
  }

  /** The persona and action label of a request that is awaiting its reply. */
  datatype Trigger = Trigger(animal: AnimalConfig, action: string)

  datatype FollowerState = FollowerState(
    mouseX: int,              // the spring target
    mouseY: int,
    lastX: int,               // the previous pointer sample
    lastY: int,
    rotation: int,            // degrees
    thought: Option<string>,  // the remark on screen
    isThinking: bool,
    inFlight: Option<Trigger>,   // the request whose reply is awaited
    timerRef: Option<nat>,       // the last clear-timer handle stored
    armed: map<nat, nat>,        // clear-timers still pending: handle to delay in ms
    nextHandle: nat)             // the handle the host gives the next timer

  /** One event the host delivers to the component. */
  datatype Event =
    | MouseMove(x: int, y: int)
    | MouseDown(aiEnabled: bool, animal: AnimalConfig)
    | IntervalTick(aiEnabled: bool, animal: AnimalConfig, draw: GeminiService.Draw)
    | RequestComplete(text: string)
    | TimeoutFire(handle: nat)

  /** The state when the component mounts. */
  function Initial(): FollowerState
  {
    FollowerState(0, 0, 0, 0, 0, None, false, None, None, map[], FirstHandle)
  }

  /**
   * The invariant every reachable state keeps: the tilt is in range, a
   * request is awaited exactly while `isThinking`, at most the timer
   * whose handle is stored is pending, every pending timer runs for
   * ThoughtDurationMs, every handle given out is below nextHandle, and a
   * remark is on screen exactly while its clear-timer is pending.
   */
  predicate Valid(s: FollowerState)
  {
    && -MaxTilt <= s.rotation <= MaxTilt
    && (s.isThinking <==> s.inFlight.Some?)
    && (s.timerRef.None? ==> s.armed == map[])
    && (s.timerRef.Some? ==> s.armed.Keys <= {s.timerRef.value} && s.timerRef.value < s.nextHandle)
    && (forall h :: h in s.armed ==> s.armed[h] == ThoughtDurationMs)
    && (s.thought.Some? <==> (s.timerRef.Some? && s.timerRef.value in s.armed))
  }

  /** `handleMouseMove`. */
  function Move(s: FollowerState, x: int, y: int): FollowerState
  {
    var dx := x - s.lastX;
    var dy := y - s.lastY;
    var rotation := if Abs(dx) > MoveThreshold || Abs(dy) > MoveThreshold then TiltFor(dx) else s.rotation;
    s.(mouseX := x, mouseY := y, rotation := rotation, lastX := x, lastY := y)
  }

  /** `handleClick`: starts a request when remarks are on and none is awaited. */
  function Click(s: FollowerState, aiEnabled: bool, animal: AnimalConfig): FollowerState
  {
    if aiEnabled && !s.isThinking
    then s.(isThinking := true, inFlight := Some(Trigger(animal, ClickAction)))
    else s
  }

  /**
   * The interval callback. With remarks off no interval is registered,
   * so a tick changes nothing.
   */
  function Tick(s: FollowerState, aiEnabled: bool, animal: AnimalConfig, draw: GeminiService.Draw): FollowerState
  {
    if !aiEnabled then s
    else if s.isThinking || Shown(s.thought) then s
    else if draw > TickChance then s.(isThinking := true, inFlight := Some(Trigger(animal, TickAction)))
    else s
  }

  /**
   * The code after the `await`: show the text, stop thinking, cancel the
   * stored timer and arm a new one. A reply cannot arrive when no request
   * is awaited; such an event changes nothing.
   */
  function Complete(s: FollowerState, text: string): FollowerState
  {
    if s.inFlight.None? then s
    else
      var h := s.nextHandle;
      var remaining := if s.timerRef.Some? then s.armed - {s.timerRef.value} else s.armed;
      s.(thought := Some(text), isThinking := false, inFlight := None,
         timerRef := Some(h), armed := remaining[h := ThoughtDurationMs], nextHandle := h + 1)
  }

  /** A clear-timer fires; one that was cancelled, or has fired already, does nothing. */
  function Fire(s: FollowerState, h: nat): FollowerState
  {
    if h in s.armed then s.(thought := None, armed := s.armed - {h}) else s
  }

  function Step(s: FollowerState, e: Event): FollowerState
  {
    match e
    case MouseMove(x, y) => Move(s, x, y)
    case MouseDown(enabled, animal) => Click(s, enabled, animal)
    case IntervalTick(enabled, animal, draw) => Tick(s, enabled, animal, draw)
    case RequestComplete(text) => Complete(s, text)
    case TimeoutFire(h) => Fire(s, h)
  }

  /** The state after a sequence of events, delivered in order. */
  function Run(s: FollowerState, events: seq<Event>): FollowerState
    decreases |events|
  {
    if events == [] then s else Run(Step(s, events[0]), events[1..])
  }

  // ---------------------------------------------------------------
  // The invariant
  // ---------------------------------------------------------------

  lemma InitialValid()
    ensures Valid(Initial())
    ensures Initial().rotation == 0 && Initial().thought == None && !Initial().isThinking
  {
  }

  lemma StepValid(s: FollowerState, e: Event)
    requires Valid(s)
    ensures Valid(Step(s, e))
  {
  }

  /** Every state reachable from a valid one by any events is valid. */
  lemma {:induction false} RunValid(s: FollowerState, events: seq<Event>)
    requires Valid(s)
    ensures Valid(Run(s, events))
    decreases |events|
  {
    if events != [] {
      StepValid(s, events[0]);
      RunValid(Step(s, events[0]), events[1..]);
    }
  }

  /** In a valid state at most one clear-timer is pending. */
  lemma AtMostOneTimer(s: FollowerState)
    requires Valid(s)
    ensures |s.armed| <= 1
  {
    if s.timerRef.Some? && s.armed != map[] {
      var h := s.timerRef.value;
      assert s.armed.Keys == {h};
      assert |s.armed.Keys| == 1;
    }
  }

  /**
   * In a valid state a remark on screen has exactly one pending 4000 ms
   * timer, the stored one, and that timer firing clears it.
   */
  lemma RemarkHasItsTimer(s: FollowerState)
    requires Valid(s) && s.thought.Some?
    ensures s.timerRef.Some? && s.armed == map[s.timerRef.value := ThoughtDurationMs]
    ensures Fire(s, s.timerRef.value).thought == None
  {
    var h := s.timerRef.value;
    assert s.armed.Keys == {h};
  }

  // ---------------------------------------------------------------
  // Tilt
  // ---------------------------------------------------------------

  /** From any in-range tilt, and so from the initial 0, the tilt stays within [-25, 25]. */
  lemma {:induction false} TiltStaysBounded(s: FollowerState, events: seq<Event>)
    requires -MaxTilt <= s.rotation <= MaxTilt
    ensures -MaxTilt <= Run(s, events).rotation <= MaxTilt
    decreases |events|
  {
    if events != [] {
      TiltStaysBounded(Step(s, events[0]), events[1..]);
    }
  }

  /** A move of at most one unit in each direction leaves the tilt as it was. */
  lemma SmallMoveKeepsTilt(s: FollowerState, x: int, y: int)
    requires Abs(x - s.lastX) <= MoveThreshold && Abs(y - s.lastY) <= MoveThreshold
    ensures Move(s, x, y).rotation == s.rotation
  {
  }

  /**
   * A larger move sets the tilt to twice its horizontal step, clamped;
   * a purely vertical one resets it to 0.
   */
  lemma LargeMoveSetsTilt(s: FollowerState, x: int, y: int)
    requires Abs(x - s.lastX) > MoveThreshold || Abs(y - s.lastY) > MoveThreshold
    ensures Move(s, x, y).rotation == Max(Min(2 * (x - s.lastX), MaxTilt), -MaxTilt)
    ensures x == s.lastX ==> Move(s, x, y).rotation == 0
  {
  }

  /**
   * Every move makes the event's coordinates both the spring target and
   * the previous sample, whatever the threshold; it touches nothing of
   * the remark scheduler.
   */
  lemma MoveRecordsSample(s: FollowerState, x: int, y: int)
    ensures Move(s, x, y).mouseX == x && Move(s, x, y).mouseY == y
    ensures Move(s, x, y).lastX == x && Move(s, x, y).lastY == y
    ensures Move(s, x, y).(mouseX := s.mouseX, mouseY := s.mouseY, lastX := s.lastX, lastY := s.lastY, rotation := s.rotation) == s
  {
  }

  // ---------------------------------------------------------------
  // Remark scheduling
  // ---------------------------------------------------------------

  /**
   * A click starts a request exactly when remarks are on and none is
   * awaited, whether or not a remark is on screen; otherwise it changes
   * nothing.
   */
  lemma ClickGuard(s: FollowerState, aiEnabled: bool, animal: AnimalConfig)
    ensures Click(s, aiEnabled, animal).isThinking != s.isThinking <==> aiEnabled && !s.isThinking
    ensures aiEnabled && !s.isThinking ==>
      Click(s, aiEnabled, animal) == s.(isThinking := true, inFlight := Some(Trigger(animal, ClickAction)))
    ensures !(aiEnabled && !s.isThinking) ==> Click(s, aiEnabled, animal) == s
    ensures Click(s, aiEnabled, animal).thought == s.thought
  {
  }

  /**
   * A tick starts a request exactly when remarks are on, none is awaited,
   * none is on screen and the draw exceeds 0.7; otherwise it changes nothing.
   */
  lemma TickGuard(s: FollowerState, aiEnabled: bool, animal: AnimalConfig, draw: GeminiService.Draw)
    ensures Tick(s, aiEnabled, animal, draw).isThinking != s.isThinking
            <==> aiEnabled && !s.isThinking && !Shown(s.thought) && draw > TickChance
    ensures aiEnabled && !s.isThinking && !Shown(s.thought) && draw > TickChance ==>
      Tick(s, aiEnabled, animal, draw) == s.(isThinking := true, inFlight := Some(Trigger(animal, TickAction)))
    ensures !(aiEnabled && !s.isThinking && !Shown(s.thought) && draw > TickChance) ==>
      Tick(s, aiEnabled, animal, draw) == s
  {
  }

  /** True when the event is a click or a tick made while remarks are on. */
  predicate EnabledTrigger(e: Event)
  {
    (e.MouseDown? || e.IntervalTick?) && e.aiEnabled
  }

  /** With remarks off for a whole run, no request is ever started. */
  lemma {:induction false} DisabledNeverRequests(s: FollowerState, events: seq<Event>)
    requires !s.isThinking && s.inFlight.None?
    requires forall i :: 0 <= i < |events| ==> !EnabledTrigger(events[i])
    ensures !Run(s, events).isThinking && Run(s, events).inFlight.None?
    decreases |events|
  {
    if events != [] {
      assert !EnabledTrigger(events[0]);
      var t := Step(s, events[0]);
      assert !t.isThinking && t.inFlight.None?;
      forall i | 0 <= i < |events[1..]|
        ensures !EnabledTrigger(events[1..][i])
      {
        assert events[1..][i] == events[i + 1];
      }
      DisabledNeverRequests(t, events[1..]);
    }
  }

  /**
   * The reply shows its text and ends the request; the stored timer is
   * cancelled and exactly one new 4000 ms timer, with a handle never
   * used before, is pending.
   */
  lemma CompleteArmsOneTimer(s: FollowerState, text: string)
    requires Valid(s) && s.isThinking
    ensures Complete(s, text).thought == Some(text)
    ensures !Complete(s, text).isThinking && Complete(s, text).inFlight.None?
    ensures Complete(s, text).timerRef == Some(s.nextHandle)
    ensures Complete(s, text).armed == map[s.nextHandle := ThoughtDurationMs]
    ensures s.nextHandle !in s.armed && (s.timerRef.Some? ==> s.timerRef.value != s.nextHandle)
    ensures Complete(s, text).(thought := s.thought, isThinking := true, inFlight := s.inFlight,
                               timerRef := s.timerRef, armed := s.armed, nextHandle := s.nextHandle) == s
  {
    var t := Complete(s, text);
    assert t.armed.Keys == {s.nextHandle};
  }

  /** When the pending timer fires, the remark is cleared and nothing else changes. */
  lemma FireClearsThought(s: FollowerState, h: nat)
    requires h in s.armed
    ensures Fire(s, h) == s.(thought := None, armed := s.armed - {h})
  {
  }

  /**
   * The race the cancellation handles: once a new remark has arrived, the
   * timer armed for the previous one no longer clears anything, and the
   * new timer clears the new remark.
   */
  lemma {:induction false} StaleTimerCannotClear(s: FollowerState, text: string, h: nat)
    requires Valid(s) && s.isThinking && s.timerRef == Some(h)
    ensures Fire(Complete(s, text), h) == Complete(s, text)
    ensures Fire(Complete(s, text), s.nextHandle).thought == None
  {
    CompleteArmsOneTimer(s, text);
  }

  /** A request in flight blocks every click and tick from starting another. */
  lemma SingleFlight(s: FollowerState, e: Event)
    requires s.isThinking && (e.MouseDown? || e.IntervalTick?)
    ensures Step(s, e) == s
  {
  }

  /**
   * A remark from the generator is never empty, so once it is shown no
   * tick asks for another until its timer clears it.
   */
  lemma GeneratedRemarkSuppressesTicks(s: FollowerState, service: GeminiService.Request -> GeminiService.Reply,
                                       draw: GeminiService.Draw, aiEnabled: bool, animal: AnimalConfig,
                                       tickDraw: GeminiService.Draw)
    requires Valid(s) && s.isThinking
    ensures var text := GeminiService.GenerateAnimalThought(s.inFlight.value.animal, s.inFlight.value.action, service, draw);
            Tick(Complete(s, text), aiEnabled, animal, tickDraw) == Complete(s, text)
  {
  }

  // ---------------------------------------------------------------
  // The component, with its state held in fields
  // ---------------------------------------------------------------

  /**
   * The component's refs and state hooks as fields. Each method is one
   * handler; its contract ties the new state to the old one through Step.
   */
  class Follower {
    var mouseX: int
    var mouseY: int
    var lastX: int
    var lastY: int
    var rotation: int
    var thought: Option<string>
    var isThinking: bool
    var inFlight: Option<Trigger>
    var timerRef: Option<nat>
    var armed: map<nat, nat>
    var nextHandle: nat

    function State(): FollowerState
      reads this
    {
      FollowerState(mouseX, mouseY, lastX, lastY, rotation, thought, isThinking, inFlight, timerRef, armed, nextHandle)
    }

    constructor ()
      ensures State() == Initial() && Valid(State())
    {
      mouseX, mouseY := 0, 0;
      lastX, lastY := 0, 0;
      rotation := 0;
      thought := None;
      isThinking := false;
      inFlight := None;
      timerRef := None;
      armed := map[];
      nextHandle := FirstHandle;
    }

    method HandleMouseMove(x: int, y: int)
      requires Valid(State())
      modifies this
      ensures State() == Step(old(State()), MouseMove(x, y)) && Valid(State())
    {
      mouseX := x;
      mouseY := y;
      var dx := x - lastX;
      var dy := y - lastY;
      if Abs(dx) > MoveThreshold || Abs(dy) > MoveThreshold {
        rotation := Max(Min(dx * 2, MaxTilt), -MaxTilt);
      }
      lastX := x;
      lastY := y;
    }

    method HandleClick(aiEnabled: bool, animal: AnimalConfig)
      requires Valid(State())
      modifies this
      ensures State() == Step(old(State()), MouseDown(aiEnabled, animal)) && Valid(State())
    {
      if aiEnabled && !isThinking {
        isThinking := true;
        inFlight := Some(Trigger(animal, ClickAction));
      }
    }

    method HandleTick(aiEnabled: bool, animal: AnimalConfig, draw: GeminiService.Draw)
      requires Valid(State())
      modifies this
      ensures State() == Step(old(State()), IntervalTick(aiEnabled, animal, draw)) && Valid(State())
    {
      if !aiEnabled {
        return;
      }
      if isThinking || Shown(thought) {
        return;
      }
      if draw > TickChance {
        isThinking := true;
        inFlight := Some(Trigger(animal, TickAction));
      }
    }

    /** The continuation of a request; the host runs it only after a request started. */
    method HandleReply(text: string)
      requires Valid(State()) && inFlight.Some?
      modifies this
      ensures State() == Step(old(State()), RequestComplete(text)) && Valid(State())
      ensures thought == Some(text) && !isThinking && armed == map[timerRef.value := ThoughtDurationMs]
    {
      thought := Some(text);
      isThinking := false;
      inFlight := None;
      if timerRef.Some? {
        armed := armed - {timerRef.value};
      }
      var h := nextHandle;
      nextHandle := nextHandle + 1;
      armed := armed[h := ThoughtDurationMs];
      timerRef := Some(h);
      assert armed.Keys == {h};
    }

    method HandleTimeout(h: nat)
      requires Valid(State())
      modifies this
      ensures State() == Step(old(State()), TimeoutFire(h)) && Valid(State())
    {
      if h in armed {
        thought := None;
        armed := armed - {h};
      }
    }
  }
}
