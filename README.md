# Cursor companion: tilt and remark scheduling

A model of the logic inside an on-screen animal companion that follows
the mouse pointer and now and then shows a short remark produced by a
remote text generator. Two pieces are modelled:

- **The cursor follower** (`components/CursorFollower.tsx`). Each mouse
  move records the pointer as the spring target and tilts the companion
  by twice its horizontal step, clamped to [-25, 25] degrees, but only when
  the step exceeds one unit in x or y. A click, or a periodic tick whose
  random draw exceeds 0.7, asks for a remark when remarks are on and no
  request is awaited; the tick also waits while a remark is on screen. The
  reply is shown for 4000 ms by a clear-timer, and the previous timer is
  cancelled first.
- **The remark service** (`services/geminiService.ts`). It builds the
  system instruction and the user prompt and sends them. It returns the
  reply's text when that text is non-empty. Otherwise, and on any error,
  it returns one of eight fixed fallback remarks, picked by a random draw.

Files:

- `wrappers.dfy`: `Option`.
- `types.dfy`: `AnimalType` and `AnimalConfig` (`types.ts`). The concrete
  persona table is not modelled; any record may be passed in.
- `gemini_service.dfy`: module `GeminiService`. These are pure functions.
  The remote call is a parameter `service: Request -> Reply`, where
  `Reply` is either a response whose text may be absent or empty, or a
  failure. `Math.random()` is a `Draw`, a real in [0, 1).
- `cursor_follower.dfy`: module `CursorFollower`. `FollowerState` holds
  every ref and state hook the handlers touch. `Step` gives the effect of
  one event: a move, a click, a tick with its draw, the reply arriving, or
  a clear-timer firing. `Run` feeds events in order, and `Valid` is the
  invariant every reachable state keeps. The class `Follower` holds the
  same state in fields and has one method per handler. Each method
  updates those fields in place, and its contract equates the new
  `State()` with `Step` applied to the old one.

The host's timers, `Math.random()` and the awaited remote call are
inputs. A request has two steps: the click or tick that starts it, and a
later `RequestComplete` event that carries the generated text. Between
those two steps any other events may arrive. Timer handles come from a
counter starting at 1, as browsers never hand out 0. A timer that was
cancelled, or has already fired, does nothing when its handle is fired.

`handleClick` checks only `aiEnabled && !isThinking`, so a click can
replace a visible remark. The interval callback also returns while
`thought` is set (`ClickGuard`, `TickGuard`).

## Model

| member | source | states |
|---|---|---|
| `CursorFollower.TiltFor` | components/CursorFollower.tsx:49 | the tilt is in [-25, 25]; it equals twice the horizontal step when that is in range, and the nearer bound otherwise |
| `CursorFollower.SmallMoveKeepsTilt` | components/CursorFollower.tsx:44-51 | a move of at most one unit in both x and y leaves the rotation unchanged |
| `CursorFollower.LargeMoveSetsTilt` | components/CursorFollower.tsx:40-50 | a larger move sets the rotation to max(min(2*dx, 25), -25); a purely vertical one resets it to 0 |
| `CursorFollower.MoveRecordsSample` | components/CursorFollower.tsx:36-54 | every move sets the spring target and the previous sample to the event's coordinates, whether or not the threshold is met, and changes nothing else but the rotation |
| `CursorFollower.TiltStaysBounded` | components/CursorFollower.tsx:24-51 | starting from any rotation in [-25, 25], including the initial 0, the rotation stays in range after any sequence of events |
| `CursorFollower.InitialValid` | components/CursorFollower.tsx:24-31 | the mount state (rotation 0, no remark, not thinking, no timer) satisfies the invariant |
| `CursorFollower.StepValid` | components/CursorFollower.tsx:35-104 | every handler preserves the invariant: tilt in range, a request awaited exactly while thinking, at most the stored timer pending, every pending timer at 4000 ms, and a remark on screen exactly while the stored timer is pending |
| `CursorFollower.RunValid` | components/CursorFollower.tsx:24-104 | every state reachable by any sequence of events from a valid one is valid, so every remark ever shown has its own pending clear-timer |
| `CursorFollower.RemarkHasItsTimer` | components/CursorFollower.tsx:71-78 | in a valid state a remark on screen has exactly one pending 4000 ms timer, the stored one, and that timer firing clears it |
| `CursorFollower.AtMostOneTimer` | components/CursorFollower.tsx:75-76 | in a valid state at most one clear-timer is pending |
| `CursorFollower.ClickGuard` | components/CursorFollower.tsx:68-69 | a click starts a request, recording the persona and "clicked the mouse", exactly when remarks are on and none is awaited; otherwise nothing changes; the visible remark is never consulted or touched |
| `CursorFollower.TickGuard` | components/CursorFollower.tsx:88-94 | a tick starts a request, with "moved the cursor randomly", exactly when remarks are on, none is awaited, none is shown and the draw exceeds 0.7; otherwise nothing changes |
| `CursorFollower.DisabledNeverRequests` | components/CursorFollower.tsx:68-93 | if remarks are off for every click and tick of a run, no request is ever started |
| `CursorFollower.SingleFlight` | components/CursorFollower.tsx:68-91 | while a request is awaited, no click and no tick changes the state |
| `CursorFollower.CompleteArmsOneTimer` | components/CursorFollower.tsx:71-78 | the reply becomes the remark and ends the request; the stored timer is cancelled and exactly one new 4000 ms timer with a fresh handle is pending; nothing else changes |
| `CursorFollower.FireClearsThought` | components/CursorFollower.tsx:76-78 | a pending clear-timer firing sets the remark to null and changes nothing else |
| `CursorFollower.StaleTimerCannotClear` | components/CursorFollower.tsx:75-78 | after a new remark arrives, the previous timer firing changes nothing, and the new timer clears the remark |
| `CursorFollower.GeneratedRemarkSuppressesTicks` | components/CursorFollower.tsx:91 | a remark produced by the generator is never empty, so right after it is shown a tick changes nothing |
| `CursorFollower.Follower.constructor` | components/CursorFollower.tsx:13-31 | the fields start at the mount state, which is valid |
| `CursorFollower.Follower.HandleMouseMove` | components/CursorFollower.tsx:35-55 | updates the fields in place to the state the move step gives, keeping the invariant |
| `CursorFollower.Follower.HandleClick` | components/CursorFollower.tsx:63-80 | updates the fields to the state the click step gives, keeping the invariant |
| `CursorFollower.Follower.HandleTick` | components/CursorFollower.tsx:88-104 | updates the fields to the state the tick step gives, keeping the invariant |
| `CursorFollower.Follower.HandleReply` | components/CursorFollower.tsx:70-78 | updates the fields to the state the reply step gives: the remark is the text, thinking is off, and exactly the newly stored timer is pending |
| `CursorFollower.Follower.HandleTimeout` | components/CursorFollower.tsx:76-78 | updates the fields to the state the timer step gives, keeping the invariant |
| `GeminiService.SystemInstructionRoundTrip` | services/geminiService.ts:11 | the system instruction is the persona text followed by " Keep your response under 15 words. Avoid hashtags.", and the persona text can be recovered from it |
| `GeminiService.PersonaOfSound` | services/geminiService.ts:11 | any instruction the decoder accepts is exactly persona text + that suffix |
| `GeminiService.UserPromptRoundTrip` | services/geminiService.ts:12 | the user prompt is "The user just " + action + ". What do you think?", and the action can be recovered from it |
| `GeminiService.ActionOfSound` | services/geminiService.ts:12 | any prompt the decoder accepts is exactly that prefix + action + suffix |
| `GeminiService.BuildRequest` | services/geminiService.ts:10-22 | the request carries the persona text and the action recoverably, on model gemini-2.5-flash with temperature 0.9 and at most 30 output tokens |
| `GeminiService.DefaultIndex` | services/geminiService.ts:42 | for a draw r in [0, 1), floor(r * 8) is an index in [0, 7] |
| `GeminiService.DefaultIndexReaches` | services/geminiService.ts:32-42 | every one of the eight fallback remarks is chosen by some draw (k/8 picks entry k) |
| `GeminiService.GetDefaultThought` | services/geminiService.ts:31-42 | the fallback is always one of the eight listed strings and is never empty |
| `GeminiService.DefaultIgnoresAnimal` | services/geminiService.ts:31-42 | the fallback does not depend on the persona passed in |
| `GeminiService.GenerateAnimalThought` | services/geminiService.ts:8-29 | the reply's text is returned unchanged when non-empty; otherwise the result is a fallback remark; the result is always a non-empty string, never an error |
| `GeminiService.FailureYieldsDefault` | services/geminiService.ts:25-28 | a failed call yields the fallback remark |
| `GeminiService.EmptyTextYieldsDefault` | services/geminiService.ts:24 | a response with absent or empty text yields the same fallback remark |

## Left out

- Spring physics (`useSpring` with damping 25, stiffness 200, mass 0.5): library code and floating-point dynamics. The model keeps only the spring target (`mouseX`, `mouseY`).
- Rendering: the JSX, the bubble styling, and the loading indicator shown while `isThinking && !thought`.
- `components/ControlPanel.tsx` and `App.tsx`: an open/closed toggle and the wiring of the selected persona and the enable flag. Both enter the model only as the `aiEnabled` and `animal` values each event carries.
- The concrete persona table in `constants.ts`: any `AnimalConfig` may be passed in.
- The remote client and its network call: these become the `service` parameter. The `console.error` logging on failure is left out.
- Real time: the 10 000 ms interval period and the 4000 ms delay are not simulated. Ticks and timer firings are events, and each pending timer records its delay.
- Window listener registration and removal, React effect re-registration and stale closures. Because of these, a reply can arrive after the persona or the enable flag changed, and it is still shown. The model has completions only while a request is awaited and treats events as strictly sequential.
- Pointer coordinates are integers. The browser's `clientX`/`clientY` can be fractional, for example under page zoom. A fractional step such as dx = 1.5 passes the threshold and tilts by 3 degrees, but the integer model has no step strictly between 1 and 2, so such tilts are not modelled.
- `GeminiService.DefaultIndex`: the draw is a real number, not an IEEE double. Multiplying by 8 is exact in binary floating point, so the floor is the same.
