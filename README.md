# PalmSight palm menu: a Dafny model

PalmSight is a VR "palm menu". A hand gesture shows a menu anchored to the
user's palm, and the menu's buttons route to sub-apps. This project models the
three small state machines the scripts own. Engine objects become flags, and
frame deltas become exact `real` values. Engine float rounding is not modelled.

- `palm_ui_manager.dfy`, module `PalmMenu`: `PalmUIManager`, the gesture-driven
  menu. The stop-sign gesture's select event shows the menu. Its unselect event
  starts a hide timer, which each frame advances. The menu hides once the
  accumulated time is at least `hideDelay` (default 1.5 s). The app buttons
  dismiss the menu and switch panels, and the back button returns to the main
  panel. The class's methods state their new state field by field and as
  `State() == Step(old(State()), event)`. `Run` folds `Step` over a sequence of
  events, and the lemmas are stated about `Run`.
- `palm_ui_controller.dfy`, module `PalmController`: `PalmUIController`, the
  polled variant. Each tracked frame it decides from two inputs, "palm facing
  the viewer" and "hand steady". It hides only once the timer is strictly
  greater than `hideDelay` (default 1.0 s), and its buttons are routed by index.
  The same module holds `PalmUIAnimator`, which moves the canvas alpha towards
  1 or 0 with the engine's `MoveTowards` step.
- `camera_app.dfy`, module `CameraApp`: `CameraAppManager`, a two-camera toggle.
  Its invariant `Valid()` says that exactly the active camera is enabled and
  that it renders into the shared texture.
- `visibility_comparison.dfy`: the two hide rules side by side.
- `frame_time.dfy`: sums of frame deltas.

The engine's `Start` hook is modelled as the named constructor `Start`. It runs
the field initialisers, then the body of `Start`. Scene state that `Start` does
not set is passed in as constructor parameters: the main panel's flag, the
cameras' flags and the status text. The gesture source, the hand tracker and
the buttons call the handlers directly. The engine's frame delta is the `dt`
parameter.

Facts about the code that shape the model:
- Visibility is only the `uiActive`/`isUIVisible` flag plus the canvas flag;
  there is no fade-state enum.
- Only "Camera" has a panel. "Messages", "Settings" and unknown names only
  dismiss the menu and switch off the main panel.
- Back always closes the camera view and the camera panel.
- `PalmUIController.ShowPalmUI` writes "Palm Interface Active" only when the
  menu was hidden. If the menu is already up, a "Launched: …" status text
  stays.

## Model

| member | source | states |
|---|---|---|
| `PalmMenu.PalmUIManager.Start` | Assets/Scripts/PalmUIManager.cs:38-45 | after start the palm canvas and camera panel are off, `uiActive` and `gestureActive` are false, `hideTimer` is 0, and the invariant holds |
| `PalmMenu.PalmUIManager.ShowPalmUI` | Assets/Scripts/PalmUIManager.cs:65-72 | whatever the prior state, the menu is active with the gesture held, the timer is reset to 0 and the canvas is on, so a pending hide is cancelled; the panels do not change |
| `PalmMenu.PalmUIManager.StartHideTimer` | Assets/Scripts/PalmUIManager.cs:74-78 | the gesture is released and the timer is reset to 0; `uiActive`, the canvas and the panels do not change |
| `PalmMenu.PalmUIManager.HandleHideTimer` | Assets/Scripts/PalmUIManager.cs:80-90 | with the gesture held nothing changes; otherwise the timer grows by `dt` and the menu stays up exactly when the new timer is below `hideDelay` |
| `PalmMenu.PalmUIManager.HidePalmUI` | Assets/Scripts/PalmUIManager.cs:92-98 | `uiActive`, `gestureActive` and the canvas are all off; the timer and the panels do not change |
| `PalmMenu.PalmUIManager.Update` | Assets/Scripts/PalmUIManager.cs:56-63 | a frame changes nothing while the menu is inactive or the gesture is held; otherwise it adds `dt` to the timer and hides exactly when the timer reaches `hideDelay` (`>=`) |
| `PalmMenu.PalmUIManager.LaunchApp` | Assets/Scripts/PalmUIManager.cs:158-179 | the main panel goes off and the menu is hidden for every name; only "Camera" turns on the camera panel and opens the camera view; other names change no other panel, and the camera selection does not change |
| `PalmMenu.PalmUIManager.BackToMain` | Assets/Scripts/PalmUIManager.cs:181-186 | the camera view and the camera panel are off and the main panel is on; `uiActive`, `gestureActive`, the timer and the camera selection do not change |
| `PalmMenu.RunKeepsConsistent` | Assets/Scripts/PalmUIManager.cs:56-98 | along any sequence of gesture, frame and button events, the canvas is on exactly while the menu is active, a held gesture means an active menu with the timer at 0, and with a positive delay an active menu never has an expired timer |
| `PalmMenu.FramesWhileHidden` | Assets/Scripts/PalmUIManager.cs:56-63 | frames leave a hidden menu exactly as it was, timer included |
| `PalmMenu.HidesOnceDelayReached` | Assets/Scripts/PalmUIManager.cs:80-90 | after a release, a run of frames leaves the menu up exactly when the accumulated idle time is below `hideDelay`, and then the timer equals that time |
| `PalmController.ButtonName` | Assets/Scripts/Core/PalmUIController.cs:120-124 | a button index has a name exactly when it is in 0..3; the name is the index's entry of Messages/Camera/Settings/Apps |
| `PalmController.PalmUIController.Start` | Assets/Scripts/Core/PalmUIController.cs:22-31 | after start the menu is hidden with the canvas off and the timer at 0, and the invariant holds |
| `PalmController.PalmUIController.ShowPalmUI` | Assets/Scripts/Core/PalmUIController.cs:72-80 | idempotent: if already visible nothing changes; otherwise the menu becomes visible, the canvas comes on and the status text is "Palm Interface Active"; the timer is untouched |
| `PalmController.PalmUIController.HidePalmUI` | Assets/Scripts/Core/PalmUIController.cs:82-89 | idempotent: if already hidden nothing changes; otherwise the menu and canvas go off; the timer and status text are untouched |
| `PalmController.PalmUIController.CheckPalmGesture` | Assets/Scripts/Core/PalmUIController.cs:42-70 | palm visible and hand steady: visible with the timer at 0; otherwise the timer grows by `dt` and the menu stays up exactly when it was up and the timer is at most `hideDelay` (`>`); the wrist sample is stored |
| `PalmController.PalmUIController.UpdateUIPosition` | Assets/Scripts/Core/PalmUIController.cs:91-103 | the canvas moves only while the menu is visible, to `palmOffset` along the palm normal from the palm |
| `PalmController.PalmUIController.Update` | Assets/Scripts/Core/PalmUIController.cs:33-40 | without a tracked hand and an initialised skeleton nothing changes; otherwise it runs the gesture check, then places a visible canvas at the new palm sample |
| `PalmController.PalmUIController.OnButtonPressed` | Assets/Scripts/Core/PalmUIController.cs:120-145 | indexes 0..3 succeed and set the status text to "Launched: " plus the app name; any other index fails, as the lookup raises, and leaves the status text alone |
| `PalmController.RunKeepsConsistent` | Assets/Scripts/Core/PalmUIController.cs:33-89 | along any sequence of frames and button presses, the canvas is on exactly while the menu is visible, and with a non-negative delay a visible menu's timer is at most `hideDelay` |
| `PalmController.HidesOnlyAfterDelayPassed` | Assets/Scripts/Core/PalmUIController.cs:62-69 | with the palm turned away, the timer ends up as its start value plus the idle time, even after hiding; the menu stays up exactly while that total is at most `hideDelay`, so a total equal to the delay does not hide |
| `PalmController.IdleWhileHidden` | Assets/Scripts/Core/PalmUIController.cs:62-69 | while hidden, idle frames only advance the timer |
| `PalmController.MoveTowards` | Assets/Scripts/Core/PalmUIController.cs:205 | with a non-negative step the result lies between the current value and the target, moves by at most the step, and ends the step closer to the target, or at it |
| `PalmController.PalmUIAnimator.Start` | Assets/Scripts/Core/PalmUIController.cs:183-188 | the canvas group starts transparent with the target hidden |
| `PalmController.PalmUIAnimator.SetVisible` | Assets/Scripts/Core/PalmUIController.cs:195-198 | only the target changes; alpha does not |
| `PalmController.PalmUIAnimator.AnimateVisibility` | Assets/Scripts/Core/PalmUIController.cs:200-207 | alpha moves towards 1 if the target is visible, else 0, by at most `fadeSpeed * dt`, without overshooting; the target does not change |
| `PalmController.AnimatedCloses` | Assets/Scripts/Core/PalmUIController.cs:205 | one frame takes `fadeSpeed * dt` off the distance to the target, and never goes below zero |
| `PalmController.AlphaStaysInRange` | Assets/Scripts/Core/PalmUIController.cs:195-207 | with a non-negative fade speed and frame deltas, alpha stays in [0, 1] through any mix of target changes and frames |
| `PalmController.FadeClosesBy` | Assets/Scripts/Core/PalmUIController.cs:200-207 | with a fixed target, a run of frames takes the sum of the per-frame steps off the distance to the target, and never goes below zero |
| `PalmController.TravelIsSpeedTimesTime` | Assets/Scripts/Core/PalmUIController.cs:205 | the per-frame steps add up to `fadeSpeed` times the total time |
| `PalmController.FadeCloses` | Assets/Scripts/Core/PalmUIController.cs:200-207 | with a fixed target, after frames of total length T the distance left is the initial distance less `fadeSpeed * T`, or zero |
| `CameraApp.Other` | Assets/Scripts/CameraAppManager.cs:48-54 | switching from the back camera gives the front one, and from the front one the back one |
| `CameraApp.OtherInvolutive` | Assets/Scripts/CameraAppManager.cs:48-54 | two switches bring back the camera one started from |
| `CameraApp.CameraAppManager.Start` | Assets/Scripts/CameraAppManager.cs:20-23 | after start the back camera is active, enabled and rendering into the shared texture, and the front camera is disabled |
| `CameraApp.CameraAppManager.OpenCameraView` | Assets/Scripts/CameraAppManager.cs:28-31 | the camera view is on; which camera is active, and both cameras' states, do not change |
| `CameraApp.CameraAppManager.CloseCameraView` | Assets/Scripts/CameraAppManager.cs:33-36 | the camera view is off; which camera is active, and both cameras' states, do not change |
| `CameraApp.CameraAppManager.SetActiveCamera` | Assets/Scripts/CameraAppManager.cs:38-46 | the given camera is active, enabled and rendering into the shared texture, and the other one is disabled, which keeps its target texture: exactly one camera is enabled |
| `CameraApp.CameraAppManager.SwitchCamera` | Assets/Scripts/CameraAppManager.cs:48-54 | the active camera becomes the other one, which is enabled and rendering into the texture; the previous one is disabled |
| `VisibilityComparison.ExactDelayHidesOnlyTheGestureMenu` | Assets/Scripts/Core/PalmUIController.cs:62-69 | with the same delay and an idle time exactly equal to it, the gesture menu (`>=`, PalmUIManager.cs line 85) is hidden and the polled menu (`>`) is still up |
| `VisibilityComparison.DefaultDelaysDiffer` | Assets/Scripts/Core/PalmUIController.cs:20 | with each component's default delay (1.0 s polled, 1.5 s gesture, PalmUIManager.cs line 31), an idle time strictly between the two hides the polled menu and keeps the gesture menu up |
| `PalmController.DefaultFadeCompletes` | Assets/Scripts/Core/PalmUIController.cs:177 | with the default fade speed of 5 per second, frames totalling at least 0.2 s bring alpha from anywhere in [0, 1] exactly to its target |
| `VisibilityComparison.AgreeAwayFromTheDelay` | Assets/Scripts/PalmUIManager.cs:80-90 | for any other idle time the two menus agree on whether they are still up |

## Left out

- Placing the canvas on the hand. `PalmUIManager.UpdateUIPosition` (bones, `LookRotation`) is geometry over engine types. The manager's `Update` models only its hide timer.
- The canvas rotation in `PalmUIController.UpdateUIPosition`: only the position is modelled, as exact real vector arithmetic.
- The palm test in `CheckPalmGesture`: the dot product against `showThreshold` and the finger-confidence threshold become the boolean inputs `palmVisible` and `handSteady`.
- The alpha of the fade coroutines `FadeInUI`/`FadeOutUI`. They are frame-suspended loops on the engine's delta. The model keeps their effect on the canvas's active flag, which each sets on its first step.
- The animator's scale animation (`Vector3.MoveTowards` on the panel scale), which is vector float math.
- Photo capture (`CapturePhoto`, `CaptureFromRenderTexture`): texture readback, PNG encoding and file writes are I/O.
- Event wiring: gesture subscription and unsubscription, `onClick` listeners, `OnDestroy`, `SetupUI`'s canvas configuration, and the context-menu shortcuts `SimulateCapture` and `SimulateSwitch`. Handlers are modelled as methods that are called directly.
- Logging, audio, haptics (`SetControllerVibration`), and the empty `Launch*` routines of `PalmUIController`, which only log.
- `NotesAppManager` and `VoiceFeedbackSystem` are not part of this model. They only toggle a game object or play audio.
- Null collaborators: a missing camera, panel or text reference would raise. All references are assumed present. The two cameras are two distinct `CameraId` values, so the case where both fields name the same camera is not modelled.
- The camera manager before its `Start`, when `activeCamera` is still null.
- Engine float semantics: timers, alpha and positions are exact reals. The animator's `MoveTowards` follows the engine's documented definition, where a zero difference counts as positive.
- `PalmController.PalmUIAnimator.AnimateVisibility`: its bounds on the step are stated only when `fadeSpeed * dt` is non-negative. A negative fade speed, which a misconfigured component could have, makes `MoveTowards` step away from the target.
