# unleashed-chaos: the state machines under the demo

The "unleashed chaos" site is a React demo whose global **chaos mode** changes
almost every section. Beneath its styling and animation descriptors sits a set
of small, timer-driven state machines and pure arithmetic rules. This project
models them in Dafny and proves what they promise:

- the two throttles: `useThrottledCallback` and the pointer sampler `useOptimizedMousePosition`;
- the visibility latch `useIntersectionObserver`;
- the mode controller in `App`: toggle, click activation, the 30 s expiry, the theme and the cursor offset;
- the frame-rate sampler `PerformanceMonitor`;
- the shape fields of `InteractiveShapes` and `HeroSection`: generation, update-one-by-id, and pointer influence;
- the transient-item lists of `MiniGame`, `ChaosEffects` and `ChaosButton`;
- the audio-bar data of `SoundReactive`.

Conventions used throughout:

- Time is an integer `now` in milliseconds.
- Every `Math.random()` value is an input real in [0, 1) (`Common.IsDraw`).
- The window size is an input.
- Timers and animation frames are queues of pending records (a handle and a due time). The host fires the head of a queue once it is due; a firing that finds nothing due changes nothing.

Each stateful component has four parts:

- a `State` datatype with pure transition functions, which are the specification;
- a `Run` over a trace of events;
- invariants proved over every trace;
- a class with the component's own fields. Its methods change those fields in place, and each is proved to produce exactly the state its transition function describes.

## Model

| member | source | states |
|---|---|---|
| Common.Scale | src/components/ChaosButton.jsx:48-49 | `Math.random() * span` lies in [0, span) for a positive span, and is 0 for a zero span |
| Common.PickIndex | src/components/InteractiveShapes.jsx:95 | `Math.floor(Math.random() * n)` is a valid index into a list of n > 0 entries |
| Common.Without | src/components/MiniGame.jsx:68 | the filter by id keeps exactly the items whose id differs, and invents none |
| Common.WithoutIdempotent | src/components/MiniGame.jsx:78 | removing the same id twice removes nothing more |
| ThrottledCallback.Call | src/hooks/useThrottledCallback.js:7-23 | the callback runs at once with the given arguments, stamping `now`, exactly when `delay` has elapsed; then an armed timer stays armed. Otherwise nothing runs, and the pending timer is replaced by one carrying these arguments, due at `lastCallTime + delay` (after `now`) |
| ThrottledCallback.Fire | src/hooks/useThrottledCallback.js:19-22 | a due deferred call stamps `lastCallTime` with the firing time and runs the callback with its captured arguments; when nothing is due nothing changes |
| ThrottledCallback.AtMostOnePending | src/hooks/useThrottledCallback.js:14-22 | whatever calls and timer ticks interleave, at most one deferred call is pending |
| ThrottledCallback.RunsAtMostOncePerEvent | src/hooks/useThrottledCallback.js:11-22 | along any trace the log of callback runs only grows, by at most one run per event |
| ThrottledCallback.FirstCallImmediate | src/hooks/useThrottledCallback.js:4-13 | `lastCallTime` starts at 0, so the first call at any `now >= delay` runs immediately |
| ThrottledCallback.ImmediateKeepsPending | src/hooks/useThrottledCallback.js:11-13 | the immediate path leaves an already-armed deferred call armed |
| ThrottledCallback.LatestArgumentsWin | src/hooks/useThrottledCallback.js:15-22 | after two suppressed calls exactly one deferred call is pending, and it carries the second call's arguments |
| ThrottledCallback.StaleTrailingCall | src/hooks/useThrottledCallback.js:11-22 | an older deferred call still runs after a newer immediate one, with its stale arguments |
| ThrottledCallback.Throttle.constructor | src/hooks/useThrottledCallback.js:4-5 | the refs start at 0 and null |
| ThrottledCallback.Throttle.Invoke | src/hooks/useThrottledCallback.js:7-23 | the in-place call leaves the state `Call` describes |
| ThrottledCallback.Throttle.TimerTick | src/hooks/useThrottledCallback.js:19-22 | the in-place timer firing leaves the state `Fire` describes |
| OptimizedMousePosition.Subscribe | src/hooks/useOptimizedMousePosition.js:28 | the `mousemove` listener is registered passive, and nothing else changes |
| OptimizedMousePosition.Move | src/hooks/useOptimizedMousePosition.js:8-25 | outside the throttle window the event's coordinates are committed and the commit time becomes `now`. Inside it the position is unchanged and exactly one frame carrying the coordinates is pending. Without a listener nothing happens |
| OptimizedMousePosition.Flush | src/hooks/useOptimizedMousePosition.js:20-23 | the pending frame commits the coordinates it captured and stamps the flush time |
| OptimizedMousePosition.Unsubscribe | src/hooks/useOptimizedMousePosition.js:30-35 | teardown removes the listener and cancels the pending frame, keeping the position |
| OptimizedMousePosition.AtMostOneFrame | src/hooks/useOptimizedMousePosition.js:14-24 | along any trace at most one flush is pending |
| OptimizedMousePosition.PositionFromEvents | src/hooks/useOptimizedMousePosition.js:12-21 | the committed position is always one the state already knew or one some event carried |
| OptimizedMousePosition.PositionIsOriginOrEvent | src/hooks/useOptimizedMousePosition.js:4 | from the initial state the position is (0, 0) or the coordinates of some event |
| OptimizedMousePosition.QuietAfterTeardown | src/hooks/useOptimizedMousePosition.js:30-35 | after teardown no event and no frame changes the position |
| OptimizedMousePosition.TeardownIdempotent | src/hooks/useOptimizedMousePosition.js:30-35 | tearing down twice is the same as once |
| OptimizedMousePosition.StaleFrameOverwrites | src/hooks/useOptimizedMousePosition.js:11-23 | a frame requested by a suppressed event survives a later immediate commit and then overwrites it with older coordinates |
| OptimizedMousePosition.MousePosition.constructor | src/hooks/useOptimizedMousePosition.js:3-6 | position (0, 0), last commit 0, no frame, the given throttle |
| OptimizedMousePosition.MousePosition.Mount | src/hooks/useOptimizedMousePosition.js:27-28 | in place, the state `Subscribe` describes |
| OptimizedMousePosition.MousePosition.UpdatePosition | src/hooks/useOptimizedMousePosition.js:8-25 | in place, the state `Move` describes |
| OptimizedMousePosition.MousePosition.AnimationFrame | src/hooks/useOptimizedMousePosition.js:20-23 | in place, the state `Flush` describes |
| OptimizedMousePosition.MousePosition.Unmount | src/hooks/useOptimizedMousePosition.js:30-35 | in place, the state `Unsubscribe` describes |
| IntersectionObserver.Merge | src/hooks/useIntersectionObserver.js:9-14 | each option is the caller's value when given, otherwise threshold 0.1, rootMargin '50px', triggerOnce false |
| IntersectionObserver.DefaultOptions | src/hooks/useIntersectionObserver.js:9-14 | with no caller options the defaults apply |
| IntersectionObserver.Observe | src/hooks/useIntersectionObserver.js:16-37 | a new live observer fills the slot exactly when an element is attached and the slot is empty; otherwise nothing changes |
| IntersectionObserver.Entry | src/hooks/useIntersectionObserver.js:19-31 | `isInView` becomes the entry's value and `hasBeenInView` becomes true on an in-view entry and never false; with `triggerOnce` an in-view entry disconnects the observer; without a connected observer nothing happens |
| IntersectionObserver.Teardown | src/hooks/useIntersectionObserver.js:42-45 | the observer is disconnected and the slot emptied; both flags are kept |
| IntersectionObserver.AtMostOneObserver | src/hooks/useIntersectionObserver.js:16-46 | whatever attaches, observes, entries and cleanups happen, at most one observer is live |
| IntersectionObserver.LatchMonotone | src/hooks/useIntersectionObserver.js:23-25 | once true, `hasBeenInView` stays true along any trace |
| IntersectionObserver.LatchNeedsInViewEntry | src/hooks/useIntersectionObserver.js:23-25 | `hasBeenInView` becomes true only through an in-view entry |
| IntersectionObserver.TriggerOnceSticks | src/hooks/useIntersectionObserver.js:28-30 | with `triggerOnce`, after the first in-view entry and until a cleanup, `isInView` stays true, no observer is live and no new one is created |
| IntersectionObserver.SilentWhileDisconnected | src/hooks/useIntersectionObserver.js:17-31 | while the slot holds a disconnected observer, no event short of a cleanup connects one or changes either flag |
| IntersectionObserver.CleanupAllowsFreshObserver | src/hooks/useIntersectionObserver.js:39-46 | after cleanup a later `observe` creates a fresh observer |
| IntersectionObserver.VisibilityLatch.constructor | src/hooks/useIntersectionObserver.js:4-14 | both flags false, no element, no observer, merged options |
| IntersectionObserver.VisibilityLatch.AttachElement | src/hooks/useIntersectionObserver.js:6 | in place, the element is attached |
| IntersectionObserver.VisibilityLatch.ObserveElement | src/hooks/useIntersectionObserver.js:16-37 | in place, the state `Observe` describes |
| IntersectionObserver.VisibilityLatch.OnEntry | src/hooks/useIntersectionObserver.js:19-31 | in place, the state `Entry` describes |
| IntersectionObserver.VisibilityLatch.Cleanup | src/hooks/useIntersectionObserver.js:42-45 | in place, the state `Teardown` describes |
| App.Click | src/App.jsx:166-175 | a click while off turns the mode on and arms exactly one expiry due 30000 ms later; a click while on changes nothing |
| App.Toggle | src/App.jsx:178-180 | the mode is negated and the pending expiries are untouched |
| App.Expire | src/App.jsx:171 | a due expiry turns the mode off, whatever it was; when none is due nothing changes |
| App.ToggleTwice | src/App.jsx:178-180 | two toggles restore the original state |
| App.OneClickActivates | src/App.jsx:167-175 | one click activates from the initial state; there is no click counter |
| App.NoToggleKeepsOneTimer | src/App.jsx:166-175 | without toggles, the mode is on exactly when one expiry is pending, and never more than one is |
| App.StaysOnUntilExpiry | src/App.jsx:168-172 | activated by a click and never toggled, the mode stays on for every event before the expiry is due |
| App.OffAtExpiry | src/App.jsx:171 | a click at t0 followed by the expiry at t0 + 30000 leaves the mode off |
| App.StaleExpiryEndsLaterActivation | src/App.jsx:171-180 | toggles do not cancel expiries, so an old timer ends a later activation early |
| App.TimersAccumulate | src/App.jsx:171-180 | n click-then-toggle rounds leave the mode off and n more pending expiries: the number of timers is unbounded |
| App.Cursor | src/App.jsx:97-106 | width, height and glow radius are equal, even and positive, and the chaos cursor is twice the calm one |
| App.CursorTarget | src/App.jsx:186-189 | the cursor offset of 20 px (chaos) or 10 px puts the centre of the 40 or 20 px cursor exactly on the pointer |
| App.CreateTheme | src/App.jsx:9-35 | text is white; primary, secondary and accent are three distinct colours; the chaos secondary is the calm primary |
| App.ThemeDependsOnlyOnPalette | src/App.jsx:9-35 | text is always '#ffffff'; spacing, breakpoints and animations do not depend on the mode; primary and background tell the modes apart |
| App.ModeController.constructor | src/App.jsx:157 | chaos mode starts off with no timers |
| App.ModeController.HandleClick | src/App.jsx:166-176 | in place, the state `Click` describes |
| App.ModeController.ToggleChaosMode | src/App.jsx:178-180 | in place, the state `Toggle` describes |
| App.ModeController.ExpiryTick | src/App.jsx:171 | in place, the state `Expire` describes |
| PerformanceMonitor.RoundRatio | src/components/PerformanceMonitor.jsx:90 | `Math.round(n / d)` is the integer nearest to n / d, with halves rounded up |
| PerformanceMonitor.RoundHundredths | src/components/PerformanceMonitor.jsx:108 | rounding to two decimals moves the value by at most 0.005 |
| PerformanceMonitor.MemoryMB | src/components/PerformanceMonitor.jsx:95-97 | heap bytes rounded to whole MB when the host exposes them, 0 otherwise |
| PerformanceMonitor.Sample | src/components/PerformanceMonitor.jsx:84-115 | every frame counts one frame. Before 1000 ms have elapsed the metrics are untouched. At window close, fps is the rounded frames-per-second, the counter resets, the window restarts at `now`, and memory, render time and element count are published. Each frame stamps the render start and appends one frame request, cancelling none; that request becomes the handle the effect's cleanup will cancel |
| PerformanceMonitor.Start | src/components/PerformanceMonitor.jsx:79-117 | the effect returns at once, leaving no cleanup, while hidden, and samples once while visible |
| PerformanceMonitor.FrameTick | src/components/PerformanceMonitor.jsx:114 | a display frame with no requested frame changes nothing; otherwise it consumes the oldest request and runs `updateMetrics` on the rest: it counts the frame, may close the window and publish the metrics, stamps the render start and appends the next request |
| PerformanceMonitor.Cancel | src/components/PerformanceMonitor.jsx:121 | `cancelAnimationFrame` drops exactly the request with the given handle |
| PerformanceMonitor.Cleanup | src/components/PerformanceMonitor.jsx:119-123 | the cleanup cancels only the frame its own run requested last, and keeps the metrics and visibility |
| PerformanceMonitor.ToggleVisible | src/components/PerformanceMonitor.jsx:79-139 | the toggle flips visibility and the effect re-runs after its cleanup. Hiding is exactly that cleanup: the live run's frame is cancelled, and metrics, counter, window and render stamp are kept. Showing runs `updateMetrics` at once: it counts a frame, may close the window and publish, stamps the render start and requests a frame |
| PerformanceMonitor.StepKeepsLoopInv | src/components/PerformanceMonitor.jsx:80-123 | one event, where the effect runs on its own only with no frame pending, keeps the loop invariant: at most one pending frame, none while hidden, and it is the one the cleanup cancels |
| PerformanceMonitor.LoopOnlyWhileVisible | src/components/PerformanceMonitor.jsx:80-124 | along any trace in which the effect reruns only after its cleanup, no frame is pending while hidden and at most one is pending |
| PerformanceMonitor.RerunWithoutCleanupDoublesLoop | src/components/PerformanceMonitor.jsx:114-123 | the bound depends on that order: a second effect run while a frame is pending leaves two loops running |
| PerformanceMonitor.WindowsAtLeastOneSecond | src/components/PerformanceMonitor.jsx:89-92 | the metrics change only when a window closes, and each window lasts at least 1000 ms |
| PerformanceMonitor.FpsAtMostFrames | src/components/PerformanceMonitor.jsx:89-90 | over a window of at least 1000 ms the published fps never exceeds the frames counted |
| PerformanceMonitor.SixtyFramesSixtyFps | src/components/PerformanceMonitor.jsx:90 | 60 frames over exactly 1000 ms give 60 fps |
| PerformanceMonitor.RowColour | src/components/PerformanceMonitor.jsx:58-62 | the warning colour takes precedence; the error colour shows exactly when only error is set |
| PerformanceMonitor.FpsColour | src/components/PerformanceMonitor.jsx:150 | fps shows the warning colour exactly below 50 and never the error colour, since below 30 implies below 50 |
| PerformanceMonitor.MemoryColour | src/components/PerformanceMonitor.jsx:156 | memory shows the warning colour exactly above 50 MB and never the error colour, since above 100 implies above 50 |
| PerformanceMonitor.Rows | src/components/PerformanceMonitor.jsx:150-170 | the FPS row comes first in `FpsColour`; the memory row, in `MemoryColour`, is shown second exactly when memory is non-zero; render time warns above 16 ms and element count above 1000; no row is in the error colour |
| PerformanceMonitor.Renders | src/components/PerformanceMonitor.jsx:127-133 | the monitor renders when enabled, and otherwise exactly on 'localhost' |
| PerformanceMonitor.Monitor.constructor | src/components/PerformanceMonitor.jsx:68-77 | zero metrics, visibility from `enabled`, window start at mount time |
| PerformanceMonitor.Monitor.UpdateMetrics | src/components/PerformanceMonitor.jsx:84-115 | in place, the state `Sample` describes |
| PerformanceMonitor.Monitor.StartEffect | src/components/PerformanceMonitor.jsx:79-117 | in place, the state `Start` describes |
| PerformanceMonitor.Monitor.AnimationFrame | src/components/PerformanceMonitor.jsx:114 | in place, the state `FrameTick` describes |
| PerformanceMonitor.Monitor.CleanupEffect | src/components/PerformanceMonitor.jsx:119-123 | in place, the state `Cleanup` describes |
| PerformanceMonitor.Monitor.ToggleVisibility | src/components/PerformanceMonitor.jsx:139 | in place, the state `ToggleVisible` describes |
| InteractiveShapes.NewShape | src/components/InteractiveShapes.jsx:95-108 | id i and scale 1; size in [40, 120) for width and height; x in [0, W - size) and y in [0, H - size); rotationSpeed in [-1, 1); kind and background from the configured lists; a hue rotation in [0, 360) in chaos mode, no filter otherwise |
| InteractiveShapes.BuildShapes | src/components/InteractiveShapes.jsx:74-110 | the loop yields exactly `count` shapes (12 in chaos mode, 8 otherwise), with ids 0..count-1 and scale 1 |
| InteractiveShapes.ClickShape | src/components/InteractiveShapes.jsx:115-124 | the click keeps length, order and ids and leaves every other shape unchanged. The clicked shape's scale goes from 1 to 1.3 and otherwise back to 1, its x and y stay in [0, W - width) x [0, H - height), and nothing else about it changes |
| InteractiveShapes.DoubleClickRestoresScale | src/components/InteractiveShapes.jsx:121 | clicking the same shape twice restores every scale, when the scales were 1 or 1.3 |
| InteractiveShapes.Influence | src/components/InteractiveShapes.jsx:167-168 | influence lies in [0, 1]; it is 0 exactly when the distance reaches `maxDistance` (250 in chaos mode, 200 otherwise) and 1 at distance 0 |
| InteractiveShapes.InfluenceFades | src/components/InteractiveShapes.jsx:168 | influence never grows as the pointer moves away |
| InteractiveShapes.Target | src/components/InteractiveShapes.jsx:169-183 | the x/y target lies between the shape and the pointer, at most 20% (chaos) or 10% of the way. The scale lies in [scale, scale + 0.4] or [scale, scale + 0.2]. The rotation is bounded by 180 or 90 times the rotation speed. Out of reach, the shape stays at rest |
| InteractiveShapes.PoseAt | src/components/InteractiveShapes.jsx:179-184 | at influence f the pose obeys each field's bound, and at f = 0 it is the rest pose |
| InteractiveShapes.Displace | src/components/InteractiveShapes.jsx:180-181 | the displaced coordinate lies between the shape and the pointer, at most fraction `intensity` of the way, and stays put at influence 0 |
| InteractiveShapes.Turn | src/components/InteractiveShapes.jsx:182 | the rotation lies within 180 or 90 times the rotation speed either way, and is 0 at influence 0 |
| InteractiveShapes.Grow | src/components/InteractiveShapes.jsx:183 | the scale lies between the shape's scale and that plus the boost, and is unchanged at influence 0 |
| InteractiveShapes.FarPointerLeavesShape | src/components/InteractiveShapes.jsx:164-168 | a pointer farther than `maxDistance` along either axis leaves the shape at rest |
| InteractiveShapes.Render | src/components/InteractiveShapes.jsx:162-184 | nothing is rendered out of view; in view, pose i is exactly `Target` of shape i at its distance, so every bound proved for `Target` holds for each rendered shape |
| InteractiveShapes.ShapesView.constructor | src/components/InteractiveShapes.jsx:61 | the shape list starts empty |
| InteractiveShapes.ShapesView.GenerateShapes | src/components/InteractiveShapes.jsx:90-132 | out of view the list is unchanged; otherwise it becomes `count` fresh shapes with ids 0..count-1 |
| InteractiveShapes.ShapesView.HandleShapeClick | src/components/InteractiveShapes.jsx:114-125 | in place, the list `ClickShape` describes |
| MiniGame.SetChaos | src/components/MiniGame.jsx:46-74 | the game becomes active exactly with chaos mode. Activation resets the score and arms the 1000 ms spawn interval. Deactivation empties the targets and clears the interval. Pending removals are untouched |
| MiniGame.Spawn | src/components/MiniGame.jsx:58-70 | a due tick appends exactly one target at the end, with id `now` and position in [0, W - 100) x [0, H - 100); it arms its removal 2000 ms later and keeps the others unchanged |
| MiniGame.Expire | src/components/MiniGame.jsx:67-69 | a due removal drops exactly the targets with its id and keeps the others in order |
| MiniGame.Click | src/components/MiniGame.jsx:76-79 | a click adds exactly 10 points, whether or not a target with that id remains, and removes exactly the targets with that id |
| MiniGame.View | src/components/MiniGame.jsx:81-117 | nothing is rendered exactly while chaos mode is off; otherwise the score and the targets |
| MiniGame.InitInv | src/components/MiniGame.jsx:42-54 | the mounted game has score 0, no targets, is active exactly with chaos mode, and satisfies the invariant |
| MiniGame.InvPreserved | src/components/MiniGame.jsx:46-79 | along any trace: active exactly with chaos mode, an interval exactly while active, no targets while inactive |
| MiniGame.ScoreMultipleOfTen | src/components/MiniGame.jsx:49-77 | the score is always a multiple of 10 |
| MiniGame.ScoreGrowsWhileActive | src/components/MiniGame.jsx:47-77 | while the game is active and the mode does not change, the game stays active and the score never goes down |
| MiniGame.SpawnThenExpireOther | src/components/MiniGame.jsx:65-68 | a spawned target survives the removal of any other id |
| MiniGame.CoveredPreserved | src/components/MiniGame.jsx:65-69 | every target on screen keeps a pending removal with its id, across any one event |
| MiniGame.NoTargetOutlivesItsTimer | src/components/MiniGame.jsx:65-69 | along any trace every target on screen has a pending removal with its id |
| MiniGame.ClickOnVanishedTargetScores | src/components/MiniGame.jsx:76-79 | a click on an id no target has any more still scores 10 and changes nothing else |
| MiniGame.OffKeepsRemovalsArmed | src/components/MiniGame.jsx:50-69 | turning chaos mode off clears targets and interval but leaves the removal timers armed |
| MiniGame.Game.constructor | src/components/MiniGame.jsx:42-74 | in place, the mounted state `Init` describes |
| MiniGame.Game.ChaosChanged | src/components/MiniGame.jsx:46-74 | in place, the state `SetChaos` describes |
| MiniGame.Game.IntervalTick | src/components/MiniGame.jsx:58-70 | in place, the state `Spawn` describes |
| MiniGame.Game.TimeoutTick | src/components/MiniGame.jsx:67-69 | in place, the state `Expire` describes |
| MiniGame.Game.HandleTargetClick | src/components/MiniGame.jsx:76-79 | in place, the state `Click` describes |
| ChaosEffects.NewElement | src/components/ChaosEffects.jsx:45-54 | id in [now, now + 1); x in [0, W), y in [0, H); size in [20, 60); hue in [0, 360). An emoji exactly when the draw exceeds 0.5, with an index into the 10-entry list; otherwise one of the five phrases |
| ChaosEffects.SetChaos | src/components/ChaosEffects.jsx:40-76 | turning chaos on arms the 500 ms spawn and 3000 ms shake intervals; turning it off clears both; elements, removals and the shake flag are untouched; an unchanged mode changes nothing |
| ChaosEffects.Spawn | src/components/ChaosEffects.jsx:44-61 | a due spawn tick appends exactly one element and arms its removal 3000 ms later, keeping the others |
| ChaosEffects.Expire | src/components/ChaosEffects.jsx:58-60 | a due removal drops exactly the elements with its id and keeps the others in order |
| ChaosEffects.Shake | src/components/ChaosEffects.jsx:69-72 | a due shake tick sets the shake flag and arms its reset 200 ms later |
| ChaosEffects.Unshaken | src/components/ChaosEffects.jsx:71 | a due reset clears the shake flag |
| ChaosEffects.InitInv | src/components/ChaosEffects.jsx:37-76 | the mounted component has no elements and satisfies the invariant |
| ChaosEffects.InvPreserved | src/components/ChaosEffects.jsx:40-76 | along any trace both intervals run exactly while chaos mode is on, and a shaking screen has a pending reset |
| ChaosEffects.OffKeepsElements | src/components/ChaosEffects.jsx:63-65 | turning chaos off stops both intervals but keeps the elements and their removals |
| ChaosEffects.QuietWhileOff | src/components/ChaosEffects.jsx:43-68 | while chaos mode stays off, the element list only shrinks and the screen does not start shaking |
| ChaosEffects.CoveredPreserved | src/components/ChaosEffects.jsx:56-60 | every element on screen keeps a pending removal with its id, across any one event |
| ChaosEffects.NoElementOutlivesItsTimer | src/components/ChaosEffects.jsx:56-60 | along any trace every element on screen has a pending removal with its id |
| ChaosEffects.ShakeLastsTwoHundredMs | src/components/ChaosEffects.jsx:69-72 | from chaos on at 0 the screen shakes at 3000 and stops at 3200 |
| ChaosEffects.Effects.constructor | src/components/ChaosEffects.jsx:36-76 | in place, the mounted state `Init` describes |
| ChaosEffects.Effects.ChaosChanged | src/components/ChaosEffects.jsx:40-76 | in place, the state `SetChaos` describes |
| ChaosEffects.Effects.SpawnTick | src/components/ChaosEffects.jsx:44-61 | in place, the state `Spawn` describes |
| ChaosEffects.Effects.RemovalTick | src/components/ChaosEffects.jsx:58-60 | in place, the state `Expire` describes |
| ChaosEffects.Effects.ShakeTick | src/components/ChaosEffects.jsx:69-72 | in place, the state `Shake` describes |
| ChaosEffects.Effects.UnshakeTick | src/components/ChaosEffects.jsx:71 | in place, the state `Unshaken` describes |
| ChaosButton.Click | src/components/ChaosButton.jsx:44-58 | a click appends exactly one explosion (id `now`, position in [0, W) x [0, H)), arms its removal 1000 ms later and calls `onToggle` once |
| ChaosButton.Expire | src/components/ChaosButton.jsx:54-56 | a due removal drops exactly the explosions with its id; `onToggle` is not called |
| ChaosButton.CaptionTellsMode | src/components/ChaosButton.jsx:77 | the two labels differ, so the label tells the mode |
| ChaosButton.OneTogglePerClick | src/components/ChaosButton.jsx:44-58 | along any trace `onToggle` runs exactly once per click, and there are never more new explosions than clicks |
| ChaosButton.CoveredPreserved | src/components/ChaosButton.jsx:51-56 | every explosion on screen keeps a pending removal with its id, across any one event |
| ChaosButton.NoExplosionOutlivesItsTimer | src/components/ChaosButton.jsx:51-56 | along any trace every explosion on screen has a pending removal with its id |
| ChaosButton.ClickThenExpire | src/components/ChaosButton.jsx:44-58 | a click followed by its timeout leaves no explosion and one toggle |
| ChaosButton.Button.constructor | src/components/ChaosButton.jsx:42 | the explosion list starts empty |
| ChaosButton.Button.HandleClick | src/components/ChaosButton.jsx:44-58 | in place, the state `Click` describes |
| ChaosButton.Button.TimeoutTick | src/components/ChaosButton.jsx:54-56 | in place, the state `Expire` describes |
| HeroSection.NewShape | src/components/HeroSection.jsx:95-108 | id i; size in [20, 120); x in [0, W) and y in [0, H); a colour from the five; rounded exactly when the draw exceeds 0.5 |
| HeroSection.BuildShapes | src/components/HeroSection.jsx:92-111 | the loop yields exactly 15 shapes, the i-th being shape i |
| HeroSection.Generated | src/components/HeroSection.jsx:93-97 | generation as a value: 15 shapes with ids 0..14 and sizes in [20, 120) |
| HeroSection.Scatter | src/components/HeroSection.jsx:128-136 | `handleChaosMode` keeps count, ids, colours and roundness; the new size lies in [30, 180) and the position in [0, W) x [0, H) |
| HeroSection.Moved | src/components/HeroSection.jsx:130-135 | one shape keeps id, colour and roundness and gets size in [30, 180) and an in-window position |
| HeroSection.FollowTarget | src/components/HeroSection.jsx:147-148 | the follow target is exactly 10% of the way from the shape to the pointer |
| HeroSection.Mount | src/components/HeroSection.jsx:91-120 | mounting generates the shapes and registers both listeners |
| HeroSection.Resize | src/components/HeroSection.jsx:114 | a resize regenerates the shapes while its listener is registered |
| HeroSection.MouseMove | src/components/HeroSection.jsx:116-120 | the pointer state becomes the event's coordinates with no throttling, while the listener is registered |
| HeroSection.Unmount | src/components/HeroSection.jsx:122-125 | teardown removes both listeners |
| HeroSection.ShapesStayWellFormed | src/components/HeroSection.jsx:91-136 | along any trace the list is empty or 15 shapes with ids 0..14 in order, each sized in [20, 180) and coloured from the five |
| HeroSection.GeneratedColors | src/components/HeroSection.jsx:100-106 | every generated colour is one of the five |
| HeroSection.DeafAfterUnmount | src/components/HeroSection.jsx:122-125 | after teardown no resize or pointer move changes anything |
| HeroSection.Hero.constructor | src/components/HeroSection.jsx:88-89 | no shapes, pointer at (0, 0), no listeners |
| HeroSection.Hero.MountEffect | src/components/HeroSection.jsx:91-126 | in place, the state `Mount` describes |
| HeroSection.Hero.WindowResize | src/components/HeroSection.jsx:114 | in place, the state `Resize` describes |
| HeroSection.Hero.HandleMouseMove | src/components/HeroSection.jsx:116-118 | in place, the state `MouseMove` describes |
| HeroSection.Hero.HandleChaosMode | src/components/HeroSection.jsx:128-136 | in place, the list `Scatter` describes; pointer and listeners untouched |
| HeroSection.Hero.Cleanup | src/components/HeroSection.jsx:122-125 | in place, the state `Unmount` describes |
| SoundReactive.RandomBeat | src/components/SoundReactive.jsx:84-91 | a beat has 80 bars in chaos mode and 50 otherwise, each in [0, 150) or [0, 100) |
| SoundReactive.Normalise | src/components/SoundReactive.jsx:150 | at most 50 entries (all of them when fewer), each in [0, 100]. A value is 0 exactly for byte 0 and 100 exactly for byte 255, and larger bytes never give smaller values |
| SoundReactive.BarHeight | src/components/SoundReactive.jsx:207 | the height is at least 10, at least value x 3 (chaos) or x 2, and equal to one of them |
| SoundReactive.BarHeightMonotone | src/components/SoundReactive.jsx:207 | louder bars are never shorter |
| SoundReactive.JsRem | src/components/SoundReactive.jsx:208 | JavaScript's `%` differs from x by a multiple of m and takes the dividend's sign: in [0, m) for x >= 0, in (-m, 0] otherwise |
| SoundReactive.BarHue | src/components/SoundReactive.jsx:208 | the hue lies in [0, 360) for non-negative values and differs from `value * 3 + index * 7` by a multiple of 360 |
| SoundReactive.NegativeValueNegativeHue | src/components/SoundReactive.jsx:208 | the hue bound needs non-negative values: value -1 at index 0 gives -3 |
| SoundReactive.Bars | src/components/SoundReactive.jsx:202-208 | one bar per value; bar i has height `BarHeight(data[i])` and hue `BarHue(data[i], i)`, so it is at least 10 high and, for a non-negative value, has a hue in [0, 360) |
| SoundReactive.Init | src/components/SoundReactive.jsx:76-77 | initially not playing, with 80 (chaos) or 50 zero bars |
| SoundReactive.StartStop | src/components/SoundReactive.jsx:93-112 | the button flips `isPlaying`. Stopping cancels the pending frame if `animationRef` holds one, leaves the frames as they are otherwise, and draws nothing. Starting draws exactly one beat and requests no frame, because the re-request tests the `isPlaying` captured before the update |
| SoundReactive.Analysed | src/components/SoundReactive.jsx:149-151 | the analyser step replaces the bars with the normalised bytes |
| SoundReactive.Teardown | src/components/SoundReactive.jsx:172-181 | the cleanup drops exactly the frame `animationRef` holds, if any, and no other; it closes the audio context if there is one; the refs, data and `isPlaying` are kept |
| SoundReactive.NoAnimationLoop | src/components/SoundReactive.jsx:93-111 | along any trace no animation frame is pending and the bar values stay non-negative, so every hue lies in [0, 360) |
| SoundReactive.StartThenStop | src/components/SoundReactive.jsx:93-112 | start then stop leaves the drawn beat on screen, nothing playing and no frame |
| SoundReactive.Visualizer.constructor | src/components/SoundReactive.jsx:76-82 | in place, the first render `Init` describes |
| SoundReactive.Visualizer.GenerateRandomBeat | src/components/SoundReactive.jsx:84-91 | in place, the bars become `RandomBeat` |
| SoundReactive.Visualizer.StartVisualization | src/components/SoundReactive.jsx:93-112 | in place, the state `StartStop` describes |
| SoundReactive.Visualizer.Cleanup | src/components/SoundReactive.jsx:172-181 | in place, the state `Teardown` describes |

## Left out

- Styling and animation descriptors are left out: styled-components CSS, framer-motion `animate`/`transition`/hover objects and spring physics. They are visual and run by a library that is not part of this model. The section titles, which only switch text by mode, are left out too.
- ScrollMagic, ParticleBackground and ChaosGallery are left out, as are `useWindowEvent`, the Vite and ESLint configurations, and the `Suspense`/lazy loading in `App`. They hold no logic of their own, or their behaviour lives in foreign libraries.
- React scheduling is left out: batching, effect re-run order, and the order between `ChaosButton`'s `onToggle` and `App`'s window click listener. Each event or effect is one atomic step of the model. A prop change is modelled as the render plus the effects it triggers.
- The Web Audio and FileReader pipeline of `SoundReactive` (decoding, the analyser nodes, the upload error paths) is left out. Only its data update (the normalised bytes) is modelled. The model therefore never sets `animationRef` and never opens an audio context by itself; both are state fields that teardown handles.
- SoundReactive.NoAnimationLoop: holds because the upload path, which can set `isPlaying` and request frames from its own closure, is not modelled.
- Clocks, randomness and host queries are inputs: `Date.now`, `performance.now`, `Math.random`, the window size, `performance.memory` and the `document.querySelectorAll` count.
- Numbers are reals or unbounded integers, not IEEE doubles. `Math.round` is integer round-half-up, or, in RoundHundredths, a real within 0.005.
- InteractiveShapes.Target: the distance `Math.sqrt(...)` is an input `d`, constrained to be the non-negative root of the squared offsets. The hover and tap scales are left out.
- ChaosEffects.NewElement: the emoji list is represented by an index. The source file holds those emojis as mis-encoded text, which the model does not reproduce. The HSL colour string is represented by its hue.
- HeroSection.Hero.HandleChaosMode: its contract is stated with `old` on the fields, not through `Snapshot`, because the draws for the scatter are a function.
- Timers are fired in the order they were armed. This is the order of their due times whenever they share one delay, which is how the source arms them.
- There is no concurrency: timers, frames and events are sequential steps on one thread.
