# touchdez gesture pipeline, modelled in Dafny

This project models the sequential core of the touchdez webcam hand-gesture
pipeline and proves properties of it. Each camera frame goes through the same steps:

1. MediaPipe's 21 hand landmarks are classified into one of three gestures, or none.
2. The result is published to a shared dashboard record.
3. It is streamed as OSC messages over UDP.
4. It is drawn as a white overlay: the skeleton, keypoints, a k-nearest-neighbour "constellation" and a text stack.
5. On a change of gesture it is logged and the frame is saved.

The settings come from built-in defaults deep-merged with an optional YAML file.

The model has one module per source file:

- `SymbolicHooks` (`gestures/symbolic_hooks.py`): the threshold classifier, as pure functions.
  - Square roots are avoided: each normalised-distance comparison `sqrt(D) / (sqrt(S) + 1e-6) > c` is decided exactly on the squared distances.
  - A bridge lemma shows this agrees with the real-valued comparison.
- `Dashboard` (`dashboard_state.py`): the shared record, as a class whose `Update` overwrites fields and whose `Get` returns a copy of the record.
- `OscOutput` (`osc_output.py`): the emitter, as a class.
  - The UDP client is the sequence of messages handed to it (`sent`); each call extends it.
  - Landmark flattening is a loop proved against `Flatten`, and `Unflatten` is its inverse.
  - Python's attribute lookup on an emitter (instance attributes first, then the class's functions) is modelled, to show what the constructor's flag does to the `send_landmarks` method.
- `Renderer` (`renderer.py`): the overlay, drawn onto a `Canvas` class that records draw commands (lines, circles, text) rather than pixels.
  - Each drawing method is proved against a function that lists the commands it issues.
  - The neighbour order is a stable sort by squared distance; it is proved to be a sorted permutation.
- `Config` (`main.py`, `DEFAULT_CONFIG` and `load_config`): the merge as a pure function over parsed YAML values.
  - Python's exceptions are error results.
  - The merge is stated over any base configuration that has the three sections; `LoadConfig` applies it to the defaults.
- `FrameLoop` (`main.py`, the body of `main`): the per-frame state machine.
  - It has a specification level: `NextState`, `FrameOsc`, `FrameLog` and `FrameSaves` describe one frame, and `RunState`, `RunLog`, `RunOsc` and `RunSaves` describe a run of frames.
  - It has an imperative level: the `CaptureLoop` class, whose `Step` and `Run` methods drive the dashboard, the emitter and the renderer and are proved to follow the specification.
  - Each frame input carries the classifier's verdict next to the hands. `Step` classifies the hands itself, and the loop requires every frame to be `Observed`: its verdict is `Classify` of its hands.
  - `CaptureLoop` drives the corrected emitter, whose streaming flag is `landmarksEnabled`, so its landmark call never raises. As written, main.py:209-210 raises `TypeError` on the first frame when OSC and landmark streaming are both on; `FrameOscAsWrittenFails` states that behaviour.
  - The camera, the clock, the timestamp formatter and the `q` key are inputs of each frame.
  - A failed frame grab is the end of the input sequence.
- `Startup` (`main.py`, the start of `main`): the loaded configuration converted with `bool`, `int`, `float` and `str` into the renderer's and the loop's settings.

`Wrappers`, `Landmarks` and `RealArith` hold the option and result types, the hand
shape (exactly 21 points with x, y, z, plus a handedness label) and small real-arithmetic facts.

## Model

| member | source | states |
|---|---|---|
| SymbolicHooks.SqDistance | gesture_interface/gestures/symbolic_hooks.py:5-6 | the squared planar distance is never negative (only x and y enter it) |
| SymbolicHooks.NormComparisons | gesture_interface/gestures/symbolic_hooks.py:33-35 | the scale reference plus 1e-6 is strictly positive, and the squared-distance tests hold exactly when the normalised distance is above / below the threshold |
| SymbolicHooks.FingerStateByNormalisedDistance | gesture_interface/gestures/symbolic_hooks.py:31-38 | a finger is "extended" iff its normalised tip distance exceeds 1.8 and "curled" iff it is below 1.0 |
| SymbolicHooks.ExtendedExcludesCurled | gesture_interface/gestures/symbolic_hooks.py:37-38 | no distance is both above the open threshold and below the fist threshold |
| SymbolicHooks.FingerStatesExclusive | gesture_interface/gestures/symbolic_hooks.py:40-48 | no finger is both extended and curled |
| SymbolicHooks.PosesExclusive | gesture_interface/gestures/symbolic_hooks.py:40-50 | the open-palm, fist and point conditions exclude each other pairwise |
| SymbolicHooks.Classify | gesture_interface/gestures/symbolic_hooks.py:21-52 | the result is one of the four fixed pairs (so the symbol is present iff the gesture is); no hands gives (None, None); OPEN_PALM, FIST and POINT are each returned exactly when the first hand satisfies that pose |
| SymbolicHooks.ClassifyByNormalisedDistances | gesture_interface/gestures/symbolic_hooks.py:40-52 | in terms of the five normalised distances: OPEN_PALM iff tips 8, 12, 16, 20 all exceed 1.8; FIST iff all five are below 1.0; POINT iff the index exceeds 1.8 and the other four are below 1.0 |
| SymbolicHooks.ClassifyUsesFirstHandOnly | gesture_interface/gestures/symbolic_hooks.py:26 | appending further hands never changes the result |
| SymbolicHooks.ClassifyIgnoresDepth | gesture_interface/gestures/symbolic_hooks.py:5-6 | two hands with the same x and y everywhere are classified alike, whatever their z |
| Dashboard.Updated | gesture_interface/dashboard_state.py:23-29 | gesture, symbol and fps are overwritten; landmarks are kept when none are given, otherwise replaced by the given pairs in order |
| Dashboard.LastWriteWins | gesture_interface/dashboard_state.py:23-29 | of two updates the second one's values win; landmarks fall back to the first update's, then to the original ones |
| Dashboard.UpdateIdempotent | gesture_interface/dashboard_state.py:23-29 | repeating an update changes nothing further |
| Dashboard.DashboardState.constructor | gesture_interface/dashboard_state.py:6-13 | a fresh record holds no gesture, no symbol, fps 0.0 and no landmarks |
| Dashboard.DashboardState.Update | gesture_interface/dashboard_state.py:15-29 | the new record is `Updated` of the old one (landmarks copied pair by pair) |
| Dashboard.DashboardState.Get | gesture_interface/dashboard_state.py:31-33 | the snapshot equals the current record and nothing changes; being a value, later updates cannot affect it |
| OscOutput.GestureMessage | gesture_interface/osc_output.py:13-16 | one message at `/thesidia/gesture` with the gesture or "NONE" (when absent or empty) and the symbol or "" |
| OscOutput.FpsMessage | gesture_interface/osc_output.py:18-19 | one message at `/thesidia/fps` with the rate as its single float |
| OscOutput.Flatten | gesture_interface/osc_output.py:29-31 | the flat list has 3n entries and entry 3i + c is coordinate c of point i |
| OscOutput.UnflattenFlatten | gesture_interface/osc_output.py:29-32 | reading the flat list back three at a time gives exactly the points |
| OscOutput.FlattenUnflatten | gesture_interface/osc_output.py:29-32 | every well-formed flat list is the flattening of the points it reads as |
| OscOutput.LandmarkMessages | gesture_interface/osc_output.py:21-33 | nothing when streaming is off; one empty landmark list without hands; otherwise the first hand's flat list, then its handedness |
| OscOutput.LandmarkMessagesDecode | gesture_interface/osc_output.py:28-32 | a receiver decoding the landmark message gets the first hand's keypoints back |
| OscOutput.LandmarkMessagesUseFirstHandOnly | gesture_interface/osc_output.py:24-28 | further hands never change the messages |
| OscOutput.OscEmitter.constructor | gesture_interface/osc_output.py:7-11 | host, port and the streaming flag are stored; nothing has been sent |
| OscOutput.OscEmitter.SendGesture | gesture_interface/osc_output.py:13-16 | exactly the gesture message is appended |
| OscOutput.OscEmitter.SendFps | gesture_interface/osc_output.py:18-19 | exactly the frame-rate message is appended |
| OscOutput.OscEmitter.SendLandmarks | gesture_interface/osc_output.py:21-33 | the flattening loop appends exactly `LandmarkMessages` of the flag and the hands |
| OscOutput.Lookup | gesture_interface/osc_output.py:6-21 | Python attribute lookup on an emitter: a name the instance holds gives the instance's value; otherwise one of the class's functions gives the bound method; otherwise there is no such attribute |
| OscOutput.LookupSendLandmarksAsWritten | gesture_interface/osc_output.py:10-11 | with the attributes the constructor sets as written, `send_landmarks` finds the boolean flag, not the method |
| OscOutput.LookupSendLandmarksRenamed | gesture_interface/osc_output.py:21 | with the flag under a name of its own, `send_landmarks` finds the method |
| OscOutput.SendLandmarksAsWrittenRaises | gesture_interface/osc_output.py:11 | as written, `CallSendLandmarks` (the call `osc.send_landmarks(hands)`) raises `TypeError` for every flag and every input; with the flag renamed it sends exactly `LandmarkMessages`, at least one message when streaming is on |
| Renderer.HandConnectionsFormTree | gesture_interface/renderer.py:6-27 | 20 edges with endpoints in 0..20, each from a smaller index, and edge e ends at e + 1, so every point but 0 has exactly one parent |
| Renderer.NewOverlayRenderer | gesture_interface/renderer.py:31-51 | the neighbour count is raised to at least 1 (kept when already at least 1); every other setting is stored as given |
| Renderer.CanvasBackground | gesture_interface/renderer.py:63-66 | the canvas starts as a copy of the frame iff the camera background is on and the black background is off |
| Renderer.Canvas.constructor | gesture_interface/renderer.py:61-66 | a canvas of the frame's size with that background and nothing drawn |
| Renderer.Canvas.DrawLine | gesture_interface/renderer.py:138-145 | appends one line command |
| Renderer.Canvas.DrawCircle | gesture_interface/renderer.py:149 | appends one circle command |
| Renderer.Canvas.PutText | gesture_interface/renderer.py:76-85 | appends one text command |
| Renderer.HandCommandsShape | gesture_interface/renderer.py:135-149 | `HandCommands` (one hand) is 41 commands: line e joins the endpoints of connection e, then circle i of radius 4 sits on point i |
| Renderer.SortByKeySorted | gesture_interface/renderer.py:176 | the sort is a permutation of its input, ordered by key |
| Renderer.DistanceOrderIsArgsort | gesture_interface/renderer.py:173-176 | `DistanceOrder` (the `argsort` of point i's distances) is a permutation of 0..n-1 listing points by non-decreasing distance from point i |
| Renderer.SelfFirstWithoutCoincidentPoints | gesture_interface/renderer.py:177 | when no other point lies at distance 0 from point i, i comes first in its own order, so skipping order[0] skips itself |
| Renderer.CoincidentPointLinksToItself | gesture_interface/renderer.py:175-187 | with two coincident points, the second point's one "neighbour" line goes to itself: the skip of order[0] does not always skip the point itself |
| Renderer.NeighbourLinesAt | gesture_interface/renderer.py:177-187 | line t of point i joins point i to entry 1 + t of its distance order |
| Renderer.ConstellationCounts | gesture_interface/renderer.py:156-171 | `ConstellationCommands`: no points gives nothing; k = min(neighbours, n - 1) at most 0 gives only the n circles; otherwise n circles then n * k lines, with no symmetrisation or de-duplication |
| Renderer.ConstellationLineLayout | gesture_interface/renderer.py:175-187 | point i's k lines sit at positions n + i*k .. n + i*k + k |
| Renderer.TextStack | gesture_interface/renderer.py:75-122 | the title at (16, 30), then the gesture label if the gesture is truthy, the symbol label if the symbol is truthy and the fps readout if enabled, each 28 lower |
| Renderer.RenderLayout | gesture_interface/renderer.py:68-122 | `RenderCommands` (the overlay) is one equal-sized block per hand followed by exactly the text stack |
| Renderer.EveryHandDrawn | gesture_interface/renderer.py:69-72 | every hand, not only the first, has its own block of commands in order |
| Renderer.DrawHand | gesture_interface/renderer.py:126-149 | the two loops issue exactly the hand's skeleton lines then keypoint circles |
| Renderer.DrawNeighbourLines | gesture_interface/renderer.py:177-187 | the inner loop issues exactly point i's neighbour lines |
| Renderer.DrawStars | gesture_interface/renderer.py:158-167 | the loop issues exactly the star circles |
| Renderer.DrawAllNeighbourLines | gesture_interface/renderer.py:175-187 | the outer loop issues every point's neighbour lines, point by point |
| Renderer.DrawConstellation | gesture_interface/renderer.py:151-187 | issues exactly the constellation commands, returning early with no points or k at most 0 |
| Renderer.DrawTextStack | gesture_interface/renderer.py:74-122 | issues exactly the text stack |
| Renderer.DrawHandBlock | gesture_interface/renderer.py:69-72 | one hand: skeleton and keypoints, then its constellation when enabled |
| Renderer.DrawHandAt | gesture_interface/renderer.py:69-72 | hand number i adds its block |
| Renderer.DrawHands | gesture_interface/renderer.py:69-72 | the loop over the hands issues every hand's block, in order |
| Renderer.Render | gesture_interface/renderer.py:53-124 | a fresh canvas of the frame's size with the chosen background holding exactly the overlay's commands |
| Config.DefaultsHaveSections | gesture_interface/main.py:17-50 | the defaults hold the osc, constellation and dashboard sections as mappings with their default entries |
| Config.UpdateWith | gesture_interface/main.py:78-83 | `dict.update` with a mapping overrides key by key; an empty string or list adds nothing; other values are refused |
| Config.OtherEntries | gesture_interface/main.py:84-90 | exactly the user's top-level keys other than the three sections, with the user's values |
| Config.AssembleAt | gesture_interface/main.py:84-93 | the three sections hold their merged mappings; every other key holds the user's value if given, else the base's |
| Config.MergeUserAssembles | gesture_interface/main.py:78-93 | a successful `MergeUser` merged all three sections and assembled them with the other user keys |
| Config.LoadOver | gesture_interface/main.py:71-94 | without a file the base comes back; a non-empty document that is not a mapping fails |
| Config.LoadConfig | gesture_interface/main.py:71-94 | without a settings file the defaults come back unchanged; a non-empty non-mapping document fails |
| Config.EmptyFileGivesDefaults | gesture_interface/main.py:73-76 | no file, or an empty document (null, false, 0, "", [] or {}), gives the base unchanged |
| Config.LoadConfigFails | gesture_interface/main.py:76-83 | loading fails iff the document is a non-empty non-mapping or one of the three sections holds a value `dict.update` refuses |
| Config.SectionsMergeKeyByKey | gesture_interface/main.py:78-83 | each section holds the base section's keys and the user's, the user's values winning and omitted base keys surviving |
| Config.OtherKeysOverride | gesture_interface/main.py:84-90 | every other top-level key: the user's value wins, the base's survives otherwise, no other key appears |
| Config.DefaultsAreAFixedPoint | gesture_interface/main.py:73-94 | loading a document that spells out the base gives the base back |
| FrameLoop.InitialState | gesture_interface/main.py:159-171 | before the first frame: no last gesture, the start-up clock reading, last fps send at 0.0 |
| FrameLoop.NoHandsObserved | gesture_interface/gestures/symbolic_hooks.py:24-25 | a frame without hands is observed exactly when its verdict is (None, None), so the loop's requirement on its frames can be met |
| FrameLoop.FrameInterval | gesture_interface/main.py:189 | the interval is the clock difference, or 1e-6 when that is smaller |
| FrameLoop.FpsBounded | gesture_interface/main.py:188-189 | `Fps` is positive, at most 1e6, and the reciprocal of the guarded interval |
| FrameLoop.DashboardLandmarks | gesture_interface/main.py:192-196 | none without hands; otherwise the first hand's 21 (x, y) pairs in order, depth dropped |
| FrameLoop.DashboardAgreesWithOsc | gesture_interface/main.py:193-196 | each dashboard pair is the x and y of the matching triple in the OSC landmark list |
| FrameLoop.SaveFrameName | gesture_interface/main.py:99-100 | the name is the gesture, "_", the timestamp, ".jpg" |
| FrameLoop.SaveFrameNameDeterminesParts | gesture_interface/main.py:99-100 | with fixed-width timestamps the name determines gesture and timestamp |
| FrameLoop.JoinPath | gesture_interface/main.py:101 | POSIX path join: ends with the name; starts with the directory unless the name is absolute; inserts one separator when needed |
| FrameLoop.SavePath | gesture_interface/main.py:97-101 | the save path ends with the file name |
| FrameLoop.SavePathUnderDir | gesture_interface/main.py:101 | unless the gesture name starts with "/", the path lies under the frames directory |
| FrameLoop.NextState | gesture_interface/main.py:186-222 | after a frame: last gesture is the frame's gesture (also when None), last time is now, and last fps send is now exactly when OSC is on and the interval has passed |
| FrameLoop.FpsPart | gesture_interface/main.py:201-207 | one fps message exactly when OSC is on and the throttle interval has passed |
| FrameLoop.GesturePart | gesture_interface/main.py:215-219 | one gesture message exactly when the gesture differs from the last one and is present |
| FrameLoop.FrameLog | gesture_interface/main.py:215-217 | one log line, with gesture and symbol, exactly when the gesture fires |
| FrameLoop.FrameSaves | gesture_interface/main.py:215-221 | one saved frame at the save path exactly when the gesture fires and capture is on |
| FrameLoop.FrameOscOrder | gesture_interface/main.py:201-219 | `FrameOsc`: nothing when OSC is off; otherwise the fps part, the landmark messages and the gesture part, with the fps message first when due and the gesture message last when it fires, and no other message at the gesture address |
| FrameLoop.RunStateAppend | gesture_interface/main.py:174-227 | `RunState`: one more frame applies `NextState` to the state after the earlier ones |
| FrameLoop.RunLogAppend | gesture_interface/main.py:174-227 | `RunLog`: one more frame appends its `FrameLog` |
| FrameLoop.RunOscAppend | gesture_interface/main.py:174-227 | `RunOsc`: one more frame appends its `FrameOsc` |
| FrameLoop.RunSavesAppend | gesture_interface/main.py:174-227 | `RunSaves`: one more frame appends its `FrameSaves` of its rendered overlay |
| FrameLoop.RunDashboardAppend | gesture_interface/main.py:188-199 | `RunDashboard`: one more frame applies its dashboard update (verdict, fps from the previous clock reading, landmarks) |
| FrameLoop.RunOscGestures | gesture_interface/main.py:201-219 | with OSC on, the gesture-address messages of a run's OSC traffic are exactly `RunGestures`, one per frame whose gesture fires |
| FrameLoop.DashboardShowsLastFrame | gesture_interface/main.py:188-199 | after a run the dashboard shows the last frame's gesture, symbol and frame rate |
| FrameLoop.NoHandsKeepDashboardLandmarks | gesture_interface/main.py:192-199 | classified frames without hands leave the dashboard's landmarks as they were, and after at least one of them no gesture and no symbol |
| FrameLoop.RunStateLastGesture | gesture_interface/main.py:215-222 | after a run the last gesture is the last frame's |
| FrameLoop.HeldGestureReportedOnce | gesture_interface/main.py:215-222 | a gesture held over a run of frames, after a different one, is logged exactly once with its gesture and symbol, reported by exactly one gesture message, and saved once when frame capture is on and never otherwise; the report comes from the first frame, whose own log line and gesture message are that entry and message |
| FrameLoop.FistNoneFistReportedTwice | gesture_interface/main.py:215-222 | FIST, none, FIST: two FIST log lines, two FIST gesture messages, and two saved frames when capture is on (none otherwise) |
| FrameLoop.NoHandsNoReports | gesture_interface/main.py:215-222 | frames without hands never log and never save |
| FrameLoop.FpsTimesTrackState | gesture_interface/main.py:203-207 | the stored last fps send time is the time of the last fps message |
| FrameLoop.FpsSendsSpaced | gesture_interface/main.py:203-207 | consecutive fps messages are at least the interval apart, so two frames closer than that never both send |
| FrameLoop.FrameOscAsWrittenFails | gesture_interface/main.py:201-210 | `FrameOscAsWritten`: as written a frame raises exactly when OSC and landmark streaming are both on, having sent only the fps message when it was due; otherwise it sends exactly `FrameOsc` |
| FrameLoop.CaptureLoop.constructor | gesture_interface/main.py:159-171 | the emitter exists iff OSC is on, built from the settings; the loop starts in the initial state |
| FrameLoop.CaptureLoop.SendFrameTraffic | gesture_interface/main.py:201-210 | sends the fps message when due, then the landmark messages; only the fps send time changes |
| FrameLoop.CaptureLoop.ReportGesture | gesture_interface/main.py:214-222 | logs, sends and saves exactly when the gesture fires; the last gesture follows the frame |
| FrameLoop.CaptureLoop.ClassifyFrame | gesture_interface/main.py:186 | classifying an observed frame's hands gives its verdict |
| FrameLoop.CaptureLoop.Respond | gesture_interface/main.py:188-222 | state `NextState`, the dashboard updated with the verdict, fps and landmarks, OSC extended by `FrameOsc`, log by `FrameLog`, saves by `FrameSaves` of the freshly rendered overlay `FrameImage` |
| FrameLoop.CaptureLoop.Step | gesture_interface/main.py:185-222 | one iteration on a frame: classify its hands, then everything `Respond` states (with the corrected emitter; the as-written raise is `FrameOscAsWrittenFails`) |
| FrameLoop.CaptureLoop.Advance | gesture_interface/main.py:185-222 | the iteration's effect on the loop state, the dashboard and the three records |
| FrameLoop.CaptureLoop.AdvanceRun | gesture_interface/main.py:174-227 | one iteration turns the state, dashboard and records of a run into those of the run one frame longer |
| FrameLoop.CaptureLoop.Run | gesture_interface/main.py:173-227 | frames are processed in order until the input ends or after the first frame where 'q' is pressed; the state, the dashboard record, the log, the OSC traffic and the saved frames are those of the processed prefix (with the corrected emitter; the as-written raise is `FrameOscAsWrittenFails`) |
| Startup.TruncateTowardZero | gesture_interface/main.py:152-154 | `int()` of a float truncates toward zero: the result lies within 1 of the value, on the zero side |
| Startup.RendererOf | gesture_interface/main.py:145-155 | missing top-level keys fail; the neighbour count is at least 1; the background and fps flags are the truthiness of their settings |
| Startup.LoopSettingsOf | gesture_interface/main.py:159-168 | missing `capture_frames_on_change` or `frames_dir` fails; the capture flag is its truthiness; without an osc section OSC is off; with OSC off no landmarks are streamed |
| Startup.DefaultsGiveDefaultRenderer | gesture_interface/main.py:145-155 | the built-in defaults give the renderer's own defaults |
| Startup.DefaultsGiveDefaultLoopSettings | gesture_interface/main.py:159-168 | the built-in defaults give OSC on at 127.0.0.1:9000 without landmark streaming, a 0.5 s throttle, capture into "frames" |

## Left out

- The detector (`detector.py`, MediaPipe Hands) is not part of this model: hands arrive as input, each exactly 21 points with a handedness label.
- `dashboard_server.py` (the FastAPI routes, the HTML page, uvicorn) and `run.py` are not part of this model. Neither is starting the server thread (`main.py:104-108`, `main.py:115-119`).
- Camera, window and disk I/O are left out: `VideoCapture`, `flip` for mirroring, `cvtColor`, `imshow` and `imwrite`. Frames are reduced to their size, and a saved frame to its path and the overlay commands.
- `waitKey` becomes a per-frame quit flag.
- Logging configuration, `os.makedirs` and the logger itself are left out; log lines are a sequence of entries.
- YAML parsing is left out: the settings document arrives parsed, with string keys only.
- Startup.LoopSettingsOf: `int()` and `float()` of strings, and `str()` of non-strings, are treated as failures. A conversion failure, or a missing key, fails at start-up, while the source fails when it first reads the value: the capture flag and `frames_dir` on the first gesture change, the fps interval on the first frame.
- Startup.RendererOf: the same conversions are treated as failures.
- The dashboard host, port and flag, the camera index, resolution and detector settings are not converted; they only feed parts that are not modelled.
- `datetime` formatting is not modelled: the timestamp is an opaque string.
- The dashboard lock and all concurrency are left out: calls are sequential.
- Dashboard.DashboardState.Get: `dict(self._state)` copies only the top level, so the returned landmarks list is the stored list object; a caller mutating it in place would change the record. The model returns a value, so this aliasing is not captured; no caller mutates it (the server only serialises it).
- The UDP transport is modelled as the sequence of messages handed to the client.
- cv2 pixels, colours, fonts and antialiasing are not modelled; drawing is a list of commands.
- Renderer.DrawHand: canvas coordinates stay real numbers. The `int()` truncation and `np.round` are not modelled, nor float32 storage.
- Renderer.DistanceOrderIsArgsort: the order is a stable sort. `np.argsort` (quicksort) may order tied distances differently, so which tied neighbour is picked is not modelled.
- Renderer.TextStack: the fps label carries the fps value; its `{fps:.1f}` formatting is not modelled.
- SymbolicHooks.Classify: square roots are not modelled. Comparisons are decided exactly on squared distances, which is what the real-valued comparisons give; floating-point rounding is not modelled.
- Config.UpdateWith: a non-empty list of key/value pairs, which `dict.update` would accept, is treated as refused.
- Config.LoadConfig: whether the settings file exists, and its contents, are inputs. The file path is not modelled.

## Findings

| source | as written | input that shows it | evidently intended | confidence | as-written member | corrected member |
|---|---|---|---|---|---|---|
| gesture_interface/osc_output.py:11 | the constructor stores the streaming flag as the instance attribute `send_landmarks`, which hides the method `send_landmarks` (osc_output.py:21); the frame loop's call `osc.send_landmarks(hands)` (main.py:210) therefore calls a bool and raises `TypeError` | settings with `osc.enabled: true` and `osc.send_landmarks: true`, any frame (with or without hands) | the flag under a name of its own, so that the call reaches the method and streams the first hand's landmarks | not executed | OscOutput.SendLandmarksAsWrittenRaises | OscOutput.OscEmitter.SendLandmarks |
