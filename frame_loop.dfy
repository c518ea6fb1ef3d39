/**
 * One iteration of the capture loop, and the loop itself. The camera, the detector,
 * the clock, the timestamp formatter and the key press are inputs: each frame
 * arrives as the frame's size, the detected hands, the clock reading, the formatted
 * timestamp and whether 'q' was pressed after the frame was shown. The loop's own
 * state is the last reported gesture, the previous clock reading and the time of
 * the last frame-rate message.
 */
module FrameLoop {
  import opened Wrappers
  import opened Landmarks
  import opened RealArith
  import SymbolicHooks
  import Dashboard
  import OscOutput
  import Renderer

  /** The guard on the frame interval: the frame rate never divides by less than this. */
  const MinFrameInterval: real := 0.000001
  const MaxFps: real := 1000000.0

  /** The settings the loop reads, already converted from the merged configuration. */
  datatype LoopSettings = LoopSettings(
    oscEnabled: bool,
    oscHost: string,
    oscPort: int,
    sendLandmarks: bool,
    fpsInterval: real,
    captureFramesOnChange: bool,
    framesDir: string)

  /** The settings the built-in defaults give. */
  const DefaultLoopSettings := LoopSettings(true, "127.0.0.1", 9000, false, 0.5, true, "frames")

  /** The variables the loop reassigns every iteration. */
  datatype LoopState = LoopState(lastGesture: Option<string>, lastTime: real, lastOscFpsTime: real)

  /** Before the first frame: no gesture yet, the clock read at start-up, no fps message yet. */
  function InitialState(startTime: real): (st: LoopState)
    ensures st.lastGesture.None? && st.lastTime == startTime && st.lastOscFpsTime == 0.0
  {
    LoopState(None, startTime, 0.0)
  }

  /**
   * What one iteration works with: the frame's size, the detected hands, the
   * classifier's verdict on them, the clock reading, the formatted timestamp, and
   * whether 'q' was pressed once the frame was shown.
   */
  datatype FrameInput = FrameInput(
    frame: Renderer.FrameShape,
    hands: seq<Hand>,
    verdict: SymbolicHooks.Classification,
    now: real,
    stamp: string,
    quit: bool)

  /** Whether a frame's verdict is the classifier's verdict on its hands, as the loop computes it. */
  predicate Observed(x: FrameInput) {
    x.verdict == SymbolicHooks.Classify(x.hands)
  }

  /** A frame without hands is observed exactly when its verdict is no gesture: observed frames exist. */
  lemma NoHandsObserved(x: FrameInput)
    requires x.hands == []
    ensures Observed(x) <==> x.verdict == SymbolicHooks.NoGesture
  {
  }

  /** One `GESTURE: ... | SYMBOL: ...` log line. */
  datatype LogEntry = LogEntry(gesture: string, symbol: Option<string>)

  /** One saved image: where it goes and what was drawn on it. */
  datatype SavedFrame = SavedFrame(path: string, image: seq<Renderer.Command>)

  /** The time between two frames, clamped from below by the guard. */
  function FrameInterval(now: real, last: real): (r: real)
    ensures r >= MinFrameInterval && r >= now - last
    ensures r == now - last || r == MinFrameInterval
  {
    if now - last > MinFrameInterval then now - last else MinFrameInterval
  }

  /** The instantaneous frame rate. */
  function Fps(now: real, last: real): real {
    1.0 / FrameInterval(now, last)
  }

  /** The frame rate is always positive and finite, whatever the clock does. */
  lemma FpsBounded(now: real, last: real)
    ensures 0.0 < Fps(now, last) <= MaxFps
    ensures Fps(now, last) * FrameInterval(now, last) == 1.0
  {
    var q := FrameInterval(now, last);
    DivideLess(1.0, q, 0.0);
    DivideLess(1.0, q, MaxFps);
  }

  /**
   * The landmarks handed to the dashboard: none without a hand, so that the stored
   * ones are kept; otherwise the first hand's points with the depth dropped.
   */
  function DashboardLandmarks(hands: seq<Hand>): (r: Option<seq<XY>>)
    ensures hands == [] <==> r.None?
    ensures r.Some? ==> |r.value| == NumLandmarks
    ensures r.Some? ==> forall i :: 0 <= i < |r.value| ==>
      r.value[i] == (hands[0].landmarks[i].x, hands[0].landmarks[i].y)
  {
    if hands == [] then None
    else
      var lm := hands[0].landmarks;
      Some(seq(|lm|, i requires 0 <= i < |lm| => (lm[i].x, lm[i].y)))
  }

  /**
   * The dashboard and the OSC stream describe the same hand: each dashboard pair is
   * the x and y of the corresponding triple in the flattened landmark message.
   */
  lemma DashboardAgreesWithOsc(hands: seq<Hand>, i: nat)
    requires hands != [] && i < NumLandmarks
    ensures var flat := OscOutput.Flatten(hands[0].landmarks);
      var pair := DashboardLandmarks(hands).value[i];
      flat[3 * i] == OscOutput.Float(pair.0) && flat[3 * i + 1] == OscOutput.Float(pair.1)
  {
  }

  /** Whether the frame-rate message is due. */
  predicate FpsDue(now: real, lastOscFpsTime: real, interval: real) {
    now - lastOscFpsTime >= interval
  }

  /** Whether a frame reports its gesture: it differs from the last one and is present. */
  predicate GestureFires(lastGesture: Option<string>, gesture: Option<string>) {
    gesture != lastGesture && gesture.Some?
  }

  /** The image file name: gesture, underscore, timestamp, `.jpg`. */
  function SaveFrameName(gesture: string, stamp: string): (r: string)
    ensures |r| == |gesture| + |stamp| + 5
    ensures r[..|gesture|] == gesture && r[|gesture|] == '_'
    ensures r[|gesture| + 1..|r| - 4] == stamp && r[|r| - 4..] == ".jpg"
  {
    gesture + "_" + stamp + ".jpg"
  }

  /**
   * With timestamps of one fixed width, as the timestamp format gives, a file name
   * determines both the gesture and the timestamp.
   */
  lemma SaveFrameNameDeterminesParts(g1: string, s1: string, g2: string, s2: string)
    requires |s1| == |s2|
    requires SaveFrameName(g1, s1) == SaveFrameName(g2, s2)
    ensures g1 == g2 && s1 == s2
  {
    var n := SaveFrameName(g1, s1);
    assert |g1| == |g2|;
    assert g1 == n[..|g1|] == g2;
    assert s1 == n[|g1| + 1..|n| - 4] == s2;
  }

  /**
   * `os.path.join(dir, name)` on POSIX: an absolute name replaces the directory;
   * otherwise a separator is inserted unless the directory is empty or already ends
   * in one.
   */
  function JoinPath(dir: string, name: string): (r: string)
    ensures |r| >= |name| && r[|r| - |name|..] == name
    ensures !(|name| > 0 && name[0] == '/') ==> |r| >= |dir| && r[..|dir|] == dir
    ensures !(|name| > 0 && name[0] == '/') && dir != "" && dir[|dir| - 1] != '/' ==>
      |r| == |dir| + 1 + |name| && r[|dir|] == '/'
  {
    if |name| > 0 && name[0] == '/' then name
    else if dir == "" || dir[|dir| - 1] == '/' then dir + name
    else dir + "/" + name
  }

  /** Where a frame showing `gesture` at `stamp` is saved: a path ending in the file name. */
  function SavePath(dir: string, gesture: string, stamp: string): (r: string)
    ensures |r| >= |gesture| + |stamp| + 5
    ensures r[|r| - (|gesture| + |stamp| + 5)..] == SaveFrameName(gesture, stamp)
  {
    JoinPath(dir, SaveFrameName(gesture, stamp))
  }

  /** Unless the gesture name starts with a separator, the frame is saved under the frames directory. */
  lemma SavePathUnderDir(dir: string, gesture: string, stamp: string)
    requires !(|gesture| > 0 && gesture[0] == '/')
    ensures var r := SavePath(dir, gesture, stamp); |r| >= |dir| && r[..|dir|] == dir
  {
    var name := SaveFrameName(gesture, stamp);
    assert |gesture| > 0 ==> name[0] == gesture[0];
    assert |gesture| == 0 ==> name[0] == '_';
  }

  /** The state after one frame. */
  function NextState(settings: LoopSettings, st: LoopState, input: FrameInput): (r: LoopState)
    ensures r.lastGesture == input.verdict.gesture
    ensures r.lastTime == input.now
    ensures settings.oscEnabled && FpsDue(input.now, st.lastOscFpsTime, settings.fpsInterval) ==>
      r.lastOscFpsTime == input.now
    ensures !(settings.oscEnabled && FpsDue(input.now, st.lastOscFpsTime, settings.fpsInterval)) ==>
      r.lastOscFpsTime == st.lastOscFpsTime
  {
    var g := input.verdict.gesture;
    var fpsTime :=
      if settings.oscEnabled && FpsDue(input.now, st.lastOscFpsTime, settings.fpsInterval) then input.now
      else st.lastOscFpsTime;
    LoopState(if g != st.lastGesture then g else st.lastGesture, input.now, fpsTime)
  }

  /** Whether the frame-rate message goes out on this frame. */
  predicate FpsSent(settings: LoopSettings, st: LoopState, input: FrameInput) {
    settings.oscEnabled && FpsDue(input.now, st.lastOscFpsTime, settings.fpsInterval)
  }

  /** The frame-rate part of a frame's OSC traffic. */
  function FpsPart(settings: LoopSettings, st: LoopState, input: FrameInput): (r: seq<OscOutput.Message>)
    ensures |r| <= 1 && (r != [] <==> FpsSent(settings, st, input))
    ensures r != [] ==> r[0].address == OscOutput.FpsAddress
  {
    if FpsSent(settings, st, input) then [OscOutput.FpsMessage(Fps(input.now, st.lastTime))] else []
  }

  /** The gesture part of a frame's OSC traffic. */
  function GesturePart(lastGesture: Option<string>, input: FrameInput): (r: seq<OscOutput.Message>)
    ensures |r| <= 1 && (r != [] <==> GestureFires(lastGesture, input.verdict.gesture))
    ensures r != [] ==> r[0].address == OscOutput.GestureAddress
  {
    var c := input.verdict;
    if GestureFires(lastGesture, c.gesture) then [OscOutput.GestureMessage(c.gesture, c.symbol)] else []
  }

  /**
   * The OSC messages of one frame, in order: the frame rate when due, the landmarks
   * when streaming is on, the gesture when it fires. Nothing when OSC is off.
   */
  function FrameOsc(settings: LoopSettings, st: LoopState, input: FrameInput): seq<OscOutput.Message> {
    if !settings.oscEnabled then []
    else
      FpsPart(settings, st, input) + OscOutput.LandmarkMessages(settings.sendLandmarks, input.hands)
        + GesturePart(st.lastGesture, input)
  }

  /** The log lines of one frame: one exactly when the gesture fires. */
  function FrameLog(lastGesture: Option<string>, input: FrameInput): (r: seq<LogEntry>)
    ensures var c := input.verdict;
      (r != [] <==> GestureFires(lastGesture, c.gesture)) &&
      (r != [] ==> r == [LogEntry(c.gesture.value, c.symbol)])
  {
    var c := input.verdict;
    if GestureFires(lastGesture, c.gesture) then [LogEntry(c.gesture.value, c.symbol)] else []
  }

  /** The image rendered for a frame: the overlay with the frame rate measured from the previous frame. */
  function FrameImage(renderer: Renderer.OverlayRenderer, st: LoopState, input: FrameInput): seq<Renderer.Command> {
    Renderer.RenderCommands(renderer, input.frame.width, input.frame.height, input.hands,
      input.verdict.gesture, input.verdict.symbol, Fps(input.now, st.lastTime))
  }

  /** The frames saved on one frame: one exactly when the gesture fires and capture is on. */
  function FrameSaves(settings: LoopSettings, lastGesture: Option<string>, input: FrameInput,
                      image: seq<Renderer.Command>): (r: seq<SavedFrame>)
    ensures r != [] <==> GestureFires(lastGesture, input.verdict.gesture) && settings.captureFramesOnChange
    ensures r != [] ==> r == [SavedFrame(SavePath(settings.framesDir, input.verdict.gesture.value, input.stamp), image)]
  {
    var c := input.verdict;
    if GestureFires(lastGesture, c.gesture) && settings.captureFramesOnChange then
      [SavedFrame(SavePath(settings.framesDir, c.gesture.value, input.stamp), image)]
    else []
  }

  /** The state after a run of frames. */
  function RunState(settings: LoopSettings, st: LoopState, inputs: seq<FrameInput>): LoopState
    decreases |inputs|
  {
    if inputs == [] then st
    else
      var n := |inputs| - 1;
      NextState(settings, RunState(settings, st, inputs[..n]), inputs[n])
  }

  /** Every log line of a run, oldest first. */
  function RunLog(settings: LoopSettings, st: LoopState, inputs: seq<FrameInput>): seq<LogEntry>
    decreases |inputs|
  {
    if inputs == [] then []
    else
      var n := |inputs| - 1;
      RunLog(settings, st, inputs[..n]) + FrameLog(RunState(settings, st, inputs[..n]).lastGesture, inputs[n])
  }

  /** Every OSC message of a run, oldest first. */
  function RunOsc(settings: LoopSettings, st: LoopState, inputs: seq<FrameInput>): seq<OscOutput.Message>
    decreases |inputs|
  {
    if inputs == [] then []
    else
      var n := |inputs| - 1;
      RunOsc(settings, st, inputs[..n]) + FrameOsc(settings, RunState(settings, st, inputs[..n]), inputs[n])
  }

  /** Every saved path of a run, oldest first. */
  function RunSaves(settings: LoopSettings, renderer: Renderer.OverlayRenderer, st: LoopState,
                    inputs: seq<FrameInput>): seq<SavedFrame>
    decreases |inputs|
  {
    if inputs == [] then []
    else
      var n := |inputs| - 1;
      var st' := RunState(settings, st, inputs[..n]);
      RunSaves(settings, renderer, st, inputs[..n]) +
        FrameSaves(settings, st'.lastGesture, inputs[n], FrameImage(renderer, st', inputs[n]))
  }

  /** The clock readings of the frames that sent the frame rate, oldest first. */
  function FpsTimes(settings: LoopSettings, st: LoopState, inputs: seq<FrameInput>): seq<real>
    decreases |inputs|
  {
    if inputs == [] then []
    else
      var n := |inputs| - 1;
      FpsTimes(settings, st, inputs[..n]) +
        (if FpsSent(settings, RunState(settings, st, inputs[..n]), inputs[n]) then [inputs[n].now] else [])
  }

  /** The dashboard record after a run of frames, starting from `d`: each frame's update in turn. */
  function RunDashboard(settings: LoopSettings, st: LoopState, d: Dashboard.Snapshot,
                        inputs: seq<FrameInput>): Dashboard.Snapshot
    decreases |inputs|
  {
    if inputs == [] then d
    else
      var n := |inputs| - 1;
      var x := inputs[n];
      Dashboard.Updated(RunDashboard(settings, st, d, inputs[..n]), x.verdict.gesture, x.verdict.symbol,
        Fps(x.now, RunState(settings, st, inputs[..n]).lastTime), DashboardLandmarks(x.hands))
  }

  /** The gesture messages a run reports, oldest first: one per frame whose gesture fires. */
  function RunGestures(settings: LoopSettings, st: LoopState, inputs: seq<FrameInput>): seq<OscOutput.Message>
    decreases |inputs|
  {
    if inputs == [] then []
    else
      var n := |inputs| - 1;
      RunGestures(settings, st, inputs[..n]) + GesturePart(RunState(settings, st, inputs[..n]).lastGesture, inputs[n])
  }

  /** The messages of a stream that go to the gesture address, in order. */
  function GestureTraffic(ms: seq<OscOutput.Message>): seq<OscOutput.Message>
    decreases |ms|
  {
    if ms == [] then []
    else
      var n := |ms| - 1;
      GestureTraffic(ms[..n]) + (if ms[n].address == OscOutput.GestureAddress then [ms[n]] else [])
  }

  /** Filtering the gesture messages distributes over concatenation. */
  lemma {:induction false} GestureTrafficAppend(a: seq<OscOutput.Message>, b: seq<OscOutput.Message>)
    ensures GestureTraffic(a + b) == GestureTraffic(a) + GestureTraffic(b)
    decreases |b|
  {
    if b != [] {
      var n := |b| - 1;
      assert (a + b)[..|a| + n] == a + b[..n];
      GestureTrafficAppend(a, b[..n]);
    } else {
      assert a + b == a;
    }
  }

  /**
   * A frame's OSC traffic in order: nothing when OSC is off; otherwise the frame
   * rate first when due, the landmark messages, and the gesture message last when
   * the gesture fires. Its only gesture-address message is that last one.
   */
  lemma FrameOscOrder(settings: LoopSettings, st: LoopState, x: FrameInput)
    ensures !settings.oscEnabled ==> FrameOsc(settings, st, x) == []
    ensures settings.oscEnabled ==>
      |FrameOsc(settings, st, x)| ==
        |FpsPart(settings, st, x)| + |OscOutput.LandmarkMessages(settings.sendLandmarks, x.hands)| +
        |GesturePart(st.lastGesture, x)|
    ensures settings.oscEnabled && FpsSent(settings, st, x) ==>
      FrameOsc(settings, st, x)[0] == OscOutput.FpsMessage(Fps(x.now, st.lastTime))
    ensures settings.oscEnabled && GestureFires(st.lastGesture, x.verdict.gesture) ==>
      var r := FrameOsc(settings, st, x);
      r[|r| - 1] == OscOutput.GestureMessage(x.verdict.gesture, x.verdict.symbol)
    ensures settings.oscEnabled ==> GestureTraffic(FrameOsc(settings, st, x)) == GesturePart(st.lastGesture, x)
  {
    if settings.oscEnabled {
      var f, l, g := FpsPart(settings, st, x), OscOutput.LandmarkMessages(settings.sendLandmarks, x.hands),
        GesturePart(st.lastGesture, x);
      assert GestureTraffic(f) == [] by {
        if f != [] {
          assert f[..0] == [];
        }
      }
      assert GestureTraffic(l) == [] by {
        if |l| == 1 {
          assert l[..0] == [];
        } else if |l| == 2 {
          assert l[..1][..0] == [] && l[..1][0] == l[0];
        }
      }
      assert GestureTraffic(g) == g by {
        if g != [] {
          assert g[..0] == [];
        }
      }
      GestureTrafficAppend(f, l);
      GestureTrafficAppend(f + l, g);
    }
  }

  /** A run extended by one frame ends in that frame's successor state. */
  lemma RunStateAppend(settings: LoopSettings, st: LoopState, inputs: seq<FrameInput>, x: FrameInput)
    ensures RunState(settings, st, inputs + [x]) == NextState(settings, RunState(settings, st, inputs), x)
  {
    assert (inputs + [x])[..|inputs|] == inputs;
  }

  /** A run extended by one frame logs what the run logged, then what the frame logs. */
  lemma RunLogAppend(settings: LoopSettings, st: LoopState, inputs: seq<FrameInput>, x: FrameInput)
    ensures RunLog(settings, st, inputs + [x]) ==
      RunLog(settings, st, inputs) + FrameLog(RunState(settings, st, inputs).lastGesture, x)
  {
    assert (inputs + [x])[..|inputs|] == inputs;
  }

  /** A run extended by one frame sends what the run sent, then what the frame sends. */
  lemma RunOscAppend(settings: LoopSettings, st: LoopState, inputs: seq<FrameInput>, x: FrameInput)
    ensures RunOsc(settings, st, inputs + [x]) ==
      RunOsc(settings, st, inputs) + FrameOsc(settings, RunState(settings, st, inputs), x)
  {
    assert (inputs + [x])[..|inputs|] == inputs;
  }

  /** A run extended by one frame saves what the run saved, then what the frame saves. */
  lemma RunSavesAppend(settings: LoopSettings, renderer: Renderer.OverlayRenderer, st: LoopState,
                       inputs: seq<FrameInput>, x: FrameInput)
    ensures var st' := RunState(settings, st, inputs);
      RunSaves(settings, renderer, st, inputs + [x]) ==
        RunSaves(settings, renderer, st, inputs) + FrameSaves(settings, st'.lastGesture, x, FrameImage(renderer, st', x))
  {
    assert (inputs + [x])[..|inputs|] == inputs;
  }

  /** A run extended by one frame leaves the dashboard updated with that frame. */
  lemma RunDashboardAppend(settings: LoopSettings, st: LoopState, d: Dashboard.Snapshot,
                           inputs: seq<FrameInput>, x: FrameInput)
    ensures RunDashboard(settings, st, d, inputs + [x]) ==
      Dashboard.Updated(RunDashboard(settings, st, d, inputs), x.verdict.gesture, x.verdict.symbol,
        Fps(x.now, RunState(settings, st, inputs).lastTime), DashboardLandmarks(x.hands))
  {
    assert (inputs + [x])[..|inputs|] == inputs;
  }

  /** With OSC on, the gesture messages in a run's OSC traffic are exactly the run's reports. */
  lemma {:induction false} RunOscGestures(settings: LoopSettings, st: LoopState, inputs: seq<FrameInput>)
    requires settings.oscEnabled
    ensures GestureTraffic(RunOsc(settings, st, inputs)) == RunGestures(settings, st, inputs)
    decreases |inputs|
  {
    if inputs != [] {
      var n := |inputs| - 1;
      var st' := RunState(settings, st, inputs[..n]);
      RunOscGestures(settings, st, inputs[..n]);
      GestureTrafficAppend(RunOsc(settings, st, inputs[..n]), FrameOsc(settings, st', inputs[n]));
      FrameOscOrder(settings, st', inputs[n]);
    }
  }

  /**
   * Frames without a hand keep the dashboard's landmarks: a run of classified frames
   * without hands leaves no gesture and no symbol, and the landmarks as they were.
   */
  lemma {:induction false} NoHandsKeepDashboardLandmarks(settings: LoopSettings, st: LoopState,
                                                         d: Dashboard.Snapshot, inputs: seq<FrameInput>)
    requires forall t :: 0 <= t < |inputs| ==> Observed(inputs[t]) && inputs[t].hands == []
    ensures RunDashboard(settings, st, d, inputs).landmarks == d.landmarks
    ensures inputs != [] ==>
      RunDashboard(settings, st, d, inputs).gesture.None? && RunDashboard(settings, st, d, inputs).symbol.None?
    decreases |inputs|
  {
    if inputs != [] {
      var n := |inputs| - 1;
      NoHandsKeepDashboardLandmarks(settings, st, d, inputs[..n]);
      assert Observed(inputs[n]) && inputs[n].hands == [];
    }
  }

  /** After a non-empty run the dashboard shows the last frame's gesture, symbol and frame rate. */
  lemma DashboardShowsLastFrame(settings: LoopSettings, st: LoopState, d: Dashboard.Snapshot,
                                inputs: seq<FrameInput>)
    requires inputs != []
    ensures var x, s := inputs[|inputs| - 1], RunDashboard(settings, st, d, inputs);
      s.gesture == x.verdict.gesture && s.symbol == x.verdict.symbol &&
      s.fps == Fps(x.now, RunState(settings, st, inputs[..|inputs| - 1]).lastTime)
  {
  }

  /** After a non-empty run, the last gesture is the last frame's classification. */
  lemma RunStateLastGesture(settings: LoopSettings, st: LoopState, inputs: seq<FrameInput>)
    requires inputs != []
    ensures RunState(settings, st, inputs).lastGesture ==
      inputs[|inputs| - 1].verdict.gesture
  {
  }

  /**
   * A gesture held over a run of frames, starting from a different one, is
   * reported exactly once, on the first frame.
   */
  lemma {:induction false} HeldGestureReportedOnce(settings: LoopSettings, renderer: Renderer.OverlayRenderer, st: LoopState,
                                                   inputs: seq<FrameInput>, c: SymbolicHooks.Classification)
    requires inputs != []
    requires c.gesture.Some? && st.lastGesture != c.gesture
    requires forall t :: 0 <= t < |inputs| ==> inputs[t].verdict == c
    ensures FrameLog(st.lastGesture, inputs[0]) == [LogEntry(c.gesture.value, c.symbol)]
    ensures GesturePart(st.lastGesture, inputs[0]) != []
    ensures RunLog(settings, st, inputs) == [LogEntry(c.gesture.value, c.symbol)]
    ensures RunGestures(settings, st, inputs) == [OscOutput.GestureMessage(c.gesture, c.symbol)]
    ensures |RunSaves(settings, renderer, st, inputs)| == if settings.captureFramesOnChange then 1 else 0
  {
    var n := |inputs| - 1;
    var prefix := inputs[..n];
    if n == 0 {
      assert prefix == [];
    } else {
      HeldGestureReportedOnce(settings, renderer, st, prefix, c);
      RunStateLastGesture(settings, st, prefix);
      assert prefix[n - 1] == inputs[n - 1];
    }
  }

  /**
   * FIST, then no gesture, then FIST again: FIST is reported twice, each time with a
   * log line, a gesture message and (when capture is on) a saved frame.
   */
  lemma FistNoneFistReportedTwice(settings: LoopSettings, renderer: Renderer.OverlayRenderer, st: LoopState,
                                  inputs: seq<FrameInput>)
    requires |inputs| == 3 && st.lastGesture.None?
    requires inputs[0].verdict == SymbolicHooks.Fist
    requires inputs[1].verdict == SymbolicHooks.NoGesture
    requires inputs[2].verdict == SymbolicHooks.Fist
    ensures RunLog(settings, st, inputs) ==
      [LogEntry("FIST", Some("#STONE[SEAL]")), LogEntry("FIST", Some("#STONE[SEAL]"))]
    ensures var m := OscOutput.GestureMessage(Some("FIST"), Some("#STONE[SEAL]"));
      RunGestures(settings, st, inputs) == [m, m]
    ensures |RunSaves(settings, renderer, st, inputs)| == if settings.captureFramesOnChange then 2 else 0
  {
    var p0, p1, p2 := inputs[..0], inputs[..1], inputs[..2];
    var entry := LogEntry("FIST", Some("#STONE[SEAL]"));
    var m := OscOutput.GestureMessage(Some("FIST"), Some("#STONE[SEAL]"));
    var saves := if settings.captureFramesOnChange then 1 else 0;
    assert p0 == [];
    assert p1[..0] == p0 && p1[0] == inputs[0];
    assert p2[..1] == p1 && p2[1] == inputs[1];
    assert inputs[..2] == p2;
    assert RunLog(settings, st, p1) == [entry];
    assert RunGestures(settings, st, p1) == [m];
    assert |RunSaves(settings, renderer, st, p1)| == saves;
    RunStateLastGesture(settings, st, p1);
    assert RunState(settings, st, p1).lastGesture == Some("FIST");
    assert RunLog(settings, st, p2) == [entry];
    assert RunGestures(settings, st, p2) == [m];
    assert |RunSaves(settings, renderer, st, p2)| == saves;
    RunStateLastGesture(settings, st, p2);
    assert RunState(settings, st, p2).lastGesture == None;
  }

  /** Frames without a hand never log and never save. */
  lemma {:induction false} NoHandsNoReports(settings: LoopSettings, renderer: Renderer.OverlayRenderer, st: LoopState,
                                            inputs: seq<FrameInput>)
    requires forall t :: 0 <= t < |inputs| ==> Observed(inputs[t]) && inputs[t].hands == []
    ensures RunLog(settings, st, inputs) == []
    ensures RunSaves(settings, renderer, st, inputs) == []
  {
    if inputs != [] {
      var n := |inputs| - 1;
      NoHandsNoReports(settings, renderer, st, inputs[..n]);
    }
  }

  /** The last frame-rate send time in the state is the time of the last send, if any. */
  lemma {:induction false} FpsTimesTrackState(settings: LoopSettings, st: LoopState, inputs: seq<FrameInput>)
    ensures var times := FpsTimes(settings, st, inputs);
      var last := RunState(settings, st, inputs).lastOscFpsTime;
      (times == [] ==> last == st.lastOscFpsTime) &&
      (times != [] ==> last == times[|times| - 1])
  {
    if inputs != [] {
      FpsTimesTrackState(settings, st, inputs[..|inputs| - 1]);
    }
  }

  /**
   * The throttle: any two consecutive frame-rate messages are at least the interval
   * apart, and so is the first one from the starting send time. Two frames closer
   * together than the interval therefore never both send.
   */
  lemma {:induction false} FpsSendsSpaced(settings: LoopSettings, st: LoopState, inputs: seq<FrameInput>)
    ensures var times := FpsTimes(settings, st, inputs);
      (times != [] ==> times[0] - st.lastOscFpsTime >= settings.fpsInterval) &&
      (forall a :: 0 <= a < |times| - 1 ==> times[a + 1] - times[a] >= settings.fpsInterval)
  {
    if inputs != [] {
      var n := |inputs| - 1;
      FpsSendsSpaced(settings, st, inputs[..n]);
      FpsTimesTrackState(settings, st, inputs[..n]);
    }
  }

  /** What a frame's OSC calls send before finishing or raising, and the exception if one is raised. */
  datatype OscAttempt = OscAttempt(sent: seq<OscOutput.Message>, raised: Option<string>)

  /**
   * The frame's OSC traffic with the emitter as written: its instance attributes
   * hold the streaming flag under the method's name. With streaming on, the
   * frame-rate message (when due) has gone out by the time the landmark call
   * raises; the exception then leaves the loop, so nothing else of the frame is sent.
   */
  function FrameOscAsWritten(settings: LoopSettings, st: LoopState, input: FrameInput): OscAttempt {
    if !settings.oscEnabled then OscAttempt([], None)
    else
      var fps := FpsPart(settings, st, input);
      if settings.sendLandmarks then
        var emitter := OscOutput.InstanceAttrsAsWritten(settings.sendLandmarks);
        match OscOutput.CallSendLandmarks(emitter, settings.sendLandmarks, input.hands)
        case Returned(ms) => OscAttempt(fps + ms + GesturePart(st.lastGesture, input), None)
        case TypeError(reason) => OscAttempt(fps, Some(reason))
        case AttributeError => OscAttempt(fps, Some("AttributeError"))
      else OscAttempt(fps + GesturePart(st.lastGesture, input), None)
  }

  /**
   * As written, a frame raises exactly when OSC and landmark streaming are both on,
   * after sending only the frame-rate message when it was due; in every other
   * configuration it sends what the corrected emitter sends.
   */
  lemma FrameOscAsWrittenFails(settings: LoopSettings, st: LoopState, input: FrameInput)
    ensures FrameOscAsWritten(settings, st, input).raised.Some? <==> settings.oscEnabled && settings.sendLandmarks
    ensures settings.oscEnabled && settings.sendLandmarks ==>
      FrameOscAsWritten(settings, st, input).sent == FpsPart(settings, st, input)
    ensures !(settings.oscEnabled && settings.sendLandmarks) ==>
      FrameOscAsWritten(settings, st, input) == OscAttempt(FrameOsc(settings, st, input), None)
  {
    if settings.oscEnabled && settings.sendLandmarks {
      OscOutput.SendLandmarksAsWrittenRaises(true, input.hands);
    } else if settings.oscEnabled {
      var f, g := FpsPart(settings, st, input), GesturePart(st.lastGesture, input);
      assert OscOutput.LandmarkMessages(false, input.hands) == [];
      assert f + [] + g == f + g;
    }
  }

  /** Frames before n did not ask to quit, nor did frame n: so none before n + 1 did. */
  lemma NoQuitStep(inputs: seq<FrameInput>, n: nat)
    requires n < |inputs| && !inputs[n].quit
    requires forall t :: 0 <= t < n ==> !inputs[t].quit
    ensures forall t :: 0 <= t < n + 1 ==> !inputs[t].quit
  {
  }

  /** A prefix one longer is the prefix and the next element. */
  lemma PrefixSnoc<T>(s: seq<T>, n: nat)
    requires n < |s|
    ensures s[..n + 1] == s[..n] + [s[n]]
  {
  }

  /** Concatenation regroups freely. */
  lemma AppendAssoc<T>(a: seq<T>, b: seq<T>, c: seq<T>)
    ensures a + b + c == a + (b + c)
  {
  }

  /**
   * The capture loop: the loop variables, the log and the saved frames, with the
   * dashboard record, the emitter (present exactly when OSC is on) and the renderer
   * it drives.
   */
  class CaptureLoop {
    const settings: LoopSettings
    const renderer: Renderer.OverlayRenderer
    const dashboard: Dashboard.DashboardState
    const osc: OscOutput.OscEmitter?
    var lastGesture: Option<string>
    var lastTime: real
    var lastOscFpsTime: real
    /** The gesture log, oldest first. */
    var log: seq<LogEntry>
    /** The frames written to disk, oldest first. */
    var saved: seq<SavedFrame>

    /** The loop variables as a value. */
    function State(): LoopState
      reads this
    {
      LoopState(lastGesture, lastTime, lastOscFpsTime)
    }

    /** The emitter exists exactly when OSC is on, built with the same streaming flag. */
    ghost predicate Valid() {
      (osc != null <==> settings.oscEnabled) &&
      (osc != null ==> osc.landmarksEnabled == settings.sendLandmarks)
    }

    constructor (settings: LoopSettings, renderer: Renderer.OverlayRenderer,
                 dashboard: Dashboard.DashboardState, startTime: real)
      ensures Valid()
      ensures this.settings == settings && this.renderer == renderer && this.dashboard == dashboard
      ensures State() == InitialState(startTime) && log == [] && saved == []
      ensures osc != null ==>
        (fresh(osc) && osc.sent == [] && osc.host == settings.oscHost && osc.port == settings.oscPort)
    {
      this.settings := settings;
      this.renderer := renderer;
      this.dashboard := dashboard;
      if settings.oscEnabled {
        osc := new OscOutput.OscEmitter(settings.oscHost, settings.oscPort, settings.sendLandmarks);
      } else {
        osc := null;
      }
      lastGesture := None;
      lastTime := startTime;
      lastOscFpsTime := 0.0;
      log := [];
      saved := [];
    }

    /**
     * The frame's traffic before rendering: the frame rate when the throttle allows,
     * then the landmarks when streaming is on.
     */
    method SendFrameTraffic(fps: real, input: FrameInput)
      requires Valid()
      requires fps == Fps(input.now, lastTime)
      modifies this, osc
      ensures Valid()
      ensures lastGesture == old(lastGesture) && lastTime == old(lastTime)
      ensures log == old(log) && saved == old(saved)
      ensures lastOscFpsTime == NextState(settings, old(State()), input).lastOscFpsTime
      ensures osc != null ==>
        osc.sent == old(osc.sent) + FpsPart(settings, old(State()), input)
          + OscOutput.LandmarkMessages(settings.sendLandmarks, input.hands)
    {
      if osc != null {
        if input.now - lastOscFpsTime >= settings.fpsInterval {
          osc.SendFps(fps);
          lastOscFpsTime := input.now;
        }
        if settings.sendLandmarks {
          osc.SendLandmarks(input.hands);
        }
      }
    }

    /**
     * The report after rendering: when the gesture changed to a present one, a log
     * line, the gesture message and the saved frame; the last gesture follows the
     * classification either way.
     */
    method ReportGesture(c: SymbolicHooks.Classification, input: FrameInput, image: seq<Renderer.Command>)
      requires Valid()
      requires c == input.verdict
      modifies this, osc
      ensures Valid()
      ensures lastTime == old(lastTime) && lastOscFpsTime == old(lastOscFpsTime)
      ensures lastGesture == c.gesture
      ensures log == old(log) + FrameLog(old(lastGesture), input)
      ensures osc != null ==> osc.sent == old(osc.sent) + GesturePart(old(lastGesture), input)
      ensures saved == old(saved) + FrameSaves(settings, old(lastGesture), input, image)
    {
      if c.gesture != lastGesture {
        if c.gesture.Some? {
          log := log + [LogEntry(c.gesture.value, c.symbol)];
          if osc != null {
            osc.SendGesture(c.gesture, c.symbol);
          }
          if settings.captureFramesOnChange {
            saved := saved + [SavedFrame(SavePath(settings.framesDir, c.gesture.value, input.stamp), image)];
          }
        }
        lastGesture := c.gesture;
      }
    }

    /** `classifier.classify(hands)` on the frame's hands. */
    static method ClassifyFrame(input: FrameInput) returns (c: SymbolicHooks.Classification)
      requires Observed(input)
      ensures c == input.verdict
    {
      c := SymbolicHooks.Classify(input.hands);
    }

    /**
     * What the loop does with a classified frame: compute the frame rate, update the
     * dashboard, send OSC traffic, render, then report a changed gesture. Returns the
     * rendered frame.
     */
    method Respond(input: FrameInput, c: SymbolicHooks.Classification) returns (output: Renderer.Canvas)
      requires Valid() && c == input.verdict
      modifies this, dashboard, osc
      ensures Valid()
      ensures State() == NextState(settings, old(State()), input)
      ensures var c := input.verdict;
        dashboard.Current() == Dashboard.Updated(old(dashboard.Current()), c.gesture, c.symbol,
          Fps(input.now, old(lastTime)), DashboardLandmarks(input.hands))
      ensures osc != null ==> osc.sent == old(osc.sent) + FrameOsc(settings, old(State()), input)
      ensures log == old(log) + FrameLog(old(lastGesture), input)
      ensures fresh(output)
      ensures output.commands == FrameImage(renderer, old(State()), input)
      ensures saved == old(saved) + FrameSaves(settings, old(lastGesture), input, output.commands)
    {
      ghost var st := State();
      ghost var sent0 := if osc != null then osc.sent else [];
      var fps := Fps(input.now, lastTime);
      dashboard.Update(c.gesture, c.symbol, fps, DashboardLandmarks(input.hands));
      ghost var shown := dashboard.Current();
      SendFrameTraffic(fps, input);
      lastTime := input.now;
      output := Renderer.Render(renderer, input.frame, input.hands, c.gesture, c.symbol, fps);
      ReportGesture(c, input, output.commands);
      assert dashboard.Current() == shown;
      if osc != null {
        var f, l, g := FpsPart(settings, st, input),
          OscOutput.LandmarkMessages(settings.sendLandmarks, input.hands), GesturePart(st.lastGesture, input);
        assert sent0 + (f + l) + g == sent0 + (f + l + g);
      }
    }

    /** One iteration: classify the detected hands, then respond to the frame. */
    method Step(input: FrameInput) returns (output: Renderer.Canvas)
      requires Valid() && Observed(input)
      modifies this, dashboard, osc
      ensures Valid()
      ensures State() == NextState(settings, old(State()), input)
      ensures var c := input.verdict;
        dashboard.Current() == Dashboard.Updated(old(dashboard.Current()), c.gesture, c.symbol,
          Fps(input.now, old(lastTime)), DashboardLandmarks(input.hands))
      ensures osc != null ==> osc.sent == old(osc.sent) + FrameOsc(settings, old(State()), input)
      ensures log == old(log) + FrameLog(old(lastGesture), input)
      ensures fresh(output)
      ensures output.commands == FrameImage(renderer, old(State()), input)
      ensures saved == old(saved) + FrameSaves(settings, old(lastGesture), input, output.commands)
    {
      var c := ClassifyFrame(input);
      output := Respond(input, c);
    }

    /** One iteration, as the loop sees it: the loop variables, the dashboard and the three records it extends. */
    method Advance(input: FrameInput)
      requires Valid() && Observed(input)
      modifies this, dashboard, osc
      ensures Valid()
      ensures State() == NextState(settings, old(State()), input)
      ensures dashboard.Current() == Dashboard.Updated(old(dashboard.Current()), input.verdict.gesture,
        input.verdict.symbol, Fps(input.now, old(lastTime)), DashboardLandmarks(input.hands))
      ensures log == old(log) + FrameLog(old(lastGesture), input)
      ensures osc != null ==> osc.sent == old(osc.sent) + FrameOsc(settings, old(State()), input)
      ensures saved == old(saved) + FrameSaves(settings, old(lastGesture), input, FrameImage(renderer, old(State()), input))
    {
      var output := Step(input);
    }

    /**
     * The records of the loop after the first k frames of a run that started in
     * state st0 with dashboard record d0, log log0, OSC traffic sent0 and saved
     * frames saved0.
     */
    ghost predicate Tracks(st0: LoopState, d0: Dashboard.Snapshot, log0: seq<LogEntry>,
                           sent0: seq<OscOutput.Message>, saved0: seq<SavedFrame>, inputs: seq<FrameInput>, k: nat)
      requires k <= |inputs|
      reads this, dashboard, osc
    {
      State() == RunState(settings, st0, inputs[..k]) &&
      dashboard.Current() == RunDashboard(settings, st0, d0, inputs[..k]) &&
      log == log0 + RunLog(settings, st0, inputs[..k]) &&
      (osc != null ==> osc.sent == sent0 + RunOsc(settings, st0, inputs[..k])) &&
      saved == saved0 + RunSaves(settings, renderer, st0, inputs[..k])
    }

    /** One iteration extends a run by frame n: the records become those of the run one frame longer. */
    method AdvanceRun(ghost st0: LoopState, ghost d0: Dashboard.Snapshot, inputs: seq<FrameInput>, n: nat,
                      ghost log0: seq<LogEntry>, ghost sent0: seq<OscOutput.Message>, ghost saved0: seq<SavedFrame>)
      returns (next: nat)
      requires Valid() && n < |inputs| && Observed(inputs[n])
      requires Tracks(st0, d0, log0, sent0, saved0, inputs, n)
      modifies this, dashboard, osc
      ensures Valid()
      ensures next == n + 1
      ensures Tracks(st0, d0, log0, sent0, saved0, inputs, next)
    {
      next := n + 1;
      var x := inputs[n];
      ghost var done := inputs[..n];
      PrefixSnoc(inputs, n);
      ghost var st := RunState(settings, st0, done);
      Advance(x);
      RunStateAppend(settings, st0, done, x);
      RunDashboardAppend(settings, st0, d0, done, x);
      RunLogAppend(settings, st0, done, x);
      AppendAssoc(log0, RunLog(settings, st0, done), FrameLog(st.lastGesture, x));
      RunSavesAppend(settings, renderer, st0, done, x);
      AppendAssoc(saved0, RunSaves(settings, renderer, st0, done),
                  FrameSaves(settings, st.lastGesture, x, FrameImage(renderer, st, x)));
      if osc != null {
        RunOscAppend(settings, st0, done, x);
        AppendAssoc(sent0, RunOsc(settings, st0, done), FrameOsc(settings, st, x));
      }
    }

    /**
     * The loop: frames are processed in order until the input runs out or 'q' is
     * pressed after a frame. Returns how many frames were processed.
     */
    method Run(inputs: seq<FrameInput>) returns (processed: nat)
      requires Valid()
      requires forall t :: 0 <= t < |inputs| ==> Observed(inputs[t])
      modifies this, dashboard, osc
      ensures Valid()
      ensures processed <= |inputs|
      ensures forall t :: 0 <= t < processed - 1 ==> !inputs[t].quit
      ensures processed < |inputs| ==> processed > 0 && inputs[processed - 1].quit
      ensures State() == RunState(settings, old(State()), inputs[..processed])
      ensures dashboard.Current() == RunDashboard(settings, old(State()), old(dashboard.Current()), inputs[..processed])
      ensures log == old(log) + RunLog(settings, old(State()), inputs[..processed])
      ensures osc != null ==> osc.sent == old(osc.sent) + RunOsc(settings, old(State()), inputs[..processed])
      ensures saved == old(saved) + RunSaves(settings, renderer, old(State()), inputs[..processed])
    {
      ghost var st0 := State();
      ghost var d0 := dashboard.Current();
      ghost var sent0 := if osc != null then osc.sent else [];
      processed := 0;
      while processed < |inputs|
        invariant Valid()
        invariant processed <= |inputs|
        invariant forall t :: 0 <= t < processed ==> !inputs[t].quit
        invariant Tracks(st0, d0, old(log), sent0, old(saved), inputs, processed)
      {
        var x := inputs[processed];
        var n := processed;
        processed := AdvanceRun(st0, d0, inputs, n, old(log), sent0, old(saved));
        if x.quit {
          break;
        }
        NoQuitStep(inputs, n);
      }
    }
  }
}
