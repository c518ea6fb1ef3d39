/**
 * The start-up of `main`: the loaded configuration converted, with Python's
 * `bool`, `int`, `float` and `str`, into the renderer's settings and the capture
 * loop's settings. A key read with `config[key]` that is missing, or a value the
 * conversion refuses, makes start-up fail.
 */
module Startup {
  import opened Wrappers
  import Config
  import Renderer
  import FrameLoop

  /** `mapping.get(key, default)` */
  function Get(m: map<string, Config.Value>, key: string, default: Config.Value): Config.Value {
    if key in m then m[key] else default
  }

  /** `config.get(section, {})` when the result is then used as a mapping: absent is empty, a non-mapping fails. */
  function Section(config: map<string, Config.Value>, key: string): Option<map<string, Config.Value>> {
    if key !in config then Some(map[])
    else if config[key].Dict? then Some(config[key].entries)
    else None
  }

  /** `int(x)` of a float: truncation toward zero. */
  function TruncateTowardZero(x: real): (t: int)
    ensures x >= 0.0 ==> 0 <= t && t as real <= x < t as real + 1.0
    ensures x < 0.0 ==> t <= 0 && t as real - 1.0 < x <= t as real
  {
    if x >= 0.0 then x.Floor else -((-x).Floor)
  }

  /** `int(v)` of a parsed value: integers as they are, booleans as 0 or 1, reals truncated. */
  function AsInt(v: Config.Value): Option<int> {
    match v
    case Int(i) => Some(i)
    case Bool(b) => Some(if b then 1 else 0)
    case Real(x) => Some(TruncateTowardZero(x))
    case _ => None
  }

  /** `float(v)` of a parsed value. */
  function AsReal(v: Config.Value): Option<real> {
    match v
    case Int(i) => Some(i as real)
    case Real(x) => Some(x)
    case Bool(b) => Some(if b then 1.0 else 0.0)
    case _ => None
  }

  /** `str(v)` of a parsed string. */
  function AsString(v: Config.Value): Option<string> {
    if v.Str? then Some(v.s) else None
  }

  /** The top-level keys `main` reads with `config[key]` to build the renderer. */
  predicate HasRendererKeys(config: map<string, Config.Value>) {
    "window_title" in config && "show_camera_background" in config && "black_background" in config &&
    "draw_fps" in config && "mirror" in config
  }

  /** The renderer built from the configuration, as `main` builds it. */
  function RendererOf(config: map<string, Config.Value>): (r: Option<Renderer.OverlayRenderer>)
    ensures !HasRendererKeys(config) ==> r.None?
    ensures r.Some? ==> r.value.constellationNeighbors >= 1
    ensures r.Some? ==> r.value.showCameraBackground == Config.Truthy(config["show_camera_background"])
    ensures r.Some? ==> r.value.blackBackground == Config.Truthy(config["black_background"])
    ensures r.Some? ==> r.value.drawFps == Config.Truthy(config["draw_fps"])
  {
    if !HasRendererKeys(config) then None
    else
      var title := AsString(config["window_title"]);
      var section := Section(config, Config.ConstellationSection);
      if title.None? || section.None? then None
      else
        var c := section.value;
        var neighbors := AsInt(Get(c, "neighbors", Config.Int(3)));
        var radius := AsInt(Get(c, "point_radius", Config.Int(3)));
        var thickness := AsInt(Get(c, "line_thickness", Config.Int(1)));
        if neighbors.None? || radius.None? || thickness.None? then None
        else
          Some(Renderer.NewOverlayRenderer(title.value,
            Config.Truthy(config["show_camera_background"]), Config.Truthy(config["black_background"]),
            Config.Truthy(config["draw_fps"]), Config.Truthy(config["mirror"]),
            Config.Truthy(Get(c, "enabled", Config.Bool(true))),
            neighbors.value, radius.value, thickness.value))
  }

  /**
   * The capture loop's settings built from the configuration. OSC is on when the
   * section's `enabled` is truthy (off when it is absent); the emitter's host, port
   * and throttle interval are only read when it is on, and otherwise keep the
   * `.get` defaults.
   */
  function LoopSettingsOf(config: map<string, Config.Value>): (r: Option<FrameLoop.LoopSettings>)
    ensures !("capture_frames_on_change" in config && "frames_dir" in config) ==> r.None?
    ensures r.Some? ==> r.value.captureFramesOnChange == Config.Truthy(config["capture_frames_on_change"])
    ensures r.Some? && Config.OscSection !in config ==> !r.value.oscEnabled
    ensures r.Some? && !r.value.oscEnabled ==> !r.value.sendLandmarks
  {
    if !("capture_frames_on_change" in config && "frames_dir" in config) then None
    else
      var dir := AsString(config["frames_dir"]);
      var section := Section(config, Config.OscSection);
      if dir.None? || section.None? then None
      else
        var o := section.value;
        var capture := Config.Truthy(config["capture_frames_on_change"]);
        if !Config.Truthy(Get(o, "enabled", Config.Bool(false))) then
          Some(FrameLoop.LoopSettings(false, "127.0.0.1", 9000, false, 0.5, capture, dir.value))
        else
          var host := AsString(Get(o, "host", Config.Str("127.0.0.1")));
          var port := AsInt(Get(o, "port", Config.Int(9000)));
          var interval := AsReal(Get(o, "fps_interval_sec", Config.Real(0.5)));
          if host.None? || port.None? || interval.None? then None
          else
            Some(FrameLoop.LoopSettings(true, host.value, port.value,
              Config.Truthy(Get(o, "send_landmarks", Config.Bool(false))), interval.value, capture, dir.value))
  }

  /** The built-in defaults give the renderer's own defaults. */
  lemma DefaultsGiveDefaultRenderer()
    ensures RendererOf(Config.DefaultConfig) == Some(Renderer.DefaultRenderer)
  {
    Config.DefaultsHaveSections();
  }

  /**
   * The built-in defaults give the default loop settings: OSC on at 127.0.0.1:9000
   * without landmark streaming, a 0.5 s throttle, frames captured into "frames".
   */
  lemma DefaultsGiveDefaultLoopSettings()
    ensures LoopSettingsOf(Config.DefaultConfig) == Some(FrameLoop.DefaultLoopSettings)
  {
    Config.DefaultsHaveSections();
  }
}
