/**
 * The animation side of the video export: the `VideoConfig` record with its
 * derived frame count and duration, the ffmpeg quality table, the
 * `CinematicAnimator` that turns a frame number into a camera state and a
 * year, and the construction of a config from command-line arguments.
 * Recording itself (ffmpeg, PIL, reading the frame buffer) is not modelled.
 */
module VideoExport {
  import opened Common
  import opened PyStrings

  /** The export configuration; Python floats are reals. */
  datatype VideoConfig = VideoConfig(
    outputName: string,
    outputDir: string,
    fps: int,
    width: int,
    height: int,
    codec: string,
    quality: string,
    startYear: int,
    endYear: int,
    secondsPerYear: real,
    rotationSpeed: real,
    initialRotationX: real,
    initialRotationY: real,
    zoomLevel: real)

  /** The dataclass defaults. */
  const DefaultConfig := VideoConfig(
    "windkraft_animation", "output/videos", 24, 1920, 1080, "libx264", "medium",
    1990, 2025, 0.25, 12.0, 45.0, 0.0, 4.0)

  // ---------------------------------------------------------------------------
  // Quality table
  // ---------------------------------------------------------------------------

  /** The x264 constant-rate factor chosen for a quality name (exact match). */
  function Crf(quality: string): nat
  {
    if quality == "lossless" then 0
    else if quality == "high" then 20
    else if quality == "medium" then 23
    else 28
  }

  /** The x264 preset chosen for a quality name (exact match). */
  function Preset(quality: string): string
  {
    if quality == "lossless" || quality == "high" then "fast"
    else if quality == "medium" then "veryfast"
    else "ultrafast"
  }

  /** `get_quality_params`: the four ffmpeg arguments for the config's quality. */
  function QualityParams(quality: string): (r: seq<string>)
    ensures |r| == 4 && r[0] == "-crf" && r[2] == "-preset"
    ensures ParseInt(r[1]) == Some(Crf(quality) as int)
  {
    ParseIntRoundTrip(Crf(quality));
    ["-crf", IntToString(Crf(quality)), "-preset", Preset(quality)]
  }

  /** Better quality names get a strictly smaller rate factor; every factor is a valid x264 CRF. */
  lemma CrfOrdered(quality: string)
    ensures Crf("lossless") < Crf("high") < Crf("medium") < Crf("low")
    ensures Crf(quality) <= 51
    ensures Crf(quality) == 0 <==> quality == "lossless"
    ensures quality !in {"lossless", "high", "medium"} ==> Crf(quality) == 28 && Preset(quality) == "ultrafast"
  {
  }

  /** The rate factor string is the decimal literal ffmpeg receives. */
  lemma QualityParamsMedium()
    ensures QualityParams("medium") == ["-crf", "23", "-preset", "veryfast"]
  {
    TwentyThree();
  }

  lemma TwentyThree()
    ensures IntToString(23) == "23"
  {
    assert DigitChar(2) == '2' && DigitChar(3) == '3';
    assert NatToString(23) == NatToString(2) + [DigitChar(3)];
  }

  // ---------------------------------------------------------------------------
  // Frame count and duration
  // ---------------------------------------------------------------------------

  function YearRange(c: VideoConfig): int
  {
    c.endYear - c.startYear
  }

  /** `total_duration`: seconds of video, years times seconds per year. */
  function TotalDuration(c: VideoConfig): (d: real)
    ensures YearRange(c) >= 0 && c.secondsPerYear >= 0.0 ==> d >= 0.0
  {
    YearRange(c) as real * c.secondsPerYear
  }

  /** `total_frames`: `int(years * seconds_per_year * fps)`, truncating toward zero. */
  function TotalFrames(c: VideoConfig): (n: int)
    ensures TotalDuration(c) * c.fps as real >= 0.0 ==>
              0 <= n && n as real <= TotalDuration(c) * c.fps as real < n as real + 1.0
  {
    Trunc(YearRange(c) as real * c.secondsPerYear * c.fps as real)
  }

  /** The default config lasts 8.75 s and renders 210 frames. */
  lemma DefaultLength()
    ensures TotalDuration(DefaultConfig) == 8.75
    ensures TotalFrames(DefaultConfig) == 210
  {
    assert 35.0 * 0.25 * 24.0 == 210.0;
  }

  // ---------------------------------------------------------------------------
  // Camera state
  // ---------------------------------------------------------------------------

  /** The dict `get_camera_state` returns. */
  datatype CameraState = CameraState(rotX: real, rotY: real, zoom: real, year: int, progress: real)

  /** `frame / total`, or 0 when the config has no frames. */
  function Progress(c: VideoConfig, frame: int): (p: real)
    ensures TotalFrames(c) > 0 && 0 <= frame <= TotalFrames(c) ==> 0.0 <= p <= 1.0
    ensures TotalFrames(c) <= 0 ==> p == 0.0
  {
    var total := TotalFrames(c);
    if total > 0 then frame as real / total as real else 0.0
  }

  /** The year shown at a frame: the start year plus the truncated share of the year range. */
  function YearAt(c: VideoConfig, frame: int): int
  {
    YearFor(c, Progress(c, frame))
  }

  /** `start_year + int(progress * year_range)`. */
  function YearFor(c: VideoConfig, progress: real): int
  {
    c.startYear + Trunc(progress * YearRange(c) as real)
  }

  /** More progress never shows an earlier year. */
  lemma YearForMonotone(c: VideoConfig, p1: real, p2: real)
    requires c.startYear <= c.endYear && p1 <= p2
    ensures YearFor(c, p1) <= YearFor(c, p2)
  {
    ScaleMonotone(p1, p2, YearRange(c) as real);
    TruncMonotone(p1 * YearRange(c) as real, p2 * YearRange(c) as real);
  }

  /** `get_camera_state(frame)`: constant tilt and zoom, a year and a y-rotation that follow the progress. */
  function CameraStateAt(c: VideoConfig, frame: int): (s: CameraState)
    ensures 0.0 <= s.rotY < 360.0
    ensures s.progress == Progress(c, frame) && s.year == YearAt(c, frame)
  {
    var progress := Progress(c, frame);
    var year := YearAt(c, frame);
    var rotY := c.initialRotationY + progress * (c.rotationSpeed * YearRange(c) as real);
    CameraState(c.initialRotationX, FloorMod(rotY, 360.0), c.zoomLevel, year, progress)
  }

  lemma ScaleWithinRange(p: real, r: real)
    requires 0.0 <= p <= 1.0 && 0.0 <= r
    ensures 0.0 <= p * r <= r
  {
    assert r - p * r == (1.0 - p) * r;
  }

  /** Every frame of the animation shows a year between the start and the end year. */
  lemma YearInRange(c: VideoConfig, frame: int)
    requires c.startYear <= c.endYear && 0 <= frame <= TotalFrames(c)
    ensures c.startYear <= YearAt(c, frame) <= c.endYear
  {
    var p := Progress(c, frame);
    ScaleWithinRange(p, YearRange(c) as real);
  }

  /** The first frame shows the start year; the frame numbered `total_frames` shows the end year. */
  lemma YearAtEnds(c: VideoConfig)
    requires TotalFrames(c) > 0
    ensures YearAt(c, 0) == c.startYear
    ensures YearAt(c, TotalFrames(c)) == c.endYear
  {
    assert Progress(c, TotalFrames(c)) == 1.0;
  }

  lemma ScaleMonotone(p: real, q: real, r: real)
    requires p <= q && 0.0 <= r
    ensures p * r <= q * r
  {
    assert q * r - p * r == (q - p) * r;
  }

  lemma DivMonotone(a: real, b: real, d: real)
    requires a <= b && d > 0.0
    ensures a / d <= b / d
  {
    assert b / d - a / d == (b - a) / d;
  }

  /** Later frames never show an earlier year. */
  lemma YearMonotone(c: VideoConfig, f1: int, f2: int)
    requires c.startYear <= c.endYear && f1 <= f2
    ensures YearAt(c, f1) <= YearAt(c, f2)
  {
    var total := TotalFrames(c);
    if total > 0 {
      DivMonotone(f1 as real, f2 as real, total as real);
    }
    YearForMonotone(c, Progress(c, f1), Progress(c, f2));
  }

  /** With the default config the last frame rendered (209 of 210) still shows 2024, not 2025. */
  lemma DefaultLastFrameYear()
    ensures YearAt(DefaultConfig, 209) == 2024
  {
    DefaultLength();
    var p := Progress(DefaultConfig, 209);
    assert p == 209.0 / 210.0;
    assert p * 35.0 == 34.0 + 35.0 / 42.0;
  }

  // ---------------------------------------------------------------------------
  // The animator
  // ---------------------------------------------------------------------------

  /** `CinematicAnimator`: a frame counter over a fixed config. */
  class CinematicAnimator {
    const config: VideoConfig
    var currentFrame: int
    var currentYear: int

    /** `config or VideoConfig()`: a config object is always truthy, so only a missing one is replaced. */
    constructor(config: Option<VideoConfig>)
      ensures this.config == (if config.Some? then config.value else DefaultConfig)
      ensures currentFrame == 0 && currentYear == this.config.startYear
    {
      this.config := if config.Some? then config.value else DefaultConfig;
      currentFrame := 0;
      currentYear := (if config.Some? then config.value else DefaultConfig).startYear;
    }

    /** `reset`: back to the first frame and the start year. */
    method Reset()
      modifies this
      ensures currentFrame == 0 && currentYear == config.startYear
    {
      currentFrame := 0;
      currentYear := config.startYear;
    }

    /** `get_camera_state`: the state of the given frame, or of the current frame when none is given. */
    method GetCameraState(frame: Option<int>) returns (s: CameraState)
      ensures s == CameraStateAt(config, if frame.Some? then frame.value else currentFrame)
      ensures 0.0 <= s.rotY < 360.0 && s.rotX == config.initialRotationX && s.zoom == config.zoomLevel
    {
      var f := if frame.Some? then frame.value else currentFrame;
      s := CameraStateAt(config, f);
    }

    /** `advance_frame`: the state of the current frame, then one frame on, remembering its year. */
    method AdvanceFrame() returns (state: CameraState)
      modifies this
      ensures state == CameraStateAt(config, old(currentFrame))
      ensures currentFrame == old(currentFrame) + 1 && currentYear == state.year
    {
      state := GetCameraState(None);
      currentFrame := currentFrame + 1;
      currentYear := state.year;
    }

    /** `is_finished`. */
    predicate IsFinished()
      reads this
    {
      currentFrame >= TotalFrames(config)
    }

    /**
     * The recording loop of the video mode: reset, then advance until
     * finished. It yields exactly `total_frames` states, one per frame in
     * order, each showing a year within range and none earlier than the last.
     */
    method Record() returns (states: seq<CameraState>)
      modifies this
      ensures |states| == if TotalFrames(config) > 0 then TotalFrames(config) else 0
      ensures forall i :: 0 <= i < |states| ==> states[i] == CameraStateAt(config, i)
      ensures IsFinished()
    {
      Reset();
      states := [];
      while !IsFinished()
        invariant 0 <= currentFrame == |states|
        invariant TotalFrames(config) > 0 ==> currentFrame <= TotalFrames(config)
        invariant TotalFrames(config) <= 0 ==> currentFrame == 0
        invariant forall i :: 0 <= i < |states| ==> states[i] == CameraStateAt(config, i)
        decreases TotalFrames(config) - currentFrame
      {
        var state := AdvanceFrame();
        states := states + [state];
      }
    }
  }

  /** The recorded years run from the start year upward, never leaving the configured range. */
  lemma RecordedYears(c: VideoConfig, states: seq<CameraState>)
    requires c.startYear <= c.endYear
    requires |states| <= TotalFrames(c)
    requires forall i :: 0 <= i < |states| ==> states[i] == CameraStateAt(c, i)
    ensures forall i :: 0 <= i < |states| ==> c.startYear <= states[i].year <= c.endYear
    ensures forall i, j :: 0 <= i <= j < |states| ==> states[i].year <= states[j].year
    ensures |states| > 0 ==> states[0].year == c.startYear
  {
    forall i | 0 <= i < |states| ensures c.startYear <= states[i].year <= c.endYear {
      YearInRange(c, i);
    }
    forall i, j | 0 <= i <= j < |states| ensures states[i].year <= states[j].year {
      YearMonotone(c, i, j);
    }
    if |states| > 0 {
      YearAtEnds(c);
    }
  }

  // ---------------------------------------------------------------------------
  // Command-line arguments
  // ---------------------------------------------------------------------------

  /** The argparse namespace; `None` is an attribute that is missing or `None`. */
  datatype Args = Args(
    fps: Option<int>,
    resolution: Option<string>,
    output: Option<string>,
    quality: Option<string>,
    speed: Option<real>)

  /** The named resolutions, matched after lower-casing. */
  function Resolution(name: string): (r: Option<(int, int)>)
  {
    var res := Lower(name);
    if res == "720p" then Some((1280, 720))
    else if res == "1080p" then Some((1920, 1080))
    else if res == "1440p" then Some((2560, 1440))
    else if res == "4k" then Some((3840, 2160))
    else None
  }

  /** Every named resolution is 16:9, and the name is matched regardless of case. */
  lemma ResolutionProperties(name: string)
    ensures Resolution(name).Some? ==> Resolution(name).value.0 * 9 == Resolution(name).value.1 * 16
    ensures Resolution(Upper(name)) == Resolution(name)
  {
    LowerOfUpper(name);
  }

  /** An upper-case "4K" selects 3840x2160. */
  lemma ResolutionUpperCase(name: string)
    requires name == "4K"
    ensures Resolution(name) == Some((3840, 2160))
  {
    assert Lower(name) == "4k";
  }

  /** Python truthiness of each argument kind. */
  predicate TruthyInt(v: Option<int>) { v.Some? && v.value != 0 }
  predicate TruthyString(v: Option<string>) { v.Some? && v.value != "" }
  predicate TruthyReal(v: Option<real>) { v.Some? && v.value != 0.0 }

  /**
   * `create_video_config_from_args`: the defaults, overridden field by field
   * by truthy arguments only; an unknown resolution keeps 1920x1080.
   */
  method CreateVideoConfigFromArgs(args: Args) returns (config: VideoConfig)
    ensures config.fps == if TruthyInt(args.fps) then args.fps.value else DefaultConfig.fps
    ensures (config.width, config.height) ==
              if TruthyString(args.resolution) && Resolution(args.resolution.value).Some?
              then Resolution(args.resolution.value).value
              else (DefaultConfig.width, DefaultConfig.height)
    ensures config.outputName == if TruthyString(args.output) then args.output.value else DefaultConfig.outputName
    ensures config.quality == if TruthyString(args.quality) then args.quality.value else DefaultConfig.quality
    ensures config.secondsPerYear ==
              if TruthyReal(args.speed) then args.speed.value else DefaultConfig.secondsPerYear
    ensures config.(fps := 24, width := 1920, height := 1080, outputName := "windkraft_animation",
                    quality := "medium", secondsPerYear := 0.25) == DefaultConfig
  {
    config := DefaultConfig;
    if args.fps.Some? && args.fps.value != 0 {
      config := config.(fps := args.fps.value);
    }
    if args.resolution.Some? && args.resolution.value != "" {
      var res := Resolution(args.resolution.value);
      if res.Some? {
        config := config.(width := res.value.0, height := res.value.1);
      }
    }
    if args.output.Some? && args.output.value != "" {
      config := config.(outputName := args.output.value);
    }
    if args.quality.Some? && args.quality.value != "" {
      config := config.(quality := args.quality.value);
    }
    if args.speed.Some? && args.speed.value != 0.0 {
      config := config.(secondsPerYear := args.speed.value);
    }
  }
}
