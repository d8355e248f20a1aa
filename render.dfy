/**
  The virtual camera: the `Renderer` of src/core/Renderer.ts.

  A renderer owns a pointer trace (sorted by timestamp when it is built), the
  recording geometry, and a camera that every `Draw` moves a little towards the
  pointer. The arithmetic is over `real` (IEEE rounding is not modelled); canvas
  painting is reduced to two outputs of `Draw`: whether the video frame was
  painted and where the cursor was drawn.
*/
module Render {
  import opened Wrappers

  datatype Kind = Move | Click

  /** One pointer sample (`MouseMetadata`); `screenX`/`screenY` are absent in older recordings. */
  datatype Sample = Sample(
    timestamp: real,
    x: real,
    y: real,
    screenX: Option<real>,
    screenY: Option<real>,
    kind: Kind)

  /** The geometry stored with a recording (the renderer's `viewport` record). */
  datatype Viewport = Viewport(
    width: real,
    height: real,
    dpr: Option<real>,
    outerWidth: Option<real>,
    outerHeight: Option<real>,
    screenWidth: Option<real>,
    screenHeight: Option<real>,
    windowX: Option<real>,
    windowY: Option<real>)

  /** What the renderer reads of the live video element at a draw. */
  datatype Video = Video(videoWidth: nat, videoHeight: nat, readyState: nat)

  /** Everything a sample's canvas position depends on besides the sample itself. */
  datatype Geometry = Geometry(viewport: Option<Viewport>, videoWidth: nat, videoHeight: nat)

  datatype Mode = ViewportMode | WindowMode | ScreenMode

  /** The coordinate source `interpolatePosition` picks for a pair of samples. */
  datatype Source = ScreenCoords | WindowCoords | PageCoords

  datatype Point = Point(x: real, y: real)

  datatype Camera = Camera(x: real, y: real, zoom: real)

  const TOLERANCE: real := 10.0
  const BASE_ZOOM: real := 0.9
  const FOCUS_ZOOM: real := 1.8
  const CLICK_WINDOW: real := 800.0
  const ZOOM_SMOOTHING: real := 0.05
  const PAN_SMOOTHING: real := 0.08
  /** `HTMLMediaElement.HAVE_CURRENT_DATA` */
  const HAVE_CURRENT_DATA: nat := 2

  function Abs(v: real): real { if v < 0.0 then -v else v }
  function Min(a: real, b: real): real { if a <= b then a else b }
  function Max(a: real, b: real): real { if a <= b then b else a }

  /** JavaScript truthiness of an optional number (NaN is not modelled). */
  predicate Truthy(v: Option<real>) { v.Some? && v.value != 0.0 }

  // ---------------------------------------------------------------------------
  // lerp and clamp
  // ---------------------------------------------------------------------------

  /** `lerp`: the value a fraction `t` of the way from `start` to `end`. */
  function Lerp(start: real, end: real, t: real): (r: real)
    ensures t == 0.0 ==> r == start
    ensures t == 1.0 ==> r == end
    ensures 0.0 <= t <= 1.0 ==> Min(start, end) <= r <= Max(start, end)
  {
    var r := start * (1.0 - t) + end * t;
    LerpStaysBetween(start, end, t, r);
    r
  }

  lemma LerpStaysBetween(start: real, end: real, t: real, r: real)
    requires r == start * (1.0 - t) + end * t
    ensures 0.0 <= t <= 1.0 ==> Min(start, end) <= r <= Max(start, end)
  {
    if 0.0 <= t <= 1.0 {
      if start <= end {
        Ascending(start, end, t, r);
      } else {
        Ascending(end, start, 1.0 - t, r);
      }
    }
  }

  /** From the lower to the higher end, a lerp stays between the two. */
  lemma Ascending(lo: real, hi: real, t: real, r: real)
    requires lo <= hi && 0.0 <= t <= 1.0 && r == lo * (1.0 - t) + hi * t
    ensures lo <= r <= hi
  {
    NonNegProduct(hi - lo, t);
    NonNegProduct(hi - lo, 1.0 - t);
    assert r == lo + (hi - lo) * t;
    assert r == hi - (hi - lo) * (1.0 - t);
  }

  lemma NonNegProduct(x: real, y: real)
    requires x >= 0.0 && y >= 0.0
    ensures x * y >= 0.0
  {
  }

  /** Scaling commutes with lerp: the step that lets a scaled interpolation be read as a segment. */
  lemma LerpScale(a: real, b: real, t: real, k: real)
    ensures Lerp(a, b, t) * k == Lerp(a * k, b * k, t)
  {
    calc {
      Lerp(a, b, t) * k;
      (a * (1.0 - t) + b * t) * k;
      a * k * (1.0 - t) + b * k * t;
      Lerp(a * k, b * k, t);
    }
  }

  function LerpPoint(a: Point, b: Point, t: real): Point {
    Point(Lerp(a.x, b.x, t), Lerp(a.y, b.y, t))
  }

  /** `p` lies in the bounding box of `a` and `b`; for a point of `LerpPoint` this is the segment. */
  predicate Between(p: Point, a: Point, b: Point) {
    Min(a.x, b.x) <= p.x <= Max(a.x, b.x) && Min(a.y, b.y) <= p.y <= Max(a.y, b.y)
  }

  /** `clamp`: `Math.max(min, Math.min(max, value))`. */
  function Clamp(value: real, min: real, max: real): (r: real)
    ensures min <= max ==> min <= r <= max
    ensures min <= value <= max ==> r == value
    ensures min <= max && value < min ==> r == min
    ensures min <= max && max < value ==> r == max
    ensures max < min ==> r == min
  {
    Max(min, Min(max, value))
  }

  // ---------------------------------------------------------------------------
  // Recording mode
  // ---------------------------------------------------------------------------

  /** `viewport.dpr || 1` */
  function EffectiveDpr(vp: Viewport): (d: real)
    ensures d != 0.0
    ensures Truthy(vp.dpr) ==> d == vp.dpr.value
    ensures !Truthy(vp.dpr) ==> d == 1.0
  {
    if Truthy(vp.dpr) then vp.dpr.value else 1.0
  }

  /** The video matches the reference size `w`×`h` times `dpr` within the tolerance, both given and non-zero. */
  predicate MatchesSize(g: Geometry, w: Option<real>, h: Option<real>, dpr: real) {
    && Truthy(w) && Truthy(h)
    && Abs(g.videoWidth as real - w.value * dpr) < TOLERANCE
    && Abs(g.videoHeight as real - h.value * dpr) < TOLERANCE
  }

  predicate ScreenSized(g: Geometry) {
    g.viewport.Some? &&
    MatchesSize(g, g.viewport.value.screenWidth, g.viewport.value.screenHeight, EffectiveDpr(g.viewport.value))
  }

  predicate WindowSized(g: Geometry) {
    g.viewport.Some? &&
    MatchesSize(g, g.viewport.value.outerWidth, g.viewport.value.outerHeight, EffectiveDpr(g.viewport.value))
  }

  /** `detectRecordingMode`: screen is tried before window; viewport is the default. */
  function DetectRecordingMode(g: Geometry): (m: Mode)
    ensures g.viewport.None? || g.videoWidth == 0 ==> m == ViewportMode
    ensures m == ScreenMode <==> g.viewport.Some? && g.videoWidth != 0 && ScreenSized(g)
    ensures m == WindowMode <==> g.viewport.Some? && g.videoWidth != 0 && !ScreenSized(g) && WindowSized(g)
  {
    if g.viewport.None? || g.videoWidth == 0 then ViewportMode
    else
      var vp := g.viewport.value;
      var dpr := EffectiveDpr(vp);
      if MatchesSize(g, vp.screenWidth, vp.screenHeight, dpr) then ScreenMode
      else if MatchesSize(g, vp.outerWidth, vp.outerHeight, dpr) then WindowMode
      else ViewportMode
  }

  /** A recording whose video matches both the screen and the window size is a screen recording. */
  lemma ScreenCheckedFirst(g: Geometry)
    requires g.viewport.Some? && g.videoWidth != 0
    requires ScreenSized(g) && WindowSized(g)
    ensures DetectRecordingMode(g) == ScreenMode
  {
  }

  /** A device pixel ratio of 0 or none at all classifies exactly like a ratio of 1. */
  lemma {:induction false} MissingDprIsOne(g: Geometry)
    requires g.viewport.Some?
    requires !Truthy(g.viewport.value.dpr)
    ensures DetectRecordingMode(g) == DetectRecordingMode(g.(viewport := Some(g.viewport.value.(dpr := Some(1.0)))))
  {
    var g1 := g.(viewport := Some(g.viewport.value.(dpr := Some(1.0))));
    assert EffectiveDpr(g.viewport.value) == 1.0 == EffectiveDpr(g1.viewport.value);
    assert ScreenSized(g) == ScreenSized(g1);
    assert WindowSized(g) == WindowSized(g1);
  }

  // ---------------------------------------------------------------------------
  // Mapping samples to canvas positions
  // ---------------------------------------------------------------------------

  /** The branch of `interpolatePosition`: screen coordinates only when both samples carry them,
      window coordinates when the first sample and the geometry carry them. */
  function CoordSource(g: Geometry, prev: Sample, next: Sample): (r: Source)
    ensures r == ScreenCoords <==> DetectRecordingMode(g) == ScreenMode && prev.screenX.Some? && next.screenX.Some?
    ensures r == WindowCoords <==>
      DetectRecordingMode(g) == WindowMode && prev.screenX.Some? && g.viewport.Some? && g.viewport.value.windowX.Some?
    ensures DetectRecordingMode(g) == ViewportMode || prev.screenX.None? ==> r == PageCoords
  {
    var mode := DetectRecordingMode(g);
    if mode == ScreenMode && prev.screenX.Some? && next.screenX.Some? then ScreenCoords
    else if mode == WindowMode && prev.screenX.Some? && g.viewport.Some? && g.viewport.value.windowX.Some?
    then WindowCoords
    else PageCoords
  }

  /** Every coordinate the chosen branch reads with `!` is present. The window branch checks only
      `prev.screenX`, then reads `prev.screenY`, `next.screenX` and `next.screenY`. */
  predicate CoordsDefined(g: Geometry, prev: Sample, next: Sample) {
    match CoordSource(g, prev, next)
    case ScreenCoords => prev.screenY.Some? && next.screenY.Some?
    case WindowCoords => prev.screenY.Some? && next.screenX.Some? && next.screenY.Some?
    case PageCoords => true
  }

  /** The raw coordinates of one sample in the chosen source; window coordinates are screen
      coordinates minus the window's screen origin (`windowX || 0`, `windowY || 0`). */
  function RawPoint(g: Geometry, src: Source, s: Sample): (r: Point)
    requires src != PageCoords ==> s.screenX.Some? && s.screenY.Some?
    requires src == WindowCoords ==> g.viewport.Some?
    ensures src == PageCoords ==> r == Point(s.x, s.y)
    ensures src == ScreenCoords ==> r == Point(s.screenX.value, s.screenY.value)
    ensures src == WindowCoords ==>
      && r.x + g.viewport.value.windowX.GetOr(0.0) == s.screenX.value
      && r.y + g.viewport.value.windowY.GetOr(0.0) == s.screenY.value
  {
    match src
    case ScreenCoords => Point(s.screenX.value, s.screenY.value)
    case WindowCoords =>
      Point(s.screenX.value - g.viewport.value.windowX.GetOr(0.0),
            s.screenY.value - g.viewport.value.windowY.GetOr(0.0))
    case PageCoords => Point(s.x, s.y)
  }

  /** The reference size the mode maps from: screen, outer window, or page viewport. */
  function SourceSize(vp: Viewport, mode: Mode): (real, real) {
    match mode
    case ScreenMode => (vp.screenWidth.GetOr(0.0), vp.screenHeight.GetOr(0.0))
    case WindowMode => (vp.outerWidth.GetOr(0.0), vp.outerHeight.GetOr(0.0))
    case ViewportMode => (vp.width, vp.height)
  }

  /** The per-axis scale factors, present only when there is geometry, a video width and a positive
      reference size; each maps the reference size onto the video size. */
  function ScaleFactors(g: Geometry, mode: Mode): (f: Option<(real, real)>)
    ensures f.Some? <==> (g.viewport.Some? && g.videoWidth > 0
                          && SourceSize(g.viewport.value, mode).0 > 0.0 && SourceSize(g.viewport.value, mode).1 > 0.0)
    ensures f.Some? ==> f.value.0 * SourceSize(g.viewport.value, mode).0 == g.videoWidth as real
    ensures f.Some? ==> f.value.1 * SourceSize(g.viewport.value, mode).1 == g.videoHeight as real
  {
    if g.viewport.Some? && g.videoWidth > 0 then
      var (sourceW, sourceH) := SourceSize(g.viewport.value, mode);
      if sourceW > 0.0 && sourceH > 0.0 then Some((g.videoWidth as real / sourceW, g.videoHeight as real / sourceH))
      else None
    else None
  }

  /** Multiplies each axis by its factor, if there are factors. */
  function ScaleBy(f: Option<(real, real)>, p: Point): Point {
    match f
    case Some((sx, sy)) => Point(p.x * sx, p.y * sy)
    case None => p
  }

  /** The recording mode's scaling: none without factors, else each axis times its factor. */
  function Scale(g: Geometry, p: Point): (r: Point)
    ensures ScaleFactors(g, DetectRecordingMode(g)).None? ==> r == p
    ensures var f := ScaleFactors(g, DetectRecordingMode(g));
      f.Some? ==> r == Point(p.x * f.value.0, p.y * f.value.1)
  {
    ScaleBy(ScaleFactors(g, DetectRecordingMode(g)), p)
  }

  /** `interpolatePosition`: lerp in the chosen coordinate source, then scale. */
  function InterpolatePosition(g: Geometry, prev: Sample, next: Sample, progress: real): (r: Point)
    requires CoordsDefined(g, prev, next)
    ensures var src := CoordSource(g, prev, next);
      && (progress == 0.0 ==> r == Scale(g, RawPoint(g, src, prev)))
      && (progress == 1.0 ==> r == Scale(g, RawPoint(g, src, next)))
  {
    var src := CoordSource(g, prev, next);
    var a := RawPoint(g, src, prev);
    var b := RawPoint(g, src, next);
    Scale(g, Point(Lerp(a.x, b.x, progress), Lerp(a.y, b.y, progress)))
  }

  /** A sample carries both screen coordinates or no `screenX`. */
  predicate Paired(s: Sample) { s.screenX.Some? ==> s.screenY.Some? }

  /** Where one sample lands on the canvas. */
  function MapSample(g: Geometry, s: Sample): Point
    requires Paired(s)
  {
    Scale(g, RawPoint(g, CoordSource(g, s, s), s))
  }

  /** A trace in which every sample has both screen coordinates, or none has `screenX`: what the
      content script (always both) and older recordings (never) produce. */
  predicate UniformScreenCoords(trace: seq<Sample>) {
    || (forall s | s in trace :: s.screenX.Some? && s.screenY.Some?)
    || (forall s | s in trace :: s.screenX.None?)
  }

  lemma UniformPairDefined(g: Geometry, trace: seq<Sample>, prev: Sample, next: Sample)
    requires UniformScreenCoords(trace) && prev in trace && next in trace
    ensures Paired(prev) && Paired(next) && prev.screenX.Some? == next.screenX.Some?
    ensures CoordsDefined(g, prev, next)
  {
  }

  /** Interpolating between two samples with the same kind of coordinates moves along the segment
      joining their canvas positions, proportionally to `progress`. */
  lemma {:induction false} InterpolateOnSegment(g: Geometry, prev: Sample, next: Sample, progress: real)
    requires Paired(prev) && Paired(next) && prev.screenX.Some? == next.screenX.Some?
    ensures CoordsDefined(g, prev, next)
    ensures InterpolatePosition(g, prev, next, progress) == LerpPoint(MapSample(g, prev), MapSample(g, next), progress)
    ensures 0.0 <= progress <= 1.0 ==>
      Between(InterpolatePosition(g, prev, next, progress), MapSample(g, prev), MapSample(g, next))
  {
    var src := CoordSource(g, prev, next);
    assert CoordSource(g, prev, prev) == src == CoordSource(g, next, next);
    var a := RawPoint(g, src, prev);
    var b := RawPoint(g, src, next);
    ScaleLerp(g, a, b, progress);
  }

  /** Scaling maps the segment between two raw points onto the segment between their images. */
  lemma ScaleLerp(g: Geometry, a: Point, b: Point, t: real)
    ensures Scale(g, LerpPoint(a, b, t)) == LerpPoint(Scale(g, a), Scale(g, b), t)
  {
    ScaleByLerp(ScaleFactors(g, DetectRecordingMode(g)), a, b, t);
  }

  lemma ScaleByLerp(f: Option<(real, real)>, a: Point, b: Point, t: real)
    ensures ScaleBy(f, LerpPoint(a, b, t)) == LerpPoint(ScaleBy(f, a), ScaleBy(f, b), t)
  {
    if f.Some? {
      LerpScale(a.x, b.x, t, f.value.0);
      LerpScale(a.y, b.y, t, f.value.1);
    }
  }

  /** The window-recording example: window 1200×900 at (50, 50), sample at screen (150, 150). */
  lemma WindowRecordingExample()
    ensures var g := Geometry(Some(Viewport(1000.0, 800.0, Some(1.0), Some(1200.0), Some(900.0), None, None,
                                             Some(50.0), Some(50.0))), 1200, 900);
            DetectRecordingMode(g) == WindowMode &&
            MapSample(g, Sample(0.0, 100.0, 100.0, Some(150.0), Some(150.0), Move)) == Point(100.0, 100.0)
  {
    var vp := Viewport(1000.0, 800.0, Some(1.0), Some(1200.0), Some(900.0), None, None, Some(50.0), Some(50.0));
    var g := Geometry(Some(vp), 1200, 900);
    var s := Sample(0.0, 100.0, 100.0, Some(150.0), Some(150.0), Move);
    assert EffectiveDpr(vp) == 1.0;
    assert !ScreenSized(g) && WindowSized(g);
    assert DetectRecordingMode(g) == WindowMode;
    assert ScaleFactors(g, WindowMode) == Some((1.0, 1.0));
    assert CoordSource(g, s, s) == WindowCoords;
    assert RawPoint(g, WindowCoords, s) == Point(100.0, 100.0);
  }

  /** The screen-recording example: screen 1920×1080, sample at screen (500, 500). */
  lemma ScreenRecordingExample()
    ensures var g := Geometry(Some(Viewport(1000.0, 800.0, Some(1.0), None, None, Some(1920.0), Some(1080.0),
                                             None, None)), 1920, 1080);
            DetectRecordingMode(g) == ScreenMode &&
            MapSample(g, Sample(0.0, 100.0, 100.0, Some(500.0), Some(500.0), Move)) == Point(500.0, 500.0)
  {
    var vp := Viewport(1000.0, 800.0, Some(1.0), None, None, Some(1920.0), Some(1080.0), None, None);
    var g := Geometry(Some(vp), 1920, 1080);
    var s := Sample(0.0, 100.0, 100.0, Some(500.0), Some(500.0), Move);
    assert EffectiveDpr(vp) == 1.0;
    assert ScreenSized(g);
    assert DetectRecordingMode(g) == ScreenMode;
    assert ScaleFactors(g, ScreenMode) == Some((1.0, 1.0));
    assert CoordSource(g, s, s) == ScreenCoords;
  }

  // ---------------------------------------------------------------------------
  // Pointer position at a time
  // ---------------------------------------------------------------------------

  predicate SortedByTimestamp(trace: seq<Sample>) {
    forall i, j :: 0 <= i < j < |trace| ==> trace[i].timestamp <= trace[j].timestamp
  }

  predicate Brackets(trace: seq<Sample>, i: nat, t: real)
    requires i + 1 < |trace|
  {
    trace[i].timestamp <= t && trace[i + 1].timestamp >= t
  }

  /** The search loop of `getMousePosition`: the first index from `from` on whose pair brackets `t`. */
  function FirstBracket(trace: seq<Sample>, t: real, from: nat): (r: Option<nat>)
    decreases |trace| - from
    ensures r.Some? ==> from <= r.value && r.value + 1 < |trace| && Brackets(trace, r.value, t)
    ensures forall j: nat :: from <= j && j + 1 < |trace| && (r.None? || j < r.value) ==> !Brackets(trace, j, t)
  {
    if from + 1 >= |trace| then None
    else if Brackets(trace, from, t) then Some(from)
    else FirstBracket(trace, t, from + 1)
  }

  /** Strictly inside the trace's time span a bracketing pair always exists (sorted or not). */
  lemma {:induction false} BracketExists(trace: seq<Sample>, t: real, from: nat)
    requires from + 1 < |trace|
    requires trace[from].timestamp <= t < trace[|trace| - 1].timestamp
    ensures FirstBracket(trace, t, from).Some?
    decreases |trace| - from
  {
    if !Brackets(trace, from, t) {
      assert trace[from + 1].timestamp < t;
      assert from + 2 < |trace|;
      BracketExists(trace, t, from + 1);
    }
  }

  /** The fraction of the way from `prev` to `next` at `t`; 0 when both have the same timestamp. */
  function Progress(prev: Sample, next: Sample, t: real): (p: real)
    ensures prev.timestamp == next.timestamp ==> p == 0.0
    ensures prev.timestamp <= t <= next.timestamp ==> 0.0 <= p <= 1.0
  {
    var duration := next.timestamp - prev.timestamp;
    if duration == 0.0 then 0.0
    else
      FractionInUnit(t - prev.timestamp, duration);
      (t - prev.timestamp) / duration
  }

  lemma FractionInUnit(part: real, whole: real)
    requires whole != 0.0
    ensures 0.0 <= part <= whole ==> 0.0 <= part / whole <= 1.0
  {
    if 0.0 <= part <= whole {
      assert (part / whole) * whole == part;
    }
  }

  function Last(trace: seq<Sample>): Sample
    requires |trace| > 0
  {
    trace[|trace| - 1]
  }

  /** `getMousePosition`: none for an empty trace; the first or last sample outside the trace's time
      span; otherwise the interpolation over the first bracketing pair (the loop's defaults, first
      and last sample, stand when no pair brackets `t`). */
  function MousePositionAt(trace: seq<Sample>, g: Geometry, t: real): (r: Option<Point>)
    requires UniformScreenCoords(trace)
    ensures r.None? <==> |trace| == 0
  {
    if |trace| == 0 then None
    else
      var first, last := trace[0], Last(trace);
      UniformPairDefined(g, trace, first, first);
      UniformPairDefined(g, trace, last, last);
      UniformPairDefined(g, trace, first, last);
      if t <= first.timestamp then Some(InterpolatePosition(g, first, first, 0.0))
      else if t >= last.timestamp then Some(InterpolatePosition(g, last, last, 0.0))
      else
        match FirstBracket(trace, t, 0)
        case Some(i) =>
          UniformPairDefined(g, trace, trace[i], trace[i + 1]);
          Some(InterpolatePosition(g, trace[i], trace[i + 1], Progress(trace[i], trace[i + 1], t)))
        case None => Some(InterpolatePosition(g, first, last, Progress(first, last, t)))
  }

  /** Outside the trace's span the position is exactly the first or the last sample's. */
  lemma MousePositionEnds(trace: seq<Sample>, g: Geometry, t: real)
    requires UniformScreenCoords(trace)
    ensures |trace| == 0 <==> MousePositionAt(trace, g, t).None?
    ensures |trace| > 0 && t <= trace[0].timestamp ==>
      Paired(trace[0]) && MousePositionAt(trace, g, t) == Some(MapSample(g, trace[0]))
    ensures |trace| > 0 && trace[0].timestamp < t && Last(trace).timestamp <= t ==>
      Paired(Last(trace)) && MousePositionAt(trace, g, t) == Some(MapSample(g, Last(trace)))
  {
    if |trace| > 0 {
      UniformPairDefined(g, trace, trace[0], trace[0]);
      UniformPairDefined(g, trace, Last(trace), Last(trace));
    }
  }

  /** Strictly inside the span the position is on the segment between the canvas positions of a
      pair of consecutive samples that brackets `t`, at the elapsed-time fraction. */
  lemma MousePositionInside(trace: seq<Sample>, g: Geometry, t: real)
    requires UniformScreenCoords(trace)
    requires |trace| > 0 && trace[0].timestamp < t < Last(trace).timestamp
    ensures FirstBracket(trace, t, 0).Some?
    ensures var i := FirstBracket(trace, t, 0).value;
      && i + 1 < |trace|
      && trace[i].timestamp <= t <= trace[i + 1].timestamp
      && 0.0 <= Progress(trace[i], trace[i + 1], t) <= 1.0
      && Paired(trace[i]) && Paired(trace[i + 1])
      && var a, b := MapSample(g, trace[i]), MapSample(g, trace[i + 1]);
         && MousePositionAt(trace, g, t) == Some(LerpPoint(a, b, Progress(trace[i], trace[i + 1], t)))
         && Between(MousePositionAt(trace, g, t).value, a, b)
  {
    BracketExists(trace, t, 0);
    var i := FirstBracket(trace, t, 0).value;
    UniformPairDefined(g, trace, trace[i], trace[i + 1]);
    InterpolateOnSegment(g, trace[i], trace[i + 1], Progress(trace[i], trace[i + 1], t));
  }

  // ---------------------------------------------------------------------------
  // Zoom and camera
  // ---------------------------------------------------------------------------

  predicate NearClick(s: Sample, t: real) {
    s.kind == Click && Abs(s.timestamp - t) < CLICK_WINDOW
  }

  /** `metadata.find(...)`: the first click closer than CLICK_WINDOW to `t`. */
  function FindNearClick(trace: seq<Sample>, t: real): (r: Option<Sample>)
    ensures r.Some? ==> r.value in trace && NearClick(r.value, t)
    ensures r.None? <==> forall s | s in trace :: !NearClick(s, t)
  {
    if |trace| == 0 then None
    else if NearClick(trace[0], t) then Some(trace[0])
    else
      var rest := FindNearClick(trace[1..], t);
      assert forall s | s in trace :: s == trace[0] || s in trace[1..];
      rest
  }

  /** `getTargetZoom`: the focus zoom exactly when some click is near `t`, else the floating zoom. */
  function TargetZoom(trace: seq<Sample>, t: real): (z: real)
    ensures z == BASE_ZOOM || z == FOCUS_ZOOM
    ensures z == FOCUS_ZOOM <==> exists s | s in trace :: NearClick(s, t)
  {
    if FindNearClick(trace, t).Some? then FOCUS_ZOOM else BASE_ZOOM
  }

  predicate ZoomInBand(z: real) { BASE_ZOOM <= z <= FOCUS_ZOOM }

  /** Zoomed in (zoom ≥ 1), the visible width `size/zoom` fits in the canvas, so the pan interval
      `[visible/2, size − visible/2]` is non-empty. */
  lemma ClampIntervalNonEmpty(size: real, zoom: real)
    ensures size >= 0.0 && zoom >= 1.0 ==> (size / zoom) / 2.0 <= size - (size / zoom) / 2.0
  {
    if size >= 0.0 && zoom >= 1.0 {
      var visible := size / zoom;
      assert visible * zoom == size;
      assert visible >= 0.0;
      assert visible * zoom >= visible * 1.0;
    }
  }

  /** The point the camera heads for: the canvas centre with no pointer or below zoom 1, otherwise
      the pointer clamped so that the zoomed view stays inside the frame. */
  function CameraTarget(pos: Option<Point>, zoom: real, width: real, height: real): (c: Point)
    requires zoom > 0.0
    ensures pos.None? || zoom < 1.0 ==> c == Point(width / 2.0, height / 2.0)
    ensures pos.Some? && zoom >= 1.0 && width >= 0.0 && height >= 0.0 ==>
      && (width / zoom) / 2.0 <= c.x <= width - (width / zoom) / 2.0
      && (height / zoom) / 2.0 <= c.y <= height - (height / zoom) / 2.0
    ensures pos.Some? && zoom >= 1.0
            && (width / zoom) / 2.0 <= pos.value.x <= width - (width / zoom) / 2.0
            && (height / zoom) / 2.0 <= pos.value.y <= height - (height / zoom) / 2.0
            ==> c == pos.value
    ensures pos.Some? && zoom >= 1.0 && width >= 0.0 ==>
      var half := (width / zoom) / 2.0;
      && (pos.value.x < half ==> c.x == half)
      && (half <= pos.value.x <= width - half ==> c.x == pos.value.x)
      && (pos.value.x > width - half ==> c.x == width - half)
    ensures pos.Some? && zoom >= 1.0 && height >= 0.0 ==>
      var half := (height / zoom) / 2.0;
      && (pos.value.y < half ==> c.y == half)
      && (half <= pos.value.y <= height - half ==> c.y == pos.value.y)
      && (pos.value.y > height - half ==> c.y == height - half)
  {
    match pos
    case None => Point(width / 2.0, height / 2.0)
    case Some(p) =>
      var visibleW := width / zoom;
      var visibleH := height / zoom;
      if zoom < 1.0 then Point(width / 2.0, height / 2.0)
      else
        ClampIntervalNonEmpty(width, zoom);
        ClampIntervalNonEmpty(height, zoom);
        Point(Clamp(p.x, visibleW / 2.0, width - visibleW / 2.0),
              Clamp(p.y, visibleH / 2.0, height - visibleH / 2.0))
  }

  /** One camera update of `draw`: zoom first, then the pan target from the new zoom, then the pan. */
  function CameraStep(c: Camera, pos: Option<Point>, targetZoom: real, width: real, height: real): (r: Camera)
    requires c.zoom > 0.0 && targetZoom > 0.0
    ensures Min(c.zoom, targetZoom) <= r.zoom <= Max(c.zoom, targetZoom)
    ensures var target := CameraTarget(pos, r.zoom, width, height);
      Min(c.x, target.x) <= r.x <= Max(c.x, target.x) && Min(c.y, target.y) <= r.y <= Max(c.y, target.y)
  {
    var zoom := Lerp(c.zoom, targetZoom, ZOOM_SMOOTHING);
    var target := CameraTarget(pos, zoom, width, height);
    Camera(Lerp(c.x, target.x, PAN_SMOOTHING), Lerp(c.y, target.y, PAN_SMOOTHING), zoom)
  }

  /** The camera after drawing at each of `times` in turn: the same inputs always give the same
      camera, and the zoom never leaves [BASE_ZOOM, FOCUS_ZOOM]. */
  function CameraAfter(c: Camera, trace: seq<Sample>, g: Geometry, width: real, height: real,
                       times: seq<real>): (r: Camera)
    requires UniformScreenCoords(trace) && ZoomInBand(c.zoom)
    ensures ZoomInBand(r.zoom)
    decreases |times|
  {
    if times == [] then c
    else
      var next := CameraStep(c, MousePositionAt(trace, g, times[0]), TargetZoom(trace, times[0]), width, height);
      CameraAfter(next, trace, g, width, height, times[1..])
  }

  // ---------------------------------------------------------------------------
  // Sorting the trace
  // ---------------------------------------------------------------------------

  /** The samples of `trace` stamped `k`, in their order in `trace`. */
  function WithTimestamp(trace: seq<Sample>, k: real): (r: seq<Sample>)
    ensures forall i :: 0 <= i < |r| ==> r[i].timestamp == k
    ensures |r| <= |trace|
  {
    if trace == [] then []
    else (if trace[0].timestamp == k then [trace[0]] else []) + WithTimestamp(trace[1..], k)
  }

  /** `after` keeps the samples of every timestamp in the order `before` had them: the order of
      equal timestamps a stable sort keeps. */
  ghost predicate KeepsTies(before: seq<Sample>, after: seq<Sample>) {
    forall k :: WithTimestamp(after, k) == WithTimestamp(before, k)
  }

  lemma {:induction false} WithTimestampAppend(s: seq<Sample>, t: seq<Sample>, k: real)
    ensures WithTimestamp(s + t, k) == WithTimestamp(s, k) + WithTimestamp(t, k)
  {
    if s == [] {
      assert s + t == t;
    } else {
      assert (s + t)[1..] == s[1..] + t;
      WithTimestampAppend(s[1..], t, k);
    }
  }

  /** Exchanging two neighbours with different timestamps keeps the ties. */
  lemma SwapKeepsTies(s: seq<Sample>, j: int)
    requires 0 < j < |s| && s[j - 1].timestamp != s[j].timestamp
    ensures KeepsTies(s, s[j - 1 := s[j]][j := s[j - 1]])
  {
    var swapped := s[j - 1 := s[j]][j := s[j - 1]];
    assert s == s[..j - 1] + ([s[j - 1]] + [s[j]] + s[j + 1..]);
    assert swapped == s[..j - 1] + ([s[j]] + [s[j - 1]] + s[j + 1..]);
    forall k ensures WithTimestamp(swapped, k) == WithTimestamp(s, k) {
      WithTimestampAppend(s[..j - 1], [s[j - 1]] + [s[j]] + s[j + 1..], k);
      WithTimestampAppend(s[..j - 1], [s[j]] + [s[j - 1]] + s[j + 1..], k);
      WithTimestampAppend([s[j - 1]] + [s[j]], s[j + 1..], k);
      WithTimestampAppend([s[j]] + [s[j - 1]], s[j + 1..], k);
      WithTimestampAppend([s[j - 1]], [s[j]], k);
      WithTimestampAppend([s[j]], [s[j - 1]], k);
    }
  }

  /** Why the order of ties matters: two samples stamped 100 (a frame flush and a click in the same
      millisecond). In recording order the position at 100 is the first one's; the swapped order,
      which is just as sorted, gives the second's, and a stable sort never produces it. */
  lemma TieOrderMatters()
    ensures var z, a, b, c := Sample(0.0, 0.0, 0.0, None, None, Move), Sample(100.0, 10.0, 0.0, None, None, Move),
                              Sample(100.0, 20.0, 0.0, None, None, Click), Sample(200.0, 30.0, 0.0, None, None, Move);
            var g := Geometry(None, 0, 0);
            && SortedByTimestamp([z, a, b, c]) && SortedByTimestamp([z, b, a, c])
            && MousePositionAt([z, a, b, c], g, 100.0) == Some(Point(10.0, 0.0))
            && MousePositionAt([z, b, a, c], g, 100.0) == Some(Point(20.0, 0.0))
            && !KeepsTies([z, a, b, c], [z, b, a, c])
  {
    var z, a, b, c := Sample(0.0, 0.0, 0.0, None, None, Move), Sample(100.0, 10.0, 0.0, None, None, Move),
                      Sample(100.0, 20.0, 0.0, None, None, Click), Sample(200.0, 30.0, 0.0, None, None, Move);
    var g := Geometry(None, 0, 0);
    assert FirstBracket([z, a, b, c], 100.0, 0) == Some(0);
    assert FirstBracket([z, b, a, c], 100.0, 0) == Some(0);
    assert WithTimestamp([c], 100.0) == [] by { assert [c][1..] == []; }
    assert WithTimestamp([b, c], 100.0) == [b] by { assert [b, c][1..] == [c]; }
    assert WithTimestamp([a, c], 100.0) == [a] by { assert [a, c][1..] == [c]; }
    assert WithTimestamp([z, a, b, c], 100.0) == [a, b] by {
      assert [z, a, b, c][1..] == [a, b, c] && [a, b, c][1..] == [b, c];
    }
    assert WithTimestamp([z, b, a, c], 100.0) == [b, a] by {
      assert [z, b, a, c][1..] == [b, a, c] && [b, a, c][1..] == [a, c];
    }
  }

  /**
    `metadata.sort((a, b) => a.timestamp - b.timestamp)`, in place (an insertion sort). Like
    `Array.prototype.sort`, it is stable: samples with equal timestamps keep their order.
  */
  method SortByTimestamp(a: array<Sample>)
    modifies a
    ensures SortedByTimestamp(a[..])
    ensures multiset(a[..]) == old(multiset(a[..]))
    ensures KeepsTies(old(a[..]), a[..])
  {
    var i := 0;
    while i < a.Length
      invariant 0 <= i <= a.Length
      invariant SortedByTimestamp(a[..i])
      invariant multiset(a[..]) == old(multiset(a[..]))
      invariant KeepsTies(old(a[..]), a[..])
    {
      ghost var before := a[..];
      InsertAt(a, i);
      KeepsTiesTrans(old(a[..]), before, a[..]);
      i := i + 1;
    }
    assert a[..a.Length] == a[..];
  }

  /** One pass of the insertion sort: moves `a[i]` left past the larger samples before it, so that
      `a[..i + 1]` is sorted, keeping the ties. */
  method InsertAt(a: array<Sample>, i: int)
    requires 0 <= i < a.Length && SortedByTimestamp(a[..i])
    modifies a
    ensures SortedByTimestamp(a[..i + 1])
    ensures multiset(a[..]) == old(multiset(a[..]))
    ensures KeepsTies(old(a[..]), a[..])
  {
    ghost var orig := a[..];
    InsertStart(a[..], i);
    var j := i;
    while j > 0 && a[j - 1].timestamp > a[j].timestamp
      invariant 0 <= j <= i < a.Length
      invariant InsertInv(a[..], i, j)
      invariant multiset(a[..]) == multiset(orig)
      invariant KeepsTies(orig, a[..])
    {
      ghost var before := a[..];
      SwapAdjacent(a, j);
      InsertSwap(before, a[..], i, j);
      SwapStep(orig, before, a[..], j);
      j := j - 1;
    }
    InsertDone(a[..], i, j);
  }

  /** While `a[i]`'s sample sits at `j`, every other pair up to `i` is in order. */
  ghost predicate InsertInv(s: seq<Sample>, i: int, j: int)
    requires 0 <= j <= i < |s|
  {
    forall p, q :: 0 <= p < q <= i && q != j ==> s[p].timestamp <= s[q].timestamp
  }

  lemma InsertStart(s: seq<Sample>, i: int)
    requires 0 <= i < |s| && SortedByTimestamp(s[..i])
    ensures InsertInv(s, i, i)
  {
    forall p, q | 0 <= p < q <= i && q != i ensures s[p].timestamp <= s[q].timestamp {
      assert s[..i][p] == s[p] && s[..i][q] == s[q];
    }
  }

  lemma InsertSwap(before: seq<Sample>, after: seq<Sample>, i: int, j: int)
    requires 0 < j <= i < |before| && InsertInv(before, i, j)
    requires before[j - 1].timestamp > before[j].timestamp
    requires after == before[j - 1 := before[j]][j := before[j - 1]]
    ensures InsertInv(after, i, j - 1)
  {
  }

  lemma InsertDone(s: seq<Sample>, i: int, j: int)
    requires 0 <= j <= i < |s| && InsertInv(s, i, j)
    requires j == 0 || s[j - 1].timestamp <= s[j].timestamp
    ensures SortedByTimestamp(s[..i + 1])
  {
  }

  lemma KeepsTiesTrans(s: seq<Sample>, t: seq<Sample>, u: seq<Sample>)
    requires KeepsTies(s, t) && KeepsTies(t, u)
    ensures KeepsTies(s, u)
  {
  }

  /** A swap of two out-of-order neighbours keeps the ties of the original sequence. */
  lemma SwapStep(orig: seq<Sample>, before: seq<Sample>, after: seq<Sample>, j: int)
    requires KeepsTies(orig, before) && 0 < j < |before| && before[j - 1].timestamp > before[j].timestamp
    requires after == before[j - 1 := before[j]][j := before[j - 1]]
    ensures KeepsTies(orig, after)
  {
    SwapKeepsTies(before, j);
    KeepsTiesTrans(orig, before, after);
  }

  /** Exchanges `a[j - 1]` and `a[j]`. */
  method SwapAdjacent(a: array<Sample>, j: int)
    requires 0 < j < a.Length
    modifies a
    ensures a[..] == old(a[..])[j - 1 := old(a[j])][j := old(a[j - 1])]
    ensures multiset(a[..]) == multiset(old(a[..]))
  {
    a[j - 1], a[j] := a[j], a[j - 1];
  }

  // ---------------------------------------------------------------------------
  // The renderer object
  // ---------------------------------------------------------------------------

  class Renderer {
    const canvasWidth: nat
    const canvasHeight: nat
    /** `canvas.getContext('2d')` returned a context. */
    const hasContext: bool
    const viewport: Option<Viewport>
    const metadata: seq<Sample>
    var camera: Camera

    ghost predicate Valid()
      reads this
    {
      SortedByTimestamp(metadata) && UniformScreenCoords(metadata) && ZoomInBand(camera.zoom)
    }

    function GeometryAt(video: Video): Geometry {
      Geometry(viewport, video.videoWidth, video.videoHeight)
    }

    /** Sorts `events` in place, keeps it as the trace, and centres the camera at the floating zoom. */
    constructor (canvasWidth: nat, canvasHeight: nat, hasContext: bool, events: array<Sample>,
                 viewport: Option<Viewport>)
      requires UniformScreenCoords(events[..])
      modifies events
      ensures Valid()
      ensures metadata == events[..] && multiset(metadata) == old(multiset(events[..]))
      ensures KeepsTies(old(events[..]), metadata)
      ensures this.canvasWidth == canvasWidth && this.canvasHeight == canvasHeight
      ensures this.hasContext == hasContext && this.viewport == viewport
      ensures camera == Camera(canvasWidth as real / 2.0, canvasHeight as real / 2.0, BASE_ZOOM)
    {
      ghost var before := events[..];
      SortByTimestamp(events);
      forall s | s in events[..] ensures s in before {
        assert s in multiset(events[..]);
      }
      this.canvasWidth := canvasWidth;
      this.canvasHeight := canvasHeight;
      this.hasContext := hasContext;
      this.viewport := viewport;
      this.metadata := events[..];
      this.camera := Camera(canvasWidth as real / 2.0, canvasHeight as real / 2.0, BASE_ZOOM);
    }

    /** `getMousePosition`, with its search loop. */
    method GetMousePosition(t: real, video: Video) returns (pos: Option<Point>)
      requires Valid()
      ensures pos == MousePositionAt(metadata, GeometryAt(video), t)
    {
      var g := GeometryAt(video);
      if |metadata| == 0 {
        return None;
      }
      var prev := metadata[0];
      var next := metadata[|metadata| - 1];
      UniformPairDefined(g, metadata, prev, prev);
      UniformPairDefined(g, metadata, next, next);
      UniformPairDefined(g, metadata, prev, next);
      if t <= prev.timestamp {
        return Some(InterpolatePosition(g, prev, prev, 0.0));
      }
      if t >= next.timestamp {
        return Some(InterpolatePosition(g, next, next, 0.0));
      }
      for i := 0 to |metadata| - 1
        invariant FirstBracket(metadata, t, 0) == FirstBracket(metadata, t, i)
        invariant prev == metadata[0] && next == metadata[|metadata| - 1]
      {
        if metadata[i].timestamp <= t && metadata[i + 1].timestamp >= t {
          prev := metadata[i];
          next := metadata[i + 1];
          UniformPairDefined(g, metadata, prev, next);
          assert FirstBracket(metadata, t, 0) == Some(i);
          break;
        }
      }
      UniformPairDefined(g, metadata, prev, next);
      var duration := next.timestamp - prev.timestamp;
      var progress := if duration == 0.0 then 0.0 else (t - prev.timestamp) / duration;
      pos := Some(InterpolatePosition(g, prev, next, progress));
    }

    /** `draw`: a no-op without a context; otherwise one camera update, the frame painted once the
        video has data, and the cursor drawn at the pointer position when there is one. */
    method Draw(t: real, video: Video) returns (frameDrawn: bool, cursor: Option<Point>)
      requires Valid()
      modifies this`camera
      ensures Valid()
      ensures !hasContext ==> camera == old(camera) && !frameDrawn && cursor == None
      ensures hasContext ==>
        && cursor == MousePositionAt(metadata, GeometryAt(video), t)
        && camera == CameraStep(old(camera), cursor, TargetZoom(metadata, t), canvasWidth as real, canvasHeight as real)
        && frameDrawn == (video.readyState >= HAVE_CURRENT_DATA)
    {
      if !hasContext {
        return false, None;
      }
      var pos := GetMousePosition(t, video);
      var width, height := canvasWidth as real, canvasHeight as real;
      var targetX, targetY;
      var targetZoom := TargetZoom(metadata, t);
      camera := camera.(zoom := Lerp(camera.zoom, targetZoom, ZOOM_SMOOTHING));
      if pos.Some? {
        var visibleW := width / camera.zoom;
        var visibleH := height / camera.zoom;
        if camera.zoom < 1.0 {
          targetX := width / 2.0;
          targetY := height / 2.0;
        } else {
          var minX := visibleW / 2.0;
          var maxX := width - visibleW / 2.0;
          var minY := visibleH / 2.0;
          var maxY := height - visibleH / 2.0;
          targetX := Clamp(pos.value.x, minX, maxX);
          targetY := Clamp(pos.value.y, minY, maxY);
        }
      } else {
        targetX := width / 2.0;
        targetY := height / 2.0;
      }
      camera := camera.(x := Lerp(camera.x, targetX, PAN_SMOOTHING));
      camera := camera.(y := Lerp(camera.y, targetY, PAN_SMOOTHING));
      frameDrawn := video.readyState >= HAVE_CURRENT_DATA;
      cursor := pos;
    }
  }
}
