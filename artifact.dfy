/**
  What the extension's pages hand to each other: encoded video chunks and the
  blob they make, the metadata record the content script sends back, and the
  two keys of the shared IndexedDB store (`latest-video`, `latest-metadata`).
*/
module Artifact {
  import opened Wrappers
  import Render
  import ContentScript

  /** A `MediaRecorder`'s `state`, reduced to what the pages test: `'inactive'` or not
      (recording or paused). */
  datatype RecorderState = Inactive | Active

  /** The JavaScript truthiness of a tab id (`targetTabId` from a URL or a message): present and
      not 0. */
  predicate TabGiven(id: Option<int>) { id.Some? && id.value != 0 }

  /** One slice of encoded video delivered by `ondataavailable`; only its size is observable here. */
  datatype Chunk = Chunk(size: nat)

  predicate AllNonEmpty(chunks: seq<Chunk>) {
    forall i :: 0 <= i < |chunks| ==> chunks[i].size > 0
  }

  /** The byte size of `new Blob(chunks)`. */
  function TotalSize(chunks: seq<Chunk>): (r: nat)
    ensures |chunks| > 0 ==> r >= chunks[0].size
    ensures AllNonEmpty(chunks) ==> (r == 0 <==> chunks == [])
  {
    if chunks == [] then 0 else chunks[0].size + TotalSize(chunks[1..])
  }

  /** Appending a chunk adds its size. */
  lemma {:induction false} TotalSizeAppend(chunks: seq<Chunk>, c: Chunk)
    ensures TotalSize(chunks + [c]) == TotalSize(chunks) + c.size
  {
    if chunks != [] {
      assert (chunks + [c])[1..] == chunks[1..] + [c];
      TotalSizeAppend(chunks[1..], c);
    }
  }

  /** A recorded video: the chunks in arrival order. */
  datatype Blob = Blob(chunks: seq<Chunk>) {
    function Size(): nat { TotalSize(chunks) }
  }

  /** The chunks of `arrivals` that the ``ondataavailable` handlers keep. */
  function NonEmpty(arrivals: seq<Chunk>): (r: seq<Chunk>)
    ensures AllNonEmpty(r) && |r| <= |arrivals|
    ensures forall c :: c in r ==> c in arrivals
  {
    if arrivals == [] then []
    else (if arrivals[0].size > 0 then [arrivals[0]] else []) + NonEmpty(arrivals[1..])
  }

  lemma {:induction false} NonEmptyAppend(arrivals: seq<Chunk>, c: Chunk)
    ensures NonEmpty(arrivals + [c]) == NonEmpty(arrivals) + (if c.size > 0 then [c] else [])
  {
    if arrivals != [] {
      assert (arrivals + [c])[1..] == arrivals[1..] + [c];
      NonEmptyAppend(arrivals[1..], c);
    } else {
      assert NonEmpty([c]) == (if c.size > 0 then [c] else []) + NonEmpty([]);
    }
  }

  /** The blob of the kept chunks is empty exactly when no chunk of positive size arrived. */
  lemma {:induction false} EmptyBlobIffNoData(arrivals: seq<Chunk>)
    ensures Blob(NonEmpty(arrivals)).Size() == 0 <==> forall i :: 0 <= i < |arrivals| ==> arrivals[i].size == 0
  {
    if arrivals != [] {
      EmptyBlobIffNoData(arrivals[1..]);
      var rest := NonEmpty(arrivals[1..]);
      if arrivals[0].size > 0 {
        assert NonEmpty(arrivals) == [arrivals[0]] + rest;
        assert TotalSize(NonEmpty(arrivals)) >= arrivals[0].size;
      } else {
        assert NonEmpty(arrivals) == rest;
        assert forall i :: 1 <= i < |arrivals| ==> arrivals[i] == arrivals[1..][i - 1];
      }
    }
  }

  /**
    The value stored under `latest-metadata`: either a bare sample array (older
    recordings, and the empty array written when no metadata arrived), a record
    `{events, viewport}` whose fields may be missing, or anything else.
  */
  datatype Payload =
    | SampleList(samples: seq<Render.Sample>)
    | Captured(events: Option<seq<Render.Sample>>, viewport: Option<Render.Viewport>)
    | Opaque

  datatype Value = MetadataValue(payload: Payload) | VideoValue(blob: Blob)

  /** The IndexedDB key/value store shared by the extension pages. */
  type Store = map<string, Value>

  const LATEST_VIDEO: string := "latest-video"
  const LATEST_METADATA: string := "latest-metadata"

  function KindOf(k: ContentScript.Kind): Render.Kind {
    match k
    case Move => Render.Move
    case Click => Render.Click
  }

  /** A content-script sample as the renderer reads it back from storage. */
  function ToSample(e: ContentScript.EventData): (s: Render.Sample)
    ensures s.screenX.Some? && s.screenY.Some?
  {
    Render.Sample(e.timestamp as real, e.x as real, e.y as real,
                  Some(e.screenX as real), Some(e.screenY as real), KindOf(e.kind))
  }

  function ToSamples(events: seq<ContentScript.EventData>): (r: seq<Render.Sample>)
    ensures |r| == |events|
    ensures forall i :: 0 <= i < |events| ==> r[i] == ToSample(events[i])
  {
    seq(|events|, i requires 0 <= i < |events| => ToSample(events[i]))
  }

  function ToViewport(v: ContentScript.ViewportInfo): Render.Viewport {
    Render.Viewport(v.width as real, v.height as real, Some(v.dpr),
                    Some(v.outerWidth as real), Some(v.outerHeight as real),
                    Some(v.screenWidth as real), Some(v.screenHeight as real),
                    Some(v.windowX as real), Some(v.windowY as real))
  }

  /** The content script's STOP_RECORDING `data` after the structured clone into storage. */
  function FromCapture(data: ContentScript.CaptureData): Payload {
    Captured(Some(ToSamples(data.events)), Some(ToViewport(data.viewport)))
  }

  function FromKind(k: Render.Kind): ContentScript.Kind {
    match k
    case Move => ContentScript.Move
    case Click => ContentScript.Click
  }

  /** A stored sample read back with the content script's integer fields (absent screen
      coordinates read as 0). */
  function FromSample(s: Render.Sample): ContentScript.EventData {
    ContentScript.EventData(s.x.Floor, s.y.Floor, s.screenX.GetOr(0.0).Floor, s.screenY.GetOr(0.0).Floor,
                            s.timestamp.Floor, FromKind(s.kind))
  }

  function FromSamples(trace: seq<Render.Sample>): (r: seq<ContentScript.EventData>)
    ensures |r| == |trace|
  {
    seq(|trace|, i requires 0 <= i < |trace| => FromSample(trace[i]))
  }

  /** The geometry read back with the content script's integer fields. */
  function FromViewport(v: Render.Viewport): ContentScript.ViewportInfo {
    ContentScript.ViewportInfo(v.width.Floor, v.height.Floor, v.outerWidth.GetOr(0.0).Floor,
                               v.outerHeight.GetOr(0.0).Floor, v.screenWidth.GetOr(0.0).Floor,
                               v.screenHeight.GetOr(0.0).Floor, v.windowX.GetOr(0.0).Floor,
                               v.windowY.GetOr(0.0).Floor, v.dpr.GetOr(1.0))
  }

  /** Storing a sample loses nothing: reading it back gives the recorded sample. */
  lemma SampleRoundTrip(e: ContentScript.EventData)
    ensures FromSample(ToSample(e)) == e
  {
    assert ToSample(e).screenX == Some(e.screenX as real);
    assert KindOf(e.kind) == Render.Move <==> e.kind == ContentScript.Move;
  }

  /** Storing a trace loses nothing: reading it back gives the recorded trace, in order. */
  lemma {:induction false} SamplesRoundTrip(events: seq<ContentScript.EventData>)
    ensures FromSamples(ToSamples(events)) == events
  {
    var back := FromSamples(ToSamples(events));
    forall i | 0 <= i < |events|
      ensures back[i] == events[i]
    {
      SampleRoundTrip(events[i]);
    }
  }

  /** Storing the geometry loses nothing. */
  lemma ViewportRoundTrip(v: ContentScript.ViewportInfo)
    ensures FromViewport(ToViewport(v)) == v
  {
  }

  /** Every trace the content script records carries screen coordinates on every sample, so the
      renderer's uniformity requirement holds for it. */
  lemma CapturedTraceIsUniform(data: ContentScript.CaptureData)
    ensures FromCapture(data).events.Some?
    ensures Render.UniformScreenCoords(FromCapture(data).events.value)
  {
    var trace := FromCapture(data).events.value;
    forall s | s in trace
      ensures s.screenX.Some? && s.screenY.Some?
    {
      var i :| 0 <= i < |trace| && trace[i] == s;
    }
  }
}
