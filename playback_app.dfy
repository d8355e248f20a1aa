/**
  The playback page of src/playback/PlaybackApp.tsx: loading the stored
  recording, normalising the stored metadata into the renderer's inputs, the
  play and export flags, the export chunk filter, and the `m:ss` clock label.

  The video element's `play()` outcome, the IndexedDB read and the export
  recorder's events are oracle parameters or method calls.
*/
module Playback {
  import opened Wrappers
  import opened Artifact
  import Render
  import ContentScript

  // ---------------------------------------------------------------------------
  // Loading and normalisation
  // ---------------------------------------------------------------------------

  /** The video under `latest-video`, if one is stored. */
  function LoadedVideo(store: Store): (v: Option<Blob>)
    ensures v.Some? <==> LATEST_VIDEO in store && store[LATEST_VIDEO].VideoValue?
    ensures v.Some? ==> v.value == store[LATEST_VIDEO].blob
  {
    if LATEST_VIDEO in store && store[LATEST_VIDEO].VideoValue? then Some(store[LATEST_VIDEO].blob) else None
  }

  /** The metadata under `latest-metadata`, or `[]` when none is stored. */
  function LoadedMetadata(store: Store): (p: Payload)
    ensures LATEST_METADATA in store && store[LATEST_METADATA].MetadataValue? ==> p == store[LATEST_METADATA].payload
    ensures !(LATEST_METADATA in store && store[LATEST_METADATA].MetadataValue?) ==> p == SampleList([])
  {
    if LATEST_METADATA in store && store[LATEST_METADATA].MetadataValue? then store[LATEST_METADATA].payload
    else SampleList([])
  }

  /** The renderer's inputs: the trace and the recording geometry. */
  datatype RendererInput = RendererInput(events: seq<Render.Sample>, viewport: Option<Render.Viewport>)

  /** A bare array is the trace with no geometry; a record with `events` gives both of its
      fields; anything else gives an empty trace and no geometry. */
  function Normalise(p: Payload): (r: RendererInput)
    ensures p.SampleList? ==> r == RendererInput(p.samples, None)
    ensures p.Captured? && p.events.Some? ==> r == RendererInput(p.events.value, p.viewport)
    ensures !p.SampleList? && !(p.Captured? && p.events.Some?) ==> r == RendererInput([], None)
  {
    match p
    case SampleList(samples) => RendererInput(samples, None)
    case Captured(Some(events), viewport) => RendererInput(events, viewport)
    case _ => RendererInput([], None)
  }

  /** End to end: what the content script captured, relayed and stored by the background, reaches
      the renderer as the same samples and geometry, reads back as exactly what was captured, and
      meets the renderer's coordinate requirement. */
  lemma {:induction false} CaptureReachesRenderer(store: Store, data: ContentScript.CaptureData)
    ensures var loaded := Normalise(LoadedMetadata(store[LATEST_METADATA := MetadataValue(FromCapture(data))]));
      && loaded == RendererInput(ToSamples(data.events), Some(ToViewport(data.viewport)))
      && Render.UniformScreenCoords(loaded.events)
      && FromSamples(loaded.events) == data.events
      && loaded.viewport.Some? && FromViewport(loaded.viewport.value) == data.viewport
  {
    CapturedTraceIsUniform(data);
    SamplesRoundTrip(data.events);
    ViewportRoundTrip(data.viewport);
  }

  /** With nothing stored, the renderer gets an empty trace and no geometry. */
  lemma NothingStored(store: Store)
    requires LATEST_METADATA !in store
    ensures Normalise(LoadedMetadata(store)) == RendererInput([], None)
  {
  }

  // ---------------------------------------------------------------------------
  // The clock label
  // ---------------------------------------------------------------------------

  predicate IsDigit(c: char) { '0' <= c <= '9' }

  predicate AllDigits(s: string) { forall i :: 0 <= i < |s| ==> IsDigit(s[i]) }

  function DigitChar(d: nat): (c: char)
    requires d < 10
    ensures IsDigit(c) && c as int - '0' as int == d
  {
    ('0' as int + d) as char
  }

  /** `n.toString()` */
  function Digits(n: nat): (s: string)
    ensures 1 <= |s| && AllDigits(s)
    ensures n < 10 <==> |s| == 1
  {
    if n < 10 then [DigitChar(n)] else Digits(n / 10) + [DigitChar(n % 10)]
  }

  /** The number a string of decimal digits denotes. */
  function DigitsValue(s: string): nat
    requires AllDigits(s)
  {
    if s == [] then 0 else DigitsValue(s[..|s| - 1]) * 10 + (s[|s| - 1] as int - '0' as int)
  }

  lemma {:induction false} DigitsRoundTrip(n: nat)
    ensures DigitsValue(Digits(n)) == n
  {
    if n >= 10 {
      var s := Digits(n);
      assert s[..|s| - 1] == Digits(n / 10);
      DigitsRoundTrip(n / 10);
    }
  }

  /** `s.padStart(width, fill)` with a one-character `fill`. */
  function PadStart(s: string, width: nat, fill: char): (r: string)
    ensures |r| == if |s| >= width then |s| else width
    ensures r[|r| - |s|..] == s
    ensures forall i :: 0 <= i < |r| - |s| ==> r[i] == fill
  {
    if |s| >= width then s else seq(width - |s|, _ => fill) + s
  }

  /** Leading zeros do not change a number. */
  lemma {:induction false} LeadingZero(s: string)
    requires AllDigits(s)
    ensures AllDigits(['0'] + s) && DigitsValue(['0'] + s) == DigitsValue(s)
    decreases |s|
  {
    if s != [] {
      var init := s[..|s| - 1];
      assert (['0'] + s)[..|s|] == ['0'] + init;
      LeadingZero(init);
    }
  }

  /** `m:ss`: the minutes, a colon, and the seconds padded to two digits. */
  function Clock(m: nat, s: nat): string {
    Digits(m) + ":" + PadStart(Digits(s), 2, '0')
  }

  /** The whole minutes in `seconds`, and the whole seconds left over (`seconds % 60` on a
      non-negative value is `seconds` less the whole minutes). */
  function MinutesAndSeconds(seconds: real): (r: (nat, nat))
    requires seconds >= 0.0
    ensures r.1 < 60 && 60 * r.0 + r.1 == seconds.Floor
  {
    var m := (seconds / 60.0).Floor;
    var rem := seconds - 60.0 * (m as real);
    assert 0.0 <= rem < 60.0;
    (m, rem.Floor)
  }

  /** A clock label ends in a colon and two digits, after at least one minute digit. */
  lemma ClockShape(m: nat, s: nat)
    requires s < 60
    ensures var text := Clock(m, s); |text| >= 4 && text[|text| - 3] == ':' && AllDigits(text[|text| - 2..])
  {
    var text := Clock(m, s);
    TwoDigitSeconds(s);
    assert text[|text| - 2..] == PadStart(Digits(s), 2, '0');
  }

  /** `formatTime`: at least one minute digit, a colon, and two seconds digits. */
  function FormatTime(seconds: real): (r: string)
    requires seconds >= 0.0
    ensures |r| >= 4 && r[|r| - 3] == ':' && AllDigits(r[|r| - 2..])
  {
    var ms := MinutesAndSeconds(seconds);
    ClockShape(ms.0, ms.1);
    Clock(ms.0, ms.1)
  }

  /** Reads an `m:ss` label back as a number of seconds. */
  function ParseClock(text: string): Option<nat> {
    if |text| >= 4 && text[|text| - 3] == ':' && AllDigits(text[..|text| - 3]) && AllDigits(text[|text| - 2..])
    then Some(DigitsValue(text[..|text| - 3]) * 60 + DigitsValue(text[|text| - 2..]))
    else None
  }

  /** The two characters after the last colon of a label, as a number (or 60 when absent). */
  function SecondsField(text: string): nat {
    if |text| >= 3 && AllDigits(text[|text| - 2..]) then DigitsValue(text[|text| - 2..]) else 60
  }

  /** The seconds field: a number below 60 padded to two digits keeps its value. */
  lemma TwoDigitSeconds(s: nat)
    requires s < 60
    ensures var secs := PadStart(Digits(s), 2, '0');
      |secs| == 2 && AllDigits(secs) && DigitsValue(secs) == s
  {
    var d := Digits(s);
    DigitsRoundTrip(s);
    if s < 10 {
      assert PadStart(d, 2, '0') == ['0'] + d;
      LeadingZero(d);
    } else {
      assert Digits(s / 10) == [DigitChar(s / 10)];
      assert |d| == 2;
    }
  }

  /** A `mins:ss` label with digit fields reads back field by field. */
  lemma ParseFields(mins: string, secs: string, m: nat, s: nat)
    requires 1 <= |mins| && AllDigits(mins) && DigitsValue(mins) == m
    requires |secs| == 2 && AllDigits(secs) && DigitsValue(secs) == s
    ensures var text := mins + ":" + secs;
      && |text| >= 4 && text[|text| - 3] == ':'
      && SecondsField(text) == s
      && ParseClock(text) == Some(60 * m + s)
  {
    var text := mins + ":" + secs;
    assert text[..|text| - 3] == mins;
    assert text[|text| - 2..] == secs;
  }

  /** A clock label has a two-digit seconds field after the colon and reads back as `60 m + s`. */
  lemma ClockRoundTrip(m: nat, s: nat)
    requires s < 60
    ensures var text := Clock(m, s);
      && |text| >= 4 && text[|text| - 3] == ':'
      && SecondsField(text) == s
      && ParseClock(text) == Some(60 * m + s)
  {
    DigitsRoundTrip(m);
    TwoDigitSeconds(s);
    ParseFields(Digits(m), PadStart(Digits(s), 2, '0'), m, s);
  }

  /** The label shows exactly the whole seconds elapsed: its seconds field is below 60, and
      reading it back gives `floor(seconds)`. */
  lemma FormatTimeRoundTrip(seconds: real)
    requires seconds >= 0.0
    ensures SecondsField(FormatTime(seconds)) < 60
    ensures ParseClock(FormatTime(seconds)) == Some(seconds.Floor)
  {
    var ms := MinutesAndSeconds(seconds);
    assert FormatTime(seconds) == Clock(ms.0, ms.1);
    ClockRoundTrip(ms.0, ms.1);
  }

  /** 75.5 s reads `1:15`; 5 s reads `0:05`. */
  lemma FormatTimeExamples()
    ensures FormatTime(75.5) == "1:15"
    ensures FormatTime(5.0) == "0:05"
  {
    assert MinutesAndSeconds(75.5) == (1, 15) by {
      assert (75.5).Floor == 75;
    }
    assert MinutesAndSeconds(5.0) == (0, 5) by {
      assert (5.0).Floor == 5;
    }
    assert Clock(1, 15) == "1:15" by {
      assert Digits(15) == Digits(1) + [DigitChar(5)];
    }
    assert Clock(0, 5) == "0:05" by {
      assert PadStart("5", 2, '0') == "05";
    }
  }

  // ---------------------------------------------------------------------------
  // The page state
  // ---------------------------------------------------------------------------

  /** The call `handlePlay` makes on the video element. */
  datatype PlayerCall = Pause | Play

  class PlaybackApp {
    /** `canvasRef.current` and `videoRef.current` are mounted. The page renders the canvas and
        the video only once loading is over and a video was found (`!isLoading && videoSrc`);
        these two flags stand for that, fixed for the page's lifetime, and are not tied to
        `isLoading` or `videoSrc` here. */
    const hasCanvas: bool
    const hasVideo: bool

    var isPlaying: bool
    var videoSrc: Option<Blob>
    var metadata: Option<Payload>
    var isLoading: bool
    var dimensions: (nat, nat)
    /** The video element's `currentTime`. */
    var videoTime: real
    var isExporting: bool
    var exportRecorder: Option<RecorderState>
    var exportChunks: seq<Chunk>
    /** Files the export offered for download, in order. */
    var downloads: seq<Blob>
    /** What the renderer was last built from. */
    var rendererInput: Option<RendererInput>

    /** Export chunks are non-empty. */
    ghost predicate Valid()
      reads this
    {
      AllNonEmpty(exportChunks)
    }

    constructor (hasCanvas: bool, hasVideo: bool)
      ensures Valid()
      ensures this.hasCanvas == hasCanvas && this.hasVideo == hasVideo
      ensures !isPlaying && videoSrc == None && metadata == None && isLoading && dimensions == (1280, 720)
      ensures videoTime == 0.0 && !isExporting && exportRecorder == None && exportChunks == []
      ensures downloads == [] && rendererInput == None
    {
      this.hasCanvas := hasCanvas;
      this.hasVideo := hasVideo;
      isPlaying := false;
      videoSrc := None;
      metadata := None;
      isLoading := true;
      dimensions := (1280, 720);
      videoTime := 0.0;
      isExporting := false;
      exportRecorder := None;
      exportChunks := [];
      downloads := [];
      rendererInput := None;
    }

    /** `loadData`: when the store can be read, take the video if there is one and the metadata
        or `[]`; loading ends in every case. */
    method LoadData(store: Store, readOk: bool)
      modifies this`videoSrc, this`metadata, this`isLoading
      ensures !isLoading
      ensures readOk ==> metadata == Some(LoadedMetadata(store))
      ensures readOk && LoadedVideo(store).Some? ==> videoSrc == LoadedVideo(store)
      ensures !(readOk && LoadedVideo(store).Some?) ==> videoSrc == old(videoSrc)
      ensures !readOk ==> metadata == old(metadata)
    {
      if readOk {
        var blob := LoadedVideo(store);
        var meta := LoadedMetadata(store);
        if blob.Some? {
          videoSrc := blob;
        }
        metadata := Some(meta);
      }
      isLoading := false;
    }

    /** `onVideoMetadataLoaded`: adopt the video's size only when both sides are non-zero. */
    method OnVideoMetadataLoaded(videoWidth: nat, videoHeight: nat)
      modifies this`dimensions
      ensures hasVideo && videoWidth != 0 && videoHeight != 0 ==> dimensions == (videoWidth, videoHeight)
      ensures !(hasVideo && videoWidth != 0 && videoHeight != 0) ==> dimensions == old(dimensions)
    {
      if hasVideo && videoWidth != 0 && videoHeight != 0 {
        dimensions := (videoWidth, videoHeight);
      }
    }

    /** The renderer effect (on a change of metadata or dimensions): rebuild from the normalised
        metadata once the canvas, the video and the metadata are all there. */
    method RendererEffect()
      modifies this`rendererInput
      ensures hasCanvas && hasVideo && metadata.Some? ==> rendererInput == Some(Normalise(metadata.value))
      ensures !(hasCanvas && hasVideo && metadata.Some?) ==> rendererInput == old(rendererInput)
    {
      if hasCanvas && hasVideo && metadata.Some? {
        rendererInput := Some(Normalise(metadata.value));
      }
    }

    /** `handlePlay`: ignored while exporting; otherwise pause or play, and flip `isPlaying` only
        when that call succeeded. */
    method HandlePlay(callOk: bool) returns (call: Option<PlayerCall>)
      modifies this`isPlaying
      ensures (isExporting || !hasVideo) ==> call == None && isPlaying == old(isPlaying)
      ensures !isExporting && hasVideo ==>
        && call == Some(if old(isPlaying) then Pause else Play)
        && isPlaying == (if callOk then !old(isPlaying) else old(isPlaying))
    {
      call := None;
      if isExporting {
        return;
      }
      if hasVideo {
        call := Some(if isPlaying then Pause else Play);
        if callOk {
          isPlaying := !isPlaying;
        }
      }
    }

    /** The export button is disabled while exporting or playing. */
    predicate ExportEnabled()
      reads this
    {
      !(isExporting || isPlaying)
    }

    /**
      `handleExport`: raise both flags, rewind, build an export recorder over the canvas with an
      empty chunk list, start it and play. `createOk` and `startOk` say whether the `MediaRecorder`
      constructor and `start` succeed; a throw from either ends the handler with both flags still
      raised. Only a failed `play` clears them.
    */
    method HandleExport(createOk: bool, startOk: bool, playOk: bool)
      requires Valid()
      modifies this`isExporting, this`isPlaying, this`videoTime, this`exportRecorder, this`exportChunks
      ensures Valid()
      ensures !(hasCanvas && hasVideo) ==>
        && isExporting == old(isExporting) && isPlaying == old(isPlaying) && videoTime == old(videoTime)
        && exportRecorder == old(exportRecorder) && exportChunks == old(exportChunks)
      ensures hasCanvas && hasVideo ==> videoTime == 0.0
      ensures hasCanvas && hasVideo && !createOk ==>
        && isExporting && isPlaying
        && exportRecorder == old(exportRecorder) && exportChunks == old(exportChunks)
      ensures hasCanvas && hasVideo && createOk && !startOk ==>
        isExporting && isPlaying && exportRecorder == Some(Inactive) && exportChunks == []
      ensures hasCanvas && hasVideo && createOk && startOk ==>
        && exportRecorder == Some(Active) && exportChunks == []
        && isExporting == playOk && isPlaying == playOk
    {
      if !hasCanvas || !hasVideo {
        return;
      }
      isExporting := true;
      isPlaying := true;
      videoTime := 0.0;
      if !createOk {
        return;
      }
      exportRecorder := Some(Inactive);
      exportChunks := [];
      if !startOk {
        return;
      }
      exportRecorder := Some(Active);
      if !playOk {
        isExporting := false;
        isPlaying := false;
      }
    }

    /** The export button: `handleExport` runs only when the button is enabled. */
    method ClickExport(createOk: bool, startOk: bool, playOk: bool) returns (started: bool)
      requires Valid()
      modifies this`isExporting, this`isPlaying, this`videoTime, this`exportRecorder, this`exportChunks
      ensures Valid()
      ensures started <==> old(ExportEnabled()) && hasCanvas && hasVideo
      ensures !started ==>
        && isExporting == old(isExporting) && isPlaying == old(isPlaying) && videoTime == old(videoTime)
        && exportRecorder == old(exportRecorder) && exportChunks == old(exportChunks)
      ensures started ==> videoTime == 0.0
      ensures started && !createOk ==>
        && isExporting && isPlaying
        && exportRecorder == old(exportRecorder) && exportChunks == old(exportChunks)
      ensures started && createOk && !startOk ==>
        isExporting && isPlaying && exportRecorder == Some(Inactive) && exportChunks == []
      ensures started && createOk && startOk ==>
        && exportRecorder == Some(Active) && exportChunks == []
        && isExporting == playOk && isPlaying == playOk
    {
      started := false;
      if ExportEnabled() {
        HandleExport(createOk, startOk, playOk);
        started := hasCanvas && hasVideo;
      }
    }

    /** The export recorder's `ondataavailable`: keep non-empty chunks. */
    method OnExportData(c: Chunk)
      requires Valid()
      modifies this`exportChunks
      ensures Valid()
      ensures exportChunks == if c.size > 0 then old(exportChunks) + [c] else old(exportChunks)
    {
      if c.size > 0 {
        exportChunks := exportChunks + [c];
      }
    }

    /** The export recorder's `onstop` (the browser has made it inactive): offer the blob of the
        chunks for download and clear both flags. */
    method OnExportStop()
      requires Valid() && exportRecorder.Some?
      modifies this`exportRecorder, this`downloads, this`isExporting, this`isPlaying
      ensures Valid()
      ensures exportRecorder == Some(Inactive)
      ensures downloads == old(downloads) + [Blob(exportChunks)]
      ensures !isExporting && !isPlaying
    {
      exportRecorder := Some(Inactive);
      downloads := downloads + [Blob(exportChunks)];
      isExporting := false;
      isPlaying := false;
    }

    /** `onVideoEnded`: playing stops; an export in progress stops its recorder if it runs. */
    method OnVideoEnded() returns (stoppedExport: bool)
      requires Valid()
      modifies this`isPlaying, this`exportRecorder
      ensures Valid()
      ensures !isPlaying
      ensures stoppedExport <==> old(isExporting) && old(exportRecorder) == Some(Active)
      ensures exportRecorder == if stoppedExport then Some(Inactive) else old(exportRecorder)
    {
      isPlaying := false;
      stoppedExport := false;
      if isExporting && exportRecorder == Some(Active) {
        exportRecorder := Some(Inactive);
        stoppedExport := true;
      }
    }
  }

  /** One export: start it, let the chunks arrive, reach the end of the video, and the download
      is the blob of exactly the non-empty chunks; afterwards export is enabled again. */
  method ExportSession(app: PlaybackApp, arrivals: seq<Chunk>)
    requires app.Valid() && app.hasCanvas && app.hasVideo && app.ExportEnabled()
    modifies app
    ensures app.Valid() && app.ExportEnabled()
    ensures app.downloads == old(app.downloads) + [Blob(NonEmpty(arrivals))]
  {
    var started := app.ClickExport(true, true, true);
    assert app.exportChunks == [];
    var i := 0;
    while i < |arrivals|
      invariant 0 <= i <= |arrivals|
      invariant app.Valid() && app.exportChunks == NonEmpty(arrivals[..i])
      invariant app.isExporting && app.exportRecorder == Some(Active)
      invariant app.downloads == old(app.downloads)
    {
      assert arrivals[..i + 1] == arrivals[..i] + [arrivals[i]];
      NonEmptyAppend(arrivals[..i], arrivals[i]);
      app.OnExportData(arrivals[i]);
      i := i + 1;
    }
    assert arrivals[..i] == arrivals;
    var stopped := app.OnVideoEnded();
    app.OnExportStop();
  }

  /** An export whose recorder cannot be built or started never clears its flags: the export
      button stays disabled, through the end of the video and any press of play. */
  method FailedExportStaysDisabled(app: PlaybackApp, createOk: bool, startOk: bool, playOk: bool)
    requires app.Valid() && app.hasCanvas && app.hasVideo && app.ExportEnabled() && !(createOk && startOk)
    modifies app
    ensures app.Valid() && app.isExporting && !app.ExportEnabled()
  {
    var started := app.ClickExport(createOk, startOk, playOk);
    var stopped := app.OnVideoEnded();
    var call := app.HandlePlay(playOk);
  }
}
