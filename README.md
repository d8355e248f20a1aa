# open-screen-record, modelled in Dafny

open-screen-record is a browser extension. It records a tab, window or screen
and, in parallel, a trace of the pointer inside the recorded page. It replays
the video through a virtual camera that follows the pointer and zooms in on
clicks, and it can export the replayed canvas as a new video.

This project models the six files that make up that pipeline:

- `render.dfy` (module `Render`) is the virtual camera of `src/core/Renderer.ts`:
  - the recording-mode detection and the choice of coordinate source;
  - interpolation between pointer samples and scaling to video pixels;
  - the click zoom and the clamped, smoothed pan;
  - the in-place sort of the trace, as an insertion sort on an `array`;
  - the `Renderer` class, with its camera updated by `Draw`.
- `content.dfy` (module `ContentScript`) is `src/content/content-script.ts`:
  - the `MetadataRecorder` class, which coalesces moves to one per animation frame and records clicks at once;
  - the page's message listener.
- `service_worker.dfy` (module `ServiceWorker`) is the background relay of `src/background/service-worker.ts`:
  - it forwards START to the recorded tab, with injection and up to 20 handshake retries;
  - it forwards STOP, then stores the returned metadata or `[]`.
- `offscreen.dfy` (module `Offscreen`) is the tab-capture document `src/offscreen/offscreen.ts`:
  - the codec cascade;
  - the non-empty chunk filter;
  - the blob written under `latest-video`;
  - RECORDING_SAVED, and the release of the stream.
- `recorder_app.dfy` (module `RecorderPage`) is the recorder page `src/recorder/RecorderApp.tsx`:
  - its status machine;
  - the memoised metadata sync, which sends BROADCAST_STOP at most once per recording whichever way the recording ends.
- `playback_app.dfy` (module `Playback`) is the playback page `src/playback/PlaybackApp.tsx`:
  - loading what is stored;
  - normalising the stored metadata into the renderer's inputs;
  - the play and export flags;
  - the export chunk filter;
  - the `m:ss` clock label.
- `artifact.dfy` (module `Artifact`) holds what these pages exchange:
  - chunks and blobs;
  - the stored metadata value;
  - the shared key/value store with its two keys;
  - the conversion from a content-script sample to a renderer sample, and its inverse;
  - the `MediaRecorder` state the pages test, and the truthiness test of a tab id.
- `wrappers.dfy` holds the `Option` type.

Objects whose fields the source updates in place are classes with `modifies`
frames: `Renderer`, `MetadataRecorder`, the background, the offscreen document
and both pages. Each of them except the background relay, which keeps no
invariant of its own, has a `Valid()` invariant that its methods preserve.
React state and refs become fields, and each handler becomes a method. Browser
APIs become oracle parameters, for example whether a send is delivered, what
`getDisplayMedia` or `play()` settles to, or whether an IndexedDB write
succeeds. Clocks, animation-frame ids and stream handles are plain parameters.
Asynchronous handlers run to completion inside the method call that models
them.

Behaviours of the code that the model keeps:

- `stop()` of the content-script recorder (content-script.ts:27-41) hands back the samples but does not clear them. They are dropped by the next `start()`.
- The frame flush (content-script.ts:52-71) does not clear the buffered move. It clears only the pending frame id. A new frame is requested only after a new move, so no sample is recorded twice.
- In the recorder page's `onstop` (RecorderApp.tsx:116-133), a failed write of the video ends the handler. Nothing after the write happens: no RECORDING_FINISHED, no playback hand-off, and the tracks are not stopped. The offscreen document (offscreen.ts:88-99) does report the failure and does release the stream.
- The handshake timeout in the background (service-worker.ts:57-63) is only logged. No caller is told about it.

## Model

| member | source | states |
|---|---|---|
| Render.Lerp | src/core/Renderer.ts:72-74 | lerp gives `start` at 0 and `end` at 1, and stays between the two for t in [0, 1] |
| Render.LerpScale | src/core/Renderer.ts:152-174 | scaling the result of lerp equals lerp of the scaled end points, so scaling after interpolating is scaling each sample |
| Render.Clamp | src/core/Renderer.ts:191-193 | for a non-empty [min, max], clamp is the identity inside it and gives the nearest edge outside it (`min` below, `max` above); it is `min` when the bounds cross |
| Render.EffectiveDpr | src/core/Renderer.ts:81 | `dpr \|\| 1`: the stored ratio when truthy, else 1; never 0 |
| Render.DetectRecordingMode | src/core/Renderer.ts:76-106 | no viewport or zero video width gives viewport mode; screen mode exactly when the video matches screen size × dpr within 10 px; window mode exactly when it does not but matches the outer window size |
| Render.ScreenCheckedFirst | src/core/Renderer.ts:83-102 | a video matching both the screen and the window size is classified as a screen recording |
| Render.MissingDprIsOne | src/core/Renderer.ts:81 | a missing or zero dpr classifies exactly like a dpr of 1 |
| Render.ScaleFactors | src/core/Renderer.ts:156-176 | scaling applies exactly when there is a viewport, a video width and a positive source size, and then maps the source size onto the video size |
| Render.CoordSource | src/core/Renderer.ts:137-150 | screen coordinates exactly in screen mode when both samples carry them; window coordinates exactly in window mode when the first sample carries them and the viewport has a window origin; page coordinates otherwise, in particular in viewport mode and for samples without screen coordinates |
| Render.RawPoint | src/core/Renderer.ts:137-150 | page and screen coordinates are read as stored; a window point plus the window's screen origin (`windowX || 0`, `windowY || 0`) is the screen point |
| Render.Scale | src/core/Renderer.ts:152-176 | no change without scale factors, otherwise each axis times its factor from `ScaleFactors`; `Render.ScaleLerp` shows it commutes with interpolation |
| Render.InterpolatePosition | src/core/Renderer.ts:131-179 | at progress 0 and 1 the position is the scaled raw point of the first and the second sample; `Render.InterpolateOnSegment` places every progress in [0, 1] on the segment between them |
| Render.UniformPairDefined | src/core/Renderer.ts:137-150 | for a trace whose samples all carry screen coordinates, or none does, every coordinate the chosen branch reads (`screenY!`) exists |
| Render.InterpolateOnSegment | src/core/Renderer.ts:131-179 | interpolating two samples is the lerp of their canvas positions, so for progress in [0, 1] the result lies on the segment between them |
| Render.ScaleLerp | src/core/Renderer.ts:152-176 | the recording-mode scaling commutes with interpolation |
| Render.WindowRecordingExample | src/core/Renderer.ts:140-175 | a 1200×900 window at (50, 50) is a window recording, and screen point (150, 150) lands at (100, 100) |
| Render.ScreenRecordingExample | src/core/Renderer.ts:137-139 | a 1920×1080 screen is a screen recording, and screen point (500, 500) lands at (500, 500) |
| Render.FirstBracket | src/core/Renderer.ts:117-123 | the search result is a pair that brackets t, and no earlier pair does; none means no pair does |
| Render.BracketExists | src/core/Renderer.ts:117-123 | strictly inside the trace's time span the search always finds a pair, sorted or not |
| Render.MousePositionAt | src/core/Renderer.ts:108-129 | no position exactly for an empty trace; `Render.MousePositionEnds`, `Render.MousePositionInside` and `Render.Renderer.GetMousePosition` state the rest |
| Render.Progress | src/core/Renderer.ts:125-126 | progress is 0 for a zero-length pair and lies in [0, 1] for t between the pair's timestamps |
| Render.MousePositionEnds | src/core/Renderer.ts:108-115 | no position exactly for an empty trace; before the first sample or after the last, the position is that sample's |
| Render.MousePositionInside | src/core/Renderer.ts:117-128 | strictly inside the span, the position lies on the segment between the canvas positions of the first bracketing pair |
| Render.FindNearClick | src/core/Renderer.ts:185-187 | the found sample is a click within 800 ms of t from the trace; none exactly when the trace has no such click |
| Render.TargetZoom | src/core/Renderer.ts:181-189 | the target zoom is 1.8 exactly when a click lies within 800 ms, else 0.9 |
| Render.ClampIntervalNonEmpty | src/core/Renderer.ts:234-238 | at zoom ≥ 1 the pan interval [visible/2, size − visible/2] is non-empty |
| Render.CameraTarget | src/core/Renderer.ts:224-246 | the canvas centre with no pointer or below zoom 1; otherwise, on each axis, the pointer when it lies in the pan interval and the nearest edge of the interval when it lies outside |
| Render.CameraStep | src/core/Renderer.ts:221-249 | the new zoom lies between the old zoom and the target; the new centre lies between the old centre and the pan target computed from the new zoom |
| Render.CameraAfter | src/core/Renderer.ts:221-249 | after any sequence of draws the zoom stays within [0.9, 1.8] |
| Render.SortByTimestamp | src/core/Renderer.ts:55 | the trace array ends up sorted by timestamp, is a permutation of what it held, and keeps the samples of each timestamp in their original order, as the stable `Array.prototype.sort` does |
| Render.TieOrderMatters | src/core/Renderer.ts:55 | two samples with one timestamp give different positions at that time in their two orders, and only the recording order keeps the ties |
| Render.Renderer.constructor | src/core/Renderer.ts:37-69 | the renderer keeps the stably sorted permutation of the samples (equal timestamps in recording order) and starts centred on the canvas at zoom 0.9 |
| Render.Renderer.GetMousePosition | src/core/Renderer.ts:108-129 | the loop returns the position `MousePositionAt` defines |
| Render.Renderer.Draw | src/core/Renderer.ts:205-299 | without a context nothing changes; otherwise the camera takes one `CameraStep`, the frame is painted once the video has current data, and the cursor is drawn at the pointer position |
| ContentScript.MetadataRecorder.constructor | src/content/content-script.ts:10-16 | a new recorder is disarmed, empty, with no pending frame and no buffered move |
| ContentScript.MetadataRecorder.Start | src/content/content-script.ts:18-25 | starting arms the recorder, empties the buffer and takes the clock |
| ContentScript.MetadataRecorder.Stop | src/content/content-script.ts:27-41 | stopping disarms, cancels the pending frame (which is returned), drops the buffered move, and hands back the samples unchanged |
| ContentScript.MetadataRecorder.HandleMouseMove | src/content/content-script.ts:43-50 | while armed the latest move is buffered, and a frame is requested exactly when none is pending; disarmed, nothing changes |
| ContentScript.MetadataRecorder.ProcessMouseMove | src/content/content-script.ts:52-71 | the frame callback appends one move sample from the buffered event when armed, and always clears the pending frame |
| ContentScript.MetadataRecorder.HandleClick | src/content/content-script.ts:73-86 | while armed a click is appended at once with its relative time; disarmed, nothing changes |
| ContentScript.MetadataRecorder.GetEvents | src/content/content-script.ts:88-90 | returns the recorded samples |
| ContentScript.CoalescedMoves | src/content/content-script.ts:43-71 | two moves before one frame record one sample, the second move's |
| ContentScript.OnMessage | src/content/content-script.ts:97-127 | GET_DIMENSIONS answers the window size and ratio; START arms, empties the samples and takes the clock, keeping any pending frame and buffered move, and answers started; STOP disarms, cancels the pending frame, drops the buffered move, keeps the samples and the start time, and answers the samples with the viewport, keeping the channel open; anything else is ignored |
| Artifact.TotalSize | src/offscreen/offscreen.ts:81-86 | a blob is at least as large as its first chunk, and for non-empty chunks it is empty exactly when there are no chunks |
| Artifact.TotalSizeAppend | src/offscreen/offscreen.ts:69-81 | appending a chunk adds its size to the blob |
| Artifact.NonEmpty | src/offscreen/offscreen.ts:69-74 | the kept chunks are non-empty, no more than arrived, and all among the arrivals |
| Artifact.NonEmptyAppend | src/offscreen/offscreen.ts:69-74 | one more arrival appends it exactly when its size is positive |
| Artifact.EmptyBlobIffNoData | src/offscreen/offscreen.ts:69-86 | the stored blob is empty exactly when every arrived chunk had size 0 |
| Artifact.ToSample | src/content/content-script.ts:58-68 | a stored content-script sample always carries both screen coordinates |
| Artifact.SampleRoundTrip | src/content/content-script.ts:61-85 | a recorded pointer sample read as a renderer sample loses nothing: reading it back gives the recorded sample |
| Artifact.SamplesRoundTrip | src/playback/PlaybackApp.tsx:66-72 | the events handed to the renderer read back as exactly the recorded trace, in order |
| Artifact.ViewportRoundTrip | src/content/content-script.ts:111-121 | the viewport handed to the renderer reads back as exactly the one the content script reported |
| Artifact.CapturedTraceIsUniform | src/content/content-script.ts:58-85 | every trace the content script records meets the renderer's coordinate requirement |
| ServiceWorker.StoredMetadata | src/background/service-worker.ts:88-94 | the tab's `data` is stored when the reply has it, otherwise `[]` |
| ServiceWorker.RetryHandshake | src/background/service-worker.ts:45-57 | 1 to 20 sends, stopping at the first one delivered; a failure means all 20 failed |
| ServiceWorker.Background.StartMetadata | src/background/service-worker.ts:26-66 | a delivered direct START ends it; otherwise injection only when the manifest names a script, then a handshake whose sends are counted exactly; at most 21 sends |
| ServiceWorker.Background.CollectMetadata | src/background/service-worker.ts:75-101 | one STOP_RECORDING to the tab; on a successful write the store holds the reply's metadata and the response reports success, otherwise the store is unchanged and failure is reported |
| ServiceWorker.Background.HandleMessage | src/background/service-worker.ts:20-107 | START and STOP go to the tab only when a truthy tab id is given; START then has exactly the sends, injections and outcome of `StartMetadata`; STOP keeps the channel open, has the store of `CollectMetadata` and answers `{ success }` with the write's outcome and no error; STOP without a tab id answers `No targetTabId`; anything else changes nothing |
| Offscreen.ChooseMimeType | src/offscreen/offscreen.ts:56-64 | VP9 when supported, else plain WebM when supported, else the browser's default; a chosen type is always supported |
| Offscreen.OffscreenDocument.constructor | src/offscreen/offscreen.ts:16-23 | loading announces OFFSCREEN_LOADED, with no recorder and no chunks |
| Offscreen.OffscreenDocument.Start | src/offscreen/offscreen.ts:26-108 | without a stream id or a stream, or when the recorder cannot be built, recorder and chunks are unchanged; otherwise the recorder on that stream takes VP9 when supported, else WebM when supported, else no mime type, and the chunks are emptied; it runs with a 200 ms timeslice when `start` succeeds and stays inactive when it throws |
| Offscreen.OffscreenDocument.OnDataAvailable | src/offscreen/offscreen.ts:69-74 | a chunk is kept exactly when it is not empty |
| Offscreen.OffscreenDocument.OnStop | src/offscreen/offscreen.ts:80-100 | the blob of the chunks is stored when the write succeeds; RECORDING_SAVED is sent either way, flagged on failure; the stream is released; the empty-blob diagnostic fires exactly when no chunk was kept |
| Offscreen.OffscreenDocument.Stop | src/offscreen/offscreen.ts:110-117 | a recorder that is not inactive is stopped; otherwise nothing changes |
| Offscreen.OffscreenDocument.OnMessage | src/offscreen/offscreen.ts:25-118 | START builds and starts a recorder as `Start` does, with the same codec cascade and the same failure cases; STOP stops it keeping the chunks; anything else changes nothing |
| Offscreen.Deliver | src/offscreen/offscreen.ts:69-74 | delivering arrivals one by one appends exactly their non-empty chunks, in order |
| Offscreen.Session | src/offscreen/offscreen.ts:66-117 | a whole capture stores the blob of exactly the non-empty chunks, reports RECORDING_SAVED and releases the stream |
| RecorderPage.RecorderApp.constructor | src/recorder/RecorderApp.tsx:4-23 | the page starts in setup with the target tab from its URL and nothing sent |
| RecorderPage.RecorderApp.StopsThisRecording | src/recorder/RecorderApp.tsx:25-39 | since the recording began, exactly one BROADCAST_STOP has been sent if a sync promise exists, none otherwise |
| RecorderPage.RecorderApp.SyncMetadata | src/recorder/RecorderApp.tsx:25-39 | BROADCAST_STOP is sent only when no sync exists; every call returns the one stored promise |
| RecorderPage.RecorderApp.SetupRecording | src/recorder/RecorderApp.tsx:41-74 | a granted stream makes the page ready; NotAllowedError changes nothing; any other failure shows its message or `Failed to setup stream` |
| RecorderPage.RecorderApp.OnTrackEnded | src/recorder/RecorderApp.tsx:54-64 | while the recorder runs, the sync is started (at most one BROADCAST_STOP); otherwise the page returns to setup |
| RecorderPage.RecorderApp.StartRecording | src/recorder/RecorderApp.tsx:76-150 | without a stream nothing happens; a failed focus or recorder construction shows the error and changes nothing else; a `start(200)` that throws leaves the new recorder inactive with empty chunks and no sync, and shows the error; otherwise a new recording: empty chunks, no sync, status recording, one BROADCAST_START |
| RecorderPage.RecorderApp.OnDataAvailable | src/recorder/RecorderApp.tsx:96-100 | a chunk is kept exactly when it is not empty |
| RecorderPage.RecorderApp.OnStop | src/recorder/RecorderApp.tsx:102-134 | the recorder is inactive and a sync exists; BROADCAST_STOP is sent only if none was; a non-empty video is stored, RECORDING_FINISHED sent and playback opened when the write succeeds; an empty one gives `Recording failed: No data` |
| RecorderPage.RecorderApp.SaveRecording | src/recorder/RecorderApp.tsx:113-133 | after the sync: store and hand off a non-empty video, or report the empty one; the tracks are stopped unless the write failed |
| RecorderPage.RecorderApp.StopRecording | src/recorder/RecorderApp.tsx:152-160 | the sync is started first (at most one BROADCAST_STOP), then a running recorder is stopped |
| RecorderPage.RecorderApp.BackToSetup | src/recorder/RecorderApp.tsx:211-216 | Change Source and Try Again return the page to setup |
| RecorderPage.BothEndings | src/recorder/RecorderApp.tsx:54-64 | a Stop click and the stream's end, in either order, send one BROADCAST_STOP and leave the recorder inactive |
| RecorderPage.StopAndStreamEnd | src/recorder/RecorderApp.tsx:102-160 | the whole end of a recording, however it is triggered, sends exactly one BROADCAST_STOP |
| Playback.LoadedVideo | src/playback/PlaybackApp.tsx:31-37 | a video is loaded exactly when one is stored under `latest-video`, and it is the stored blob |
| Playback.LoadedMetadata | src/playback/PlaybackApp.tsx:32-43 | the stored metadata, or `[]` when none is stored |
| Playback.Normalise | src/playback/PlaybackApp.tsx:64-72 | a bare array is the trace with no geometry; a record with events gives its events and viewport; anything else gives an empty trace |
| Playback.CaptureReachesRenderer | src/playback/PlaybackApp.tsx:62-79 | metadata captured by the content script and stored by the background reaches the renderer as samples and a viewport that read back as exactly what was captured, and meets the renderer's coordinate requirement |
| Playback.NothingStored | src/playback/PlaybackApp.tsx:39-43 | with nothing stored the renderer gets an empty trace and no geometry |
| Playback.Digits | src/playback/PlaybackApp.tsx:267 | `toString` of a natural is one or more digits, and one digit exactly below 10 |
| Playback.DigitsRoundTrip | src/playback/PlaybackApp.tsx:267 | reading the digits back gives the number |
| Playback.PadStart | src/playback/PlaybackApp.tsx:267 | `padStart` keeps a long enough string and otherwise fills it on the left to the width |
| Playback.LeadingZero | src/playback/PlaybackApp.tsx:267 | a leading zero does not change the value |
| Playback.MinutesAndSeconds | src/playback/PlaybackApp.tsx:265-266 | the whole seconds split into minutes and a remainder below 60 |
| Playback.TwoDigitSeconds | src/playback/PlaybackApp.tsx:266-267 | the seconds field is always two digits and denotes the remainder |
| Playback.ClockRoundTrip | src/playback/PlaybackApp.tsx:267 | an `m:ss` label reads back as `60 m + s` with its colon three places from the end |
| Playback.FormatTime | src/playback/PlaybackApp.tsx:264-268 | the label is minute digits, a colon and two seconds digits; `Playback.FormatTimeRoundTrip` reads it back |
| Playback.FormatTimeRoundTrip | src/playback/PlaybackApp.tsx:264-268 | the label's seconds field is below 60 and it reads back as the whole seconds elapsed |
| Playback.FormatTimeExamples | src/playback/PlaybackApp.tsx:264-268 | 75.5 s reads `1:15` and 5 s reads `0:05` |
| Playback.PlaybackApp.constructor | src/playback/PlaybackApp.tsx:10-26 | the page starts loading, not playing or exporting, at 1280×720 |
| Playback.PlaybackApp.LoadData | src/playback/PlaybackApp.tsx:29-50 | a readable store gives the video if any and the metadata or `[]`; loading ends in every case |
| Playback.PlaybackApp.OnVideoMetadataLoaded | src/playback/PlaybackApp.tsx:53-60 | the video's size is adopted only when both sides are non-zero |
| Playback.PlaybackApp.RendererEffect | src/playback/PlaybackApp.tsx:62-81 | with canvas, video and metadata present, the renderer is rebuilt from the normalised metadata |
| Playback.PlaybackApp.HandlePlay | src/playback/PlaybackApp.tsx:100-114 | ignored while exporting; otherwise pause or play, flipping the flag only when the call succeeded |
| Playback.PlaybackApp.HandleExport | src/playback/PlaybackApp.tsx:116-157 | without canvas or video nothing changes; otherwise it rewinds and raises both flags; if the recorder cannot be built nothing else changes, if `start` throws the recorder stays inactive with no chunks and both flags stay raised; otherwise a fresh recorder runs with no chunks and the flags stay raised exactly when play succeeded |
| Playback.PlaybackApp.ClickExport | src/playback/PlaybackApp.tsx:175-178 | the export starts exactly when the button is enabled (not exporting, not playing) and there is a canvas and a video; otherwise nothing changes; once started, the page state is what `HandleExport` leaves: rewound, and the recorder, chunks and flags of the constructor, start and play outcomes |
| Playback.PlaybackApp.OnExportData | src/playback/PlaybackApp.tsx:133-135 | an export chunk is kept exactly when it is not empty |
| Playback.PlaybackApp.OnExportStop | src/playback/PlaybackApp.tsx:137-147 | the blob of the export chunks is offered for download and both flags are cleared |
| Playback.PlaybackApp.OnVideoEnded | src/playback/PlaybackApp.tsx:159-165 | playing stops; an export in progress stops its recorder when it runs |
| Playback.ExportSession | src/playback/PlaybackApp.tsx:116-165 | a whole export downloads the blob of exactly the non-empty chunks, and export is enabled again afterwards |
| Playback.FailedExportStaysDisabled | src/playback/PlaybackApp.tsx:119-149 | when the export recorder cannot be built or started, the export button stays disabled for good, through the end of the video and any press of play |

## Left out

- Canvas painting, for example the gradient, the shadows and the cursor circle. `Draw` reports only whether the frame was painted and where the cursor went.
- IEEE floating point. Renderer arithmetic is over exact reals, and playback times are reals.
- The content script's listener registration, and the `window` and `requestAnimationFrame` globals. `Date.now()` and frame ids are parameters.
- Console output and the offscreen document's log forwarding (`LOG` messages). They only report.
- The extension icon's click handler, which opens the recorder page on the current tab (service-worker.ts:4-16). It creates a tab and computes nothing.
- The rendered JSX of both pages, other than the export button's `disabled` condition and the two back-to-setup buttons.
- The animation loop of the playback page (PlaybackApp.tsx:83-98). It calls `draw` once per frame while playing. `Render.CameraAfter` is the camera after any sequence of draws.
- Playback.PlaybackApp.RendererEffect: records the normalised input it would build the renderer from, instead of constructing a `Render.Renderer`. The renderer needs the uniform-coordinates requirement, which arbitrary stored data need not meet. `Playback.CaptureReachesRenderer` shows that recordings made by the content script meet it.
- Render.MousePositionAt and the `Renderer` constructor: require each trace to carry screen coordinates on every sample or on none. The source's `screenY!` and `next.screenX!` reads assume this, and the content script and older recordings satisfy it.
- `parseInt` of the page URL's `targetTabId`, including NaN. The tab id is given as an `Option<int>`.
- Playback.FormatTime: requires a non-negative time. A video's `currentTime` is never negative, and `NaN` durations are not modelled.
- The concurrent interleavings of asynchronous handlers. Each handler runs to completion. The two orders of the Stop click and the end of the stream are covered by `RecorderPage.BothEndings`.
- Stored values that are falsy in JavaScript (`0`, `""`, `null`). They are treated as absent; the stored metadata is an array, a record or anything else.
- Blob, stream and URL identities. Blobs are their chunk sequences, streams are numbers, and object URLs are the blobs themselves.
