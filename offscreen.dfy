/**
  The offscreen capture document of src/offscreen/offscreen.ts: it turns a tab
  stream into a `MediaRecorder`, collects the encoded chunks, and on stop writes
  one video blob under `latest-video` and reports RECORDING_SAVED.

  `getUserMedia` is an oracle parameter (`Some(stream)` when it resolves, `None`
  when it rejects), as is `MediaRecorder.isTypeSupported`; streams are named by
  numbers. Console forwarding (the `LOG` messages) is not modelled.
*/
module Offscreen {
  import opened Wrappers
  import opened Artifact

  /** A `MediaRecorder` as the document configured it. */
  datatype MediaRecorder = MediaRecorder(stream: nat, mimeType: Option<string>, state: RecorderState, timeslice: nat)

  /** Messages this document sends to the rest of the extension. */
  datatype RuntimeMessage = OffscreenLoaded | RecordingSaved(failed: bool)

  /** Messages this document reacts to. */
  datatype Message = StartRecording(streamId: Option<string>) | StopRecording | OtherMessage

  const VP9: string := "video/webm;codecs=vp9"
  const WEBM: string := "video/webm"
  /** Milliseconds between `dataavailable` events. */
  const TIMESLICE: nat := 200

  /** `mimeType` is what the codec cascade picks: VP9 when supported, else plain WebM when
      supported, else the browser's own choice (`None`). */
  predicate Cascade(isTypeSupported: string -> bool, mimeType: Option<string>) {
    && (isTypeSupported(VP9) ==> mimeType == Some(VP9))
    && (!isTypeSupported(VP9) && isTypeSupported(WEBM) ==> mimeType == Some(WEBM))
    && (!isTypeSupported(VP9) && !isTypeSupported(WEBM) ==> mimeType == None)
  }

  /** The codec cascade: VP9, then plain WebM, then the browser's own choice (`None`). */
  method ChooseMimeType(isTypeSupported: string -> bool) returns (mimeType: Option<string>)
    ensures isTypeSupported(VP9) ==> mimeType == Some(VP9)
    ensures !isTypeSupported(VP9) && isTypeSupported(WEBM) ==> mimeType == Some(WEBM)
    ensures !isTypeSupported(VP9) && !isTypeSupported(WEBM) ==> mimeType == None
    ensures mimeType.Some? ==> isTypeSupported(mimeType.value)
  {
    var options := VP9;
    if !isTypeSupported(options) {
      options := WEBM;
    }
    mimeType := Some(options);
    if !isTypeSupported(options) {
      mimeType := None;
    }
  }

  class OffscreenDocument {
    var recorder: Option<MediaRecorder>
    var chunks: seq<Chunk>
    var store: Store
    /** Every `chrome.runtime.sendMessage`, in order. */
    var messages: seq<RuntimeMessage>
    /** Streams whose tracks were stopped, in order. */
    var releasedStreams: seq<nat>

    /** Only non-empty chunks are kept. */
    ghost predicate Valid()
      reads this
    {
      AllNonEmpty(chunks)
    }

    /** Loading the document announces it to the background. */
    constructor (store: Store)
      ensures Valid()
      ensures recorder == None && chunks == [] && this.store == store
      ensures messages == [OffscreenLoaded] && releasedStreams == []
    {
      recorder := None;
      chunks := [];
      this.store := store;
      messages := [OffscreenLoaded];
      releasedStreams := [];
    }

    /**
      START_RECORDING: without a stream id or a granted stream nothing changes. Otherwise a recorder
      is built on the stream with the codec the cascade picks and the chunk list is emptied, then
      started with a 200 ms timeslice. `createOk` and `startOk` say whether the `MediaRecorder`
      constructor and `start` succeed; a failure of either is caught and ends the handler, so a
      failed constructor leaves everything as it was and a failed `start` leaves an inactive
      recorder.
    */
    method Start(streamId: Option<string>, media: Option<nat>, isTypeSupported: string -> bool,
                 createOk: bool, startOk: bool)
      requires Valid()
      modifies this`recorder, this`chunks
      ensures Valid()
      ensures (streamId.None? || streamId.value == "" || media.None? || !createOk) ==>
        recorder == old(recorder) && chunks == old(chunks)
      ensures streamId.Some? && streamId.value != "" && media.Some? && createOk ==>
        && recorder.Some? && recorder.value.stream == media.value
        && Cascade(isTypeSupported, recorder.value.mimeType)
        && (startOk ==> recorder.value.state == Active && recorder.value.timeslice == TIMESLICE)
        && (!startOk ==> recorder.value.state == Inactive)
        && chunks == []
    {
      if streamId.None? || streamId.value == "" {
        return;
      }
      if media.None? {
        return;
      }
      var mimeType := ChooseMimeType(isTypeSupported);
      if !createOk {
        return;
      }
      recorder := Some(MediaRecorder(media.value, mimeType, Inactive, 0));
      chunks := [];
      if !startOk {
        return;
      }
      recorder := Some(recorder.value.(state := Active, timeslice := TIMESLICE));
    }

    /** `ondataavailable`: keep the chunk when it is not empty. */
    method OnDataAvailable(c: Chunk)
      requires Valid()
      modifies this`chunks
      ensures Valid()
      ensures chunks == if c.size > 0 then old(chunks) + [c] else old(chunks)
    {
      if c.size > 0 {
        chunks := chunks + [c];
      }
    }

    /**
      `onstop` of the current recorder (which the browser has made inactive): store the blob
      of all chunks, report RECORDING_SAVED (flagged when the write failed), and release the
      stream. `emptyBlob` is the zero-size diagnostic, raised exactly when no chunk arrived.
    */
    method OnStop(saveOk: bool) returns (emptyBlob: bool)
      requires Valid() && recorder.Some?
      modifies this`recorder, this`store, this`messages, this`releasedStreams
      ensures Valid()
      ensures recorder == Some(old(recorder).value.(state := Inactive))
      ensures emptyBlob <==> chunks == []
      ensures store == if saveOk then old(store)[LATEST_VIDEO := VideoValue(Blob(chunks))] else old(store)
      ensures messages == old(messages) + [RecordingSaved(!saveOk)]
      ensures releasedStreams == old(releasedStreams) + [old(recorder).value.stream]
    {
      recorder := Some(recorder.value.(state := Inactive));
      var blob := Blob(chunks);
      emptyBlob := blob.Size() == 0;
      if saveOk {
        store := store[LATEST_VIDEO := VideoValue(blob)];
        messages := messages + [RecordingSaved(false)];
      } else {
        messages := messages + [RecordingSaved(true)];
      }
      releasedStreams := releasedStreams + [recorder.value.stream];
    }

    /** STOP_RECORDING: flush and stop a recorder that is running; otherwise do nothing. */
    method Stop() returns (stopped: bool)
      modifies this`recorder
      ensures stopped <==> old(recorder).Some? && old(recorder).value.state != Inactive
      ensures recorder == if stopped then Some(old(recorder).value.(state := Inactive)) else old(recorder)
    {
      stopped := false;
      if recorder.Some? && recorder.value.state != Inactive {
        recorder := Some(recorder.value.(state := Inactive));
        stopped := true;
      }
    }

    /** The `chrome.runtime.onMessage` listener. */
    method OnMessage(message: Message, media: Option<nat>, isTypeSupported: string -> bool,
                     createOk: bool, startOk: bool)
      requires Valid()
      modifies this`recorder, this`chunks
      ensures Valid()
      ensures message.StartRecording? &&
              (message.streamId.None? || message.streamId.value == "" || media.None? || !createOk) ==>
        recorder == old(recorder) && chunks == old(chunks)
      ensures message.StartRecording? && message.streamId.Some? && message.streamId.value != ""
              && media.Some? && createOk ==>
        && recorder.Some? && recorder.value.stream == media.value
        && Cascade(isTypeSupported, recorder.value.mimeType)
        && (startOk ==> recorder.value.state == Active && recorder.value.timeslice == TIMESLICE)
        && (!startOk ==> recorder.value.state == Inactive)
        && chunks == []
      ensures message.StopRecording? ==>
        && chunks == old(chunks)
        && recorder == if old(recorder).Some? && old(recorder).value.state != Inactive
                       then Some(old(recorder).value.(state := Inactive)) else old(recorder)
      ensures message.OtherMessage? ==> recorder == old(recorder) && chunks == old(chunks)
    {
      match message
      case StartRecording(streamId) =>
        Start(streamId, media, isTypeSupported, createOk, startOk);
      case StopRecording =>
        var _ := Stop();
      case OtherMessage =>
    }
  }

  /** One capture session: chunks arrive, the recorder is stopped, and its `onstop` stores the
      blob of exactly the non-empty chunks, in order. */
  method Session(doc: OffscreenDocument, streamId: string, stream: nat, isTypeSupported: string -> bool,
                 arrivals: seq<Chunk>)
    requires doc.Valid() && streamId != ""
    modifies doc
    ensures doc.store == old(doc.store)[LATEST_VIDEO := VideoValue(Blob(NonEmpty(arrivals)))]
    ensures doc.messages == old(doc.messages) + [RecordingSaved(false)]
    ensures doc.releasedStreams == old(doc.releasedStreams) + [stream]
  {
    doc.Start(Some(streamId), Some(stream), isTypeSupported, true, true);
    assert doc.chunks == [] && doc.recorder.Some? && doc.recorder.value.stream == stream;
    Deliver(doc, arrivals);
    assert doc.chunks == NonEmpty(arrivals);
    var _ := doc.Stop();
    var _ := doc.OnStop(true);
  }

  /** `ondataavailable` for each chunk in turn. */
  method Deliver(doc: OffscreenDocument, arrivals: seq<Chunk>)
    requires doc.Valid()
    modifies doc`chunks
    ensures doc.Valid() && doc.chunks == old(doc.chunks) + NonEmpty(arrivals)
  {
    var i := 0;
    while i < |arrivals|
      invariant 0 <= i <= |arrivals|
      invariant doc.Valid() && doc.chunks == old(doc.chunks) + NonEmpty(arrivals[..i])
    {
      assert arrivals[..i + 1] == arrivals[..i] + [arrivals[i]];
      NonEmptyAppend(arrivals[..i], arrivals[i]);
      doc.OnDataAvailable(arrivals[i]);
      i := i + 1;
    }
    assert arrivals[..i] == arrivals;
  }
}
