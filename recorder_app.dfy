/**
  The recorder page of src/recorder/RecorderApp.tsx: the status machine
  (setup, ready, recording, saving, error) and the memoised metadata sync
  that sends BROADCAST_STOP at most once per recording.

  React state and refs are fields; each handler is a method. Browser calls are
  oracle parameters: the outcome of `getDisplayMedia`, whether focusing the
  target tab succeeds, whether the `MediaRecorder` can be created, and whether
  the IndexedDB write succeeds. Awaiting the sync promise is modelled as the
  background having answered; streams are named by numbers.
*/
module RecorderPage {
  import opened Wrappers
  import opened Artifact

  datatype Status = Setup | Ready | Recording | Saving | Error

  /** Messages the page sends with `chrome.runtime.sendMessage`. */
  datatype RuntimeMessage =
    | BroadcastStart(targetTabId: Option<int>)
    | BroadcastStop(targetTabId: Option<int>)
    | RecordingFinished

  /** How `getDisplayMedia` settles. */
  datatype DisplayMedia = Granted(stream: nat) | Failed(name: string, message: string)

  /** `err.message || fallback`. */
  function MessageOr(message: string, fallback: string): string {
    if message == "" then fallback else message
  }

  /** The number of BROADCAST_STOP messages in `s`. */
  function CountStops(s: seq<RuntimeMessage>): nat {
    if s == [] then 0
    else CountStops(s[..|s| - 1]) + (if s[|s| - 1].BroadcastStop? then 1 else 0)
  }

  lemma CountStopsSnoc(s: seq<RuntimeMessage>, m: RuntimeMessage)
    ensures CountStops(s + [m]) == CountStops(s) + (if m.BroadcastStop? then 1 else 0)
  {
    assert (s + [m])[..|s|] == s;
  }

  /** A sequence whose only BROADCAST_STOP is at `k` has one. */
  lemma {:induction false} StopsAtMostAt(s: seq<RuntimeMessage>, k: nat)
    requires k < |s| && s[k].BroadcastStop?
    requires forall i :: 0 <= i < |s| && s[i].BroadcastStop? ==> i == k
    ensures CountStops(s) == 1
  {
    var init := s[..|s| - 1];
    if k == |s| - 1 {
      NoStops(init);
    } else {
      StopsAtMostAt(init, k);
    }
  }

  /** A sequence without BROADCAST_STOP has none. */
  lemma {:induction false} NoStops(s: seq<RuntimeMessage>)
    requires forall i :: 0 <= i < |s| ==> !s[i].BroadcastStop?
    ensures CountStops(s) == 0
  {
    if s != [] {
      NoStops(s[..|s| - 1]);
    }
  }

  class RecorderApp {
    var status: Status
    var error: string
    /** `targetTabIdRef`, parsed from the page URL at mount. */
    const targetTabId: Option<int>
    var mediaRecorder: Option<RecorderState>
    var chunks: seq<Chunk>
    var stream: Option<nat>
    /** `metadataSyncPromise`: the index in `sent` of the BROADCAST_STOP it waits for. */
    var syncPromise: Option<nat>
    /** Every message sent, in order. */
    var sent: seq<RuntimeMessage>
    var store: Store
    /** Streams whose tracks were stopped, in order. */
    var releasedStreams: seq<nat>
    /** The playback page was opened and this window closed. */
    var handedOff: bool
    /** Where in `sent` the current recording began. */
    ghost var recordingStart: nat

    /** Only non-empty chunks are kept, and since the current recording began the only
        BROADCAST_STOP sent is the one the sync promise waits for. */
    ghost predicate Valid()
      reads this
    {
      && recordingStart <= |sent|
      && AllNonEmpty(chunks)
      && (syncPromise.Some? ==>
            recordingStart <= syncPromise.value < |sent| && sent[syncPromise.value] == BroadcastStop(targetTabId))
      && (forall i :: recordingStart <= i < |sent| && sent[i].BroadcastStop? ==> syncPromise == Some(i))
    }

    /** The invariant in numbers: one BROADCAST_STOP since the recording began if a sync
        promise exists, none otherwise. */
    lemma StopsThisRecording()
      requires Valid()
      ensures CountStops(sent[recordingStart..]) == (if syncPromise.Some? then 1 else 0)
    {
      var s := sent[recordingStart..];
      if syncPromise.Some? {
        StopsAtMostAt(s, syncPromise.value - recordingStart);
      } else {
        NoStops(s);
      }
    }

    constructor (targetTabId: Option<int>, store: Store)
      ensures Valid()
      ensures status == Setup && error == "" && this.targetTabId == targetTabId && this.store == store
      ensures mediaRecorder == None && chunks == [] && stream == None && syncPromise == None
      ensures sent == [] && releasedStreams == [] && !handedOff
    {
      status := Setup;
      error := "";
      this.targetTabId := targetTabId;
      mediaRecorder := None;
      chunks := [];
      stream := None;
      syncPromise := None;
      sent := [];
      this.store := store;
      releasedStreams := [];
      handedOff := false;
      recordingStart := 0;
    }

    /** `syncMetadata`: send BROADCAST_STOP only when no sync is under way; every call
        answers the one stored promise. */
    method SyncMetadata() returns (promise: nat)
      requires Valid()
      modifies this`sent, this`syncPromise
      ensures Valid()
      ensures syncPromise == Some(promise)
      ensures old(syncPromise).Some? ==> promise == old(syncPromise).value && sent == old(sent)
      ensures old(syncPromise).None? ==> promise == |old(sent)| && sent == old(sent) + [BroadcastStop(targetTabId)]
    {
      if syncPromise.None? {
        syncPromise := Some(|sent|);
        sent := sent + [BroadcastStop(targetTabId)];
      }
      promise := syncPromise.value;
    }

    /** `setupRecording`: a granted stream makes the page ready; a refusal by the user
        (`NotAllowedError`) changes nothing; any other failure is shown as an error. */
    method SetupRecording(media: DisplayMedia)
      requires Valid()
      modifies this`stream, this`status, this`error
      ensures Valid()
      ensures media.Granted? ==> stream == Some(media.stream) && status == Ready && error == old(error)
      ensures media.Failed? && media.name == "NotAllowedError" ==>
        stream == old(stream) && status == old(status) && error == old(error)
      ensures media.Failed? && media.name != "NotAllowedError" ==>
        stream == old(stream) && status == Error && error == MessageOr(media.message, "Failed to setup stream")
    {
      match media
      case Granted(s) =>
        stream := Some(s);
        status := Ready;
      case Failed(name, message) =>
        if name != "NotAllowedError" {
          error := MessageOr(message, "Failed to setup stream");
          status := Error;
        }
    }

    /** The video track's `onended`: while the recorder runs, start the sync (the browser
        stops the recorder itself); otherwise go back to source selection. */
    method OnTrackEnded()
      requires Valid()
      modifies this`sent, this`syncPromise, this`status
      ensures Valid()
      ensures old(mediaRecorder) == Some(Active) ==>
        && status == old(status) && syncPromise.Some?
        && sent == old(sent) + (if old(syncPromise).None? then [BroadcastStop(targetTabId)] else [])
      ensures old(mediaRecorder) != Some(Active) ==>
        status == Setup && sent == old(sent) && syncPromise == old(syncPromise)
    {
      if mediaRecorder == Some(Active) {
        var _ := SyncMetadata();
      } else {
        status := Setup;
      }
    }

    /**
      `startRecording`: without a stream nothing happens. Focusing the target tab (when one
      is known) or building the `MediaRecorder` (`createOk`) can fail, which shows the error.
      A built recorder is installed with empty chunks and no sync promise; if `start(200)` then
      throws (`startOk`), it stays inactive and the error is shown. Otherwise the recording
      begins: status `recording`, and BROADCAST_START.
    */
    method StartRecording(focusOk: bool, createOk: bool, startOk: bool, failure: string)
      requires Valid()
      modifies this`error, this`status, this`mediaRecorder, this`chunks, this`syncPromise, this`sent,
               this`recordingStart
      ensures Valid()
      ensures old(stream).None? ==>
        && status == old(status) && error == old(error) && sent == old(sent)
        && mediaRecorder == old(mediaRecorder) && chunks == old(chunks) && syncPromise == old(syncPromise)
      ensures old(stream).Some? && ((TabGiven(targetTabId) && !focusOk) || !createOk) ==>
        && status == Error && error == MessageOr(failure, "Failed to start") && sent == old(sent)
        && mediaRecorder == old(mediaRecorder) && chunks == old(chunks) && syncPromise == old(syncPromise)
      ensures old(stream).Some? && (!TabGiven(targetTabId) || focusOk) && createOk && !startOk ==>
        && status == Error && error == MessageOr(failure, "Failed to start") && sent == old(sent)
        && mediaRecorder == Some(Inactive) && chunks == [] && syncPromise == None
      ensures old(stream).Some? && (!TabGiven(targetTabId) || focusOk) && createOk && startOk ==>
        && status == Recording && error == old(error)
        && mediaRecorder == Some(Active) && chunks == [] && syncPromise == None
        && sent == old(sent) + [BroadcastStart(targetTabId)]
        && recordingStart == |old(sent)|
    {
      if stream.None? {
        return;
      }
      if (TabGiven(targetTabId) && !focusOk) || !createOk {
        error := MessageOr(failure, "Failed to start");
        status := Error;
        return;
      }
      mediaRecorder := Some(Inactive);
      chunks := [];
      syncPromise := None;
      recordingStart := |sent|;
      if !startOk {
        error := MessageOr(failure, "Failed to start");
        status := Error;
        return;
      }
      mediaRecorder := Some(Active);
      status := Recording;
      sent := sent + [BroadcastStart(targetTabId)];
    }

    /** The recorder's `ondataavailable`: keep non-empty chunks. */
    method OnDataAvailable(c: Chunk)
      requires Valid()
      modifies this`chunks
      ensures Valid()
      ensures chunks == if c.size > 0 then old(chunks) + [c] else old(chunks)
    {
      if c.size > 0 {
        chunks := chunks + [c];
      }
    }

    /**
      The recorder's `onstop` (the browser has made it inactive): status `saving`, start the
      sync unless one exists, wait for it, then save.
    */
    method OnStop(saveOk: bool)
      requires Valid() && mediaRecorder.Some?
      modifies this`mediaRecorder, this`status, this`error, this`sent, this`syncPromise,
               this`store, this`releasedStreams, this`handedOff
      ensures Valid()
      ensures mediaRecorder == Some(Inactive) && syncPromise.Some?
      ensures sent == old(sent) + (if old(syncPromise).None? then [BroadcastStop(targetTabId)] else [])
                                + (if TotalSize(chunks) > 0 && saveOk then [RecordingFinished] else [])
      ensures TotalSize(chunks) > 0 ==> status == Saving && error == old(error)
      ensures TotalSize(chunks) == 0 ==> status == Error && error == "Recording failed: No data"
      ensures store == if TotalSize(chunks) > 0 && saveOk then old(store)[LATEST_VIDEO := VideoValue(Blob(chunks))] else old(store)
      ensures handedOff == (old(handedOff) || (TotalSize(chunks) > 0 && saveOk))
      ensures releasedStreams == if (TotalSize(chunks) == 0 || saveOk) && stream.Some?
                                 then old(releasedStreams) + [stream.value] else old(releasedStreams)
    {
      mediaRecorder := Some(Inactive);
      status := Saving;
      if syncPromise.None? {
        var _ := SyncMetadata();
      }
      SaveRecording(saveOk);
    }

    /**
      The rest of `onstop`, once the sync has answered: a non-empty video is stored,
      RECORDING_FINISHED sent and playback opened; an empty one is an error. The tracks are
      stopped last. When the store write fails the handler stops there: nothing after it happens.
    */
    method SaveRecording(saveOk: bool)
      requires Valid()
      modifies this`status, this`error, this`sent, this`store, this`releasedStreams, this`handedOff
      ensures Valid()
      ensures sent == old(sent) + (if TotalSize(chunks) > 0 && saveOk then [RecordingFinished] else [])
      ensures TotalSize(chunks) > 0 ==> status == old(status) && error == old(error)
      ensures TotalSize(chunks) == 0 ==> status == Error && error == "Recording failed: No data"
      ensures store == if TotalSize(chunks) > 0 && saveOk then old(store)[LATEST_VIDEO := VideoValue(Blob(chunks))] else old(store)
      ensures handedOff == (old(handedOff) || (TotalSize(chunks) > 0 && saveOk))
      ensures releasedStreams == if (TotalSize(chunks) == 0 || saveOk) && stream.Some?
                                 then old(releasedStreams) + [stream.value] else old(releasedStreams)
    {
      var blob := Blob(chunks);
      if blob.Size() > 0 {
        if !saveOk {
          return;
        }
        store := store[LATEST_VIDEO := VideoValue(blob)];
        AppendKeepsStops(RecordingFinished);
        sent := sent + [RecordingFinished];
        handedOff := true;
      } else {
        error := "Recording failed: No data";
        status := Error;
      }
      if stream.Some? {
        releasedStreams := releasedStreams + [stream.value];
      }
    }

    /** Sending anything but BROADCAST_STOP keeps the sync bookkeeping. */
    lemma AppendKeepsStops(m: RuntimeMessage)
      requires Valid() && !m.BroadcastStop?
      ensures var s := sent + [m];
        && (syncPromise.Some? ==>
              recordingStart <= syncPromise.value < |s| && s[syncPromise.value] == BroadcastStop(targetTabId))
        && (forall i :: recordingStart <= i < |s| && s[i].BroadcastStop? ==> syncPromise == Some(i))
    {
    }

    /** `stopRecording`: start the sync first, then flush and stop the recorder if it runs. */
    method StopRecording() returns (stopRequested: bool)
      requires Valid()
      modifies this`sent, this`syncPromise, this`mediaRecorder
      ensures Valid()
      ensures syncPromise.Some?
      ensures sent == old(sent) + (if old(syncPromise).None? then [BroadcastStop(targetTabId)] else [])
      ensures stopRequested <==> old(mediaRecorder) == Some(Active)
      ensures mediaRecorder == if stopRequested then Some(Inactive) else old(mediaRecorder)
    {
      var _ := SyncMetadata();
      stopRequested := false;
      if mediaRecorder == Some(Active) {
        mediaRecorder := Some(Inactive);
        stopRequested := true;
      }
    }

    /** The "Change Source" and "Try Again" buttons. */
    method BackToSetup()
      modifies this`status
      ensures status == Setup
    {
      status := Setup;
    }
  }

  /**
    The end of a recording when the user clicks Stop and the shared stream also ends, in
    either order, before `onstop` runs: BROADCAST_STOP is sent once.
  */
  method StopAndStreamEnd(app: RecorderApp, endedFirst: bool, saveOk: bool)
    requires app.Valid() && app.mediaRecorder == Some(Active) && app.syncPromise.None?
    modifies app
    ensures app.Valid()
    ensures |old(app.sent)| < |app.sent|
    ensures app.sent[..|old(app.sent)|] == old(app.sent)
    ensures app.sent[|old(app.sent)|] == BroadcastStop(app.targetTabId)
    ensures CountStops(app.sent[|old(app.sent)|..]) == 1
  {
    ghost var before := app.sent;
    BothEndings(app, endedFirst);
    app.OnStop(saveOk);
    var extra: seq<RuntimeMessage> := if TotalSize(app.chunks) > 0 && saveOk then [RecordingFinished] else [];
    var tail := [BroadcastStop(app.targetTabId)] + extra;
    assert app.sent == before + tail;
    assert app.sent[|before|..] == tail;
    StopsAtMostAt(tail, 0);
  }

  /** The Stop click and the stream's end, in either order: one BROADCAST_STOP between them,
      and the recorder stopped. */
  method BothEndings(app: RecorderApp, endedFirst: bool)
    requires app.Valid() && app.mediaRecorder == Some(Active) && app.syncPromise.None?
    modifies app`sent, app`syncPromise, app`mediaRecorder, app`status
    ensures app.Valid() && app.mediaRecorder == Some(Inactive) && app.syncPromise.Some?
    ensures app.sent == old(app.sent) + [BroadcastStop(app.targetTabId)]
  {
    if endedFirst {
      app.OnTrackEnded();
      var _ := app.StopRecording();
    } else {
      var _ := app.StopRecording();
      app.OnTrackEnded();
    }
  }
}
