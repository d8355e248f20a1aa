/**
  Pointer sampling inside the recorded page: `MetadataRecorder` and the message
  listener of src/content/content-script.ts.

  DOM events and animation frames arrive as method calls; `Date.now()` is the
  `now` parameter; `requestAnimationFrame` hands out the frame id it is given.
*/
module ContentScript {
  import opened Wrappers

  datatype Kind = Move | Click

  /** The fields read from a DOM `MouseEvent`. */
  datatype MouseEvent = MouseEvent(clientX: int, clientY: int, screenX: int, screenY: int)

  /** `MouseEventData`: one recorded sample, `timestamp` in milliseconds since `start`. */
  datatype EventData = EventData(x: int, y: int, screenX: int, screenY: int, timestamp: int, kind: Kind)

  /** The sample a handler records for `e` at clock reading `now`. */
  function SampleOf(e: MouseEvent, now: int, startTime: int, kind: Kind): EventData {
    EventData(e.clientX, e.clientY, e.screenX, e.screenY, now - startTime, kind)
  }

  class MetadataRecorder {
    var events: seq<EventData>
    var isRecording: bool
    var startTime: int
    /** The id of the pending animation frame, if any. */
    var rafId: Option<nat>
    /** The latest move not yet flushed ("latest wins"). */
    var lastMouseEvent: Option<MouseEvent>

    /** Frame ids are positive; a pending flush always has a move to record; a disarmed recorder has
        neither a pending flush nor a buffered move. */
    ghost predicate Valid()
      reads this
    {
      && (rafId.Some? ==> rafId.value > 0 && lastMouseEvent.Some?)
      && (!isRecording ==> rafId.None? && lastMouseEvent.None?)
    }

    constructor ()
      ensures Valid()
      ensures events == [] && !isRecording && startTime == 0 && rafId == None && lastMouseEvent == None
    {
      events := [];
      isRecording := false;
      startTime := 0;
      rafId := None;
      lastMouseEvent := None;
    }

    /** `start`: arm, empty the buffer, and take the clock. */
    method Start(now: int)
      requires Valid()
      modifies this
      ensures Valid()
      ensures isRecording && events == [] && startTime == now
      ensures rafId == old(rafId) && lastMouseEvent == old(lastMouseEvent)
    {
      isRecording := true;
      events := [];
      startTime := now;
    }

    /** `stop`: disarm, cancel the pending frame, drop the buffered move, and hand back what was
        collected. The collected samples stay in `events` until the next `start`. */
    method Stop() returns (collected: seq<EventData>, cancelledFrame: Option<nat>)
      requires Valid()
      modifies this
      ensures Valid()
      ensures !isRecording && rafId == None && lastMouseEvent == None
      ensures events == old(events) && collected == events && startTime == old(startTime)
      ensures cancelledFrame == old(rafId)
    {
      isRecording := false;
      cancelledFrame := None;
      if rafId.Some? {
        cancelledFrame := rafId;
        rafId := None;
      }
      lastMouseEvent := None;
      collected := events;
    }

    /** `handleMouseMove`: while armed, keep the latest move and ask for a frame only when none is
        pending. `frameId` is the id `requestAnimationFrame` would return. */
    method HandleMouseMove(e: MouseEvent, frameId: nat) returns (requested: bool)
      requires Valid() && frameId > 0
      modifies this
      ensures Valid()
      ensures events == old(events) && isRecording == old(isRecording) && startTime == old(startTime)
      ensures !old(isRecording) ==> !requested && rafId == old(rafId) && lastMouseEvent == old(lastMouseEvent)
      ensures old(isRecording) ==>
        && lastMouseEvent == Some(e)
        && requested == old(rafId).None?
        && rafId == (if requested then Some(frameId) else old(rafId))
    {
      requested := false;
      if !isRecording {
        return;
      }
      lastMouseEvent := Some(e);
      if rafId.None? {
        rafId := Some(frameId);
        requested := true;
      }
    }

    /** `processMouseMove`, the frame callback: record one move from the buffered event when armed,
        and in every case clear the pending frame. */
    method ProcessMouseMove(now: int)
      requires Valid()
      modifies this
      ensures Valid()
      ensures rafId == None
      ensures isRecording == old(isRecording) && startTime == old(startTime) && lastMouseEvent == old(lastMouseEvent)
      ensures events == if old(isRecording) && old(lastMouseEvent).Some?
                        then old(events) + [SampleOf(old(lastMouseEvent).value, now, startTime, Move)]
                        else old(events)
    {
      if lastMouseEvent.None? || !isRecording {
        rafId := None;
        return;
      }
      var e := lastMouseEvent.value;
      var relativeTime := now - startTime;
      events := events + [EventData(e.clientX, e.clientY, e.screenX, e.screenY, relativeTime, Move)];
      rafId := None;
    }

    /** `handleClick`: while armed, record the click at once. */
    method HandleClick(e: MouseEvent, now: int)
      requires Valid()
      modifies this
      ensures Valid()
      ensures isRecording == old(isRecording) && startTime == old(startTime)
      ensures rafId == old(rafId) && lastMouseEvent == old(lastMouseEvent)
      ensures events == if isRecording then old(events) + [SampleOf(e, now, startTime, Click)] else old(events)
    {
      if !isRecording {
        return;
      }
      var relativeTime := now - startTime;
      events := events + [EventData(e.clientX, e.clientY, e.screenX, e.screenY, relativeTime, Click)];
    }

    method GetEvents() returns (r: seq<EventData>)
      ensures r == events
    {
      r := events;
    }
  }

  /** A sequence of moves between two frames leaves one flush pending and records one sample: the
      last move's. */
  method CoalescedMoves(recorder: MetadataRecorder, first: MouseEvent, second: MouseEvent, now: int)
    requires recorder.Valid() && recorder.isRecording && recorder.rafId == None
    modifies recorder
    ensures recorder.events == old(recorder.events) + [SampleOf(second, now, recorder.startTime, Move)]
  {
    var requested := recorder.HandleMouseMove(first, 1);
    assert requested;
    requested := recorder.HandleMouseMove(second, 2);
    assert !requested && recorder.rafId == Some(1);
    recorder.ProcessMouseMove(now);
  }

  // ---------------------------------------------------------------------------
  // The message listener
  // ---------------------------------------------------------------------------

  datatype Message = GetDimensions | StartRecording | StopRecording | OtherMessage

  /** The window properties the listener reads. */
  datatype WindowInfo = WindowInfo(
    innerWidth: int, innerHeight: int, outerWidth: int, outerHeight: int,
    screenWidth: int, screenHeight: int, screenX: int, screenY: int, devicePixelRatio: real)

  /** The geometry sent back with the samples. */
  datatype ViewportInfo = ViewportInfo(
    width: int, height: int, outerWidth: int, outerHeight: int,
    screenWidth: int, screenHeight: int, windowX: int, windowY: int, dpr: real)

  /** `data` of the STOP_RECORDING reply. */
  datatype CaptureData = CaptureData(events: seq<EventData>, viewport: ViewportInfo)

  datatype Response =
    | Dimensions(width: int, height: int, dpr: real)
    | Started
    | Stopped(data: CaptureData)

  function ViewportOf(w: WindowInfo): ViewportInfo {
    ViewportInfo(w.innerWidth, w.innerHeight, w.outerWidth, w.outerHeight,
                 w.screenWidth, w.screenHeight, w.screenX, w.screenY, w.devicePixelRatio)
  }

  /** The `chrome.runtime.onMessage` listener. `keepOpen` is its `return true` (STOP answers
      asynchronously); the answer itself is delivered here in the same step. */
  method OnMessage(recorder: MetadataRecorder, message: Message, now: int, window: WindowInfo)
    returns (response: Option<Response>, keepOpen: bool)
    requires recorder.Valid()
    modifies recorder
    ensures recorder.Valid()
    ensures message == GetDimensions ==>
      && response == Some(Dimensions(window.innerWidth, window.innerHeight, window.devicePixelRatio))
      && !keepOpen && unchanged(recorder)
    ensures message == StartRecording ==>
      && response == Some(Started) && !keepOpen
      && recorder.isRecording && recorder.events == [] && recorder.startTime == now
      && recorder.rafId == old(recorder.rafId) && recorder.lastMouseEvent == old(recorder.lastMouseEvent)
    ensures message == StopRecording ==>
      && response == Some(Stopped(CaptureData(old(recorder.events), ViewportOf(window)))) && keepOpen
      && !recorder.isRecording && recorder.events == old(recorder.events)
      && recorder.rafId == None && recorder.lastMouseEvent == None
      && recorder.startTime == old(recorder.startTime)
    ensures message == OtherMessage ==> response == None && !keepOpen && unchanged(recorder)
  {
    response, keepOpen := None, false;
    match message
    case GetDimensions =>
      response := Some(Dimensions(window.innerWidth, window.innerHeight, window.devicePixelRatio));
    case StartRecording =>
      recorder.Start(now);
      response := Some(Started);
    case StopRecording =>
      var events, _ := recorder.Stop();
      var viewport := ViewportOf(window);
      response := Some(Stopped(CaptureData(events, viewport)));
      keepOpen := true;
    case OtherMessage =>
  }
}
