/**
  The background relay of src/background/service-worker.ts: `handleMessage`
  forwards the recorder page's START and STOP broadcasts to the recorded tab,
  injects the content script when the tab does not answer, and stores the
  metadata the tab sends back.

  The browser is reached through a `TabEnv` of oracles: whether the k-th
  START_RECORDING send to the tab is delivered (k = 0 is the first, direct
  attempt; 1..20 are the retries after injection), the content-script file the
  manifest names, whether `executeScript` succeeds, what the tab replies to
  STOP_RECORDING, and whether the store write succeeds. Log output and the 50 ms
  waits are not modelled; the asynchronous work runs to completion inside the
  call.
*/
module ServiceWorker {
  import opened Wrappers
  import opened Artifact

  datatype Message =
    | BroadcastStart(targetTabId: Option<int>)
    | BroadcastStop(targetTabId: Option<int>)
    | OtherMessage

  datatype TabCommand = StartRecording | StopRecording

  /** One `chrome.tabs.sendMessage` to a tab. */
  datatype TabSend = TabSend(tabId: int, command: TabCommand)

  /** The tab's answer to STOP_RECORDING: none (`lastError` set), or a reply whose `data` may be missing. */
  datatype StopReply = SendFailed | Replied(data: Option<Payload>)

  /** What `sendResponse` is called with. */
  datatype Response = Response(success: bool, error: Option<string>)

  /** How a START broadcast ended (what the source logs). */
  datatype StartOutcome =
    | DirectDelivery
    | Handshake(attempts: nat)
    | NoContentScript
    | InjectionFailed
    | HandshakeTimeout

  datatype TabEnv = TabEnv(
    delivers: nat -> bool,
    scriptFile: Option<string>,
    injects: bool,
    stopReply: StopReply,
    saveOk: bool)

  const MAX_RETRIES: nat := 20

  /** `n` START_RECORDING sends to `tabId`. */
  function Starts(tabId: int, n: nat): (r: seq<TabSend>)
    ensures |r| == n && forall i :: 0 <= i < n ==> r[i] == TabSend(tabId, StartRecording)
  {
    seq(n, _ => TabSend(tabId, StartRecording))
  }

  /** The first non-empty manifest script name, if any (`scriptFile` is used only when truthy). */
  predicate HasScript(scriptFile: Option<string>) { scriptFile.Some? && scriptFile.value != "" }

  /** What is written under `latest-metadata` for a STOP reply: its `data` when present, else `[]`. */
  function StoredMetadata(reply: StopReply): (p: Payload)
    ensures reply.Replied? && reply.data.Some? ==> p == reply.data.value
    ensures !(reply.Replied? && reply.data.Some?) ==> p == SampleList([])
  {
    match reply
    case Replied(Some(data)) => data
    case _ => SampleList([])
  }

  /**
    The polling handshake after injection: up to `MAX_RETRIES` sends, stopping at the
    first one delivered. `attempts` is how many sends were made.
  */
  method RetryHandshake(delivers: nat -> bool) returns (delivered: bool, attempts: nat)
    ensures 1 <= attempts <= MAX_RETRIES
    ensures forall k: nat :: 1 <= k < attempts ==> !delivers(k)
    ensures delivered <==> delivers(attempts)
    ensures !delivered ==> attempts == MAX_RETRIES
  {
    var retries := MAX_RETRIES;
    attempts := 0;
    while retries > 0
      invariant 0 <= retries <= MAX_RETRIES
      invariant attempts == MAX_RETRIES - retries
      invariant forall k: nat :: 1 <= k <= attempts ==> !delivers(k)
    {
      attempts := attempts + 1;
      if delivers(attempts) {
        return true, attempts;
      }
      retries := retries - 1;
    }
    delivered := false;
  }

  /**
    What `startMetadata` does for `tabId` in `env`: the sends and injections it appends to
    `sent0`/`injections0`, and how it ends. The direct send always goes first; without a
    manifest script or after a failed injection nothing more is sent; otherwise the handshake
    retries until the first delivered send or the twentieth.
  */
  predicate StartEffect(tabId: int, env: TabEnv, outcome: StartOutcome,
                        sent0: seq<TabSend>, sent: seq<TabSend>, injections0: seq<int>, injections: seq<int>)
  {
    && (env.delivers(0) ==>
          outcome == DirectDelivery && sent == sent0 + Starts(tabId, 1) && injections == injections0)
    && (!env.delivers(0) && !HasScript(env.scriptFile) ==>
          outcome == NoContentScript && sent == sent0 + Starts(tabId, 1) && injections == injections0)
    && (!env.delivers(0) && HasScript(env.scriptFile) ==> injections == injections0 + [tabId])
    && (!env.delivers(0) && HasScript(env.scriptFile) && !env.injects ==>
          outcome == InjectionFailed && sent == sent0 + Starts(tabId, 1))
    && (!env.delivers(0) && HasScript(env.scriptFile) && env.injects ==>
          && (outcome.Handshake? || outcome == HandshakeTimeout)
          && (outcome.Handshake? ==>
                && 1 <= outcome.attempts <= MAX_RETRIES && env.delivers(outcome.attempts)
                && (forall k: nat :: 1 <= k < outcome.attempts ==> !env.delivers(k))
                && sent == sent0 + Starts(tabId, 1 + outcome.attempts))
          && (outcome == HandshakeTimeout ==>
                && (forall k: nat :: 1 <= k <= MAX_RETRIES ==> !env.delivers(k))
                && sent == sent0 + Starts(tabId, 1 + MAX_RETRIES)))
  }

  class Background {
    /** Every message sent to a tab, in order. */
    var sent: seq<TabSend>
    /** Every `executeScript` injection attempted, by tab. */
    var injections: seq<int>
    var store: Store
    /** Every `sendResponse` call, in order. */
    var responses: seq<Response>

    constructor (store: Store)
      ensures sent == [] && injections == [] && this.store == store && responses == []
    {
      sent := [];
      injections := [];
      this.store := store;
      responses := [];
    }

    /** `startMetadata`: a direct START, then injection and the polling handshake. */
    method StartMetadata(tabId: int, env: TabEnv) returns (outcome: StartOutcome)
      modifies this`sent, this`injections
      ensures StartEffect(tabId, env, outcome, old(sent), sent, old(injections), injections)
      ensures |sent| <= |old(sent)| + 1 + MAX_RETRIES
    {
      sent := sent + Starts(tabId, 1);
      if env.delivers(0) {
        return DirectDelivery;
      }
      if !HasScript(env.scriptFile) {
        return NoContentScript;
      }
      injections := injections + [tabId];
      if !env.injects {
        return InjectionFailed;
      }
      var delivered, attempts := RetryHandshake(env.delivers);
      sent := sent + Starts(tabId, attempts);
      assert Starts(tabId, 1) + Starts(tabId, attempts) == Starts(tabId, 1 + attempts);
      if delivered {
        outcome := Handshake(attempts);
      } else {
        outcome := HandshakeTimeout;
      }
    }

    /** The STOP relay: ask the tab, store what it answered (or `[]`), and report whether the
        store write succeeded. */
    method CollectMetadata(tabId: int, env: TabEnv)
      modifies this`sent, this`store, this`responses
      ensures sent == old(sent) + [TabSend(tabId, StopRecording)]
      ensures env.saveOk ==>
        && store == old(store)[LATEST_METADATA := MetadataValue(StoredMetadata(env.stopReply))]
        && responses == old(responses) + [Response(true, None)]
      ensures !env.saveOk ==> store == old(store) && responses == old(responses) + [Response(false, None)]
    {
      sent := sent + [TabSend(tabId, StopRecording)];
      var data := StoredMetadata(env.stopReply);
      if !env.saveOk {
        responses := responses + [Response(false, None)];
        return;
      }
      store := store[LATEST_METADATA := MetadataValue(data)];
      responses := responses + [Response(true, None)];
    }

    /** `handleMessage`; `keepOpen` is the listener's `return true`. */
    method HandleMessage(message: Message, env: TabEnv) returns (keepOpen: bool, outcome: Option<StartOutcome>)
      modifies this
      ensures message.BroadcastStart? && TabGiven(message.targetTabId) ==>
        && !keepOpen && outcome.Some? && store == old(store) && responses == old(responses)
        && StartEffect(message.targetTabId.value, env, outcome.value, old(sent), sent, old(injections), injections)
        && |sent| <= |old(sent)| + 1 + MAX_RETRIES
      ensures message.BroadcastStop? && TabGiven(message.targetTabId) ==>
        && keepOpen && outcome.None? && injections == old(injections)
        && sent == old(sent) + [TabSend(message.targetTabId.value, StopRecording)]
        && responses == old(responses) + [Response(env.saveOk, None)]
        && store == (if env.saveOk
                     then old(store)[LATEST_METADATA := MetadataValue(StoredMetadata(env.stopReply))]
                     else old(store))
      ensures message.BroadcastStop? && !TabGiven(message.targetTabId) ==>
        && !keepOpen && outcome.None?
        && sent == old(sent) && injections == old(injections) && store == old(store)
        && responses == old(responses) + [Response(false, Some("No targetTabId"))]
      ensures (message.OtherMessage? || (message.BroadcastStart? && !TabGiven(message.targetTabId))) ==>
        && !keepOpen && outcome.None?
        && sent == old(sent) && injections == old(injections) && store == old(store) && responses == old(responses)
    {
      keepOpen, outcome := false, None;
      match message
      case BroadcastStart(targetTabId) =>
        if TabGiven(targetTabId) {
          var o := StartMetadata(targetTabId.value, env);
          outcome := Some(o);
        }
      case BroadcastStop(targetTabId) =>
        if TabGiven(targetTabId) {
          CollectMetadata(targetTabId.value, env);
          keepOpen := true;
        } else {
          responses := responses + [Response(false, Some("No targetTabId"))];
        }
      case OtherMessage =>
    }
  }
}
