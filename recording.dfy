/**
 * The recording session (Core/CaptureManager.cs): start seeds Begin through the sender,
 * each camera update while recording adds one Data record for the next frame id, and
 * stop appends End and raises `OnRecordingStopped`.
 *
 * Time is an input: `stopRequested` stands for "button Two is held, or more than
 * `maxRecordingTime` seconds have passed since the start".
 */
module Recording {
  import opened Wrappers
  import opened Bytes
  import opened FrameRecords
  import opened Network

  /** What the frame provider hands back for a frame id: the JPEG image and the telemetry JSON's bytes. */
  datatype Capture = Capture(image: Blob, telemetry: Blob)

  /** The frame provider, queried with a frame id (its sensor readings are folded in). */
  type Provider = int -> Capture

  /** The Data record `GetFrameData(frameId)` builds from what the provider captured. */
  function CaptureFrame(c: Capture): (f: FrameData)
    ensures f.messageType == DataType && f.imageData == Some(c.image) && f.trackingJson == Some(c.telemetry)
  {
    DataFrame(c.image, c.telemetry)
  }

  /** The recorder's fields, with `stopEvents` counting `OnRecordingStopped` deliveries, and the sender's state. */
  datatype Recorder = Recorder(
    isRecording: bool,
    frameCount: int,
    maxRecordingTime: real,
    stopEvents: nat,
    net: NetState)

  function AfterStart(r: Recorder, maxRecordingTime: real, collection: Option<int32>): (t: Recorder)
    ensures t.isRecording && t.frameCount == 0 && t.maxRecordingTime == maxRecordingTime
    ensures t.net.queue == [BeginFrame(collection)] && t.net.running && Fifo(t.net)
    ensures t.stopEvents == r.stopEvents
  {
    r.(isRecording := true, frameCount := 0, maxRecordingTime := maxRecordingTime,
       net := Network.Start(r.net, collection))
  }

  /** Without a subscriber `OnRecordingStopped.Invoke()` throws, after the stop has taken effect. */
  function AfterStop(r: Recorder, hasSubscriber: bool): (t: Recorder)
    ensures !t.isRecording && !t.net.running
    ensures t.net.queue == r.net.queue + [EndFrame()]
    ensures t.stopEvents == r.stopEvents + (if hasSubscriber then 1 else 0)
    ensures t.frameCount == r.frameCount
  {
    r.(isRecording := false, net := Network.Stop(r.net),
       stopEvents := if hasSubscriber then r.stopEvents + 1 else r.stopEvents)
  }

  /** One `Update`: a fresh camera frame is queued under the current id, then the stop test runs. */
  function AfterUpdate(r: Recorder, frameReady: bool, provider: Provider, stopRequested: bool, hasSubscriber: bool): (t: Recorder)
    ensures !r.isRecording ==> t == r
    ensures r.isRecording ==>
              && t.isRecording == !stopRequested
              && t.frameCount == r.frameCount + (if frameReady then 1 else 0)
              && t.net.running == (r.net.running && !stopRequested)
              && t.stopEvents == r.stopEvents + (if stopRequested && hasSubscriber then 1 else 0)
    ensures r.net.queue <= t.net.queue && |t.net.queue| <= |r.net.queue| + 2
    ensures t.net.delivered == r.net.delivered && t.net.phase == r.net.phase
  {
    if !r.isRecording then r
    else
      var captured :=
        if frameReady then
          r.(frameCount := r.frameCount + 1,
             net := Network.Enqueue(r.net, CaptureFrame(provider(r.frameCount))))
        else r;
      if stopRequested then AfterStop(captured, hasSubscriber) else captured
  }

  /** `Update` does nothing while not recording. */
  lemma UpdateIdleWhenNotRecording(r: Recorder, frameReady: bool, provider: Provider, stopRequested: bool, hasSubscriber: bool)
    requires !r.isRecording
    ensures AfterUpdate(r, frameReady, provider, stopRequested, hasSubscriber) == r
  {
  }

  /** A camera frame while recording adds one Data record, for id `frameCount`, and advances the count. */
  lemma UpdateQueuesNextFrame(r: Recorder, provider: Provider, hasSubscriber: bool)
    requires r.isRecording
    ensures var t := AfterUpdate(r, true, provider, false, hasSubscriber);
            t.net.queue == r.net.queue + [CaptureFrame(provider(r.frameCount))] &&
            t.frameCount == r.frameCount + 1 && t.isRecording
  {
  }

  /** A stop request while recording closes the session with End after this update's frame, if any. */
  lemma UpdateStopsOnRequest(r: Recorder, frameReady: bool, provider: Provider, hasSubscriber: bool)
    requires r.isRecording
    ensures var t := AfterUpdate(r, frameReady, provider, true, hasSubscriber);
            !t.isRecording && !t.net.running &&
            t.net.queue == r.net.queue + (if frameReady then [CaptureFrame(provider(r.frameCount))] else []) + [EndFrame()]
  {
  }

  /** `StopRecording` has no guard: a second call appends a second End and raises the event again. */
  lemma StopTwiceAppendsTwoEnds(r: Recorder)
    ensures var t := AfterStop(AfterStop(r, true), true);
            t.net.queue == r.net.queue + [EndFrame(), EndFrame()] && t.stopEvents == r.stopEvents + 2
  {
  }

  /** Camera updates, one per provider, each with a fresh frame and no stop request. */
  function AfterUpdates(r: Recorder, providers: seq<Provider>): Recorder
    decreases |providers|
  {
    if providers == [] then r
    else AfterUpdates(AfterUpdate(r, true, providers[0], false, false), providers[1..])
  }

  /** The Data records for consecutive ids starting at `firstId`, one per provider. */
  function DataFrames(providers: seq<Provider>, firstId: int): (fs: seq<FrameData>)
    ensures |fs| == |providers|
    decreases |providers|
  {
    if providers == [] then []
    else [CaptureFrame(providers[0](firstId))] + DataFrames(providers[1..], firstId + 1)
  }

  /** The k-th Data record carries what the k-th provider captured for id `firstId + k`: no gaps. */
  lemma {:induction false} DataFramesAt(providers: seq<Provider>, firstId: int, k: nat)
    requires k < |providers|
    ensures DataFrames(providers, firstId)[k] == CaptureFrame(providers[k](firstId + k))
    decreases |providers|
  {
    if k > 0 {
      DataFramesAt(providers[1..], firstId + 1, k - 1);
    }
  }

  lemma {:induction false} UpdatesAppendData(r: Recorder, providers: seq<Provider>)
    requires r.isRecording
    ensures AfterUpdates(r, providers).isRecording
    ensures AfterUpdates(r, providers).frameCount == r.frameCount + |providers|
    ensures AfterUpdates(r, providers).net.queue == r.net.queue + DataFrames(providers, r.frameCount)
    ensures AfterUpdates(r, providers).net.running == r.net.running
    decreases |providers|
  {
    if providers != [] {
      var next := AfterUpdate(r, true, providers[0], false, false);
      UpdatesAppendData(next, providers[1..]);
      assert r.net.queue + [CaptureFrame(providers[0](r.frameCount))] + DataFrames(providers[1..], r.frameCount + 1)
          == r.net.queue + DataFrames(providers, r.frameCount);
    }
  }

  /**
   * Ignoring the network thread, a session of start, k camera frames and stop leaves
   * the queue as Begin, the Data records for ids 0 to k-1, End.
   */
  lemma SessionIsBracketed(r: Recorder, maxRecordingTime: real, collection: Option<int32>,
                           providers: seq<Provider>, hasSubscriber: bool)
    ensures var t := AfterStop(AfterUpdates(AfterStart(r, maxRecordingTime, collection), providers), hasSubscriber);
            t.net.queue == [BeginFrame(collection)] + DataFrames(providers, 0) + [EndFrame()] &&
            !t.isRecording && t.frameCount == |providers|
  {
    UpdatesAppendData(AfterStart(r, maxRecordingTime, collection), providers);
  }

  /** The recorder as the source holds it, driving its `NetworkManager`. */
  class CaptureManager {
    const networkManager: NetworkManager
    var isRecording: bool
    var maxRecordingTime: real
    var frameCount: int
    /** How many times `OnRecordingStopped` reached a subscriber. */
    var stopEvents: nat

    ghost function State(): Recorder
      reads this, networkManager
    {
      Recorder(isRecording, frameCount, maxRecordingTime, stopEvents, networkManager.State())
    }

    ghost predicate Valid()
      reads this, networkManager
    {
      networkManager.Valid()
    }

    constructor (networkManager: NetworkManager)
      requires networkManager.Valid()
      ensures Valid() && this.networkManager == networkManager
      ensures !isRecording && frameCount == 0 && maxRecordingTime == 30.0 && stopEvents == 0
    {
      this.networkManager := networkManager;
      isRecording := false;
      maxRecordingTime := 30.0;
      frameCount := 0;
      stopEvents := 0;
    }

    method StartRecording(serverIP: string, serverPort: int32, collection: Option<int32>,
                          maxRecordingTime: real := 30.0)
      requires Valid()
      modifies this, networkManager
      ensures Valid() && State() == AfterStart(old(State()), maxRecordingTime, collection)
    {
      isRecording := true;
      frameCount := 0;
      this.maxRecordingTime := maxRecordingTime;
      networkManager.StartNetworkLoop(serverIP, serverPort, collection);
    }

    /** `thrown` reports the exception `Invoke` raises when nobody subscribed. */
    method StopRecording(hasSubscriber: bool) returns (thrown: bool)
      requires Valid()
      modifies this, networkManager
      ensures Valid() && State() == AfterStop(old(State()), hasSubscriber)
      ensures thrown == !hasSubscriber
    {
      isRecording := false;
      networkManager.StopNetworkLoop();
      if hasSubscriber {
        stopEvents := stopEvents + 1;
      }
      thrown := !hasSubscriber;
    }

    method Update(frameReady: bool, provider: Provider, stopRequested: bool, hasSubscriber: bool)
      returns (thrown: bool)
      requires Valid()
      modifies this, networkManager
      ensures Valid() && State() == AfterUpdate(old(State()), frameReady, provider, stopRequested, hasSubscriber)
      ensures thrown == (old(isRecording) && stopRequested && !hasSubscriber)
    {
      thrown := false;
      if isRecording {
        if frameReady {
          var frameData := CaptureFrame(provider(frameCount));
          frameCount := frameCount + 1;
          networkManager.EnqueueFrameData(frameData);
        }
        if stopRequested {
          thrown := StopRecording(hasSubscriber);
        }
      }
    }
  }
}
