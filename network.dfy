/**
 * The current pipeline's sender (Core/NetworkManager.cs): an unbounded FIFO of frame
 * records, seeded with Begin on start and closed with End on stop, and a network
 * thread that connects, polls the queue and writes each record with `SendData`.
 *
 * The thread is modelled one loop iteration at a time over an abstract connection:
 * `StepAsWritten` is one pass of either loop as the source has it, and `Step` the same
 * pass with the inner loop's condition corrected to finish the drain. The pure functions below are the specification;
 * the class `NetworkManager` holds the source's fields and is proved against them.
 */
module Network {
  import opened Wrappers
  import opened Bytes
  import opened FrameRecords
  import Codec
  import opened Subsequences

  /** Where the network thread stands. */
  datatype LoopPhase =
    | NoThread    // no thread has been started yet
    | Connecting  // at the head of the outer loop: test the running flag, then connect
    | Streaming   // at the head of the inner loop on an open connection
    | Exited      // the thread has returned

  /** What the connection does during one step. */
  datatype Link = Link(
    connects: bool,      // `client.Connect` succeeds
    connected: bool,     // `client.Connected` holds at the inner loop's head
    acceptsWrite: bool)  // every `stream.Write` of this step succeeds

  const Healthy: Link := Link(true, true, true)

  /**
   * The sender's state. `enqueued`, `taken` and `delivered` are bookkeeping, not source
   * fields: every record enqueued since the last start, every record the thread has
   * dequeued, and every record whose bytes were all written to a connection.
   */
  datatype NetState = NetState(
    queue: seq<FrameData>,
    running: bool,
    processing: bool,
    phase: LoopPhase,
    enqueued: seq<FrameData>,
    taken: seq<FrameData>,
    delivered: seq<FrameData>)

  /** The field initialisers: empty queue, both flags false, no thread. */
  function Initial(): NetState {
    NetState([], false, false, NoThread, [], [], [])
  }

  /**
   * The FIFO invariant: the queue is what was enqueued minus what was taken, from the
   * front; and what was delivered was taken, in the order taken.
   */
  ghost predicate Fifo(s: NetState) {
    s.enqueued == s.taken + s.queue && IsSubsequence(s.delivered, s.taken)
  }

  /** `EnqueueFrameData`: append at the tail; there is no capacity check. */
  function Enqueue(s: NetState, f: FrameData): (t: NetState)
    ensures t.queue == s.queue + [f] && |t.queue| == |s.queue| + 1
    ensures t.running == s.running && t.processing == s.processing && t.phase == s.phase
    ensures t.taken == s.taken && t.delivered == s.delivered
  {
    s.(queue := s.queue + [f], enqueued := s.enqueued + [f])
  }

  /** `StartNetworkLoop`: clear the queue, seed Begin, raise the running flag, start a thread. */
  function Start(s: NetState, collection: Option<int32>): (t: NetState)
    ensures t.queue == [BeginFrame(collection)]
    ensures t.running && t.phase == Connecting && t.processing == s.processing
    ensures t.delivered == [] && Fifo(t)
  {
    var cleared := s.(queue := [], enqueued := [], taken := [], delivered := []);
    Enqueue(cleared, BeginFrame(collection)).(running := true, phase := Connecting)
  }

  /** `StopNetworkLoop`: append End, then lower the running flag. */
  function Stop(s: NetState): (t: NetState)
    ensures t.queue == s.queue + [EndFrame()] && !t.running
    ensures t.phase == s.phase && t.processing == s.processing && t.delivered == s.delivered
  {
    Enqueue(s, EndFrame()).(running := false)
  }

  /** The outer loop's head: leave when not running, otherwise try to connect. */
  function OuterIteration(s: NetState, link: Link): (t: NetState)
    requires s.phase == Connecting
    ensures t.(phase := s.phase) == s
    ensures t.phase == Exited <==> !s.running
    ensures t.phase == Streaming <==> s.running && link.connects
    ensures t.phase == Connecting <==> s.running && !link.connects
  {
    if !s.running then s.(phase := Exited)
    else if link.connects then s.(phase := Streaming)
    else s
  }

  /**
   * One pass of the inner loop's body: take the oldest record if there is one and send
   * it. A record whose write or encoding fails is dropped and the connection abandoned.
   */
  function InnerIteration(s: NetState, link: Link): (t: NetState)
    requires s.phase == Streaming
    ensures t.enqueued == s.enqueued && t.running == s.running
    ensures t.taken + t.queue == s.taken + s.queue
    ensures t.processing <==> s.queue != []
    ensures s.queue != [] ==> t.taken == s.taken + [s.queue[0]]
    ensures t.delivered == s.delivered || (s.queue != [] && t.delivered == s.delivered + [s.queue[0]])
    ensures s.queue != [] ==>
              (|t.delivered| == |s.delivered| + 1 <==> link.acceptsWrite && Codec.Encode(s.queue[0]).Success?)
    ensures t.phase == Streaming <==> s.queue == [] || |t.delivered| == |s.delivered| + 1
    ensures t.phase == Streaming || t.phase == Connecting
  {
    if s.queue == [] then s.(processing := false)
    else
      var f := s.queue[0];
      assert s.queue == [f] + s.queue[1..];
      var t := s.(queue := s.queue[1..], taken := s.taken + [f], processing := true);
      if link.acceptsWrite && Codec.Encode(f).Success? then t.(delivered := t.delivered + [f])
      else t.(phase := Connecting)
  }

  /** The inner loop's condition as written: `client.Connected && (isNetworkLoopRunning || isProcessing)`. */
  predicate KeepsStreamingAsWritten(s: NetState, link: Link) {
    link.connected && (s.running || s.processing)
  }

  /** The inner loop's condition with the drain completed: it also continues while records remain. */
  predicate KeepsStreaming(s: NetState, link: Link) {
    link.connected && (s.running || s.processing || s.queue != [])
  }

  /**
   * One iteration of `NetworkLoop` exactly as written; `NetworkManager` runs this one.
   * An iteration never enqueues and never touches the running flag; it moves at most the
   * oldest record from the queue to the taken records, and delivers at most that record.
   */
  function StepAsWritten(s: NetState, link: Link): (t: NetState)
    ensures t.enqueued == s.enqueued && t.running == s.running
    ensures t.taken + t.queue == s.taken + s.queue
    ensures |s.taken| <= |t.taken| <= |s.taken| + 1
    ensures t.delivered == s.delivered || (s.queue != [] && t.delivered == s.delivered + [s.queue[0]])
    ensures s.phase == Streaming && KeepsStreamingAsWritten(s, link) && s.queue != [] ==>
              (|t.delivered| == |s.delivered| + 1 <==> link.acceptsWrite && Codec.Encode(s.queue[0]).Success?)
    ensures s.phase == NoThread || s.phase == Exited ==> t == s
    ensures s.phase == Connecting ==> t.queue == s.queue
  {
    match s.phase
    case Connecting => OuterIteration(s, link)
    case Streaming =>
      if KeepsStreamingAsWritten(s, link) then InnerIteration(s, link) else s.(phase := Connecting)
    case _ => s
  }

  /**
   * One iteration of `NetworkLoop` with the corrected drain condition: the reference the
   * as-written loop is compared with, with the same guarantees per iteration.
   */
  function Step(s: NetState, link: Link): (t: NetState)
    ensures t.enqueued == s.enqueued && t.running == s.running
    ensures t.taken + t.queue == s.taken + s.queue
    ensures |s.taken| <= |t.taken| <= |s.taken| + 1
    ensures t.delivered == s.delivered || (s.queue != [] && t.delivered == s.delivered + [s.queue[0]])
    ensures s.phase == Streaming && KeepsStreaming(s, link) && s.queue != [] ==>
              (|t.delivered| == |s.delivered| + 1 <==> link.acceptsWrite && Codec.Encode(s.queue[0]).Success?)
    ensures s.phase == NoThread || s.phase == Exited ==> t == s
    ensures s.phase == Connecting ==> t.queue == s.queue
  {
    match s.phase
    case Connecting => OuterIteration(s, link)
    case Streaming =>
      if KeepsStreaming(s, link) then InnerIteration(s, link) else s.(phase := Connecting)
    case _ => s
  }

  /** `n` iterations over a connection that stays healthy. */
  function RunHealthy(s: NetState, n: nat): NetState
    decreases n
  {
    if n == 0 then s else RunHealthy(Step(s, Healthy), n - 1)
  }

  /** Enqueue and Stop keep the FIFO invariant. */
  lemma EnqueueKeepsFifo(s: NetState, f: FrameData)
    requires Fifo(s)
    ensures Fifo(Enqueue(s, f)) && Fifo(Stop(s))
  {
  }

  lemma InnerIterationKeepsFifo(s: NetState, link: Link)
    requires s.phase == Streaming && Fifo(s)
    ensures Fifo(InnerIteration(s, link))
  {
    if s.queue != [] {
      var f := s.queue[0];
      assert s.taken + s.queue == (s.taken + [f]) + s.queue[1..];
      AppendRight(s.delivered, s.taken, f);
      AppendBoth(s.delivered, s.taken, f);
    }
  }

  /** Every iteration, as written or corrected, keeps the FIFO invariant. */
  lemma StepKeepsFifo(s: NetState, link: Link)
    requires Fifo(s)
    ensures Fifo(Step(s, link)) && Fifo(StepAsWritten(s, link))
  {
    if s.phase == Streaming {
      InnerIterationKeepsFifo(s, link);
    }
  }

  /** Records reach the connection in the order they were enqueued, none twice. */
  lemma DeliveredInEnqueueOrder(s: NetState)
    requires Fifo(s)
    ensures IsSubsequence(s.delivered, s.enqueued)
  {
    Extend(s.delivered, s.taken, s.queue);
  }

  /**
   * An iteration of the loop as written that polls a non-empty queue takes exactly its
   * oldest record, and delivers it when the connection is writable and it encodes.
   */
  lemma StepTakesOldest(s: NetState, link: Link)
    requires s.phase == Streaming && KeepsStreamingAsWritten(s, link) && s.queue != []
    ensures StepAsWritten(s, link).queue == s.queue[1..]
    ensures StepAsWritten(s, link).taken == s.taken + [s.queue[0]]
    ensures StepAsWritten(s, link).processing
    ensures link.acceptsWrite && Codec.Encode(s.queue[0]).Success? ==>
              StepAsWritten(s, link).delivered == s.delivered + [s.queue[0]]
              && StepAsWritten(s, link).phase == Streaming
  {
  }

  /** An iteration of the loop as written that polls an empty queue takes nothing and clears `isProcessing`. */
  lemma StepOnEmptyQueue(s: NetState, link: Link)
    requires s.phase == Streaming && KeepsStreamingAsWritten(s, link) && s.queue == []
    ensures StepAsWritten(s, link) == s.(processing := false)
  {
  }

  /**
   * A failed send drops the record: it is neither re-queued nor delivered, and the
   * thread goes back to the outer loop.
   */
  lemma SendFailureDropsRecord(s: NetState, link: Link)
    requires s.phase == Streaming && KeepsStreamingAsWritten(s, link) && s.queue != []
    requires !link.acceptsWrite || Codec.Encode(s.queue[0]).Failure?
    ensures StepAsWritten(s, link).phase == Connecting
    ensures StepAsWritten(s, link).queue == s.queue[1..]
    ensures StepAsWritten(s, link).delivered == s.delivered
  {
  }

  /** Once stopped, the outer loop does not reconnect: the thread returns. */
  lemma NoReconnectAfterStop(s: NetState, link: Link)
    requires s.phase == Connecting && !s.running
    ensures Step(s, link).phase == Exited && StepAsWritten(s, link).phase == Exited
  {
  }

  /** The two conditions differ only after a stop that found `isProcessing` false with records left. */
  lemma StepDiffersOnlyOnLostDrain(s: NetState, link: Link)
    requires Step(s, link) != StepAsWritten(s, link)
    ensures s.phase == Streaming && link.connected
    ensures !s.running && !s.processing && s.queue != []
  {
  }

  /**
   * As written, the drain loses records: when the last poll found the queue empty,
   * the End record `StopNetworkLoop` appends is never sent, even on a healthy connection.
   */
  lemma EndLostAfterIdlePoll(s: NetState)
    requires s.phase == Streaming && s.running && s.queue == []
    ensures var idle := StepAsWritten(s, Healthy);
            var stopped := Stop(idle);
            var done := StepAsWritten(StepAsWritten(stopped, Healthy), Healthy);
            done.phase == Exited && done.queue == [EndFrame()] && done.delivered == s.delivered
  {
  }

  /**
   * With the corrected condition, a stop on a healthy connection delivers every
   * record still queued, in order, and then the thread returns.
   */
  lemma {:induction false} DrainDeliversAll(s: NetState)
    requires s.phase == Streaming && !s.running
    requires forall k :: 0 <= k < |s.queue| ==> Codec.Transmittable(s.queue[k])
    ensures RunHealthy(s, |s.queue| + 3).phase == Exited
    ensures RunHealthy(s, |s.queue| + 3).delivered == s.delivered + s.queue
    ensures RunHealthy(s, |s.queue| + 3).queue == []
    decreases |s.queue|
  {
    if s.queue == [] {
      var t := Step(s, Healthy);
      assert t.phase == Streaming ==> !t.processing;
      var u := Step(t, Healthy);
      assert u.phase == Connecting || u.phase == Exited;
      assert Step(u, Healthy).phase == Exited;
      assert RunHealthy(s, 3) == RunHealthy(t, 2);
      assert RunHealthy(t, 2) == RunHealthy(u, 1);
      assert RunHealthy(u, 1) == Step(u, Healthy);
    } else {
      assert Codec.Transmittable(s.queue[0]);
      var t := Step(s, Healthy);
      assert t.queue == s.queue[1..] && t.phase == Streaming;
      assert t.delivered == s.delivered + [s.queue[0]];
      assert forall k :: 0 <= k < |t.queue| ==> t.queue[k] == s.queue[k + 1];
      DrainDeliversAll(t);
      assert s.delivered + [s.queue[0]] + s.queue[1..] == s.delivered + s.queue;
    }
  }

  /** The corrected loop sends the End that the as-written loop loses. */
  lemma EndDeliveredAfterIdlePoll(s: NetState)
    requires s.phase == Streaming && s.running && s.queue == []
    ensures var stopped := Stop(Step(s, Healthy));
            RunHealthy(stopped, 4).phase == Exited &&
            RunHealthy(stopped, 4).delivered == s.delivered + [EndFrame()]
  {
    var stopped := Stop(Step(s, Healthy));
    assert stopped.queue == [EndFrame()];
    Codec.PipelineRecordsSurvive(None, [], []);
    DrainDeliversAll(stopped);
  }

  /** The FIFO invariant carries over to an equal state. */
  lemma FifoAt(s: NetState, t: NetState)
    requires s == t && Fifo(t)
    ensures Fifo(s)
  {
  }

  /** The sender as the source holds it. */
  class NetworkManager {
    /** Declared with 5000 and never read: the queue has no bound. */
    const maxSendQueueSize: int
    var serverAddress: string
    var port: int32
    var frameQueue: seq<FrameData>
    var isNetworkLoopRunning: bool
    var isProcessing: bool
    var phase: LoopPhase
    ghost var enqueued: seq<FrameData>
    ghost var taken: seq<FrameData>
    ghost var delivered: seq<FrameData>

    ghost function State(): NetState
      reads this
    {
      NetState(frameQueue, isNetworkLoopRunning, isProcessing, phase, enqueued, taken, delivered)
    }

    ghost predicate Valid()
      reads this
    {
      Fifo(State())
    }

    constructor ()
      ensures Valid() && State() == Initial() && maxSendQueueSize == 5000
    {
      maxSendQueueSize := 5000;
      serverAddress, port := "", 0;
      frameQueue := [];
      isNetworkLoopRunning, isProcessing := false, false;
      phase := NoThread;
      enqueued, taken, delivered := [], [], [];
    }

    method EnqueueFrameData(frameData: FrameData)
      requires Valid()
      modifies this
      ensures Valid() && State() == Enqueue(old(State()), frameData)
      ensures serverAddress == old(serverAddress) && port == old(port)
    {
      frameQueue := frameQueue + [frameData];
      enqueued := enqueued + [frameData];
    }

    /** `serverIP`, `serverPort` and the selected collection are read from the settings. */
    method StartNetworkLoop(serverIP: string, serverPort: int32, collection: Option<int32>)
      modifies this
      ensures Valid() && State() == Start(old(State()), collection)
      ensures serverAddress == serverIP && port == serverPort
    {
      serverAddress := serverIP;
      port := serverPort;
      frameQueue := [];
      enqueued, taken, delivered := [], [], [];
      EnqueueFrameData(BeginFrame(collection));
      isNetworkLoopRunning := true;
      phase := Connecting;
    }

    method StopNetworkLoop()
      requires Valid()
      modifies this
      ensures Valid() && State() == Stop(old(State()))
      ensures serverAddress == old(serverAddress) && port == old(port)
    {
      EnqueueFrameData(EndFrame());
      isNetworkLoopRunning := false;
    }

    /** The outer loop's head: return when stopped, otherwise connect. */
    method OuterLoopHead(link: Link)
      requires phase == Connecting
      modifies this
      ensures State() == OuterIteration(old(State()), link)
      ensures serverAddress == old(serverAddress) && port == old(port)
    {
      if !isNetworkLoopRunning {
        phase := Exited;
      } else if link.connects {
        phase := Streaming;
      }
    }

    /** One pass of the inner loop's body: poll the queue, send what was taken. */
    method InnerLoopPass(link: Link)
      requires phase == Streaming
      modifies this
      ensures State() == InnerIteration(old(State()), link)
      ensures serverAddress == old(serverAddress) && port == old(port)
    {
      if frameQueue != [] {
        var frameData := frameQueue[0];
        frameQueue := frameQueue[1..];
        taken := taken + [frameData];
        isProcessing := true;
        var bytes := Codec.Encode(frameData);
        if link.acceptsWrite && bytes.Success? {
          delivered := delivered + [frameData];
        } else {
          phase := Connecting;
        }
      } else {
        isProcessing := false;
      }
    }

    /** One iteration of the network thread's loops over `link`, as written. */
    method NetworkLoopStep(link: Link)
      requires Valid()
      modifies this
      ensures Valid() && State() == StepAsWritten(old(State()), link)
      ensures serverAddress == old(serverAddress) && port == old(port)
    {
      ghost var target := StepAsWritten(State(), link);
      StepKeepsFifo(State(), link);
      match phase {
        case Connecting =>
          OuterLoopHead(link);
        case Streaming =>
          if link.connected && (isNetworkLoopRunning || isProcessing) {
            InnerLoopPass(link);
          } else {
            phase := Connecting;
          }
        case _ =>
      }
      FifoAt(State(), target);
    }
  }
}
