/**
 * The legacy streamer (CaptureFramework/CaptureManager.cs): one class that captures a
 * frame on each camera update while streaming is enabled, keeps a drop-oldest queue
 * bounded by `maxQueueSize`, and sends untagged records from a network thread.
 *
 * As for the current sender, the pure functions are the specification and the class
 * holds the source's fields; the network thread is modelled one loop iteration at a time.
 */
module LegacyCapture {
  import opened Bytes
  import opened Codec
  import opened Subsequences
  import Network

  /** What `Update`'s loop leaves: frames dropped from the front while `Count >= maxQueueSize`. */
  function Evict(q: seq<LegacyFrame>, maxQueueSize: int): (r: seq<LegacyFrame>)
    requires maxQueueSize >= 1
    ensures |r| < maxQueueSize && |r| <= |q|
    ensures r == q[|q| - |r|..]
    ensures |q| < maxQueueSize ==> r == q
    ensures |q| >= maxQueueSize ==> |r| == maxQueueSize - 1
  {
    if |q| < maxQueueSize then q else q[|q| - (maxQueueSize - 1)..]
  }

  /**
   * The eviction loop of `Update` run on a copy of the queue: `Dequeue` while
   * `Count >= maxQueueSize`; with a bound below 1 the queue runs dry and the next
   * `Dequeue` throws (`thrown`).
   */
  method DropOldest(q: seq<LegacyFrame>, maxQueueSize: int) returns (kept: seq<LegacyFrame>, thrown: bool)
    ensures maxQueueSize >= 1 ==> !thrown && kept == Evict(q, maxQueueSize)
    ensures maxQueueSize < 1 ==> thrown && kept == []
  {
    kept := q;
    while |kept| >= maxQueueSize
      invariant |kept| <= |q| && kept == q[|q| - |kept|..]
      invariant |kept| < |q| ==> |kept| >= maxQueueSize - 1
      decreases |kept|
    {
      if kept == [] {
        return kept, true;
      }
      kept := kept[1..];
    }
    thrown := false;
  }

  /** Evict, then enqueue: the new frame is last. */
  function Offer(q: seq<LegacyFrame>, frame: LegacyFrame, maxQueueSize: int): (r: seq<LegacyFrame>)
    requires maxQueueSize >= 1
    ensures 1 <= |r| <= maxQueueSize && r[|r| - 1] == frame
  {
    Evict(q, maxQueueSize) + [frame]
  }

  function OfferAll(q: seq<LegacyFrame>, frames: seq<LegacyFrame>, maxQueueSize: int): seq<LegacyFrame>
    requires maxQueueSize >= 1
    decreases |frames|
  {
    if frames == [] then q else OfferAll(Offer(q, frames[0], maxQueueSize), frames[1..], maxQueueSize)
  }

  function Min(a: int, b: int): int {
    if a < b then a else b
  }

  /**
   * On a queue nobody drains, offering frames keeps exactly the `maxQueueSize` most
   * recent of everything queued (all of them if fewer), in their original order.
   */
  lemma {:induction false} OfferAllKeepsNewest(q: seq<LegacyFrame>, frames: seq<LegacyFrame>, maxQueueSize: int)
    requires maxQueueSize >= 1 && |q| <= maxQueueSize
    ensures var all := q + frames;
            OfferAll(q, frames, maxQueueSize) == all[|all| - Min(|all|, maxQueueSize)..]
    decreases |frames|
  {
    if frames == [] {
      assert q + frames == q;
    } else {
      var q' := Offer(q, frames[0], maxQueueSize);
      var rest := frames[1..];
      OfferAllKeepsNewest(q', rest, maxQueueSize);
      var d := OfferIsSuffix(q, frames, maxQueueSize);
      SuffixOfSuffix(q + frames, q' + rest, d, Min(|q + frames|, maxQueueSize));
    }
  }

  /** After one offer, queue and remaining frames are a suffix of everything offered, from `d` on. */
  lemma OfferIsSuffix(q: seq<LegacyFrame>, frames: seq<LegacyFrame>, maxQueueSize: int) returns (d: nat)
    requires maxQueueSize >= 1 && |q| <= maxQueueSize && frames != []
    ensures d <= |q + frames|
    ensures Offer(q, frames[0], maxQueueSize) + frames[1..] == (q + frames)[d..]
    ensures Min(|q + frames| - d, maxQueueSize) == Min(|q + frames|, maxQueueSize)
  {
    var kept := Evict(q, maxQueueSize);
    d := |q| - |kept|;
    assert frames == [frames[0]] + frames[1..];
    assert (q + frames)[d..] == q[d..] + frames;
  }

  lemma SuffixOfSuffix(all: seq<LegacyFrame>, tail: seq<LegacyFrame>, d: nat, m: nat)
    requires d <= |all| && tail == all[d..] && m <= |tail|
    ensures tail[|tail| - m..] == all[|all| - m..]
  {
  }

  /**
   * The send rule for a frame taken from the queue (`taken`) with `remaining` frames left
   * behind it, grouped as C# groups `&&` before `||`.
   */
  predicate ShouldSend(isEnabled: bool, taken: bool, remaining: nat) {
    (isEnabled && taken) || (!isEnabled && taken && remaining > 0)
  }

  /**
   * A taken frame is sent while streaming is enabled; when disabled, only if frames
   * remain behind it, so the last queued frame is discarded.
   */
  lemma ShouldSendCases(s: Streamer, link: Network.Link)
    requires s.phase == Network.Streaming && s.isRunning && link.connected
    ensures s.frameQueue == [] ==> ConsumerStep(s, link).sent == s.sent
    ensures s.frameQueue != [] ==>
              (ConsumerStep(s, link).sent != s.sent
               <==> ShouldSend(s.isEnabled, true, |s.frameQueue| - 1) && link.acceptsWrite)
    ensures s.frameQueue != [] ==>
              (ShouldSend(s.isEnabled, true, |s.frameQueue| - 1) <==> s.isEnabled || |s.frameQueue| >= 2)
  {
  }

  /**
   * The streamer's state. `history`, `removed` and `sent` are bookkeeping: every frame
   * ever queued, how many have left the front (dropped or taken), and the frames whose
   * bytes were all written.
   */
  datatype Streamer = Streamer(
    frameQueue: seq<LegacyFrame>,
    maxQueueSize: int,
    isEnabled: bool,
    framesCaptured: int,
    isRunning: bool,
    phase: Network.LoopPhase,
    history: seq<LegacyFrame>,
    removed: nat,
    sent: seq<LegacyFrame>)

  /**
   * The queue is a window on the history: what has not left the front yet. It is bounded
   * when the bound is usable, and the frames sent are taken ones, in order.
   */
  ghost predicate Valid(s: Streamer) {
    && s.removed <= |s.history|
    && s.frameQueue == s.history[s.removed..]
    && (s.maxQueueSize >= 1 ==> |s.frameQueue| <= s.maxQueueSize)
    && IsSubsequence(s.sent, s.history[..s.removed])
  }

  /** With `maxQueueSize < 1` the loop empties the queue and `Dequeue` on the empty queue throws. */
  predicate UpdateThrows(s: Streamer, frameUpdated: bool) {
    frameUpdated && s.isEnabled && s.maxQueueSize < 1
  }

  /**
   * The locked block of `Update` (lines 103-116): drop from the front while the queue is
   * full, count the frame and enqueue it.
   */
  function AfterEnqueue(s: Streamer, frame: LegacyFrame): (t: Streamer)
    ensures t.isEnabled == s.isEnabled && t.isRunning == s.isRunning && t.phase == s.phase && t.sent == s.sent
    ensures t.removed + |t.frameQueue| == s.removed + |s.frameQueue| + (if s.maxQueueSize >= 1 then 1 else 0)
    ensures s.maxQueueSize >= 1 ==>
              && 1 <= |t.frameQueue| <= s.maxQueueSize
              && t.frameQueue[|t.frameQueue| - 1] == frame
              && |t.frameQueue| - 1 <= |s.frameQueue|
              && t.frameQueue[..|t.frameQueue| - 1] == s.frameQueue[|s.frameQueue| - (|t.frameQueue| - 1)..]
              && t.history == s.history + [frame] && t.framesCaptured == s.framesCaptured + 1
    ensures s.maxQueueSize < 1 ==>
              t.frameQueue == [] && t.history == s.history && t.framesCaptured == s.framesCaptured
  {
    if s.maxQueueSize < 1 then s.(frameQueue := [], removed := s.removed + |s.frameQueue|)
    else
      var kept := Evict(s.frameQueue, s.maxQueueSize);
      s.(frameQueue := kept + [frame],
         removed := s.removed + (|s.frameQueue| - |kept|),
         history := s.history + [frame],
         framesCaptured := s.framesCaptured + 1)
  }

  /** One `Update`: capture a frame if the camera updated and streaming is on, then the buttons. */
  function AfterUpdate(s: Streamer, frameUpdated: bool, frame: LegacyFrame, buttonOne: bool, buttonTwo: bool): (t: Streamer)
    ensures t.sent == s.sent && t.phase == s.phase && t.isRunning == s.isRunning
    ensures !(frameUpdated && s.isEnabled) ==> t.frameQueue == s.frameQueue && t.history == s.history
    ensures frameUpdated && s.isEnabled && s.maxQueueSize >= 1 ==>
              t.history == s.history + [frame] && t.frameQueue != [] && t.frameQueue[|t.frameQueue| - 1] == frame
    ensures UpdateThrows(s, frameUpdated) ==> t.frameQueue == [] && t.isEnabled
    ensures !UpdateThrows(s, frameUpdated) ==>
              && (buttonTwo ==> !t.isEnabled)
              && (buttonOne && !buttonTwo ==> t.isEnabled)
              && (buttonOne ==> t.framesCaptured == 0)
              && (!buttonOne && !buttonTwo ==> t.isEnabled == s.isEnabled)
  {
    var captured := if frameUpdated && s.isEnabled then AfterEnqueue(s, frame) else s;
    if UpdateThrows(s, frameUpdated) then captured
    else
      var one := if buttonOne then captured.(isEnabled := true, framesCaptured := 0) else captured;
      if buttonTwo then one.(isEnabled := false) else one
  }

  /** The coroutine `Start`: raise `isRunning` and start the network thread. */
  function AfterStart(s: Streamer): (t: Streamer)
    ensures t.isRunning && t.phase == Network.Connecting && t.frameQueue == s.frameQueue
  {
    s.(isRunning := true, phase := Network.Connecting)
  }

  /** `OnDestroy`: lower `isRunning`; the thread leaves at its next loop test. */
  function AfterDestroy(s: Streamer): (t: Streamer)
    ensures !t.isRunning && t.frameQueue == s.frameQueue && t.phase == s.phase
  {
    s.(isRunning := false)
  }

  /** One iteration of the legacy `NetworkLoop` over `link`. */
  function ConsumerStep(s: Streamer, link: Network.Link): (t: Streamer)
    ensures t.history == s.history && t.maxQueueSize == s.maxQueueSize && t.isRunning == s.isRunning
    ensures t.isEnabled == s.isEnabled && t.framesCaptured == s.framesCaptured
    ensures t.frameQueue == s.frameQueue || (s.frameQueue != [] && t.frameQueue == s.frameQueue[1..])
    ensures t.removed + |t.frameQueue| == s.removed + |s.frameQueue|
    ensures t.sent == s.sent || (s.frameQueue != [] && t.sent == s.sent + [s.frameQueue[0]])
    ensures t.sent != s.sent ==>
              s.isRunning && link.connected && link.acceptsWrite && (s.isEnabled || |s.frameQueue| >= 2)
    ensures s.phase == Network.Streaming && s.isRunning && link.connected ==>
              (s.frameQueue != [] && t.sent == s.sent + [s.frameQueue[0]]
               <==> s.frameQueue != [] && (s.isEnabled || |s.frameQueue| >= 2) && link.acceptsWrite)
  {
    match s.phase
    case Connecting =>
      if !s.isRunning then s.(phase := Network.Exited)
      else if link.connects then s.(phase := Network.Streaming)
      else s
    case Streaming =>
      if !(s.isRunning && link.connected) then s.(phase := Network.Connecting)
      else
        var taken := s.frameQueue != [];
        var rest := if taken then s.frameQueue[1..] else s.frameQueue;
        var t := s.(frameQueue := rest, removed := s.removed + (if taken then 1 else 0));
        if !ShouldSend(s.isEnabled, taken, |rest|) then t
        else if link.acceptsWrite then t.(sent := t.sent + [s.frameQueue[0]])
        else t.(phase := Network.Connecting)
    case _ => s
  }

  lemma AfterEnqueueKeepsValid(s: Streamer, frame: LegacyFrame)
    requires Valid(s)
    ensures Valid(AfterEnqueue(s, frame))
  {
    var t := AfterEnqueue(s, frame);
    if s.maxQueueSize < 1 {
      AdvanceWindow(s.history, s.removed, s.sent, |s.frameQueue|);
      assert t.removed == |s.history| && t.history == s.history && t.sent == s.sent;
    } else {
      var kept := Evict(s.frameQueue, s.maxQueueSize);
      EvictThenAppend(s.history, s.removed, s.sent, s.frameQueue, s.maxQueueSize, frame);
      assert t.frameQueue == kept + [frame] && t.removed == s.removed + (|s.frameQueue| - |kept|);
      assert t.history == s.history + [frame] && t.sent == s.sent;
    }
  }

  /** The window facts of `Valid` after evicting and appending `frame`, one step at a time. */
  lemma EvictThenAppend(history: seq<LegacyFrame>, removed: nat, sent: seq<LegacyFrame>,
                        queue: seq<LegacyFrame>, maxQueueSize: int, frame: LegacyFrame)
    requires maxQueueSize >= 1 && removed <= |history| && queue == history[removed..]
    requires IsSubsequence(sent, history[..removed])
    ensures var kept := Evict(queue, maxQueueSize);
            var r := removed + (|queue| - |kept|);
            && r <= |history + [frame]|
            && (history + [frame])[r..] == kept + [frame]
            && IsSubsequence(sent, (history + [frame])[..r])
  {
    var kept := Evict(queue, maxQueueSize);
    var r := removed + (|queue| - |kept|);
    var h := history + [frame];
    AdvanceWindow(history, removed, sent, |queue| - |kept|);
    assert history[r..] == kept;
    assert h[r..] == kept + [frame];
    assert h[..r] == history[..r];
  }

  /** Frames leaving the front of the queue keep the sent frames a subsequence of those gone. */
  lemma AdvanceWindow(history: seq<LegacyFrame>, removed: nat, sent: seq<LegacyFrame>, k: nat)
    requires removed + k <= |history|
    requires IsSubsequence(sent, history[..removed])
    ensures IsSubsequence(sent, history[..removed + k])
  {
    Extend(sent, history[..removed], history[removed..removed + k]);
    assert history[..removed] + history[removed..removed + k] == history[..removed + k];
  }

  lemma AfterUpdateKeepsValid(s: Streamer, frameUpdated: bool, frame: LegacyFrame, buttonOne: bool, buttonTwo: bool)
    requires Valid(s)
    ensures Valid(AfterUpdate(s, frameUpdated, frame, buttonOne, buttonTwo))
  {
    if frameUpdated && s.isEnabled {
      AfterEnqueueKeepsValid(s, frame);
    }
  }

  lemma ConsumerStepKeepsValid(s: Streamer, link: Network.Link)
    requires Valid(s)
    ensures Valid(ConsumerStep(s, link))
  {
    if s.phase == Network.Streaming && s.isRunning && link.connected && s.frameQueue != [] {
      var f := s.frameQueue[0];
      TakeFront(s.history, s.removed, s.sent, f);
      var t := ConsumerStep(s, link);
      assert t.removed == s.removed + 1 && t.frameQueue == s.history[s.removed + 1..];
      assert t.sent == s.sent || t.sent == s.sent + [f];
    }
  }

  /** Taking the front of the window keeps what was sent, and what is sent next, in order. */
  lemma TakeFront(history: seq<LegacyFrame>, removed: nat, sent: seq<LegacyFrame>, f: LegacyFrame)
    requires removed < |history| && f == history[removed]
    requires IsSubsequence(sent, history[..removed])
    ensures IsSubsequence(sent, history[..removed + 1]) && IsSubsequence(sent + [f], history[..removed + 1])
  {
    assert history[..removed + 1] == history[..removed] + [f];
    AppendRight(sent, history[..removed], f);
    AppendBoth(sent, history[..removed], f);
  }

  /**
   * A captured frame while enabled: the oldest frames are dropped as needed, the frame is
   * last, the queue stays within the bound and the capture count goes up by one.
   */
  lemma UpdateQueuesFrame(s: Streamer, frame: LegacyFrame)
    requires s.isEnabled && s.maxQueueSize >= 1
    ensures var t := AfterUpdate(s, true, frame, false, false);
            t.frameQueue == Evict(s.frameQueue, s.maxQueueSize) + [frame] &&
            |t.frameQueue| <= s.maxQueueSize &&
            t.framesCaptured == s.framesCaptured + 1
  {
  }

  /** Frames are queued only while streaming is enabled. */
  lemma UpdateIgnoresFramesWhenDisabled(s: Streamer, frameUpdated: bool, frame: LegacyFrame)
    requires !s.isEnabled
    ensures AfterUpdate(s, frameUpdated, frame, false, false) == s
  {
  }

  /** Button One enables streaming and restarts the count; Button Two disables it. */
  lemma ButtonsToggleStreaming(s: Streamer, frameUpdated: bool, frame: LegacyFrame)
    requires !UpdateThrows(s, frameUpdated)
    ensures var t := AfterUpdate(s, frameUpdated, frame, true, false); t.isEnabled && t.framesCaptured == 0
    ensures !AfterUpdate(s, frameUpdated, frame, false, true).isEnabled
    ensures !AfterUpdate(s, frameUpdated, frame, true, true).isEnabled
  {
  }

  /** The consumer takes the oldest frame, or nothing from an empty queue. */
  lemma ConsumerTakesOldest(s: Streamer, link: Network.Link)
    requires s.phase == Network.Streaming && s.isRunning && link.connected
    ensures s.frameQueue == [] ==> ConsumerStep(s, link) == s
    ensures s.frameQueue != [] ==> ConsumerStep(s, link).frameQueue == s.frameQueue[1..]
  {
  }

  /** A write error drops the frame and leaves the connection; the outer loop retries while running. */
  lemma SendErrorDropsFrame(s: Streamer, link: Network.Link)
    requires s.phase == Network.Streaming && s.isRunning && link.connected && !link.acceptsWrite
    requires s.isEnabled && s.frameQueue != []
    ensures var t := ConsumerStep(s, link);
            t.phase == Network.Connecting && t.frameQueue == s.frameQueue[1..] && t.sent == s.sent &&
            ConsumerStep(t, link).phase == (if link.connects then Network.Streaming else Network.Connecting)
  {
  }

  /** While streaming is disabled, the last queued frame is taken and never sent. */
  lemma DisabledDiscardsLastFrame(s: Streamer, link: Network.Link)
    requires s.phase == Network.Streaming && s.isRunning && link.connected
    requires !s.isEnabled && |s.frameQueue| == 1
    ensures ConsumerStep(s, link).frameQueue == [] && ConsumerStep(s, link).sent == s.sent
  {
  }

  /** `AfterEnqueue` in terms of what the eviction loop returned. */
  lemma EnqueueOutcome(s: Streamer, frame: LegacyFrame, kept: seq<LegacyFrame>, thrown: bool)
    requires s.maxQueueSize >= 1 ==> !thrown && kept == Evict(s.frameQueue, s.maxQueueSize)
    requires s.maxQueueSize < 1 ==> thrown && kept == []
    ensures var removed := s.removed + (|s.frameQueue| - |kept|);
            AfterEnqueue(s, frame) ==
              if thrown then s.(frameQueue := kept, removed := removed)
              else s.(frameQueue := kept + [frame], removed := removed,
                      history := s.history + [frame], framesCaptured := s.framesCaptured + 1)
  {
  }

  /** `Valid` carries over to an equal state. */
  lemma ValidAt(s: Streamer, t: Streamer)
    requires s == t && Valid(t)
    ensures Valid(s)
  {
  }

  /** The legacy streamer as the source holds it. */
  class CaptureManager {
    const maxQueueSize: int
    var frameQueue: seq<LegacyFrame>
    var isEnabled: bool
    var framesCaptured: int
    var isRunning: bool
    var phase: Network.LoopPhase
    ghost var history: seq<LegacyFrame>
    ghost var removed: nat
    ghost var sent: seq<LegacyFrame>

    ghost function State(): Streamer
      reads this
    {
      Streamer(frameQueue, maxQueueSize, isEnabled, framesCaptured, isRunning, phase, history, removed, sent)
    }

    /** `maxQueueSize` is an inspector setting; the field initialiser gives 1000. */
    constructor (maxQueueSize: int := 1000)
      ensures Valid(State()) && this.maxQueueSize == maxQueueSize
      ensures frameQueue == [] && !isEnabled && framesCaptured == 0 && !isRunning && phase == Network.NoThread
    {
      this.maxQueueSize := maxQueueSize;
      frameQueue := [];
      isEnabled, isRunning := false, false;
      framesCaptured := 0;
      phase := Network.NoThread;
      history, removed, sent := [], 0, [];
    }

    method Start()
      modifies this
      ensures State() == AfterStart(old(State()))
    {
      isRunning := true;
      phase := Network.Connecting;
    }

    method OnDestroy()
      modifies this
      ensures State() == AfterDestroy(old(State()))
    {
      isRunning := false;
    }

    /** The locked block; `thrown` reports the `InvalidOperationException` of `Dequeue` on an empty queue. */
    method EnqueueDroppingOldest(frame: LegacyFrame) returns (thrown: bool)
      requires Valid(State())
      modifies this
      ensures Valid(State()) && State() == AfterEnqueue(old(State()), frame)
      ensures thrown == (maxQueueSize < 1)
    {
      ghost var s0 := State();
      AfterEnqueueKeepsValid(s0, frame);
      var kept;
      kept, thrown := DropOldest(frameQueue, maxQueueSize);
      EnqueueOutcome(s0, frame, kept, thrown);
      removed := removed + (|frameQueue| - |kept|);
      frameQueue := kept;
      if !thrown {
        framesCaptured := framesCaptured + 1;
        frameQueue := frameQueue + [frame];
        history := history + [frame];
      }
      ValidAt(State(), AfterEnqueue(s0, frame));
    }

    method Update(frameUpdated: bool, frame: LegacyFrame, buttonOne: bool, buttonTwo: bool)
      returns (thrown: bool)
      requires Valid(State())
      modifies this
      ensures Valid(State())
      ensures State() == AfterUpdate(old(State()), frameUpdated, frame, buttonOne, buttonTwo)
      ensures thrown == UpdateThrows(old(State()), frameUpdated)
    {
      ghost var target := AfterUpdate(State(), frameUpdated, frame, buttonOne, buttonTwo);
      AfterUpdateKeepsValid(State(), frameUpdated, frame, buttonOne, buttonTwo);
      thrown := false;
      if frameUpdated && isEnabled {
        thrown := EnqueueDroppingOldest(frame);
      }
      if !thrown {
        if buttonOne {
          isEnabled := true;
          framesCaptured := 0;
        }
        if buttonTwo {
          isEnabled := false;
        }
      }
      ValidAt(State(), target);
    }

    /** One iteration of the network thread's loops over `link`. */
    method NetworkLoopStep(link: Network.Link)
      requires Valid(State())
      modifies this
      ensures Valid(State()) && State() == ConsumerStep(old(State()), link)
    {
      ghost var target := ConsumerStep(State(), link);
      ConsumerStepKeepsValid(State(), link);
      match phase {
        case Connecting =>
          if !isRunning {
            phase := Network.Exited;
          } else if link.connects {
            phase := Network.Streaming;
          }
        case Streaming =>
          if !(isRunning && link.connected) {
            phase := Network.Connecting;
          } else {
            var taken := frameQueue != [];
            var frame: LegacyFrame;
            if taken {
              frame := frameQueue[0];
              frameQueue := frameQueue[1..];
              removed := removed + 1;
            }
            if (isEnabled && taken) || (!isEnabled && taken && |frameQueue| > 0) {
              if link.acceptsWrite {
                sent := sent + [frame];
              } else {
                phase := Network.Connecting;
              }
            }
          }
        case _ =>
      }
      ValidAt(State(), target);
    }
  }
}
