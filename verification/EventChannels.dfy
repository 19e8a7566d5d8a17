/**
 * The bounded event channel (defense/core/ledger.ts, BoundedEventChannel): a queue and a window of unacknowledged
 * events, frames sent on a timer or when one fills, loss that is counted and never silent. The transport is the list of
 * frames sent so far; timers are the steps TimerFires and DrainTimeout.
 */
module EventChannels {
  import opened Base

  datatype Stamped<E> = Stamped(seqNo: nat, event: E)

  datatype Frame<E> = Frame(events: seq<Stamped<E>>, dropped: nat)

  datatype Channel<E> = Channel(
    queueCap: nat, windowCap: nat, frameCap: nat,
    queue: seq<Stamped<E>>, timer: bool, waiters: set<nat>, resolved: map<nat, bool>,
    nextSeq: nat, emitted: nat, dropped: nat, sent: nat, received: nat, highWater: nat, frames: seq<Frame<E>>,
    log: seq<Stamped<E>>, lost: set<nat>)
  {
    predicate Drained() { queue == [] && sent == received }
    function Unacknowledged(): int { sent - received }
  }

  function Opened<E>(queueCap: nat, windowCap: nat, frameCap: nat): Channel<E>
  {
    Channel(queueCap, windowCap, frameCap, [], false, {}, map[], 1, 0, 0, 0, 0, 0, [], [], {})
  }

  // ------------------------------------------------------------------ flushing

  /** The events one frame takes: as many as the frame, the window and the queue allow. */
  function FrameSize<E>(c: Channel<E>): nat
    requires c.sent - c.received < c.windowCap
  {
    Min(Min(c.frameCap, c.windowCap - (c.sent - c.received)), |c.queue|)
  }

  function SendFrame<E>(c: Channel<E>): Channel<E>
    requires c.sent - c.received < c.windowCap
  {
    var n := FrameSize(c);
    c.(queue := c.queue[n..], sent := c.sent + n, frames := c.frames + [Frame(c.queue[..n], c.dropped)])
  }

  predicate CanSend<E>(c: Channel<E>) { c.queue != [] && c.sent - c.received < c.windowCap }

  function SendFrames<E>(c: Channel<E>): Channel<E>
    requires c.frameCap >= 1
    decreases |c.queue|
  {
    if CanSend(c) then SendFrames(SendFrame(c)) else c
  }

  function Flushed<E>(c: Channel<E>): Channel<E>
    requires c.frameCap >= 1
  {
    var n := SendFrames(c.(timer := false));
    if n.queue != [] then n.(timer := true) else n
  }

  /** Everyone waiting learns that all is acknowledged. */
  function Woken<E>(c: Channel<E>): Channel<E>
  {
    if c.Drained() then c.(waiters := {}, resolved := c.resolved + map id | id in c.waiters :: true) else c
  }

  // ------------------------------------------------------------------ the operations

  /** The event's number is consumed whatever becomes of it. */
  function Logged<E>(c: Channel<E>, event: E): Channel<E>
  {
    c.(nextSeq := c.nextSeq + 1, emitted := c.emitted + 1, log := c.log + [Stamped(c.nextSeq, event)])
  }

  function Lost<E>(c: Channel<E>, event: E): Channel<E>
  {
    Logged(c, event).(dropped := c.dropped + 1, lost := c.lost + {c.nextSeq})
  }

  function Pushed<E>(c: Channel<E>, event: E): Channel<E>
  {
    Logged(c, event).(queue := c.queue + [Stamped(c.nextSeq, event)], highWater := Max(c.highWater, |c.queue| + 1))
  }

  function Emitted<E>(c: Channel<E>, event: E): Channel<E>
    requires c.frameCap >= 1
  {
    if |c.queue| >= c.queueCap then Lost(c, event)
    else if |c.queue| + 1 >= c.frameCap then Flushed(Pushed(c, event))
    else Pushed(c, event).(timer := true)
  }

  /** A cumulative total that is new and not beyond what was sent. */
  predicate Credible<E>(c: Channel<E>, total: Option<int>)
  {
    total.Some? && total.value <= MAX_SAFE && c.received < total.value <= c.sent
  }

  /** `total` is absent for a number that is not an integer. */
  function Acknowledged<E>(c: Channel<E>, total: Option<int>): Channel<E>
    requires c.frameCap >= 1
  {
    Woken(Flushed(if Credible(c, total) then c.(received := total.value) else c))
  }

  function DrainCalled<E>(c: Channel<E>, id: nat): Channel<E>
    requires c.frameCap >= 1
  {
    var n := Flushed(c);
    if n.Drained() then n.(resolved := n.resolved[id := true]) else n.(waiters := n.waiters + {id})
  }

  function DrainTimedOut<E>(c: Channel<E>, id: nat): Channel<E>
  {
    c.(waiters := c.waiters - {id}, resolved := c.resolved[id := false])
  }

  datatype Step<E> = Emit(event: E) | Acknowledge(total: Option<int>) | Flush | TimerFires | Drain(id: nat)
    | DrainTimeout(id: nat)

  predicate Enabled<E>(c: Channel<E>, s: Step<E>)
  {
    match s
    case TimerFires => c.timer
    case Drain(id) => id !in c.waiters && id !in c.resolved
    case DrainTimeout(id) => id in c.waiters
    case _ => true
  }

  function Next<E>(c: Channel<E>, s: Step<E>): Channel<E>
    requires c.frameCap >= 1
  {
    match s
    case Emit(event) => Emitted(c, event)
    case Acknowledge(total) => Acknowledged(c, total)
    case Flush => Flushed(c)
    case TimerFires => Flushed(c)
    case Drain(id) => DrainCalled(c, id)
    case DrainTimeout(id) => DrainTimedOut(c, id)
  }

  // ------------------------------------------------------------------ what the frames carry

  /** All frames, concatenated. */
  function Carried<E>(frames: seq<Frame<E>>): seq<Stamped<E>>
  {
    if frames == [] then [] else Carried(frames[..|frames| - 1]) + frames[|frames| - 1].events
  }

  /** The emitted events minus the dropped ones, in order. */
  function Kept<E>(log: seq<Stamped<E>>, lost: set<nat>): seq<Stamped<E>>
  {
    if log == [] then []
    else
      var n := |log| - 1;
      Kept(log[..n], lost) + (if log[n].seqNo in lost then [] else [log[n]])
  }

  /** Sequence numbers are consecutive from one, in emission order. */
  predicate Numbered<E>(log: seq<Stamped<E>>) { forall i :: 0 <= i < |log| ==> log[i].seqNo == i + 1 }

  predicate FrameFits<E>(f: Frame<E>, frameCap: nat, dropped: nat)
  {
    1 <= |f.events| <= frameCap && f.dropped <= dropped
  }

  predicate FramesFit<E>(frames: seq<Frame<E>>, frameCap: nat, dropped: nat)
  {
    forall i :: 0 <= i < |frames| ==> FrameFits(frames[i], frameCap, dropped)
  }

  ghost predicate Books<E>(c: Channel<E>)
  {
    && Carried(c.frames) + c.queue == Kept(c.log, c.lost)
    && |Carried(c.frames)| == c.sent && FramesFit(c.frames, c.frameCap, c.dropped)
  }

  ghost predicate Counters<E>(c: Channel<E>)
  {
    && Numbered(c.log) && |c.log| == c.emitted == c.nextSeq - 1
    && |c.lost| == c.dropped && (forall s :: s in c.lost ==> 1 <= s <= |c.log|)
    && c.emitted == c.dropped + c.sent + |c.queue|
  }

  predicate Bounds<E>(c: Channel<E>)
  {
    && c.queueCap >= 1 && c.windowCap >= 1 && c.frameCap >= 1
    && |c.queue| <= c.highWater <= c.queueCap && 0 <= c.Unacknowledged() <= c.windowCap
  }

  /** An event that waits has a timer that will flush it; nobody waits on a drained channel. */
  predicate Alive<E>(c: Channel<E>)
  {
    (c.queue != [] ==> c.timer) && (c.Drained() ==> c.waiters == {}) && c.waiters !! c.resolved.Keys
  }

  ghost predicate Inv<E>(c: Channel<E>) { Books(c) && Counters(c) && Bounds(c) && Alive(c) }

  // ------------------------------------------------------------------ every step keeps it

  lemma {:induction false} CarriedMore<E>(frames: seq<Frame<E>>, f: Frame<E>)
    ensures Carried(frames + [f]) == Carried(frames) + f.events
  {
    assert (frames + [f])[..|frames|] == frames;
  }

  lemma {:induction false} SendKeeps<E>(c: Channel<E>)
    requires Books(c) && Counters(c) && Bounds(c) && CanSend(c)
    ensures Books(SendFrame(c)) && Counters(SendFrame(c)) && Bounds(SendFrame(c)) && FrameSize(c) >= 1
  {
    var n := FrameSize(c);
    CarriedMore(c.frames, Frame(c.queue[..n], c.dropped));
    assert Carried(c.frames) + c.queue[..n] + c.queue[n..] == Carried(c.frames) + c.queue;
  }

  /** What flushing leaves alone. */
  ghost predicate SameSides<E>(a: Channel<E>, b: Channel<E>)
  {
    && a.queueCap == b.queueCap && a.windowCap == b.windowCap && a.frameCap == b.frameCap
    && a.waiters == b.waiters && a.resolved == b.resolved && a.received == b.received && a.log == b.log
      && a.lost == b.lost
    && a.emitted == b.emitted && a.dropped == b.dropped && a.nextSeq == b.nextSeq && a.highWater == b.highWater
    && (a.Drained() ==> b.Drained())
  }

  lemma {:induction false} SendsKeep<E>(c: Channel<E>)
    requires Books(c) && Counters(c) && Bounds(c)
    ensures var n := SendFrames(c); Books(n) && Counters(n) && Bounds(n) && SameSides(c, n) && !CanSend(n)
    decreases |c.queue|
  {
    if CanSend(c) {
      SendKeeps(c);
      SendsKeep(SendFrame(c));
    }
  }

  lemma {:induction false} FlushKeeps<E>(c: Channel<E>)
    requires Books(c) && Counters(c) && Bounds(c)
    ensures var n := Flushed(c);
            Books(n) && Counters(n) && Bounds(n) && SameSides(c, n) && (n.queue != [] ==> n.timer) && !CanSend(n)
  {
    SendsKeep(c.(timer := false));
  }

  lemma {:induction false} KeptIgnores<E>(log: seq<Stamped<E>>, lost: set<nat>, s: nat)
    requires forall i :: 0 <= i < |log| ==> log[i].seqNo != s
    ensures Kept(log, lost + {s}) == Kept(log, lost)
  {
    if log != [] {
      KeptIgnores(log[..|log| - 1], lost, s);
    }
  }

  lemma {:induction false} KeptMore<E>(log: seq<Stamped<E>>, lost: set<nat>, x: Stamped<E>)
    requires forall i :: 0 <= i < |log| ==> log[i].seqNo != x.seqNo
    ensures x.seqNo !in lost ==> Kept(log + [x], lost) == Kept(log, lost) + [x]
    ensures Kept(log + [x], lost + {x.seqNo}) == Kept(log, lost)
  {
    assert (log + [x])[..|log|] == log;
    KeptIgnores(log, lost, x.seqNo);
    assert Kept(log, lost) + [] == Kept(log, lost);
  }

  lemma {:induction false} LostKeeps<E>(c: Channel<E>, event: E)
    requires Inv(c)
    ensures Inv(Lost(c, event))
  {
    KeptMore(c.log, c.lost, Stamped(c.nextSeq, event));
  }

  lemma {:induction false} PushKeeps<E>(c: Channel<E>, event: E)
    requires Inv(c) && |c.queue| < c.queueCap
    ensures var q := Pushed(c, event); Books(q) && Counters(q) && Bounds(q) && q.queue != []
  {
    var x := Stamped(c.nextSeq, event);
    KeptMore(c.log, c.lost, x);
    assert Carried(c.frames) + (c.queue + [x]) == Carried(c.frames) + c.queue + [x];
  }

  lemma {:induction false} EmitKeeps<E>(c: Channel<E>, event: E)
    requires Inv(c)
    ensures Inv(Emitted(c, event))
  {
    if |c.queue| >= c.queueCap {
      LostKeeps(c, event);
    } else {
      PushKeeps(c, event);
      var q := Pushed(c, event);
      if |c.queue| + 1 >= c.frameCap {
        FlushKeeps(q);
        NotDrainedYet(q);
      }
    }
  }

  /** Sending is not acknowledging. */
  lemma {:induction false} NotDrainedYet<E>(c: Channel<E>)
    requires c.frameCap >= 1 && c.received <= c.sent && c.queue != []
    ensures !SendFrames(c.(timer := false)).Drained() && !Flushed(c).Drained()
  {
    SendsOnly(c.(timer := false));
  }

  lemma {:induction false} SendsOnly<E>(c: Channel<E>)
    requires c.frameCap >= 1
    ensures var n := SendFrames(c); n.received == c.received && n.sent + |n.queue| == c.sent + |c.queue|
    decreases |c.queue|
  {
    if CanSend(c) {
      SendsOnly(SendFrame(c));
    }
  }

  lemma {:induction false} AckKeeps<E>(c: Channel<E>, total: Option<int>)
    requires Inv(c)
    ensures Inv(Acknowledged(c, total))
  {
    FlushKeeps(if Credible(c, total) then c.(received := total.value) else c);
  }

  lemma {:induction false} DrainKeeps<E>(c: Channel<E>, id: nat)
    requires Inv(c) && Enabled(c, Step<E>.Drain(id))
    ensures Inv(DrainCalled(c, id))
  {
    FlushKeeps(c);
    if c.queue != [] { NotDrainedYet(c); }
  }

  lemma {:induction false} PlainFlushKeeps<E>(c: Channel<E>)
    requires Inv(c)
    ensures Inv(Flushed(c))
  {
    FlushKeeps(c);
    if c.queue != [] { NotDrainedYet(c); } else { SendsOnly(c.(timer := false)); }
  }

  lemma {:induction false} NextKeeps<E>(c: Channel<E>, s: Step<E>)
    requires Inv(c) && Enabled(c, s)
    ensures Inv(Next(c, s))
  {
    match s
    case Emit(event) => EmitKeeps(c, event);
    case Acknowledge(total) => AckKeeps(c, total);
    case Flush => PlainFlushKeeps(c);
    case TimerFires => PlainFlushKeeps(c);
    case Drain(id) => DrainKeeps(c, id);
    case DrainTimeout(id) =>
  }

  // ------------------------------------------------------------------ whole runs

  predicate Possible<E>(c: Channel<E>, steps: seq<Step<E>>)
    requires c.frameCap >= 1
    decreases |steps|
  {
    steps == [] || (Enabled(c, steps[0]) && Next(c, steps[0]).frameCap >= 1 && Possible(Next(c, steps[0]), steps[1..]))
  }

  function After<E>(c: Channel<E>, steps: seq<Step<E>>): Channel<E>
    requires c.frameCap >= 1 && Possible(c, steps)
    decreases |steps|
  {
    if steps == [] then c else After(Next(c, steps[0]), steps[1..])
  }

  lemma {:induction false} RunKeeps<E>(c: Channel<E>, steps: seq<Step<E>>)
    requires Inv(c) && Possible(c, steps)
    ensures Inv(After(c, steps))
    decreases |steps|
  {
    if steps != [] {
      NextKeeps(c, steps[0]);
      RunKeeps(Next(c, steps[0]), steps[1..]);
    }
  }

  /**
   * For every sequence of steps: the frames, concatenated with the queue, are the emitted events minus the dropped
   * ones, in order; emitted = dropped + sent + queued; the queue and the window keep their bounds; and whatever waits
   * in the queue has a timer.
   */
  lemma {:induction false} ChannelIsFaithful<E>(queueCap: nat, windowCap: nat, frameCap: nat, steps: seq<Step<E>>)
    requires queueCap >= 1 && windowCap >= 1 && frameCap >= 1 && Possible(Opened(queueCap, windowCap, frameCap), steps)
    ensures Inv(After(Opened(queueCap, windowCap, frameCap), steps))
  {
    RunKeeps(Opened(queueCap, windowCap, frameCap), steps);
  }

  /** The received total moves exactly on a credible acknowledgement; any other one is a flush and nothing more. */
  lemma {:induction false} BogusAckIsFlush<E>(c: Channel<E>, total: Option<int>)
    requires Inv(c)
    ensures Acknowledged(c, total).received == if Credible(c, total) then total.value else c.received
    ensures !Credible(c, total) ==> Acknowledged(c, total) == Woken(Flushed(c))
  {
    FlushKeeps(if Credible(c, total) then c.(received := total.value) else c);
  }

  lemma {:induction false} KeepsAll<E>(log: seq<Stamped<E>>)
    ensures Kept(log, {}) == log
  {
    if log != [] {
      KeepsAll(log[..|log| - 1]);
    }
  }

  /** When a drain resolves true, everything emitted and not dropped has been sent and acknowledged. */
  lemma {:induction false} DrainedIsComplete<E>(c: Channel<E>)
    requires Inv(c) && c.Drained()
    ensures Carried(c.frames) == Kept(c.log, c.lost) && c.received == |Kept(c.log, c.lost)|
    ensures c.dropped == 0 ==> Carried(c.frames) == c.log && c.received == c.nextSeq - 1
  {
    assert Carried(c.frames) + [] == Carried(c.frames);
    if c.dropped == 0 {
      assert c.lost == {};
      KeepsAll(c.log);
    }
  }

  /** A drain resolves true at a step exactly when that step leaves the channel drained. */
  lemma {:induction false} DrainResolvesIff<E>(c: Channel<E>, s: Step<E>, id: nat)
    requires Inv(c) && Enabled(c, s) && id !in c.resolved && (id in c.waiters || s == Step<E>.Drain(id))
    ensures id in Next(c, s).resolved && Next(c, s).resolved[id] <==> Next(c, s).Drained()
  {
    NextKeeps(c, s);
    match s
    case Emit(event) => EmitResolvesNothing(c, event);
    case Acknowledge(total) => SidesStay((if Credible(c, total) then c.(received := total.value)
      else c).(timer := false));
    case Flush => SidesStay(c.(timer := false));
    case TimerFires => SidesStay(c.(timer := false));
    case Drain(other) => SidesStay(c.(timer := false));
    case DrainTimeout(other) =>
  }

  lemma {:induction false} EmitResolvesNothing<E>(c: Channel<E>, event: E)
    requires Inv(c)
    ensures Emitted(c, event).resolved == c.resolved && Emitted(c, event).waiters == c.waiters
  {
    SidesStay(Pushed(c, event).(timer := false));
  }

  lemma {:induction false} SidesStay<E>(c: Channel<E>)
    requires c.frameCap >= 1
    ensures SendFrames(c).resolved == c.resolved && SendFrames(c).waiters == c.waiters
    decreases |c.queue|
  {
    if CanSend(c) {
      SidesStay(SendFrame(c));
    }
  }

  // ------------------------------------------------------------------ the object

  class BoundedEventChannel<E> {
    const queueCap: nat
    const windowCap: nat
    const maxFrameEvents: nat
    var queue: seq<Stamped<E>>
    var timer: bool
    var waiters: set<nat>
    var resolved: map<nat, bool>
    var nextSeq: nat
    var emittedCount: nat
    var droppedCount: nat
    var sentCount: nat
    var receivedCount: nat
    var highWater: nat
    /** What the transport was given. */
    var frames: seq<Frame<E>>
    ghost var log: seq<Stamped<E>>
    ghost var lost: set<nat>

    ghost function State(): Channel<E>
      reads this
    {
      Channel(queueCap, windowCap, maxFrameEvents, queue, timer, waiters, resolved, nextSeq, emittedCount, droppedCount,
              sentCount, receivedCount, highWater, frames, log, lost)
    }

    constructor (queueCap: nat, windowCap: nat, maxFrameEvents: nat)
      requires SafePositive(queueCap) && SafePositive(windowCap) && SafePositive(maxFrameEvents)
      ensures State() == Opened(queueCap, windowCap, maxFrameEvents)
    {
      this.queueCap, this.windowCap, this.maxFrameEvents := queueCap, windowCap, maxFrameEvents;
      queue, timer, waiters, resolved := [], false, {}, map[];
      nextSeq, emittedCount, droppedCount, sentCount, receivedCount, highWater := 1, 0, 0, 0, 0, 0;
      frames, log, lost := [], [], {};
    }

    method Emit(event: E) returns (seqNo: nat)
      requires maxFrameEvents >= 1
      modifies this
      ensures State() == Emitted(old(State()), event) && seqNo == old(nextSeq)
    {
      seqNo := nextSeq;
      nextSeq := nextSeq + 1;
      emittedCount := emittedCount + 1;
      log := log + [Stamped(seqNo, event)];
      if |queue| >= queueCap {
        droppedCount, lost := droppedCount + 1, lost + {seqNo};
        return;
      }
      queue := queue + [Stamped(seqNo, event)];
      if |queue| > highWater { highWater := |queue|; }
      if |queue| >= maxFrameEvents {
        FlushQueue();
      } else {
        timer := true;
      }
    }

    method Acknowledge(total: Option<int>)
      requires maxFrameEvents >= 1
      modifies this
      ensures State() == Acknowledged(old(State()), total)
    {
      if total.Some? && total.value <= MAX_SAFE && total.value > receivedCount && total.value <= sentCount {
        receivedCount := total.value;
      }
      FlushQueue();
      Settle();
    }

    method SendOneFrame()
      requires |queue| > 0 && sentCount - receivedCount < windowCap
      modifies this
      ensures State() == SendFrame(old(State()))
    {
      var room := windowCap - (sentCount - receivedCount);
      var n := Min(Min(maxFrameEvents, room), |queue|);
      var events := queue[..n];
      queue := queue[n..];
      sentCount := sentCount + |events|;
      frames := frames + [Frame(events, droppedCount)];
    }

    method FlushQueue()
      requires maxFrameEvents >= 1
      modifies this
      ensures State() == Flushed(old(State()))
    {
      timer := false;
      while |queue| > 0 && sentCount - receivedCount < windowCap
        invariant SendFrames(State()) == SendFrames(old(State()).(timer := false))
        decreases |queue|
      {
        SendOneFrame();
      }
      if |queue| > 0 { timer := true; }
    }

    method Settle()
      modifies this
      ensures State() == Woken(old(State()))
    {
      if queue == [] && sentCount == receivedCount {
        var waiting := waiters;
        waiters := {};
        resolved := resolved + map id | id in waiting :: true;
      }
    }

    /** The promise of `drain` is `resolved[id]`, at once or later. */
    method DrainAll(id: nat)
      requires maxFrameEvents >= 1
      modifies this
      ensures State() == DrainCalled(old(State()), id)
    {
      FlushQueue();
      if queue == [] && sentCount == receivedCount {
        resolved := resolved[id := true];
      } else {
        waiters := waiters + {id};
      }
    }

    method TimeOutDrain(id: nat)
      modifies this
      ensures State() == DrainTimedOut(old(State()), id)
    {
      waiters := waiters - {id};
      resolved := resolved[id := false];
    }
  }
}
