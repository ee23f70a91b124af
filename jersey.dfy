/** A model of the TCP Jersey congestion-control strategy of ns-3
    (src/internet/model/tcp-jersey.cc): an available-bandwidth estimator
    driven by acknowledgments, a slow-start threshold computed from the
    estimate, and the copy used when a listening socket forks.

    Time is counted in integer ticks, as ns-3's `Time` is; one second is
    `TicksPerSecond` ticks (ns-3's default nanosecond resolution).  The
    bandwidth estimate, a `double` in the source, is an exact `real` here. */
module Jersey {

  // ---------------------------------------------------------------------------
  // Basic types
  // ---------------------------------------------------------------------------

  const TwoTo32: int := 0x1_0000_0000

  /** The source's `uint32_t`. */
  type uint32 = x: int | 0 <= x < TwoTo32

  /** An ns-3 `Time`, in ticks. */
  type Time = int

  const TicksPerSecond: real := 1000000000.0

  /** `Time::GetSeconds`, without the rounding of the conversion to `double`. */
  function Seconds(t: Time): (r: real)
    ensures t >= 0 ==> r >= 0.0
    ensures t > 0 ==> r > 0.0
  {
    t as real / TicksPerSecond
  }

  /** One acknowledgment event as `PktsAcked` receives it: the number of newly
      acknowledged segments, the RTT sample, the connection's segment size
      (read from the socket state) and the simulator clock at that moment. */
  datatype Ack = Ack(packetsAcked: uint32, rtt: nat, segmentSize: uint32, now: Time)

  // ---------------------------------------------------------------------------
  // Bandwidth estimator
  // ---------------------------------------------------------------------------

  /** The part of the per-connection state the estimator updates:
      `m_currentBW`, `m_ackedSegments`, `m_tLast` and `m_prevAckTime`. */
  datatype Estimator = Estimator(currentBW: real, ackedSegments: nat, tLast: Time, prevAckTime: Time)
  {
    /** The estimate is never negative, and the last sampling boundary never
        lies after the last processed acknowledgment. */
    predicate Valid() {
      currentBW >= 0.0 && tLast <= prevAckTime
    }
  }

  /** The state of a freshly constructed strategy (all estimates zero). */
  const Initial: Estimator := Estimator(0.0, 0, 0, 0)

  /** The boundary update of `ABE`: blends the previous estimate `bw`, weighted
      by the estimation window `tw` (seconds), with the `bytes` counted since
      the last sampling boundary.  `delta` is the time in seconds since the
      previous acknowledgment, not since that boundary, because every call
      with a non-zero RTT moves the time of the previous acknowledgment. */
  function Blend(bw: real, bytes: nat, delta: real, tw: real): (r: real)
    requires delta + tw > 0.0
    ensures bw >= 0.0 && delta >= 0.0 && tw > 0.0 ==> r >= 0.0
  {
    (tw * bw + bytes as real) / (delta + tw)
  }

  /** What one call of `PktsAcked` (together with the `ABE` it calls) does to
      the estimator state, for a strategy whose window multiplier is `k`. */
  function Step(s: Estimator, k: nat, a: Ack): (r: Estimator)
    requires k > 0
    requires a.rtt > 0 ==> s.prevAckTime <= a.now
    ensures a.rtt > 0 ==> r.prevAckTime == a.now
    ensures r.tLast == s.tLast || r.tLast == a.now
    ensures r.currentBW == s.currentBW || r.ackedSegments == 0
    ensures s.Valid() ==> r.Valid()
  {
    if a.rtt == 0 then
      s
    else
      var acked := s.ackedSegments + a.packetsAcked;
      var tw := Seconds(a.rtt * k);
      var delta := Seconds(a.now) - Seconds(s.prevAckTime);
      if a.now - s.tLast >= a.rtt then
        Estimator(Blend(s.currentBW, acked * a.segmentSize, delta, tw), 0, a.now, a.now)
      else
        Estimator(s.currentBW, acked, s.tLast, a.now)
  }

  /** The clock never runs backwards: every event is at or after `t0`, and
      events come in order of time. */
  predicate ClockedFrom(t0: Time, acks: seq<Ack>) {
    && (forall i :: 0 <= i < |acks| ==> t0 <= acks[i].now)
    && (forall i, j :: 0 <= i <= j < |acks| ==> acks[i].now <= acks[j].now)
  }

  /** The estimator state after a sequence of acknowledgments. */
  function Run(s: Estimator, k: nat, acks: seq<Ack>): Estimator
    requires k > 0 && ClockedFrom(s.prevAckTime, acks)
    decreases |acks|
  {
    if acks == [] then s
    else
      var s' := Step(s, k, acks[0]);
      assert ClockedFrom(s'.prevAckTime, acks[1..]) by {
        forall i | 0 <= i < |acks| - 1
          ensures s'.prevAckTime <= acks[1..][i].now
        {
          assert acks[0].now <= acks[i + 1].now;
        }
      }
      Run(s', k, acks[1..])
  }

  /** The segments a sequence of acknowledgments adds to the counter: those
      of events with a zero RTT sample are discarded. */
  function CountedSegments(acks: seq<Ack>): nat {
    if acks == [] then 0
    else (if acks[0].rtt == 0 then 0 else acks[0].packetsAcked) + CountedSegments(acks[1..])
  }

  /** No event of `acks` reaches a sampling boundary measured from `tLast`. */
  predicate WithinWindow(tLast: Time, acks: seq<Ack>) {
    forall i :: 0 <= i < |acks| ==> acks[i].rtt == 0 || acks[i].now - tLast < acks[i].rtt
  }

  // ---------------------------------------------------------------------------
  // Properties of the estimator
  // ---------------------------------------------------------------------------

  /** A call with a zero RTT sample changes nothing. */
  lemma StepZeroRtt(s: Estimator, k: nat, a: Ack)
    requires k > 0 && a.rtt == 0
    ensures Step(s, k, a) == s
  {
  }

  /** Between boundaries a call only adds to the counter and records the time
      of the acknowledgment. */
  lemma StepWithinWindow(s: Estimator, k: nat, a: Ack)
    requires k > 0 && s.prevAckTime <= a.now
    requires a.rtt > 0 && a.now - s.tLast < a.rtt
    ensures Step(s, k, a) == Estimator(s.currentBW, s.ackedSegments + a.packetsAcked, s.tLast, a.now)
  {
  }

  /** At a boundary the new estimate is the blend of the old one with the
      bytes acknowledged since the last boundary (the counter including this
      call's segments), over `delta + Tw` seconds with `Tw = rtt * K`;
      afterwards the counter is zero and both times are `now`. */
  lemma StepAtBoundary(s: Estimator, k: nat, a: Ack)
    requires k > 0 && s.prevAckTime <= a.now
    requires a.rtt > 0 && a.now - s.tLast >= a.rtt
    ensures var tw := Seconds(a.rtt * k);
            var delta := Seconds(a.now) - Seconds(s.prevAckTime);
            var bytes := (s.ackedSegments + a.packetsAcked) * a.segmentSize;
            && Step(s, k, a).currentBW == (tw * s.currentBW + bytes as real) / (delta + tw)
            && Step(s, k, a).ackedSegments == 0
            && Step(s, k, a).tLast == a.now
            && Step(s, k, a).prevAckTime == a.now
  {
  }

  /** The blend lies between the previous estimate and `bytes / delta`: the
      bytes counted since the last boundary over the time since the previous
      acknowledgment.  That ratio is not the throughput of the sampling
      interval, which spans at least one RTT while `delta` spans only the gap
      between the last two acknowledgments. */
  lemma {:induction false} BlendBetween(bw: real, bytes: nat, delta: real, tw: real)
    requires delta > 0.0 && tw > 0.0
    ensures var rate := bytes as real / delta;
            var r := Blend(bw, bytes, delta, tw);
            (bw <= rate ==> bw <= r <= rate) && (rate <= bw ==> rate <= r <= bw)
  {
    var rate := bytes as real / delta;
    var d := delta + tw;
    var r := Blend(bw, bytes, delta, tw);
    assert bytes as real == delta * rate;
    assert r * d == tw * bw + delta * rate;
    // r - bw = delta * (rate - bw) / d and r - rate = tw * (bw - rate) / d
    assert (r - bw) * d == delta * (rate - bw);
    assert (r - rate) * d == tw * (bw - rate);
    if bw <= rate {
      assert delta * (rate - bw) >= 0.0;
      assert tw * (bw - rate) <= 0.0;
    } else {
      assert delta * (rate - bw) <= 0.0;
      assert tw * (bw - rate) >= 0.0;
    }
  }

  /** Every call keeps the estimate non-negative and the last boundary no
      later than the last acknowledgment. */
  lemma StepKeepsValid(s: Estimator, k: nat, a: Ack)
    requires k > 0 && s.Valid()
    requires a.rtt > 0 ==> s.prevAckTime <= a.now
    ensures Step(s, k, a).Valid()
  {
  }

  /** A sequence of acknowledgments keeps the estimator valid; in particular
      the estimate, starting from `Initial`, is never negative. */
  lemma {:induction false} RunKeepsValid(s: Estimator, k: nat, acks: seq<Ack>)
    requires k > 0 && s.Valid() && ClockedFrom(s.prevAckTime, acks)
    ensures Run(s, k, acks).Valid()
    decreases |acks|
  {
    if acks != [] {
      var s' := Step(s, k, acks[0]);
      StepKeepsValid(s, k, acks[0]);
      RunKeepsValid(s', k, acks[1..]);
    }
  }

  /** Without a sampling boundary the counter is the running sum of the
      segments of the events with a non-zero RTT, and neither the estimate
      nor the boundary time moves. */
  lemma {:induction false} RunWithinWindow(s: Estimator, k: nat, acks: seq<Ack>)
    requires k > 0 && ClockedFrom(s.prevAckTime, acks) && WithinWindow(s.tLast, acks)
    ensures Run(s, k, acks).ackedSegments == s.ackedSegments + CountedSegments(acks)
    ensures Run(s, k, acks).currentBW == s.currentBW
    ensures Run(s, k, acks).tLast == s.tLast
    decreases |acks|
  {
    if acks != [] {
      var s' := Step(s, k, acks[0]);
      assert s'.tLast == s.tLast;
      assert WithinWindow(s'.tLast, acks[1..]) by {
        forall i | 0 <= i < |acks| - 1
          ensures acks[1..][i].rtt == 0 || acks[1..][i].now - s.tLast < acks[1..][i].rtt
        {
          assert acks[1..][i] == acks[i + 1];
        }
      }
      RunWithinWindow(s', k, acks[1..]);
    }
  }

  /** The time of the last acknowledgment and the time of the last boundary
      never move backwards. */
  lemma {:induction false} RunTimesAdvance(s: Estimator, k: nat, acks: seq<Ack>)
    requires k > 0 && ClockedFrom(s.prevAckTime, acks)
    ensures s.prevAckTime <= Run(s, k, acks).prevAckTime
    ensures s.tLast <= Run(s, k, acks).tLast
    decreases |acks|
  {
    if acks != [] {
      var s' := Step(s, k, acks[0]);
      RunTimesAdvance(s', k, acks[1..]);
    }
  }

  /** After an event with a non-zero RTT sample, the time of the last
      acknowledgment is that event's time whatever else happens. */
  lemma StepRecordsAckTime(s: Estimator, k: nat, a: Ack)
    requires k > 0 && s.prevAckTime <= a.now && a.rtt > 0
    ensures Step(s, k, a).prevAckTime == a.now
  {
  }

  // ---------------------------------------------------------------------------
  // Threshold calculator
  // ---------------------------------------------------------------------------

  /** `2 * segmentSize` in `uint32_t` arithmetic. */
  function TwoSegments(segmentSize: uint32): (r: uint32)
    ensures 2 * segmentSize < TwoTo32 ==> r == 2 * segmentSize
    ensures 2 * segmentSize >= TwoTo32 ==> r == 2 * segmentSize - TwoTo32
  {
    (2 * segmentSize) % TwoTo32
  }

  /** The window `rtt * bw / segmentSize` of the source, before truncation. */
  function EstimatedWindow(bw: real, currentRtt: Time, segmentSize: uint32): (r: real)
    requires segmentSize > 0
    ensures 0 <= currentRtt && 0.0 <= bw ==> 0.0 <= r
    ensures currentRtt == 0 || bw == 0.0 ==> r == 0.0
  {
    Seconds(currentRtt) * bw / segmentSize as real
  }

  /** The conversion of the window to `uint32_t` is defined. */
  predicate WindowFits(bw: real, currentRtt: Time, segmentSize: uint32)
    requires segmentSize > 0
  {
    0.0 <= EstimatedWindow(bw, currentRtt, segmentSize) < TwoTo32 as real
  }

  /** The slow-start threshold for estimate `bw` and RTT `currentRtt`: the
      larger of two segments and the truncated estimated window. */
  function SsThresh(bw: real, currentRtt: Time, segmentSize: uint32): (r: uint32)
    requires segmentSize > 0 && WindowFits(bw, currentRtt, segmentSize)
    ensures r >= TwoSegments(segmentSize)
    ensures r >= EstimatedWindow(bw, currentRtt, segmentSize).Floor
    ensures r == TwoSegments(segmentSize) || r == EstimatedWindow(bw, currentRtt, segmentSize).Floor
    ensures 2 * segmentSize < TwoTo32 ==> r >= 2 * segmentSize
  {
    var ownd: uint32 := EstimatedWindow(bw, currentRtt, segmentSize).Floor;
    if TwoSegments(segmentSize) < ownd then ownd else TwoSegments(segmentSize)
  }

  /** With no estimate yet the threshold is exactly two segments. */
  lemma SsThreshWithoutEstimate(currentRtt: Time, segmentSize: uint32)
    requires segmentSize > 0 && 2 * segmentSize < TwoTo32
    ensures WindowFits(0.0, currentRtt, segmentSize)
    ensures SsThresh(0.0, currentRtt, segmentSize) == 2 * segmentSize
  {
  }

  /** With a zero RTT (the default of a `Time` nobody assigns) the threshold
      is exactly two segments, whatever the estimate. */
  lemma SsThreshAtZeroRtt(bw: real, segmentSize: uint32)
    requires segmentSize > 0 && 2 * segmentSize < TwoTo32
    ensures WindowFits(bw, 0, segmentSize)
    ensures SsThresh(bw, 0, segmentSize) == 2 * segmentSize
  {
  }

  /** A larger estimate never gives a smaller threshold. */
  lemma SsThreshMonotone(bw1: real, bw2: real, currentRtt: Time, segmentSize: uint32)
    requires segmentSize > 0 && 0 <= currentRtt && bw1 <= bw2
    requires WindowFits(bw1, currentRtt, segmentSize) && WindowFits(bw2, currentRtt, segmentSize)
    ensures SsThresh(bw1, currentRtt, segmentSize) <= SsThresh(bw2, currentRtt, segmentSize)
  {
    var t := Seconds(currentRtt);
    assert t * bw1 <= t * bw2 by {
      assert t * (bw2 - bw1) >= 0.0;
    }
    assert EstimatedWindow(bw1, currentRtt, segmentSize) <= EstimatedWindow(bw2, currentRtt, segmentSize);
  }

  // ---------------------------------------------------------------------------
  // The strategy object
  // ---------------------------------------------------------------------------

  /** One connection's TCP Jersey strategy (`TcpJersey`). */
  class TcpJersey {
    var currentBW: real
    var lastSampleBW: real
    var lastBW: real
    var ackedSegments: nat
    var tLast: Time
    var prevAckTime: Time
    /** `m_K`, the window multiplier, fixed for the connection's lifetime. */
    const k: nat
    /** `m_pType` and `m_fType`, variant tags that this file only copies. */
    var pType: nat
    var fType: nat
    var isCount: bool

    ghost predicate Valid()
      reads this
    {
      k > 0 && State().Valid()
    }

    /** The estimator part of the state. */
    function State(): Estimator
      reads this
    {
      Estimator(currentBW, ackedSegments, tLast, prevAckTime)
    }

    /** The default constructor: every estimate and the counter start at zero,
        counting is off.  The window multiplier and the variant tags are
        initialised outside this file, so they are parameters here. */
    constructor (k: nat, pType: nat, fType: nat)
      requires k > 0
      ensures Valid() && State() == Initial
      ensures lastSampleBW == 0.0 && lastBW == 0.0 && !isCount
      ensures this.k == k && this.pType == pType && this.fType == fType
    {
      currentBW, lastSampleBW, lastBW := 0.0, 0.0, 0.0;
      ackedSegments := 0;
      tLast, prevAckTime := 0, 0;
      this.k := k;
      this.pType, this.fType := pType, fType;
      isCount := false;
    }

    /** The copy constructor: copies the three estimates, the two variant tags
        and the counting flag.  The counter and the two times are not copied;
        they take the default constructor's values.  `m_K` is not copied
        by the source either; it gets its default from its declaration, which
        is not part of this model.  The model copies `k` to stand for that
        shared declared default. */
    constructor Copy(sock: TcpJersey)
      requires sock.Valid()
      ensures Valid()
      ensures currentBW == sock.currentBW && lastSampleBW == sock.lastSampleBW && lastBW == sock.lastBW
      ensures pType == sock.pType && fType == sock.fType && isCount == sock.isCount
      ensures ackedSegments == 0 && tLast == 0 && prevAckTime == 0
    {
      currentBW, lastSampleBW, lastBW := sock.currentBW, sock.lastSampleBW, sock.lastBW;
      pType, fType, isCount := sock.pType, sock.fType, sock.isCount;
      ackedSegments := 0;
      tLast, prevAckTime := 0, 0;
      k := sock.k;
    }

    /** `PktsAcked`: discards a zero RTT sample, otherwise adds the newly
        acknowledged segments to the counter and runs the estimator. */
    method PktsAcked(packetsAcked: uint32, rtt: nat, segmentSize: uint32, now: Time)
      requires Valid()
      requires rtt > 0 ==> prevAckTime <= now
      modifies this
      ensures Valid()
      ensures State() == Step(old(State()), k, Ack(packetsAcked, rtt, segmentSize, now))
      ensures rtt == 0 ==> State() == old(State())
      ensures rtt > 0 ==> prevAckTime == now
      ensures rtt > 0 && now - old(tLast) < rtt ==>
                currentBW == old(currentBW) && tLast == old(tLast) &&
                ackedSegments == old(ackedSegments) + packetsAcked
      ensures rtt > 0 && now - old(tLast) >= rtt ==>
                currentBW == Blend(old(currentBW), (old(ackedSegments) + packetsAcked) * segmentSize,
                                   Seconds(now) - Seconds(old(prevAckTime)), Seconds(rtt * k)) &&
                tLast == now && ackedSegments == 0
      ensures lastSampleBW == old(lastSampleBW) && lastBW == old(lastBW)
      ensures pType == old(pType) && fType == old(fType) && isCount == old(isCount)
    {
      if rtt == 0 {
        return;
      }
      ackedSegments := ackedSegments + packetsAcked;
      ABE(rtt, segmentSize, now);
    }

    /** `ABE`, the available-bandwidth estimator: records the time of this
        acknowledgment and, once a full RTT has passed since the last
        boundary, replaces the estimate by its blend with the bytes counted
        since then and starts a new sampling interval. */
    method ABE(rtt: nat, segmentSize: uint32, now: Time)
      requires Valid() && rtt > 0 && prevAckTime <= now
      modifies this
      ensures Valid()
      ensures prevAckTime == now
      ensures now - old(tLast) < rtt ==>
                currentBW == old(currentBW) && tLast == old(tLast) && ackedSegments == old(ackedSegments)
      ensures now - old(tLast) >= rtt ==>
                currentBW == Blend(old(currentBW), old(ackedSegments) * segmentSize,
                                   Seconds(now) - Seconds(old(prevAckTime)), Seconds(rtt * k)) &&
                tLast == now && ackedSegments == 0
      ensures lastSampleBW == old(lastSampleBW) && lastBW == old(lastBW)
      ensures pType == old(pType) && fType == old(fType) && isCount == old(isCount)
    {
      var tw := Seconds(rtt * k);
      var delta := Seconds(now) - Seconds(prevAckTime);
      prevAckTime := now;
      if now - tLast >= rtt {
        currentBW := Blend(currentBW, ackedSegments * segmentSize, delta, tw);
        tLast := now;
        ackedSegments := 0;
      }
    }

    /** `GetSsThresh`: reads the estimate and nothing else of the state, and
        does not depend on the bytes in flight. */
    function GetSsThresh(currentRtt: Time, segmentSize: uint32, bytesInFlight: uint32): (r: uint32)
      reads this
      requires segmentSize > 0 && WindowFits(currentBW, currentRtt, segmentSize)
      ensures r == SsThresh(currentBW, currentRtt, segmentSize)
    {
      SsThresh(currentBW, currentRtt, segmentSize)
    }

    /** `Fork`: a new, independent strategy object built by the copy
        constructor. */
    method Fork() returns (c: TcpJersey)
      requires Valid()
      ensures fresh(c) && c.Valid()
      ensures c.currentBW == currentBW && c.lastSampleBW == lastSampleBW && c.lastBW == lastBW
      ensures c.pType == pType && c.fType == fType && c.isCount == isCount
      ensures c.ackedSegments == 0 && c.tLast == 0 && c.prevAckTime == 0
    {
      c := new TcpJersey.Copy(this);
    }
  }

  /** A fork and its original evolve independently: each acknowledgment
      changes only the object it is delivered to. */
  method ForkIsIndependent(a: TcpJersey, onOriginal: Ack, onFork: Ack) returns (b: TcpJersey)
    requires a.Valid()
    requires onOriginal.rtt > 0 ==> a.prevAckTime <= onOriginal.now
    requires onFork.rtt > 0 ==> 0 <= onFork.now
    modifies a
    ensures fresh(b) && a.Valid() && b.Valid()
    ensures a.State() == Step(old(a.State()), a.k, onOriginal)
    ensures a.lastSampleBW == old(a.lastSampleBW) && a.lastBW == old(a.lastBW)
    ensures a.pType == old(a.pType) && a.fType == old(a.fType) && a.isCount == old(a.isCount)
    ensures b.State() == Step(Estimator(old(a.currentBW), 0, 0, 0), b.k, onFork)
    ensures b.lastSampleBW == old(a.lastSampleBW) && b.lastBW == old(a.lastBW)
    ensures b.pType == old(a.pType) && b.fType == old(a.fType) && b.isCount == old(a.isCount)
  {
    b := a.Fork();
    a.PktsAcked(onOriginal.packetsAcked, onOriginal.rtt, onOriginal.segmentSize, onOriginal.now);
    b.PktsAcked(onFork.packetsAcked, onFork.rtt, onFork.segmentSize, onFork.now);
  }

  // ---------------------------------------------------------------------------
  // A worked example
  // ---------------------------------------------------------------------------

  /** K = 4, 1000-byte segments, a fresh estimator: ten segments acknowledged
      100 ms after the start with a 100 ms RTT reach the first boundary with
      delta = 0.1 s and Tw = 0.4 s, giving 10000 / 0.5 = 20000 bytes/s; with a
      100 ms RTT that estimate is a two-segment window, so the threshold is
      the floor of 2000 bytes. */
  lemma FirstBoundaryExample()
    ensures Step(Initial, 4, Ack(10, 100000000, 1000, 100000000)).currentBW == 20000.0
    ensures WindowFits(20000.0, 100000000, 1000)
    ensures SsThresh(20000.0, 100000000, 1000) == 2000
  {
  }
}
