# TCP Jersey congestion control, modelled in Dafny

`jersey.dfy` (module `Jersey`) models the TCP Jersey strategy of ns-3,
`src/internet/model/tcp-jersey.cc`. The strategy has three parts:

- **Available-bandwidth estimator** (`PktsAcked` and `ABE`). Each acknowledgment
  with a non-zero RTT sample adds its segments to a counter and records its time.
  At most once per RTT, the estimate is replaced by a blend of the old estimate and
  the bytes counted since the last sampling boundary:
  `(Tw*bw + bytes) / (delta + Tw)`, with `Tw = rtt * K`. The counter is then reset.
- **Slow-start threshold** (`GetSsThresh`). The threshold is the larger of two
  segments and the truncated window `rtt * bw / segmentSize`.
- **Fork** (copy constructor and `Fork`). These build a new, independent strategy
  object that carries some of the original's fields.

The model has two layers:

1. **Values.** The `Estimator` datatype holds the four fields the estimator updates.
   `Step` gives the effect of one acknowledgment. `Run` folds `Step` over a
   sequence of acknowledgments. `SsThresh` computes the threshold. The lemmas state
   the estimator's behaviour over single events and over traces.
2. **The `TcpJersey` class.** Its fields are the source's members. `PktsAcked` and
   `ABE` are methods with `modifies this`. Each states the new value of every
   field, and `PktsAcked` is tied to `Step`. `GetSsThresh` is a function that reads
   the object and changes nothing. `Fork` returns a `fresh` object.

Time is an integer tick count, as ns-3's `Time` is. One second is 10^9 ticks, which
is ns-3's default nanosecond resolution. The simulator clock `Simulator::Now()`
becomes a parameter `now`. Callers must promise that `now` never falls below the
time of the last processed acknowledgment. The bandwidth estimate is an exact
`real`. The `uint32_t` arithmetic `2 * segmentSize` is written out with its
wrap-around. The `double`-to-`uint32_t` conversion is `Floor`, under a precondition
that the window lies in the range where that conversion is defined.

Points of the code that the model follows as written:

- The copy constructor (lines 71-78) copies only `m_currentBW`, `m_lastSampleBW`,
  `m_lastBW`, `m_pType`, `m_fType` and `m_IsCount`. The model's copy gives the
  counter and both times the default constructor's values, and its contract does
  not claim they are copied.
- The log line at lines 133-135 prints `m_minRtt`, but the threshold at line 137
  reads `m_currentRTT`, and this file never assigns that field. The RTT is
  therefore a parameter of `GetSsThresh`. `SsThreshAtZeroRtt` shows what happens
  if the field keeps `Time`'s default of zero: the threshold is then always
  exactly two segments.
- Line 101 calls `ABE (tcb, rtt)`, which is the reverse of the order declared at
  line 106. The model passes the RTT as the RTT and takes the segment size from
  the socket state.
- The counter used at line 120 holds every segment since the last sampling
  boundary, which lies at least one RTT back. Lines 115-116 reset `m_prevAckTime`
  on every call, so `delta` is only the gap since the previous acknowledgment.
  The ratio `bytes / delta` in the blend is therefore not the throughput of the
  sampling interval.

## Model

| member | source | states |
|---|---|---|
| `Jersey.StepZeroRtt` | src/internet/model/tcp-jersey.cc:94-98 | an acknowledgment with a zero RTT sample leaves the estimate, the counter and both times exactly as they were |
| `Jersey.StepWithinWindow` | src/internet/model/tcp-jersey.cc:100-118 | before a full RTT has passed since the last boundary, the counter grows by exactly the acknowledged segments, the time of the acknowledgment is recorded, and the estimate and boundary time stay as they were |
| `Jersey.StepAtBoundary` | src/internet/model/tcp-jersey.cc:114-123 | once `now - tLast >= rtt`, the new estimate is `(rtt*K*bw + (acked+packetsAcked)*segmentSize) / (delta + rtt*K)` with `delta = now - prevAckTime` in seconds, the counter is zero and both times are `now` |
| `Jersey.StepRecordsAckTime` | src/internet/model/tcp-jersey.cc:115-116 | every acknowledgment with a non-zero RTT sample sets the last-acknowledgment time to `now`, whether or not it crosses a boundary |
| `Jersey.Seconds` | src/internet/model/tcp-jersey.cc:115-121 | `GetSeconds` of a tick count: non-negative for a non-negative time and positive for a positive one |
| `Jersey.Blend` | src/internet/model/tcp-jersey.cc:120-121 | the boundary update: with a non-negative old estimate, a non-negative `delta` and a positive window it never yields a negative estimate |
| `Jersey.Step` | src/internet/model/tcp-jersey.cc:88-126 | one acknowledgment: a non-zero RTT records `now` as the last-acknowledgment time; the boundary time either stays or becomes `now`; either the estimate stays or the counter is reset; the estimator invariant is preserved |
| `Jersey.BlendBetween` | src/internet/model/tcp-jersey.cc:120-121 | when time has passed since the previous acknowledgment, the updated estimate lies between the old estimate and `bytes / delta` (the bytes counted since the last boundary over the time since the previous acknowledgment), so it is a weighted average of the two |
| `Jersey.StepKeepsValid` | src/internet/model/tcp-jersey.cc:114-124 | with `K > 0` and a clock that does not go back, one acknowledgment keeps the estimate non-negative and keeps the last boundary no later than the last acknowledgment |
| `Jersey.RunKeepsValid` | src/internet/model/tcp-jersey.cc:88-126 | any clock-ordered sequence of acknowledgments keeps that invariant, so an estimate that starts at 0 is never negative |
| `Jersey.RunWithinWindow` | src/internet/model/tcp-jersey.cc:94-100 | across a sequence of acknowledgments that reach no boundary, the counter equals its start plus the running sum of the segments of the events with a non-zero RTT, and the estimate and boundary time do not move |
| `Jersey.RunTimesAdvance` | src/internet/model/tcp-jersey.cc:115-122 | with a clock that does not go back, neither the last-acknowledgment time nor the last-boundary time ever decreases |
| `Jersey.TwoSegments` | src/internet/model/tcp-jersey.cc:139 | `2*segmentSize` in `uint32_t`: the exact product when it fits in 32 bits, the product minus 2^32 otherwise |
| `Jersey.EstimatedWindow` | src/internet/model/tcp-jersey.cc:137 | the window before truncation: non-negative for a non-negative RTT and estimate, and zero when either is zero |
| `Jersey.SsThresh` | src/internet/model/tcp-jersey.cc:137-139 | the threshold is at least `2*segmentSize` (in `uint32_t` arithmetic) and at least the truncated window, and it is one of the two; without wrap-around it is at least `2*segmentSize` |
| `Jersey.SsThreshWithoutEstimate` | src/internet/model/tcp-jersey.cc:137-139 | with an estimate of 0, for example before any boundary, the threshold is exactly `2*segmentSize` |
| `Jersey.SsThreshAtZeroRtt` | src/internet/model/tcp-jersey.cc:137 | with an RTT of 0, the value of an RTT field nobody assigns, the threshold is exactly `2*segmentSize` whatever the estimate |
| `Jersey.SsThreshMonotone` | src/internet/model/tcp-jersey.cc:137-139 | a larger bandwidth estimate never gives a smaller threshold |
| `Jersey.FirstBoundaryExample` | src/internet/model/tcp-jersey.cc:112-139 | with K = 4 and 1000-byte segments, ten segments at the first boundary after 100 ms with a 100 ms RTT give an estimate of 20000 bytes/s and a threshold of 2000 bytes |
| `Jersey.TcpJersey.constructor` | src/internet/model/tcp-jersey.cc:60-69 | a new strategy has all three estimates and the counter at zero and counting off, and satisfies the estimator invariant |
| `Jersey.TcpJersey.Copy` | src/internet/model/tcp-jersey.cc:71-82 | the copy has the original's `currentBW`, `lastSampleBW`, `lastBW`, `pType`, `fType` and `isCount`; the fields the copy constructor does not copy take the default constructor's values |
| `Jersey.TcpJersey.PktsAcked` | src/internet/model/tcp-jersey.cc:88-102 | the new estimator state is `Step` of the old one; a zero RTT changes nothing; otherwise `prevAckTime == now`, and either the counter grows by `packetsAcked` with the estimate and `tLast` unchanged, or the estimate is the blend, `tLast == now` and the counter is 0; the other fields are unchanged and the invariant is kept |
| `Jersey.TcpJersey.ABE` | src/internet/model/tcp-jersey.cc:105-126 | the last-acknowledgment time always becomes `now`; the estimate, counter and boundary time change only when a full RTT has passed since the boundary, and then to the blend, 0 and `now` |
| `Jersey.TcpJersey.GetSsThresh` | src/internet/model/tcp-jersey.cc:128-140 | the threshold is `SsThresh` of the current estimate; it reads the object without changing it and does not depend on `bytesInFlight` |
| `Jersey.TcpJersey.Fork` | src/internet/model/tcp-jersey.cc:142-146 | a fresh object that satisfies the invariant and carries the fields the copy constructor copies |
| `Jersey.ForkIsIndependent` | src/internet/model/tcp-jersey.cc:142-146 | after a fork, an acknowledgment delivered to the original and one delivered to the fork each change only their own object: the original's estimator state is `Step` of its old state for its own acknowledgment and its other fields keep their values; the fork's state is `Step` of the copied state for the fork's acknowledgment |

## Left out

- Type registration, the `ABE` trace source, and all logging and assertions (lines 44-58, 92, 96, 108-110, 133-135). These are introspection and diagnostics only.
- `Simulator::Now()`. It is replaced by the parameter `now`.
- The inherited `TcpNewReno` window growth and the socket-state objects. They are defined outside this file. The model keeps only the segment size, passed as a parameter.
- IEEE-754 rounding in `GetSeconds` and in the estimate. The model computes in exact reals.
- The undefined conversion of an out-of-range `double` to `uint32_t` at line 137. `SsThresh` and `GetSsThresh` require the window to lie in `[0, 2^32)`.
- The width of `m_ackedSegments` and of the product `m_ackedSegments * m_segmentSize`. The member is declared in a header that is not part of this model, so the counter and the product are unbounded.
- The default values of `m_K`, `m_pType`, `m_fType`, `m_tLast` and `m_prevAckTime`. They come from the class header, which is not part of this model. The default constructor takes `k` and the two tags as parameters, and the two times start at `Time`'s default of zero. The source's copy constructor does not copy `m_K`; the model copies `k` to stand for the shared default that the declaration gives every instance. The contracts of `Copy` and `Fork` do not relate the copy's `k` to the original's.
- Negative RTT samples. The RTT is a natural number here, because an RTT measurement is never negative.
- Jersey.SsThresh: the lower bound `2 * segmentSize` is stated only for segment sizes below 2^31. For larger sizes, `2 * segmentSize` wraps around in `uint32_t`, and the contract only guarantees the wrapped value.
