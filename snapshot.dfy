/**
 * The default behaviour of the capture-session base class, stated on values.
 *
 * The base class keeps four caches: the rigid bodies by name, the point cloud,
 * the latency list and the timestamp. Its default `rigidBodies()`,
 * `pointCloud()` and `latency()` empty their own cache and then return a
 * reference to it; `timeStamp()` returns 0 and the four capability queries
 * return false. `Effect` and `Reply` give, for one such call, the caches
 * afterwards and the value returned; `Run` strings calls together, as a caller
 * reading a frame does.
 */
module Snapshot {
  import opened Values

  /** The four caches of a capture session. */
  datatype Caches = Caches(
    bodies: map<string, RigidBody>,
    cloud: PointCloud,
    latencies: seq<LatencyInfo>,
    timestamp: uint64)

  datatype Capability = RigidBodyTracking | LatencyEstimate | PointCloudData | TimeStampData

  /** One read-only-looking call a client makes on a session. */
  datatype Query =
    | RigidBodiesQuery
    | PointCloudQuery
    | LatencyQuery
    | TimeStampQuery
    | SupportsQuery(capability: Capability)

  /** What such a call returns. */
  datatype Answer =
    | Bodies(bodies: map<string, RigidBody>)
    | Cloud(cloud: PointCloud)
    | Latencies(latencies: seq<LatencyInfo>)
    | Stamp(stamp: uint64)
    | Flag(flag: bool)

  /** The caches and the answers after a series of calls. */
  datatype Outcome = Outcome(caches: Caches, answers: seq<Answer>)

  /**
   * The answer a backend that overrides nothing must give: no data, not an
   * error. An empty map, a cloud of zero rows, an empty list, timestamp 0 and
   * "not supported".
   */
  function EmptyAnswer(q: Query): Answer
  {
    match q
    case RigidBodiesQuery => Bodies(map[])
    case PointCloudQuery => Cloud(NoPoints)
    case LatencyQuery => Latencies([])
    case TimeStampQuery => Stamp(0)
    case SupportsQuery(_) => Flag(false)
  }

  /**
   * The caches after the default implementation of `q` has run: the accessor's
   * own cache is empty and every other cache is as it was; `timeStamp()` and
   * the capability queries change nothing.
   */
  function Effect(c: Caches, q: Query): (after: Caches)
    ensures after == Cleared(c, [q])
  {
    match q
    case RigidBodiesQuery => c.(bodies := map[])
    case PointCloudQuery => c.(cloud := ResizeToNoRows(c.cloud))
    case LatencyQuery => c.(latencies := [])
    case TimeStampQuery => c
    case SupportsQuery(_) => c
  }

  /**
   * The value the default implementation of `q` returns: the cache it has
   * just updated, or a constant. Whatever the caches held, that is the
   * empty, zero or false value.
   */
  function Reply(c: Caches, q: Query): (a: Answer)
    ensures a == EmptyAnswer(q)
  {
    var after := Effect(c, q);
    match q
    case RigidBodiesQuery => Bodies(after.bodies)
    case PointCloudQuery => Cloud(after.cloud)
    case LatencyQuery => Latencies(after.latencies)
    case TimeStampQuery => Stamp(0)
    case SupportsQuery(_) => Flag(false)
  }

  /** Calls `qs` in order, starting from the caches `c`. */
  function Run(c: Caches, qs: seq<Query>): (o: Outcome)
    ensures |o.answers| == |qs|
    ensures o.caches.timestamp == c.timestamp
    decreases qs
  {
    if qs == [] then Outcome(c, [])
    else
      var rest := Run(Effect(c, qs[0]), qs[1..]);
      Outcome(rest.caches, [Reply(c, qs[0])] + rest.answers)
  }

  /**
   * The caches after calling every query of `qs`: each cache some call of `qs`
   * clears is empty, every other cache is as it was.
   */
  function Cleared(c: Caches, qs: seq<Query>): Caches
  {
    Caches(
      if RigidBodiesQuery in qs then map[] else c.bodies,
      if PointCloudQuery in qs then NoPoints else c.cloud,
      if LatencyQuery in qs then [] else c.latencies,
      c.timestamp)
  }

  /** Calling a default accessor a second time returns the same value and leaves the same caches. */
  lemma EffectIdempotent(c: Caches, q: Query)
    ensures Effect(Effect(c, q), q) == Effect(c, q)
    ensures Reply(Effect(c, q), q) == Reply(c, q)
  {
  }

  /** Each answer of a series of calls is the empty answer for its query. */
  lemma {:induction false} RunAnswersAreEmpty(c: Caches, qs: seq<Query>)
    ensures forall i :: 0 <= i < |qs| ==> Run(c, qs).answers[i] == EmptyAnswer(qs[i])
    decreases qs
  {
    if qs != [] {
      RunAnswersAreEmpty(Effect(c, qs[0]), qs[1..]);
    }
  }

  /** The answers to a series of calls do not depend on what the caches held. */
  lemma RunAnswersIgnoreCaches(c: Caches, d: Caches, qs: seq<Query>)
    ensures Run(c, qs).answers == Run(d, qs).answers
  {
    RunAnswersAreEmpty(c, qs);
    RunAnswersAreEmpty(d, qs);
  }

  /** A series of calls leaves exactly the caches it queried empty. */
  lemma {:induction false} RunClears(c: Caches, qs: seq<Query>)
    ensures Run(c, qs).caches == Cleared(c, qs)
    decreases qs
  {
    if qs != [] {
      var q := qs[0];
      RunClears(Effect(c, q), qs[1..]);
      assert qs == [q] + qs[1..];
      if q == PointCloudQuery {
        NoRowsIsNoPoints(Effect(c, q).cloud);
      }
    }
  }

  /** Running `a` and then `b` is running `a + b`. */
  lemma {:induction false} RunAppend(c: Caches, a: seq<Query>, b: seq<Query>)
    ensures var first := Run(c, a);
      var second := Run(first.caches, b);
      Run(c, a + b) == Outcome(second.caches, first.answers + second.answers)
    decreases a
  {
    if a == [] {
      assert a + b == b;
    } else {
      assert (a + b)[0] == a[0];
      assert (a + b)[1..] == a[1..] + b;
      RunAppend(Effect(c, a[0]), a[1..], b);
    }
  }

  /**
   * Reading the same things again between two frames returns the same data and
   * leaves the caches as the first reading left them.
   */
  lemma RunRepeated(c: Caches, qs: seq<Query>)
    ensures Run(Run(c, qs).caches, qs) == Run(c, qs)
    ensures Run(c, qs + qs) == Outcome(Run(c, qs).caches, Run(c, qs).answers + Run(c, qs).answers)
  {
    var once := Run(c, qs);
    RunClears(c, qs);
    RunClears(once.caches, qs);
    RunAnswersIgnoreCaches(once.caches, c, qs);
    RunAppend(c, qs, qs);
  }
}
