/**
 * The capture-session base class `MotionCapture` with its default accessors:
 * what a backend that overrides nothing does.
 *
 * The class keeps the four `mutable` caches of the C++ class as fields. Its
 * "const" accessors `rigidBodies()`, `pointCloud()` and `latency()` change
 * their cache in place before returning it, so they are methods that may
 * modify exactly that one field; `timeStamp()` and the capability queries
 * change nothing and are functions. Each accessor and capability query is tied
 * to `Snapshot.Effect` and `Snapshot.Reply`, whose properties are proved in
 * module Snapshot.
 */
module Capture {
  import opened Snapshot
  import V = Values

  class MotionCapture {
    var rigidBodyCache: map<string, V.RigidBody>
    var pointCloudCache: V.PointCloud
    var latencyCache: seq<V.LatencyInfo>
    var timestamp: V.uint64

    /** The four caches as one value. */
    function Current(): Caches
      reads this
    {
      Caches(rigidBodyCache, pointCloudCache, latencyCache, timestamp)
    }

    /**
     * The implicit constructor: the map, the cloud and the list start empty;
     * the timestamp field is left uninitialised, so `indeterminate` stands for
     * whatever it happens to hold.
     */
    constructor (indeterminate: V.uint64)
      ensures Current() == Caches(map[], V.NoPoints, [], indeterminate)
    {
      rigidBodyCache := map[];
      pointCloudCache := V.NoPoints;
      latencyCache := [];
      timestamp := indeterminate;
    }

    /** Default `rigidBodies()`: clears the rigid-body cache and returns it. */
    method RigidBodies() returns (bodies: map<string, V.RigidBody>)
      modifies this`rigidBodyCache
      ensures Current() == Effect(old(Current()), RigidBodiesQuery)
      ensures Bodies(bodies) == Reply(old(Current()), RigidBodiesQuery)
      ensures bodies == map[] && rigidBodyCache == map[]
    {
      rigidBodyCache := map[];
      bodies := rigidBodyCache;
    }

    /**
     * Default `pointCloud()`: resizes the cached cloud to zero rows, keeping
     * its three columns, and returns it.
     */
    method PointCloud() returns (cloud: V.PointCloud)
      modifies this`pointCloudCache
      ensures Current() == Effect(old(Current()), PointCloudQuery)
      ensures Cloud(cloud) == Reply(old(Current()), PointCloudQuery)
      ensures cloud.rows == 0 && cloud.cols == 3 && pointCloudCache == cloud
    {
      pointCloudCache := V.ResizeToNoRows(pointCloudCache);
      cloud := pointCloudCache;
    }

    /** Default `latency()`: clears the latency list and returns it. */
    method Latency() returns (latencies: seq<V.LatencyInfo>)
      modifies this`latencyCache
      ensures Current() == Effect(old(Current()), LatencyQuery)
      ensures Latencies(latencies) == Reply(old(Current()), LatencyQuery)
      ensures latencies == [] && latencyCache == []
    {
      latencyCache := [];
      latencies := latencyCache;
    }

    /** Default `timeStamp()`: 0, whatever the timestamp field holds. */
    function TimeStamp(): (t: V.uint64)
      reads this
      ensures Effect(Current(), TimeStampQuery) == Current()
      ensures Stamp(t) == Reply(Current(), TimeStampQuery)
      ensures Stamp(t) == EmptyAnswer(TimeStampQuery)
    {
      0
    }

    /** Default `supportsRigidBodyTracking()`: not supported. */
    function SupportsRigidBodyTracking(): (supported: bool)
      reads this
      ensures Effect(Current(), SupportsQuery(RigidBodyTracking)) == Current()
      ensures Flag(supported) == Reply(Current(), SupportsQuery(RigidBodyTracking))
      ensures !supported
    {
      false
    }

    /** Default `supportsLatencyEstimate()`: not supported. */
    function SupportsLatencyEstimate(): (supported: bool)
      reads this
      ensures Effect(Current(), SupportsQuery(LatencyEstimate)) == Current()
      ensures Flag(supported) == Reply(Current(), SupportsQuery(LatencyEstimate))
      ensures !supported
    {
      false
    }

    /** Default `supportsPointCloud()`: not supported. */
    function SupportsPointCloud(): (supported: bool)
      reads this
      ensures Effect(Current(), SupportsQuery(PointCloudData)) == Current()
      ensures Flag(supported) == Reply(Current(), SupportsQuery(PointCloudData))
      ensures !supported
    {
      false
    }

    /** Default `supportsTimeStamp()`: not supported. */
    function SupportsTimeStamp(): (supported: bool)
      reads this
      ensures Effect(Current(), SupportsQuery(TimeStampData)) == Current()
      ensures Flag(supported) == Reply(Current(), SupportsQuery(TimeStampData))
      ensures !supported
    {
      false
    }
  }

  /**
   * A client that reads every accessor twice without a new frame in between:
   * the second reading returns what the first did and leaves the caches as the
   * first left them.
   */
  method ReadTwice(session: MotionCapture)
    returns (first: seq<Answer>, second: seq<Answer>)
    modifies session
    ensures first == second
    ensures session.Current() == Cleared(old(session.Current()), [RigidBodiesQuery, PointCloudQuery, LatencyQuery])
  {
    var b1 := session.RigidBodies();
    var c1 := session.PointCloud();
    var l1 := session.Latency();
    var once := session.Current();
    first := [Bodies(b1), Cloud(c1), Latencies(l1), Stamp(session.TimeStamp())];
    var b2 := session.RigidBodies();
    var c2 := session.PointCloud();
    var l2 := session.Latency();
    second := [Bodies(b2), Cloud(c2), Latencies(l2), Stamp(session.TimeStamp())];
    assert session.Current() == once;
  }
}
