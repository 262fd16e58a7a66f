/**
 * The value types exchanged across the capture interface: a named rigid-body
 * pose, a named latency measurement and the N x 3 marker point cloud.
 *
 * Positions, rotations and latency values are only stored and read back, never
 * computed on, so their components are plain `real`s: the model makes no claim
 * about single- or double-precision floating point.
 */
module Values {

  /** The C++ `uint64_t` used for timestamps. */
  newtype uint64 = x: int | 0 <= x < 0x1_0000_0000_0000_0000

  /** An `Eigen::Vector3f` position. */
  datatype Vector3 = Vector3(x: real, y: real, z: real)

  /** An `Eigen::Quaternionf` rotation; nothing forces it to unit length. */
  datatype Quaternion = Quaternion(w: real, x: real, y: real, z: real)

  /** Squared norm of a quaternion; 1 for a unit quaternion. */
  function SquaredNorm(q: Quaternion): real
  {
    q.w * q.w + q.x * q.x + q.y * q.y + q.z * q.z
  }

  /**
   * A rigid-body pose. The datatype constructor plays the role of the C++
   * constructor and its destructors the role of the const accessors `name()`,
   * `position()`, `rotation()` and `timestamp_ns()`.
   */
  datatype RigidBody = RigidBody(
    name: string,
    position: Vector3,
    rotation: Quaternion,
    timestampNs: uint64)

  /** A latency measurement of one pipeline stage, in seconds. */
  datatype LatencyInfo = LatencyInfo(name: string, value: real)

  /** A dense matrix stored row-major: entry (i, j) is `data[i * cols + j]`. */
  datatype Matrix = Matrix(rows: nat, cols: nat, data: seq<real>)

  predicate WellFormed(m: Matrix)
  {
    |m.data| == m.rows * m.cols
  }

  /** `Eigen::Matrix<float, Eigen::Dynamic, 3, Eigen::RowMajor>`: any number of rows, three columns. */
  type PointCloud = m: Matrix | WellFormed(m) && m.cols == 3 witness Matrix(0, 3, [])

  /** The cloud with no markers at all. */
  const NoPoints: PointCloud := Matrix(0, 3, [])

  /**
   * `resize(0, Eigen::NoChange)` on a point cloud: the row count drops to zero
   * and the column count is kept. With no rows there are no entries left.
   */
  function ResizeToNoRows(m: PointCloud): (r: PointCloud)
    ensures r.rows == 0 && r.cols == m.cols
    ensures r == NoPoints
  {
    Matrix(0, m.cols, [])
  }

  /**
   * Every point cloud of zero rows is the empty cloud: its storage is empty and
   * it still has three columns.
   */
  lemma NoRowsIsNoPoints(m: PointCloud)
    requires m.rows == 0
    ensures m == NoPoints
  {
  }

  /** Reading a pose back through its accessors yields the constructor's arguments. */
  lemma RigidBodyRoundTrip(name: string, position: Vector3, rotation: Quaternion, timestampNs: uint64)
    ensures var b := RigidBody(name, position, rotation, timestampNs);
      b.name == name && b.position == position && b.rotation == rotation && b.timestampNs == timestampNs
  {
  }

  /**
   * The rotation is stored as given: any quaternion comes back with the norm it
   * had, so one that is not of unit length stays so.
   */
  lemma RotationNotNormalised(name: string, position: Vector3, rotation: Quaternion, timestampNs: uint64)
    ensures SquaredNorm(RigidBody(name, position, rotation, timestampNs).rotation) == SquaredNorm(rotation)
    ensures var q := Quaternion(2.0, 0.0, 0.0, 0.0);
      SquaredNorm(RigidBody(name, position, q, timestampNs).rotation) == 4.0
  {
  }

  /** Reading a latency measurement back through its accessors yields the constructor's arguments. */
  lemma LatencyInfoRoundTrip(name: string, value: real)
    ensures var l := LatencyInfo(name, value);
      l.name == name && l.value == value
  {
  }
}
