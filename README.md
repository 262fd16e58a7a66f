# libmotioncapture: the capture interface and its stub backend

libmotioncapture puts motion-capture backends (optical tracking rigs, VR
trackers, marker systems) behind one polling interface, the abstract class
`MotionCapture`. The base class declares four protected `mutable` caches
(motioncapture.h:150-153): the rigid-body poses by name, the unlabelled marker
point cloud, the latency measurements and a timestamp. Backends override the
virtual accessors (lines 96-147) to supply their data; clients read it through
those accessors and ask, through four capability queries, which kinds of data
the backend supports.

This project models the header `include/libmotioncapture/motioncapture.h`:

- `values.dfy`, module `Values`: the value types. `RigidBody` (name, position,
  rotation, 64-bit timestamp) and `LatencyInfo` (name, value in seconds) are
  datatypes whose constructor and destructors stand for the C++ constructor
  and const accessors. The point cloud is a row-major matrix whose column
  count is fixed at three. `uint64` is the C++ `uint64_t`.
- `snapshot.dfy`, module `Snapshot`: the default accessors of the base class
  stated on values. `Effect` gives the caches after one call, `Reply` the value
  it returns, `Run` a whole series of calls between two frames, and
  `EmptyAnswer` the "no data" value for each kind of call. The contracts of
  `Effect` and `Reply`, and the lemmas, prove that every default accessor
  answers with no data, empties only its own cache, and that reading again
  returns the same data and leaves the same caches.
- `capture.dfy`, module `Capture`: the class `MotionCapture` with the four
  caches as fields. `RigidBodies`, `PointCloud` and `Latency` are methods that
  may modify only their own cache field, since the C++ "const" accessors clear
  or resize a `mutable` cache in place. `TimeStamp` and the four `Supports…`
  queries change nothing and are functions. The contract of each accessor and
  capability query ties it to `Snapshot.Effect` and `Snapshot.Reply`.

Two points of the header shape the model:

- The data accessors are declared `const`. `rigidBodies()` is documented as
  returning the rigid bodies of the current frame (motioncapture.h:95);
  `pointCloud()` and `latency()` as returning the point cloud and the latency
  information (lines 106, 113). Yet the defaults write to their `mutable`
  cache before returning it (lines 98, 109, 116, 150-152).
  The model therefore makes `RigidBodies`, `PointCloud` and `Latency` methods
  that modify that one field.
- The code's comment gives `timeStamp()` in microseconds, while the pose's
  field is named in nanoseconds. The model records neither unit; a timestamp
  is just a `uint64`.

## Model

| member | source | states |
|---|---|---|
| `Values.RigidBodyRoundTrip` | include/libmotioncapture/motioncapture.h:20-46 | reading `name()`, `position()`, `rotation()` and `timestamp_ns()` of a constructed pose gives back exactly the constructor's arguments |
| `Values.RotationNotNormalised` | include/libmotioncapture/motioncapture.h:20-42 | the rotation is stored as given: every quaternion comes back with its own squared norm, so one of squared norm 4 is not normalised |
| `Values.LatencyInfoRoundTrip` | include/libmotioncapture/motioncapture.h:58-73 | reading `name()` and `value()` of a constructed latency entry gives back exactly the constructor's arguments |
| `Values.ResizeToNoRows` | include/libmotioncapture/motioncapture.h:109 | `resize(0, NoChange)` leaves a cloud of zero rows that keeps its column count, which is the empty cloud |
| `Values.NoRowsIsNoPoints` | include/libmotioncapture/motioncapture.h:13 | a point cloud (any rows, three columns, row-major storage) with zero rows has no entries and is the empty cloud |
| `Snapshot.Run` | include/libmotioncapture/motioncapture.h:96-147 | a series of default calls gives one answer per call and never changes the timestamp field |
| `Snapshot.Effect` | include/libmotioncapture/motioncapture.h:96-124 | a default accessor leaves its own cache empty and every other cache as it was; `timeStamp()` and the capability queries change no cache |
| `Snapshot.Reply` | include/libmotioncapture/motioncapture.h:96-147 | whatever the caches hold, each default accessor returns the "no data" value: an empty map, a zero-row cloud, an empty list, timestamp 0, or false for a capability |
| `Snapshot.EffectIdempotent` | include/libmotioncapture/motioncapture.h:96-124 | calling a default accessor twice returns the same value and leaves the same caches as calling it once |
| `Snapshot.RunAnswersAreEmpty` | include/libmotioncapture/motioncapture.h:96-147 | in any series of default calls, the i-th answer is the "no data" value of the i-th call |
| `Snapshot.RunAnswersIgnoreCaches` | include/libmotioncapture/motioncapture.h:96-147 | the answers of a series of default calls do not depend on what the caches held before |
| `Snapshot.RunClears` | include/libmotioncapture/motioncapture.h:96-153 | after a series of default calls, exactly the caches some call cleared are empty; the others, and the timestamp field, keep their values |
| `Snapshot.RunAppend` | include/libmotioncapture/motioncapture.h:96-147 | running two series of calls one after the other is running their concatenation |
| `Snapshot.RunRepeated` | include/libmotioncapture/motioncapture.h:96-147 | repeating a series of reads between two frames returns the same answers again and leaves the caches as the first series left them |
| `Capture.MotionCapture.constructor` | include/libmotioncapture/motioncapture.h:149-153 | a fresh session has an empty rigid-body map, an empty cloud and an empty latency list; the timestamp field holds an unspecified value |
| `Capture.MotionCapture.RigidBodies` | include/libmotioncapture/motioncapture.h:96-100 | clears the rigid-body cache and returns it (an empty map); the cloud, latency and timestamp fields are unchanged |
| `Capture.MotionCapture.PointCloud` | include/libmotioncapture/motioncapture.h:107-111 | resizes the cached cloud to zero rows, still three columns, and returns it; the other fields are unchanged |
| `Capture.MotionCapture.Latency` | include/libmotioncapture/motioncapture.h:114-118 | clears the latency cache and returns it (an empty list); the other fields are unchanged |
| `Capture.MotionCapture.TimeStamp` | include/libmotioncapture/motioncapture.h:120-124 | returns 0, the "no data" timestamp, and changes no field |
| `Capture.MotionCapture.SupportsRigidBodyTracking` | include/libmotioncapture/motioncapture.h:128-132 | returns false and changes no field |
| `Capture.MotionCapture.SupportsLatencyEstimate` | include/libmotioncapture/motioncapture.h:133-137 | returns false and changes no field |
| `Capture.MotionCapture.SupportsPointCloud` | include/libmotioncapture/motioncapture.h:138-142 | returns false and changes no field |
| `Capture.MotionCapture.SupportsTimeStamp` | include/libmotioncapture/motioncapture.h:143-147 | returns false and changes no field |
| `Capture.ReadTwice` | include/libmotioncapture/motioncapture.h:96-124 | a client reading every accessor twice without a new frame gets the same data both times, and only the three cleared caches have changed |

## Left out

- `MotionCapture::connect` is only declared (lines 82-84). It is a static factory that takes a backend type string and a string-to-string configuration map. Its definition is not in the header and is not modelled.
- `waitForNextFrame()` is pure virtual and blocking. What it does belongs to the concrete backends and to concurrency, so it is not modelled.
- `rigidBodyByName` is only declared in the header, and its definition is not part of this model. No lookup or error behaviour is invented for it.
- `version()` is only declared; it returns a foreign string constant.
- Calls are modelled one at a time. The `const` accessors write shared `mutable` fields (lines 98, 109, 116), so two threads calling them on one session race in C++; a sequential model does not capture that.
- Backends that override the accessors (virtual dispatch) are not modelled; only the base-class defaults are.
- Positions, rotations and latency values are stored as `real`s and are never computed on. The model says nothing about `float`/`double` rounding.
- Eigen's `resize` is modelled only for the one call the header makes, to zero rows. Resizing to another row count leaves the coefficients undefined in Eigen.
- The accessors return a const reference to the cache. The model returns the cache's value, so it does not capture a caller seeing later changes through that reference.
- The virtual destructor has nothing to model.
- Names are Dafny strings, sequences of Unicode characters, where `std::string` holds bytes; names are only stored and compared, so they are treated as opaque. The iteration order of `std::map` (by key) is not modelled, since a Dafny `map` has none; the default accessors only ever return the empty map.
