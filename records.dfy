/** The persisted records and the Bluetooth connection states. */
module Records {
  import opened Wrappers

  /** A stored workout; `id` is the key the database assigned, absent before it is stored. */
  datatype Workout = Workout(
    id: Option<int>,
    startTimeMillis: int,
    durationSeconds: int,
    avgHeartRate: Option<int>,
    jumpCount: Option<int>,
    jumpTimeSeconds: Option<int>)

  /** A periodic snapshot of a session, tagged with its workout's key once that is known. */
  datatype WorkoutSample = WorkoutSample(
    workoutId: int,
    timestampMillis: int,
    heartRate: Option<int>,
    jumpCount: int)

  datatype ConnectionState = Disconnected | Scanning | Connecting | Connected
}
