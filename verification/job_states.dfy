// The states of a stored job.
module JobStates {
  datatype JobState = WaitDependencies | Pending | Enqueued | Started | Done | Cancelled | Failed

  // The state in a notification. A missing one stands for done.
  datatype Notified = Missing | Present(state: JobState)

  function StateOf(notified: Notified): JobState {
    match notified
    case Missing => Done
    case Present(state) => state
  }
}
