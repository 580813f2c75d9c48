/** The shared vocabulary between the poller and its observers. */
module QueueStates {

  datatype QueueState = NotQueued | InQueue

  /** The value of the `queue_state` field that means "waiting in the server's queue". */
  const InQueueSignal: string := "in_queue"
}
