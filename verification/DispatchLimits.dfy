/** The dispatcher's constants (dispatch/dispatcher.go); durations in milliseconds. */
module DispatchLimits {
  const READ_COUNT: nat := 10             // messages per XREADGROUP or XAUTOCLAIM
  const MAX_DRAIN_BATCHES: nat := 20
  const CLAIM_MIN_IDLE: nat := 60_000
  const SWEEP_INTERVAL: nat := CLAIM_MIN_IDLE
  const HANDLE_TIMEOUT: nat := 15_000
  const REAP_MIN_IDLE: nat := 5 * CLAIM_MIN_IDLE

  /** How one drain or reclaim ends. */
  datatype Stop = Exhausted | CommandFailed | Cancelled
}
