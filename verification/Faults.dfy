// How a call out of a service can end.
module Faults {

  /** Lost: the call took effect, and the caller is told that it failed. Since the callers give up
      on every error, Refused and Lost are also the two ways in which a process can die at a call. */
  datatype Outcome = Done | Refused | Lost
}
