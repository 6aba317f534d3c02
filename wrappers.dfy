/** Optional values and failures, for JavaScript's `undefined` and rejected promises. */
module Wrappers {

  /** `None` stands for a JavaScript `undefined`. */
  datatype Option<+T> = None | Some(value: T)

  /** The ways resolving a start can fail. Each one ends the process. */
  datatype Error =
    | NoDevicesFound        // the device loader returned an empty list
    | BrainDiscoveryFailed  // the SDK's discovery promise was rejected

  /** A settled promise: fulfilled with a value, or rejected with an error. */
  datatype Result<+T> = Ok(value: T) | Err(error: Error)
}
