/** Option and Result wrappers, and the faults the state manager raises. */
module Outcomes {

  datatype Option<T> = None | Some(value: T)

  /** What a Python call of the state manager raises instead of returning. */
  datatype Fault =
    | InvalidAddress(address: string)     // ValueError: "Invalid resource address format"
    | InvalidNewAddress(address: string)  // ValueError: "Invalid new address format"
    | AlreadyExists(address: string)      // ValueError: "Resource already exists at address"
    | NotAnObject                         // ValueError: "State file must contain a JSON object"
    | MissingResourcesKey                 // ValueError: "State file missing 'resources' key"
    | TypeError                           // a value of the wrong JSON kind was iterated, indexed or measured
    | AttributeError                      // `.get` was called on something that is not a dict

  /** Either the value a call returns or the fault it raises. */
  datatype Result<T> = Ok(value: T) | Err(fault: Fault)
}
