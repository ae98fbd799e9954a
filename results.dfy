/** Failure-compatible result types shared by the KAT500 driver model and the server model.
    Each constructor of Error stands for one exception the Python code raises. */
module Results {

  datatype Option<+T> = None | Some(value: T)

  /** The exceptions raised by the driver and the conditions that make them. */
  datatype Error =
    | Stalled          // the response terminator never arrives: the Python read blocks forever
    | NoResponse       // no baud rate drew a reply to the probe (IOError)
    | NotKat500        // the device does not identify as a KAT500 (IOError)
    | NoPowerStatus    // 'PS;' answered with neither PS0 nor PS1 (IOError)
    | NoMode           // 'MD;' answered with something other than a mode code (IOError)
    | InvalidMode      // set_mode called with something other than a mode code (ValueError)
    | NotAnInteger     // int() refused the payload (ValueError)
    | NotAFloat        // float() refused the payload (ValueError)
    | TuneFailed       // the older driver: 'FT;' was not echoed as FT (IOError)

  datatype Result<+T> = Ok(value: T) | Err(error: Error) {

    predicate IsFailure() {
      Err?
    }

    function PropagateFailure<U>(): Result<U>
      requires Err?
    {
      Err(error)
    }

    function Extract(): T
      requires Ok?
    {
      value
    }
  }
}
