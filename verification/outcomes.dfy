/** Optional values and the Python exceptions that escape the modelled functions. */
module Outcomes {

  datatype Option<+T> = None | Some(value: T)

  /** The exceptions the core lets propagate to its caller. */
  datatype Exception =
    | IndexError          // `split()[0]` on a command with no token
    | ValueError(msg: string)
    | ProvisioningError   // the isolated environment could not be set up
    | WriteError          // writing the temporary file failed (an encoding error, a full disk)
    | FileNotFound        // `os.remove` of a file that is already gone
    | NameError(name: string)

  /** A Python call either returns a value or raises. */
  datatype Result<+T> = Returned(value: T) | Raised(exc: Exception)
}
