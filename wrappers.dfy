/** Failure-compatible wrappers used throughout the model. */
module Wrappers {
  /** An optional value: a C++ null pointer or unset environment variable is None. */
  datatype Option<+T> = None | Some(value: T)

  /** The outcome of an operation that may end the process with a fatal error. */
  datatype Result<+T, +E> = Ok(value: T) | Err(error: E)
}

/** The fatal conditions of the OpenCL runtime. In the program each of them
    terminates the process (LOG(FATAL), a failed MACE_CHECK or an uncaught
    std::out_of_range); the model returns them as values instead. */
module Errors {
  datatype Fatal =
    | NoPlatforms                                  // "No OpenCL platforms found"
    | NoDevices                                    // "No OpenCL devices found"
    | NoGpu                                        // "No GPU device found"
    | VersionOutOfRange                            // std::string::substr past the end
    | ProgramNotFound(key: string)                 // GetSourceOrBinaryProgram found nothing
    | BuildFailed(key: string, fromBinary: bool)   // program->build did not succeed
}
