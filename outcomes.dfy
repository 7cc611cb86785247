/** Error values and failure-compatible results shared by the host model and the prereq state.
    Every exception the Python `PrereqState` raises (or lets propagate) becomes a `Fail` value. */
module Outcomes {

  /** Why a step aborted the encryption workflow. */
  datatype Error =
    | UnsupportedDistro(family: string, version: string)   // the distro gate rejected the host
    | InstallExtrasFailed                                   // the distro patcher's package installation raised
    | UnitFileUnreadable(path: string)                      // opening the unit file for reading raised
    | HookScriptNotFound(path: string)                      // the hook script source does not exist
    | BootScriptNotFound(path: string)                      // the boot script source does not exist
    | CommandFailed(command: string)                        // a command whose failure raises exited non-zero

  /** The end of a step that returns nothing on success. */
  datatype Outcome = Pass | Fail(error: Error)

  /** The end of a step that yields a value on success. */
  datatype Result<T> = Ok(value: T) | Err(error: Error)
}
