/**
  Optional values, results and the error kinds of open-url.

  The program reports every failure through one error-report type; the model
  keeps only the kind of each error (and the one piece of context a caller can
  observe, the pattern or script name), not the wording of its message.
 */
module Results {

  datatype Option<+T> = None | Some(value: T)

  /** The ways loading the configuration or dispatching a URL can fail. */
  datatype Error =
    | BaseDirError             // the per-application configuration directory could not be determined
    | ConfigReadError          // config.toml was found but could not be read
    | ConfigParseError         // config.toml was read but is not a valid configuration
    | PatternError(pattern: string)  // a handler's pattern is not a valid regular expression
    | ScriptNotFound(script: string) // no file scripts/<script> exists under the configuration root
    | SpawnError               // the script's process could not be started
    | WaitError                // waiting for the started process failed
    | DefaultHandlerFailed     // the _default script ran and exited unsuccessfully

  /** The result of a step that can fail; `Err` propagates to the caller unchanged. */
  datatype Result<+T> = Ok(value: T) | Err(error: Error)
}
