/** Values shared by both reconcilers: optional values, results of remote
    calls, the diagnostics the provider reports, and what an operation hands
    back to the hosting framework. */
module Framework {

  datatype Option<+T> = None | Some(value: T)

  /** The outcome of a remote call or a parse: a value, or the error text
      (`err.Error()` in the source). */
  datatype Result<+T> = Ok(value: T) | Err(message: string)

  /** An error diagnostic: its summary and its detail text. */
  datatype Diagnostic = Diagnostic(summary: string, detail: string)

  /** What a resource operation leaves behind for the framework:
      - SetState: the new persisted state;
      - RemoveResource: the resource is dropped from state, with no error;
      - Done: the operation returned without error and set nothing (Delete);
      - Failed: an error diagnostic was reported and nothing was persisted;
      - Panicked: the Go code indexes out of range at run time. */
  datatype Outcome<+M> =
    | SetState(state: M)
    | RemoveResource
    | Done
    | Failed(diagnostic: Diagnostic)
    | Panicked

  /** `types.String.ValueString()`: a null or unknown value reads as "". */
  function ValueString(s: Option<string>): string {
    match s
    case Some(v) => v
    case None => ""
  }
}
