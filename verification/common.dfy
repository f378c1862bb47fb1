/** Small shared datatypes: an optional value and the transient notice
    (message plus severity) that the evaluator shows after every action. */
module Common {

  /** A value that may be absent: `None` stands for the component's `null`
      (no candidate yet, no average yet, nothing in browser storage). */
  datatype Option<+T> = None | Some(value: T) {

    /** The present value, falling back to `default` when absent; this is
        how the component's `x || ''` reads a missing field. */
    function GetOr(default: T): T {
      match this
      case Some(v) => v
      case None => default
    }
  }

  /** The four alert styles the component uses. */
  datatype Severity = Info | Success | Warning | Danger

  /** The last alert raised. The auto-dismiss timer is not modelled, so the
      notice stays until a later action replaces it. */
  datatype Notice = Notice(message: string, severity: Severity)
}
