/** Small shared vocabulary of the dashboard model. */
module Base {

  /** A value that may be absent: a diagnostics query that answered "no data",
      a request field that was not sent, or a JSON `null`. */
  datatype Option<+T> = None | Some(value: T)

  /** An abstract wall-clock reading; the formatting of times into text is not modelled. */
  type Stamp = int
}
