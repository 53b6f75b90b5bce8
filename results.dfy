/** Outcome types shared by every version of the script. */
module Results {

  /** A value or Python's `None`. */
  datatype Option<+T> = None | Some(value: T)

  /**
   * The outcome of one operation of the script: it returns a value, it
   * stops the process with `SystemExit(message)`, or it raises an exception
   * nobody catches (AttributeError on a missing node, IndexError, KeyError,
   * a failed `int()`, an unbound local).
   */
  datatype Res<+T> = Ok(value: T) | Exit(message: string) | Crash

  /** A failed outcome passed on unchanged by a caller that does not catch it. */
  function Propagate<T, U>(r: Res<T>): (u: Res<U>)
    requires !r.Ok?
    ensures u.Exit? <==> r.Exit?
    ensures u.Exit? ==> u.message == r.message
    ensures u.Crash? <==> r.Crash?
  {
    if r.Exit? then Exit(r.message) else Crash
  }
}
