/** Optional values and the two ways a Java call can end: by returning or by throwing. */
module Wrappers {

  /** A Java reference that may be null. */
  datatype Option<+T> = None | Some(value: T)

  /** How a call ended: it returned `value`, or it threw `failure`. */
  datatype Outcome<+T, +F> = Normal(value: T) | Thrown(failure: F)

  /**
   * Java's `try { body } finally { cleanup }`: when the cleanup throws, its exception replaces
   * whatever the body returned or threw; otherwise the body's outcome stands.
   */
  function Finally<T, F>(body: Outcome<T, F>, cleanup: Option<F>): Outcome<T, F> {
    match cleanup
    case Some(f) => Thrown(f)
    case None => body
  }
}
