/** Value wrappers for Java's null references and exceptions. */
module Wrappers {

  /** A reference that may be null. */
  datatype Option<+T> = None | Some(value: T)

  /** The unchecked exceptions the modelled code lets escape to its caller. */
  datatype JavaException = NullPointerException | NumberFormatException

  /** How a Java call ends: it returns a value, or an exception propagates out of it. */
  datatype Outcome<+T> = Returned(value: T) | Threw(exception: JavaException)
}
