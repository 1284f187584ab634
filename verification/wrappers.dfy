/** Failure-carrying wrappers for the terrain core. The C# source signals
    failure only through runtime exceptions (an array index outside its
    bounds); the model makes each such exception an explicit value. */
module Wrappers {

  datatype Option<+T> = None | Some(value: T)

  /** The runtime faults the core can raise. */
  datatype Fault = IndexOutOfRange

  /** The result of a read or write that either succeeds or throws before
      changing anything. */
  datatype Result<+T> = Ok(value: T) | Err(fault: Fault)

  /** The result of a call that may throw part-way through: the effects it
      made before the throw persist, so both variants carry the state
      reached. The engine aborts the current callback on a throw and keeps
      running with that state. */
  datatype Outcome<+T> = Completed(state: T) | Threw(state: T, fault: Fault)
}
