/** Results of modelled C++ code that carries asserts and raw pointers. */
module Outcomes {

  datatype Option<+T> = None | Some(value: T)

  /** What would go wrong: a failed assert, a pointer used after delete, a system call refused, a write past an array. */
  datatype Fault = AssertFailed | Dangling | KernelRefused | Overrun

  /** Either the code runs through, or it hits one of its own asserts or a dead pointer. */
  datatype Outcome<+T> = Ok(value: T) | Crash(fault: Fault) {
    predicate IsFailure() {
      Crash?
    }
    function PropagateFailure<U>(): Outcome<U>
      requires Crash?
    {
      Crash(fault)
    }
    function Extract(): T
      requires Ok?
    {
      value
    }
  }

  /** The source's `assert(condition)`. */
  function Check(condition: bool): Outcome<()> {
    if condition then Ok(()) else Crash(AssertFailed)
  }
}
