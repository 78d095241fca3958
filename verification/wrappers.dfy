/**
 Results of the event handlers. A handler that reaches `reset` can raise;
 `None` is the game stopping there, `Some` the state it continues with.
 The three members below are the ones Dafny's `:-` operator looks for.
 */
module Wrappers {
  datatype Option<+T> = None | Some(value: T)
  {
    /** Stop at a raised exception. */
    predicate IsFailure() { None? }

    /** A raised exception stays raised, whatever the later steps would have returned. */
    function PropagateFailure<U>(): Option<U>
      requires None?
    { None }

    /** The state a handler continues with. */
    function Extract(): T
      requires Some?
    { value }
  }
}
