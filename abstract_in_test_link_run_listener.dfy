/**
  AbstractInTestLinkRunListener: the per-test failure slot the stateful
  listeners share.  testStarted resets it to the NO_FAILURE sentinel, the
  failure callbacks store the failure, and testFinished asks hasPassed(),
  which is the only way the listeners learn at that point whether the test
  failed.  The Java class is inherited; here it is an object the listeners
  hold, one sequential test context instead of a ThreadLocal.
*/
module AbstractInTestLinkRunListener {
  import opened JUnit

  /**
    What the slot holds: nothing yet (the ThreadLocal's initial null), the
    NO_FAILURE sentinel, or a stored failure.  The sentinel is compared by
    identity, so no stored failure is ever mistaken for it.
  */
  datatype Slot = Unset | NoFailure | Holds(failure: Failure)

  class FailureSlot {
    var current: Slot

    constructor()
      ensures current == Unset
    {
      current := Unset;
    }

    /** getCurrentFailure(): the value stored last. */
    method GetCurrentFailure() returns (s: Slot)
      ensures s == current
    {
      s := current;
    }

    /** setCurrentFailure(f): afterwards the test counts as not passed. */
    method SetCurrentFailure(f: Failure)
      modifies this
      ensures current == Holds(f)
      ensures !HasPassed()
    {
      current := Holds(f);
    }

    /** resetCurrentFailure(): stores the sentinel; afterwards the test counts as passed. */
    method ResetCurrentFailure()
      modifies this
      ensures current == NoFailure
      ensures HasPassed()
    {
      current := NoFailure;
    }

    /**
      hasPassed(): whether the slot holds the sentinel.  On a slot never reset
      or set `AbstractInTestLinkRunListener.hasPassed` dereferences null, so that case is excluded.
    */
    predicate HasPassed()
      reads this
      requires !current.Unset?
    {
      current.NoFailure?
    }
  }
}
