/**
 * The `RemotePromise` class: a promise whose settlement callbacks are
 * captured at construction and re-exposed as guarded `Resolve` / `Reject`
 * methods. The native promise is represented only by the payload its settle
 * callback was handed.
 */
module Remote {
  import opened StateMachine

  class RemotePromise<T, E> {
    /** The private `_status` field. */
    var status: Status
    /** What the captured native `resolve` / `reject` callbacks were handed. */
    var slot: Slot<T, E>

    /** The object's state as a value of the state machine. */
    function Current(): PromiseState<T, E>
      reads this
    {
      PromiseState(status, slot)
    }

    /** Object invariant: status and slot agree. */
    ghost predicate Valid()
      reads this
    {
      Consistent(Current())
    }

    /** A new instance is pending and its native promise unsettled. */
    constructor ()
      ensures Valid()
      ensures Current() == Initial()
    {
      status := Pending;
      slot := Empty;
    }

    /** The `status` getter: reports the status and changes nothing. */
    method GetStatus() returns (s: Status)
      ensures s == status
    {
      s := status;
    }

    /** The `promise` getter, as far as it is modelled: the payload handed to the captured native settle callback. */
    method GetPromise() returns (p: Slot<T, E>)
      ensures p == slot
    {
      p := slot;
    }

    /** Remotely resolve: succeeds only while pending, and then records exactly `value`. */
    method Resolve(value: T) returns (r: Result)
      requires Valid()
      modifies this
      ensures Valid()
      ensures (Current(), r) == Step(old(Current()), ResolveCall(value))
      ensures r == Ok <==> old(status) == Pending
      ensures r == Ok ==> status == Fulfilled && slot == Value(value)
      ensures r != Ok ==> r == AlreadySettled(old(status)) && status == old(status) && slot == old(slot)
    {
      r := AssertPending(status);
      if r.AlreadySettled? {
        return;
      }
      status := Fulfilled;
      slot := Value(value);
    }

    /** Remotely reject: succeeds only while pending, and then records exactly `reason`. */
    method Reject(reason: E) returns (r: Result)
      requires Valid()
      modifies this
      ensures Valid()
      ensures (Current(), r) == Step(old(Current()), RejectCall(reason))
      ensures r == Ok <==> old(status) == Pending
      ensures r == Ok ==> status == Rejected && slot == Reason(reason)
      ensures r != Ok ==> r == AlreadySettled(old(status)) && status == old(status) && slot == old(slot)
    {
      r := AssertPending(status);
      if r.AlreadySettled? {
        return;
      }
      status := Rejected;
      slot := Reason(reason);
    }
  }
}
