/**
 * The settlement state machine of a remote promise, on values.
 *
 * A remote promise is a promise whose `resolve` and `reject` callbacks are
 * exposed as public methods. Its state is a status (pending, fulfilled or
 * rejected) together with a slot holding the payload handed to the wrapped
 * native promise's settle callback. A settlement call first runs the `assertPending`
 * guard; only when the guard passes does it move the status and hand the
 * payload to the native settle callback.
 */
module StateMachine {

  /** The three values of the source's `PromiseStatus` type. */
  datatype Status = Pending | Fulfilled | Rejected

  /**
   * The payload handed to the captured native settle callback: nothing yet,
   * the value given to `resolve`, or the reason given to `reject`.
   */
  datatype Slot<T, E> = Empty | Value(value: T) | Reason(reason: E)

  /** Outcome of a settlement attempt: it went through, or the guard threw. */
  datatype Result = Ok | AlreadySettled(current: Status)

  /** One call made on the public settlement surface. */
  datatype Call<T, E> = ResolveCall(value: T) | RejectCall(reason: E)

  /** The observable state of one remote promise. */
  datatype PromiseState<T, E> = PromiseState(status: Status, slot: Slot<T, E>)

  /** The initial state of a freshly constructed remote promise. */
  function Initial<T, E>(): (s: PromiseState<T, E>)
    ensures s.status == Pending && s.slot == Empty
  {
    PromiseState(Pending, Empty)
  }

  /** The status and the slot agree: a slot is filled exactly when the status left pending, and with the matching kind of payload. */
  predicate Consistent<T, E>(s: PromiseState<T, E>) {
    match s.status
    case Pending => s.slot.Empty?
    case Fulfilled => s.slot.Value?
    case Rejected => s.slot.Reason?
  }

  /** The guard `assertPending`: it fails, naming the status it saw, once the promise has left pending. */
  function AssertPending(status: Status): (r: Result)
    ensures r.Ok? <==> status == Pending
    ensures r.AlreadySettled? ==> r.current == status && r.current != Pending
  {
    if status != Pending then AlreadySettled(status) else Ok
  }

  /** The state a successful call leaves behind: the call's terminal status and its payload. */
  function SettledBy<T, E>(c: Call<T, E>): (s: PromiseState<T, E>)
    ensures s.status != Pending && Consistent(s)
    ensures s.status == Fulfilled <==> c.ResolveCall?
    ensures c.ResolveCall? ==> s.slot == Value(c.value)
    ensures c.RejectCall? ==> s.slot == Reason(c.reason)
  {
    match c
    case ResolveCall(v) => PromiseState(Fulfilled, Value(v))
    case RejectCall(e) => PromiseState(Rejected, Reason(e))
  }

  /**
   * One call of `resolve` or `reject`: the guard runs first; if it throws,
   * nothing has been assigned yet, so the state is returned as it was.
   */
  function Step<T, E>(s: PromiseState<T, E>, c: Call<T, E>): (out: (PromiseState<T, E>, Result))
    ensures out.1.Ok? <==> s.status == Pending
    ensures out.1.Ok? ==> out.0 == SettledBy(c)
    ensures !out.1.Ok? ==> out == (s, AlreadySettled(s.status))
    ensures Consistent(s) ==> Consistent(out.0)
  {
    match AssertPending(s.status)
    case AlreadySettled(current) => (s, AlreadySettled(current))
    case Ok => (SettledBy(c), Ok)
  }

  /** The states before and after a sequence of settlement calls, and what each call returned. */
  function Run<T, E>(s: PromiseState<T, E>, calls: seq<Call<T, E>>): (out: (PromiseState<T, E>, seq<Result>))
    ensures |out.1| == |calls|
    decreases calls
  {
    if calls == [] then (s, [])
    else
      var (next, r) := Step(s, calls[0]);
      var (last, rs) := Run(next, calls[1..]);
      (last, [r] + rs)
  }

  /** The number of attempts in `rs` that went through. */
  function Successes(rs: seq<Result>): nat {
    if rs == [] then 0 else (if rs[0].Ok? then 1 else 0) + Successes(rs[1..])
  }

  /** The state-machine edges, reflexively closed: a settled state can only stay as it is. */
  ghost predicate Reaches<T, E>(a: PromiseState<T, E>, b: PromiseState<T, E>) {
    a == b || (a.status == Pending && b.status != Pending)
  }

  // ---------------------------------------------------------------------
  // Sequences of calls
  // ---------------------------------------------------------------------

  /** Once settled, every further call fails with the settled status and the state never changes. */
  lemma {:induction false} SettledIsInert<T, E>(s: PromiseState<T, E>, calls: seq<Call<T, E>>)
    requires s.status != Pending
    ensures Run(s, calls).0 == s
    ensures forall i :: 0 <= i < |calls| ==> Run(s, calls).1[i] == AlreadySettled(s.status)
  {
    if calls != [] {
      SettledIsInert(s, calls[1..]);
    }
  }

  /** Running `a` then `b` is running `a + b`. */
  lemma {:induction false} RunAppend<T, E>(s: PromiseState<T, E>, a: seq<Call<T, E>>, b: seq<Call<T, E>>)
    ensures Run(s, a + b) == (Run(Run(s, a).0, b).0, Run(s, a).1 + Run(Run(s, a).0, b).1)
    decreases a
  {
    if a == [] {
      assert a + b == b;
      assert Run(s, a) == (s, []);
      assert [] + Run(s, b).1 == Run(s, b).1;
    } else {
      assert (a + b)[0] == a[0];
      assert (a + b)[1..] == a[1..] + b;
      var (next, r) := Step(s, a[0]);
      RunAppend(next, a[1..], b);
      var mid := Run(next, a[1..]);
      var tail := Run(mid.0, b);
      assert Run(s, a) == (mid.0, [r] + mid.1);
      assert Run(s, a + b) == (tail.0, [r] + (mid.1 + tail.1));
      assert [r] + (mid.1 + tail.1) == ([r] + mid.1) + tail.1;
    }
  }

  /**
   * The one-shot guarantee: on a pending promise the first call succeeds and
   * decides the final state; every later call fails reporting that state's
   * status.
   */
  lemma {:induction false} OneShot<T, E>(s: PromiseState<T, E>, calls: seq<Call<T, E>>)
    requires s.status == Pending && |calls| > 0
    ensures Run(s, calls).0 == SettledBy(calls[0])
    ensures Run(s, calls).1[0] == Ok
    ensures forall i :: 1 <= i < |calls| ==> Run(s, calls).1[i] == AlreadySettled(SettledBy(calls[0]).status)
  {
    SettledIsInert(SettledBy(calls[0]), calls[1..]);
  }

  /** Every attempt on a settled promise fails, so none of them counts as a success. */
  lemma {:induction false} NoSuccessesWhenSettled<T, E>(s: PromiseState<T, E>, calls: seq<Call<T, E>>)
    requires s.status != Pending
    ensures Successes(Run(s, calls).1) == 0
  {
    if calls != [] {
      NoSuccessesWhenSettled(s, calls[1..]);
    }
  }

  /** Exactly one settlement succeeds when the promise starts pending and is called at all; otherwise none does. */
  lemma {:induction false} ExactlyOneSuccess<T, E>(s: PromiseState<T, E>, calls: seq<Call<T, E>>)
    ensures Successes(Run(s, calls).1) == (if s.status == Pending && calls != [] then 1 else 0)
  {
    if calls != [] {
      NoSuccessesWhenSettled(Step(s, calls[0]).0, calls[1..]);
    }
  }

  /**
   * The status never goes back to pending and never moves between fulfilled
   * and rejected: the final state is reached from the initial one along the
   * state machine's edges, and it is still pending only if nothing was called.
   */
  lemma {:induction false} RunFollowsEdges<T, E>(s: PromiseState<T, E>, calls: seq<Call<T, E>>)
    ensures Reaches(s, Run(s, calls).0)
    ensures Run(s, calls).0.status == Pending <==> s.status == Pending && calls == []
  {
    if calls != [] {
      if s.status == Pending {
        SettledIsInert(SettledBy(calls[0]), calls[1..]);
      } else {
        SettledIsInert(s, calls);
      }
    }
  }

  /** Status is monotonic along a run: once some prefix has settled the promise, every longer prefix leaves the same state. */
  lemma {:induction false} Monotonic<T, E>(s: PromiseState<T, E>, calls: seq<Call<T, E>>, i: nat, j: nat)
    requires i <= j <= |calls|
    ensures Reaches(Run(s, calls[..i]).0, Run(s, calls[..j]).0)
  {
    var mid := Run(s, calls[..i]).0;
    assert calls[..j] == calls[..i] + calls[i..j];
    RunAppend(s, calls[..i], calls[i..j]);
    RunFollowsEdges(mid, calls[i..j]);
  }

  /** Every state a run reaches from a consistent state is consistent. */
  lemma {:induction false} RunConsistent<T, E>(s: PromiseState<T, E>, calls: seq<Call<T, E>>)
    requires Consistent(s)
    ensures Consistent(Run(s, calls).0)
    decreases calls
  {
    if calls != [] {
      RunConsistent(Step(s, calls[0]).0, calls[1..]);
    }
  }

  // ---------------------------------------------------------------------
  // The guard's error message
  // ---------------------------------------------------------------------

  /** The string value of a `PromiseStatus`. */
  function StatusName(s: Status): (name: string)
    ensures name == "pending" <==> s == Pending
    ensures name == "fulfilled" <==> s == Fulfilled
    ensures name == "rejected" <==> s == Rejected
  {
    match s
    case Pending => "pending"
    case Fulfilled => "fulfilled"
    case Rejected => "rejected"
  }

  /** The message of the error `assertPending` throws, which interpolates the current status. */
  function ErrorMessage(current: Status): (m: string)
    ensures |m| == 31 + |StatusName(current)|
    ensures m[..30] == "This promise has already been "
    ensures m[30..|m| - 1] == StatusName(current)
    ensures m[|m| - 1] == '.'
  {
    "This promise has already been " + StatusName(current) + "."
  }

  /** The message tells the caller which status the promise is in: distinct statuses give distinct messages. */
  lemma ErrorMessageNamesStatus(a: Status, b: Status)
    ensures ErrorMessage(a) == ErrorMessage(b) <==> a == b
  {
    if a != b {
      var k := |"This promise has already been "|;
      assert ErrorMessage(a)[k] == StatusName(a)[0];
      assert ErrorMessage(b)[k] == StatusName(b)[0];
    }
  }
}
