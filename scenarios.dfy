/**
 * Clients of `RemotePromise` that use nothing but its contracts: the
 * behaviours the repository's tests check, stated for every payload.
 */
module Scenarios {
  import opened StateMachine
  import opened Remote

  /** Issue one call on `p` through its public surface. */
  method Issue<T, E>(p: RemotePromise<T, E>, c: Call<T, E>) returns (r: Result)
    requires p.Valid()
    modifies p
    ensures p.Valid()
    ensures (p.Current(), r) == Step(old(p.Current()), c)
  {
    match c
    case ResolveCall(v) =>
      r := p.Resolve(v);
    case RejectCall(e) =>
      r := p.Reject(e);
  }

  /** Issue a whole sequence of calls on one object: its state follows `Run`, one call at a time. */
  method IssueAll<T, E>(p: RemotePromise<T, E>, calls: seq<Call<T, E>>) returns (rs: seq<Result>)
    requires p.Valid()
    modifies p
    ensures p.Valid()
    ensures (p.Current(), rs) == Run(old(p.Current()), calls)
  {
    rs := [];
    var i := 0;
    while i < |calls|
      invariant 0 <= i <= |calls|
      invariant p.Valid()
      invariant (p.Current(), rs) == Run(old(p.Current()), calls[..i])
    {
      ghost var before := p.Current();
      var r := Issue(p, calls[i]);
      RunAppend(old(p.Current()), calls[..i], [calls[i]]);
      assert calls[..i + 1] == calls[..i] + [calls[i]];
      assert [calls[i]][1..] == [];
      assert Run(p.Current(), []) == (p.Current(), []);
      assert [r] + [] == [r];
      assert Run(before, [calls[i]]) == (p.Current(), [r]);
      rs := rs + [r];
      i := i + 1;
    }
    assert calls[..|calls|] == calls;
  }

  /**
   * Any sequence of calls on a fresh instance: exactly one succeeds if there
   * is any call at all, the first; it fixes status and payload, and every
   * later call fails naming that status.
   */
  method SettleMany<T, E>(calls: seq<Call<T, E>>) returns (rs: seq<Result>, st: Status, slot: Slot<T, E>)
    ensures |rs| == |calls|
    ensures Successes(rs) == (if calls == [] then 0 else 1)
    ensures calls == [] ==> st == Pending && slot == Empty
    ensures calls != [] ==> PromiseState(st, slot) == SettledBy(calls[0]) && rs[0] == Ok
    ensures forall i :: 1 <= i < |rs| ==> rs[i] == AlreadySettled(st)
  {
    var p := new RemotePromise<T, E>();
    rs := IssueAll(p, calls);
    st := p.GetStatus();
    slot := p.GetPromise();
    ExactlyOneSuccess(Initial<T, E>(), calls);
    if calls != [] {
      OneShot(Initial<T, E>(), calls);
    }
  }

  /** A fresh instance is pending with nothing recorded. */
  method FreshIsPending<T, E>() returns (st: Status, slot: Slot<T, E>)
    ensures st == Pending && slot == Empty
  {
    var p := new RemotePromise<T, E>();
    st := p.GetStatus();
    slot := p.GetPromise();
  }

  /**
   * Settling a fresh instance succeeds, moves it to the call's terminal
   * status and records exactly the call's payload.
   */
  method SettleFresh<T, E>(c: Call<T, E>) returns (r: Result, st: Status, slot: Slot<T, E>)
    ensures r == Ok
    ensures st == (if c.ResolveCall? then Fulfilled else Rejected)
    ensures slot == (if c.ResolveCall? then Value(c.value) else Reason(c.reason))
  {
    var p := new RemotePromise<T, E>();
    r := Issue(p, c);
    st := p.GetStatus();
    slot := p.GetPromise();
  }

  /**
   * Every combination of two settlement calls: the second fails, names the
   * status the first one set, and leaves that status and payload in place.
   */
  method SettleTwice<T, E>(first: Call<T, E>, second: Call<T, E>) returns (r1: Result, r2: Result, st: Status, slot: Slot<T, E>)
    ensures r1 == Ok
    ensures st == (if first.ResolveCall? then Fulfilled else Rejected)
    ensures r2 == AlreadySettled(st)
    ensures slot == (if first.ResolveCall? then Value(first.value) else Reason(first.reason))
  {
    var p := new RemotePromise<T, E>();
    r1 := Issue(p, first);
    r2 := Issue(p, second);
    st := p.GetStatus();
    slot := p.GetPromise();
  }
}
