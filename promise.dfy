/** The SyncPromise object. Construction is the one step that changes state in
    place: the new instance starts pending, its resolver is called once with two
    callbacks that settle the instance's status/value cell, and a throw from
    the resolver is trapped as a rejection. `then` and `catch` never touch the
    receiver; each returns a new instance built from the receiver's state. */
module Promise {
  import opened Values
  import Chain

  class SyncPromise {
    /** The status/value cell the settle callbacks write. */
    var state: Chain.Settlement
    /** How many times the resolver has been called. */
    ghost var resolverCalls: nat

    /** `new SyncPromise(resolver)`: runs the resolver once, synchronously,
        handing it the callbacks `Resolve` and `Reject`. */
    constructor (resolver: Chain.ResolverRun)
      ensures state == Chain.Settle(resolver)
      ensures resolverCalls == 1
    {
      state := Chain.Pending;
      resolverCalls := 0;
      new;
      // The one call of the resolver: each arm is one thing it may do.
      match resolver
      case ResolveWith(v) =>
        resolverCalls := resolverCalls + 1;
        Resolve(v);
      case RejectWith(v) =>
        resolverCalls := resolverCalls + 1;
        Reject(v);
      case Noop =>
        resolverCalls := resolverCalls + 1;
      case Abort(e) =>
        resolverCalls := resolverCalls + 1;
        Reject(e);  // the throw is trapped and rejects the instance
    }

    /** The first settle callback: settles a pending instance as resolved. */
    method Resolve(v: Value)
      requires state == Chain.Pending
      modifies this`state
      ensures state == Chain.Resolved(v)
    {
      state := Chain.Resolved(v);
    }

    /** The second settle callback: settles a pending instance as rejected. */
    method Reject(v: Value)
      requires state == Chain.Pending
      modifies this`state
      ensures state == Chain.Rejected(v)
    {
      state := Chain.Rejected(v);
    }

    /** The argument check in front of the constructor: a missing or
        non-callable resolver throws, and the resolver is then never called. */
    static method Create(resolver: Arg<Chain.ResolverRun>) returns (r: Result<SyncPromise>)
      ensures r.Ok? <==> resolver.Callable?
      ensures r.Err? ==> r.error == InvalidArgument
      ensures r.Ok? ==> fresh(r.value) && r.value.state == Chain.Settle(resolver.f)
      ensures r.Ok? ==> r.value.resolverCalls == 1
    {
      if !resolver.Callable? {
        return Err(InvalidArgument);
      }
      var p := new SyncPromise(resolver.f);
      r := Ok(p);
    }

    /** `then(onResolved)`: a new instance whose state is what `Chain.Then`
        gives; an error is thrown where `Chain.Then` throws one. */
    method Then(onResolved: Arg<Chain.Transform>) returns (r: Result<SyncPromise>)
      ensures r.Ok? <==> Chain.Then(state, onResolved).result.Ok?
      ensures r.Err? ==> r.error == Chain.Then(state, onResolved).result.error
      ensures r.Ok? ==> fresh(r.value) && r.value.state == Chain.Then(state, onResolved).result.value
    {
      if !onResolved.Callable? {
        return Err(InvalidArgument);
      }
      match state
      case Pending =>
        r := Err(IllegalState);
      case Resolved(v) =>
        Chain.ForwardSettles(onResolved.f(v));
        var p := new SyncPromise(Chain.Forward(onResolved.f(v)));
        r := Ok(p);
      case Rejected(v) =>
        var p := new SyncPromise(Chain.RejectWith(v));
        r := Ok(p);
    }

    /** `catch(onRejected)`: a new instance whose state is what `Chain.Catch`
        gives; an error is thrown where `Chain.Catch` throws one. */
    method Catch(onRejected: Arg<Chain.Transform>) returns (r: Result<SyncPromise>)
      ensures r.Ok? <==> Chain.Catch(state, onRejected).result.Ok?
      ensures r.Err? ==> r.error == Chain.Catch(state, onRejected).result.error
      ensures r.Ok? ==> fresh(r.value) && r.value.state == Chain.Catch(state, onRejected).result.value
    {
      if !onRejected.Callable? {
        return Err(InvalidArgument);
      }
      match state
      case Pending =>
        r := Err(IllegalState);
      case Resolved(v) =>
        var p := new SyncPromise(Chain.ResolveWith(v));
        r := Ok(p);
      case Rejected(v) =>
        Chain.ForwardSettles(onRejected.f(v));
        var p := new SyncPromise(Chain.Forward(onRejected.f(v)));
        r := Ok(p);
    }

    /** `finally(onFinally)`: calls the observer with `{status, value}` read
        from the cell and completes as the observer does. */
    method Finally(onFinally: Arg<Chain.Observer>) returns (r: Result<Outcome>)
      ensures r == Chain.Finally(state, onFinally).result
      ensures r.Ok? ==> onFinally.Callable? && r.value == onFinally.f(Chain.SnapshotOf(state))
    {
      if !onFinally.Callable? {
        return Err(InvalidArgument);
      }
      r := Ok(onFinally.f(Chain.SnapshotOf(state)));
    }
  }
}
