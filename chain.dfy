/** The state machine of a SyncPromise as values: its three states, the
    snapshot `{status, value}` handed to `finally`, how a resolver settles a new
    promise, and the operators `then`, `catch` and `finally` as functions of the
    current state. A chain of `then`/`catch` links is a sequence of steps run
    one after the other. */
module Chain {
  import opened Values

  /** The three states, `'Pending'`, `'Resolved'` and `'Rejected'`; the two
      settled ones carry their value. */
  datatype Settlement = Pending | Resolved(value: Value) | Rejected(value: Value)
  {
    predicate Settled() { !Pending? }
  }

  /** The record `{status, value}` that `finally` passes to its observer. */
  datatype Snapshot = Snapshot(status: string, value: Value)

  /** A function given to `then` or `catch`. */
  type Transform = Value -> Outcome

  /** A function given to `finally`. */
  type Observer = Snapshot -> Outcome

  /** What a resolver does when it is called with the two settle callbacks
      `(resolve, reject)`: call `resolve(v)`, call `reject(v)`, call neither
      and return, or throw. These are the test helpers `resolve`, `reject`,
      `noop` and `abort`. */
  datatype ResolverRun =
    | ResolveWith(value: Value)
    | RejectWith(value: Value)
    | Noop
    | Abort(thrown: Value)

  /** The outcome of a call into user code, with a throw trapped as a
      rejection: the state of the promise that call settles. */
  function Trap(o: Outcome): (s: Settlement)
    ensures s.Settled()
    ensures s.Resolved? <==> o.Returned?
    ensures o.Returned? ==> s.value == o.result
    ensures o.Threw? ==> s.value == o.thrown
  {
    match o
    case Returned(v) => Resolved(v)
    case Threw(e) => Rejected(e)
  }

  /** The state a new promise has once its resolver has run. */
  function Settle(run: ResolverRun): (s: Settlement)
    ensures s.Pending? <==> run.Noop?
  {
    match run
    case ResolveWith(v) => Resolved(v)
    case RejectWith(v) => Rejected(v)
    case Noop => Pending
    case Abort(e) => Trap(Threw(e))
  }

  /** The resolver a derived promise is built with: it settles the new promise
      with the outcome of a call into user code. */
  function Forward(o: Outcome): (run: ResolverRun)
    ensures !run.Noop?
  {
    match o
    case Returned(v) => ResolveWith(v)
    case Threw(e) => Abort(e)
  }

  lemma ForwardSettles(o: Outcome)
    ensures Settle(Forward(o)) == Trap(o)
  {
  }

  /** The status string an observer sees. */
  function StatusName(s: Settlement): (name: string)
  {
    match s
    case Pending => "Pending"
    case Resolved(_) => "Resolved"
    case Rejected(_) => "Rejected"
  }

  /** The snapshot of a state: its status name and its value, `undefined`
      while pending. */
  function SnapshotOf(s: Settlement): (snap: Snapshot)
    ensures s.Pending? ==> snap.value == Undefined
    ensures s.Settled() ==> snap.value == s.value
  {
    Snapshot(StatusName(s), if s.Pending? then Undefined else s.value)
  }

  /** Reads a state back from a snapshot; `None` for a status that is none of
      the three, or a pending snapshot with a value. */
  function FromSnapshot(snap: Snapshot): (s: Option<Settlement>)
  {
    if snap.status == "Pending" && snap.value == Undefined then Some(Pending)
    else if snap.status == "Resolved" then Some(Resolved(snap.value))
    else if snap.status == "Rejected" then Some(Rejected(snap.value))
    else None
  }

  /** A snapshot loses nothing: the state can be read back from it. */
  lemma SnapshotRoundTrip(s: Settlement)
    ensures FromSnapshot(SnapshotOf(s)) == Some(s)
  {
  }

  /** Distinct states give distinct snapshots. */
  lemma SnapshotInjective(s: Settlement, t: Settlement)
    requires SnapshotOf(s) == SnapshotOf(t)
    ensures s == t
  {
  }

  /** What an operator call does: its result, or the error it throws, and the
      arguments the user function given to it was invoked with, one entry per
      invocation. */
  datatype Reply<T, A> = Reply(result: Result<T>, invocations: seq<A>)

  function Refused<T, A>(e: Error): (r: Reply<T, A>)
  {
    Reply(Err(e), [])
  }

  /** `then(onResolved)`: the argument is checked first; a pending promise
      throws; a resolved one calls `onResolved` with its value and settles the
      new promise with the outcome; a rejected one is passed through. */
  function Then(s: Settlement, onResolved: Arg<Transform>): (r: Reply<Settlement, Value>)
    ensures r.result.Ok? <==> onResolved.Callable? && s.Settled()
    ensures r.result.Ok? ==> r.result.value.Settled()
    ensures |r.invocations| == if r.result.Ok? && s.Resolved? then 1 else 0
  {
    if !onResolved.Callable? then Refused(InvalidArgument)
    else
      match s
      case Pending => Refused(IllegalState)
      case Resolved(v) => Reply(Ok(Trap(onResolved.f(v))), [v])
      case Rejected(_) => Reply(Ok(s), [])
  }

  /** `catch(onRejected)`: the mirror image of `then`; a rejected promise calls
      `onRejected` with its value (a normal return recovers to resolved), a
      resolved one is passed through. */
  function Catch(s: Settlement, onRejected: Arg<Transform>): (r: Reply<Settlement, Value>)
    ensures r.result.Ok? <==> onRejected.Callable? && s.Settled()
    ensures r.result.Ok? ==> r.result.value.Settled()
    ensures |r.invocations| == if r.result.Ok? && s.Rejected? then 1 else 0
  {
    if !onRejected.Callable? then Refused(InvalidArgument)
    else
      match s
      case Pending => Refused(IllegalState)
      case Resolved(_) => Reply(Ok(s), [])
      case Rejected(v) => Reply(Ok(Trap(onRejected.f(v))), [v])
  }

  /** `finally(onFinally)`: valid in every state; calls the observer with the
      snapshot and completes as the observer does (its return value is
      returned, its throw is not trapped). */
  function Finally(s: Settlement, onFinally: Arg<Observer>): (r: Reply<Outcome, Snapshot>)
    ensures r.result.Ok? <==> onFinally.Callable?
    ensures |r.invocations| == if onFinally.Callable? then 1 else 0
  {
    if !onFinally.Callable? then Refused(InvalidArgument)
    else Reply(Ok(onFinally.f(SnapshotOf(s))), [SnapshotOf(s)])
  }

  // ---------------------------------------------------------------------
  // The operators one by one

  /** A missing or non-callable argument is refused in every state, before
      anything is invoked. */
  lemma ArgumentChecked(s: Settlement, bad: Value)
    ensures Then(s, Missing) == Refused(InvalidArgument)
    ensures Then(s, NotCallable(bad)) == Refused(InvalidArgument)
    ensures Catch(s, Missing) == Refused(InvalidArgument)
    ensures Catch(s, NotCallable(bad)) == Refused(InvalidArgument)
    ensures Finally(s, Missing) == Refused(InvalidArgument)
    ensures Finally(s, NotCallable(bad)) == Refused(InvalidArgument)
  {
  }

  /** On a pending promise `then` and `catch` throw without calling their
      function, while `finally` calls its observer with
      `{status: 'Pending', value: undefined}` and returns what it returns. */
  lemma PendingBehaviour(f: Transform, obs: Observer)
    ensures Then(Pending, Callable(f)) == Refused(IllegalState)
    ensures Catch(Pending, Callable(f)) == Refused(IllegalState)
    ensures Finally(Pending, Callable(obs)).invocations == [Snapshot("Pending", Undefined)]
    ensures Finally(Pending, Callable(obs)).result == Ok(obs(Snapshot("Pending", Undefined)))
  {
  }

  /** `then` on a resolved promise calls its function once, with the current
      value; a return resolves the new promise, a throw rejects it. */
  lemma ThenOnResolved(v: Value, f: Transform)
    ensures Then(Resolved(v), Callable(f)).invocations == [v]
    ensures f(v).Returned? ==> Then(Resolved(v), Callable(f)).result == Ok(Resolved(f(v).result))
    ensures f(v).Threw? ==> Then(Resolved(v), Callable(f)).result == Ok(Rejected(f(v).thrown))
  {
  }

  /** `then` on a rejected promise does not call its function and passes the
      rejection through unchanged. */
  lemma ThenOnRejected(v: Value, f: Transform)
    ensures Then(Rejected(v), Callable(f)) == Reply(Ok(Rejected(v)), [])
  {
  }

  /** `catch` on a rejected promise calls its function once, with the current
      value; a return recovers the new promise to resolved, a throw rejects it. */
  lemma CatchOnRejected(v: Value, f: Transform)
    ensures Catch(Rejected(v), Callable(f)).invocations == [v]
    ensures f(v).Returned? ==> Catch(Rejected(v), Callable(f)).result == Ok(Resolved(f(v).result))
    ensures f(v).Threw? ==> Catch(Rejected(v), Callable(f)).result == Ok(Rejected(f(v).thrown))
  {
  }

  /** `catch` on a resolved promise does not call its function and passes the
      resolution through unchanged. */
  lemma CatchOnResolved(v: Value, f: Transform)
    ensures Catch(Resolved(v), Callable(f)) == Reply(Ok(Resolved(v)), [])
  {
  }

  /** `finally` calls its observer exactly once with the current snapshot and
      returns the observer's completion verbatim, a throw included. */
  lemma FinallyObserves(s: Settlement, obs: Observer)
    ensures Finally(s, Callable(obs)).invocations == [SnapshotOf(s)]
    ensures Finally(s, Callable(obs)).result == Ok(obs(SnapshotOf(s)))
  {
  }

  // ---------------------------------------------------------------------
  // Chains of `then` and `catch`

  /** One link of a chain. */
  datatype Step = ThenStep(fn: Arg<Transform>) | CatchStep(fn: Arg<Transform>)

  function Apply(s: Settlement, step: Step): (r: Reply<Settlement, Value>)
  {
    match step
    case ThenStep(f) => Then(s, f)
    case CatchStep(f) => Catch(s, f)
  }

  /** Runs the links in order; the first link that throws ends the chain with
      that error. The invocations of all links are collected in order. */
  function Run(s: Settlement, steps: seq<Step>): (r: Reply<Settlement, Value>)
    ensures |r.invocations| <= |steps|
    decreases |steps|
  {
    if steps == [] then Reply(Ok(s), [])
    else
      var first := Apply(s, steps[0]);
      match first.result
      case Err(_) => first
      case Ok(next) =>
        var rest := Run(next, steps[1..]);
        Reply(rest.result, first.invocations + rest.invocations)
  }

  /** Runs a chain after a reply: an error stops it, a state continues it. */
  function Continue(prior: Reply<Settlement, Value>, steps: seq<Step>): (r: Reply<Settlement, Value>)
  {
    match prior.result
    case Err(_) => prior
    case Ok(s) =>
      var rest := Run(s, steps);
      Reply(rest.result, prior.invocations + rest.invocations)
  }

  /** One link, then the rest of the chain. */
  lemma RunFirst(s: Settlement, step: Step, rest: seq<Step>)
    ensures Run(s, [step] + rest) == Continue(Apply(s, step), rest)
  {
  }

  ghost predicate AllCallable(steps: seq<Step>)
  {
    forall i :: 0 <= i < |steps| ==> steps[i].fn.Callable?
  }

  /** Chains compose link by link: running `a + b` is running `a`, then `b`
      on what `a` left. */
  lemma {:induction false} RunAppend(s: Settlement, a: seq<Step>, b: seq<Step>)
    ensures Run(s, a + b) == Continue(Run(s, a), b)
    decreases |a|
  {
    if a == [] {
      assert a + b == b;
    } else {
      assert (a + b)[0] == a[0];
      assert (a + b)[1..] == a[1..] + b;
      var first := Apply(s, a[0]);
      if first.result.Ok? {
        RunAppend(first.result.value, a[1..], b);
        var ra := Run(first.result.value, a[1..]);
        if ra.result.Ok? {
          var rb := Run(ra.result.value, b);
          assert first.invocations + (ra.invocations + rb.invocations)
              == (first.invocations + ra.invocations) + rb.invocations;
        }
      }
    }
  }

  /** A throw inside any link never escapes: from a settled state a chain of
      callable links always yields a settled state. */
  lemma {:induction false} RunFromSettled(s: Settlement, steps: seq<Step>)
    requires s.Settled()
    requires AllCallable(steps)
    ensures Run(s, steps).result.Ok?
    ensures Run(s, steps).result.value.Settled()
    decreases |steps|
  {
    if steps != [] {
      var first := Apply(s, steps[0]);
      assert first.result.Ok?;
      assert AllCallable(steps[1..]) by {
        forall i | 0 <= i < |steps[1..]| ensures steps[1..][i].fn.Callable? {
          assert steps[1..][i] == steps[i + 1];
        }
      }
      RunFromSettled(first.result.value, steps[1..]);
    }
  }

  /** `then` and `catch` never produce a pending promise: a non-empty chain
      that does not throw ends settled, whatever state it started in. */
  lemma {:induction false} RunNeverPends(s: Settlement, steps: seq<Step>)
    requires steps != []
    ensures Run(s, steps).result.Ok? ==> Run(s, steps).result.value.Settled()
    decreases |steps|
  {
    var first := Apply(s, steps[0]);
    if first.result.Ok? && steps[1..] != [] {
      RunNeverPends(first.result.value, steps[1..]);
    }
  }

  /** On a pending promise the first link already throws, and nothing is invoked. */
  lemma RunFromPending(steps: seq<Step>)
    requires steps != []
    ensures Run(Pending, steps).result.Err?
    ensures Run(Pending, steps).invocations == []
  {
  }

  ghost predicate AllCatches(steps: seq<Step>)
  {
    forall i :: 0 <= i < |steps| ==> steps[i].CatchStep? && steps[i].fn.Callable?
  }

  ghost predicate AllThens(steps: seq<Step>)
  {
    forall i :: 0 <= i < |steps| ==> steps[i].ThenStep? && steps[i].fn.Callable?
  }

  /** Any number of `catch` links pass a resolution through unchanged and call
      none of their functions. */
  lemma {:induction false} CatchesSkipResolved(v: Value, steps: seq<Step>)
    requires AllCatches(steps)
    ensures Run(Resolved(v), steps) == Reply(Ok(Resolved(v)), [])
    decreases |steps|
  {
    if steps != [] {
      assert steps[0].CatchStep? && steps[0].fn.Callable?;
      assert AllCatches(steps[1..]) by {
        forall i | 0 <= i < |steps[1..]|
          ensures steps[1..][i].CatchStep? && steps[1..][i].fn.Callable?
        {
          assert steps[1..][i] == steps[i + 1];
        }
      }
      CatchesSkipResolved(v, steps[1..]);
    }
  }

  /** Any number of `then` links pass a rejection through unchanged and call
      none of their functions. */
  lemma {:induction false} ThensSkipRejected(v: Value, steps: seq<Step>)
    requires AllThens(steps)
    ensures Run(Rejected(v), steps) == Reply(Ok(Rejected(v)), [])
    decreases |steps|
  {
    if steps != [] {
      assert steps[0].ThenStep? && steps[0].fn.Callable?;
      assert AllThens(steps[1..]) by {
        forall i | 0 <= i < |steps[1..]|
          ensures steps[1..][i].ThenStep? && steps[1..][i].fn.Callable?
        {
          assert steps[1..][i] == steps[i + 1];
        }
      }
      ThensSkipRejected(v, steps[1..]);
    }
  }
}
