# SyncPromise, modelled in Dafny

`SyncPromise` is a synchronous promise. `new SyncPromise(resolver)` calls the resolver at once, exactly
one time, with two callbacks `(resolve, reject)`. These callbacks settle the new instance. A throw from the
resolver rejects the instance. A resolver that calls neither callback and returns normally (the `noop` helper, line 10) leaves it pending. The instance has
three states, `'Pending'`, `'Resolved'` and `'Rejected'`; the settled states carry a value.

- `then(f)` and `catch(f)` refuse a missing or non-callable `f` in every state. They throw on a pending
  instance.
- Otherwise they return a new instance. `then` calls `f` on `Resolved` and `catch` calls `f` on `Rejected`.
  The other settled state passes through unchanged and `f` is not called.
- A normal return from `f` gives `Resolved(result)`. A throw from `f` gives `Rejected(thrown)`, so a throw
  never escapes.
- `finally(f)` is valid in every state. It calls `f` once with the snapshot `{status, value}` and returns
  what `f` returns.

The repository's only file in this model is its test suite, `src/__tests__/SyncPromise.js`. The
implementation it loads (`SyncPromise` / `SyncPromise.solution`) is not part of this model. The model
therefore states the contract those tests pin down.

Layout:

- `values.dfy` (module `Values`): JavaScript payloads (`undefined`, numbers, strings, `Error` objects).
  It also holds `Outcome` (a user function returns or throws), `Arg` (an argument that is missing, not
  callable, or a function) and the primitive's own errors `InvalidArgument` and `IllegalState`.
- `chain.dfy` (module `Chain`): the state machine as values.
  - `Settlement` is the three states and `Snapshot` is `{status, value}`.
  - `ResolverRun` lists what a resolver does: the test helpers `resolve`, `reject`, `noop` and `abort`.
  - `then`, `catch` and `finally` are functions of the current state. Each returns a `Reply`: the result
    or thrown error, plus the arguments the user function was invoked with. That list stands for the
    tests' spies.
  - A chain of links is a `seq<Step>`, and `Run` runs it.
- `promise.dfy` (module `Promise`): the class `SyncPromise`.
  - The constructor updates the instance's status/value cell in place through the two callbacks
    `Resolve` and `Reject`. The resolver's single action is the `match` in the constructor; each arm
    increments the ghost counter `resolverCalls` once, and the constructor ends with it at 1.
  - Unlike the closures the source hands to the resolver, `Resolve` and `Reject` are methods of the
    class, so in the model they stay callable after construction (on a pending instance).
  - `Create` is the argument check in front of the constructor.
  - `Then`, `Catch` and `Finally` are proved against the functions of `Chain`. `Then` and `Catch` return
    freshly allocated instances and never modify the receiver.
- `scenarios.dfy` (module `Scenarios`): the suite's chaining and error-trapping scenarios as lemmas.

The state names are the ones the tests compare as strings: `Pending`, `Resolved` and `Rejected` (lines
104, 196 and 288). The tests only say that a refused call throws. The model names the two refusals
`InvalidArgument` and `IllegalState` and checks the argument before the state. No test decides that
order, because none calls `then()` or `catch()` without an argument on a pending instance.

`Chain.Forward` models no lines of its own: it is the resolver the model gives a derived instance, so
that `Then` and `Catch` build their result through the constructor. `Chain.RunFirst` only unfolds `Run`
by one link, for the scenario proofs.

## Model

| member | source | states |
|---|---|---|
| Chain.Trap | src/__tests__/SyncPromise.js:322-361 | a user function's outcome always gives a settled state: returning gives `Resolved(result)`, throwing gives `Rejected(thrown)` |
| Chain.Settle | src/__tests__/SyncPromise.js:11-15 | the state after the resolver runs is pending exactly when the resolver calls neither callback and returns normally (the `noop` helper, line 10) |
| Chain.ForwardSettles | src/__tests__/SyncPromise.js:144-147 | a derived instance whose resolver forwards an outcome ends in the trapped state of that outcome |
| Chain.SnapshotOf | src/__tests__/SyncPromise.js:97-106 | the snapshot's value is `undefined` while pending and the settled value otherwise |
| Chain.SnapshotRoundTrip | src/__tests__/SyncPromise.js:188-198 | the state can be read back from its `{status, value}` snapshot |
| Chain.SnapshotInjective | src/__tests__/SyncPromise.js:280-290 | distinct states give distinct snapshots |
| Chain.Then | src/__tests__/SyncPromise.js:118-148 | `then` succeeds iff its argument is callable and the state is settled; its result is settled; its function is invoked once iff the state is resolved |
| Chain.Catch | src/__tests__/SyncPromise.js:233-262 | `catch` succeeds iff its argument is callable and the state is settled; its result is settled; its function is invoked once iff the state is rejected |
| Chain.Finally | src/__tests__/SyncPromise.js:81-115 | `finally` succeeds iff its argument is callable, in every state, and then invokes its observer exactly once |
| Chain.ArgumentChecked | src/__tests__/SyncPromise.js:120-121 | `then()`, `catch()` and `finally()` without a function throw `InvalidArgument` in every state and invoke nothing (also lines 82-83, 151-152, 173-174, 212-213, 234-235, 265-266) |
| Chain.PendingBehaviour | src/__tests__/SyncPromise.js:68-115 | on a pending instance `then`/`catch` throw `IllegalState`; `finally` passes `{status:'Pending', value:undefined}` and returns its observer's result |
| Chain.ThenOnResolved | src/__tests__/SyncPromise.js:128-142 | `then` on `Resolved(v)` invokes its function once with `v`; a return resolves the new instance, a throw rejects it |
| Chain.ThenOnRejected | src/__tests__/SyncPromise.js:220-230 | `then` on `Rejected(v)` invokes nothing and passes `Rejected(v)` through |
| Chain.CatchOnRejected | src/__tests__/SyncPromise.js:242-256 | `catch` on `Rejected(v)` invokes its function once with `v`; a return recovers to resolved, a throw rejects |
| Chain.CatchOnResolved | src/__tests__/SyncPromise.js:159-169 | `catch` on `Resolved(v)` invokes nothing and passes `Resolved(v)` through |
| Chain.FinallyObserves | src/__tests__/SyncPromise.js:181-206 | `finally` invokes its observer exactly once with the current status and value and returns the observer's completion verbatim |
| Chain.Run | src/__tests__/SyncPromise.js:364-424 | a chain of n links invokes user functions at most n times |
| Chain.RunAppend | src/__tests__/SyncPromise.js:392-407 | running two chains one after the other is running their concatenation |
| Chain.RunFromSettled | src/__tests__/SyncPromise.js:322-361 | from a settled state, a chain of callable links never throws and always ends settled |
| Chain.RunNeverPends | src/__tests__/SyncPromise.js:144-147 | a non-empty chain that does not throw ends settled, whatever state it started in |
| Chain.RunFromPending | src/__tests__/SyncPromise.js:69-79 | a non-empty chain on a pending instance throws at the first link and invokes nothing |
| Chain.CatchesSkipResolved | src/__tests__/SyncPromise.js:383-390 | any number of `catch` links pass a resolution through and invoke none of their functions |
| Chain.ThensSkipRejected | src/__tests__/SyncPromise.js:374-381 | any number of `then` links pass a rejection through and invoke none of their functions |
| Promise.SyncPromise.constructor | src/__tests__/SyncPromise.js:48-65 | the resolver is called exactly once, and the new instance's state is what the resolver's settle callback (or its throw) gives |
| Promise.SyncPromise.Resolve | src/__tests__/SyncPromise.js:11 | the first callback settles the pending cell as `Resolved(v)` |
| Promise.SyncPromise.Reject | src/__tests__/SyncPromise.js:12 | the second callback settles the pending cell as `Rejected(v)` |
| Promise.SyncPromise.Create | src/__tests__/SyncPromise.js:23-33 | construction throws `InvalidArgument` iff the resolver is missing or not a function; otherwise it yields a fresh instance whose resolver ran once |
| Promise.SyncPromise.Then | src/__tests__/SyncPromise.js:144-147 | `then` returns a freshly allocated instance whose state is `Chain.Then`'s, or throws `Chain.Then`'s error |
| Promise.SyncPromise.Catch | src/__tests__/SyncPromise.js:166-169 | `catch` returns a freshly allocated instance whose state is `Chain.Catch`'s, or throws `Chain.Catch`'s error |
| Promise.SyncPromise.Finally | src/__tests__/SyncPromise.js:108-114 | `finally` returns the observer's completion on the snapshot of the cell, or `InvalidArgument` |
| Scenarios.ResolveThenFinally | src/__tests__/SyncPromise.js:365-372 | `resolve(80).then(v*3)` ends `Resolved(240)` and `finally` sees `{Resolved, 240}` |
| Scenarios.RejectThenCatchFinally | src/__tests__/SyncPromise.js:374-381 | `reject(80).then(..).catch(v*3)` skips the `then`, calls the `catch` with 80 only, and ends `Resolved(240)` |
| Scenarios.ResolveCatchThenFinally | src/__tests__/SyncPromise.js:383-390 | `resolve(145).catch(..).then(v+3)` skips the `catch`, calls the `then` with 145 only, and ends `Resolved(148)` |
| Scenarios.ResolveFourLinksFinally | src/__tests__/SyncPromise.js:392-408 | the four-link pipeline from `resolve(2)` ends `Rejected('!errerr6')` |
| Scenarios.RejectFourLinksFinally | src/__tests__/SyncPromise.js:410-424 | the four-link pipeline from `reject(5)` ends `Resolved('4h')` |
| Scenarios.ThrowsBecomeRejections | src/__tests__/SyncPromise.js:302-361 | a throw in the resolver, in a `then` function or in a `catch` function gives `{status:'Rejected', value:thrown}` to `finally` |
| Scenarios.NoopStaysPending | src/__tests__/SyncPromise.js:86-106 | a resolver that calls neither callback and returns normally leaves the instance pending; `finally` sees `{Pending, undefined}`, `then`/`catch` throw |

## Left out

- The implementation module that the suite loads is not part of this model. The model states the
  contract the tests assert about it, rather than any particular code.
- The test harness is left out: `expect`, `spyOn` and the fallback between the two `require` paths.
  Spy observations are modelled by `Reply.invocations` and by the ghost `resolverCalls` counter.
- The `Date.now()` values (lines 109, 136, 201, 250, 295) are the parameters `v` and the observer results;
  `err` is any thrown value.
- Promise.SyncPromise.Resolve: settling an already settled instance is left out, because no test states a
  rule for it. The same holds for a resolver that calls both callbacks, calls one twice, or settles and then
  throws. The settle callbacks therefore require a pending cell, and `ResolverRun` has no such behaviours.
- Promise.SyncPromise.Reject: requires a pending cell, for the same reason.
- Promise.SyncPromise.constructor: that the resolver receives exactly two function arguments (lines 57-65) is shown only by the model's structure: a
  resolver settles through one of the two callbacks `Resolve` and `Reject`. There is no separate property
  for it.
- The scenarios hard-code the JavaScript operations they use: `repeat`, string concatenation, `toString`
  of a natural number and `toLowerCase` on ASCII. The scenario functions give `undefined` for operands the
  pipelines never pass them. JavaScript's coercion rules are not modelled.
- JavaScript numbers are modelled as unbounded integers, not IEEE doubles, and payloads are only
  `undefined`, numbers, strings and `Error` objects. The state machine never inspects a payload, so
  this only limits which values the scenarios can name.
- Asynchrony, microtasks and combinators such as `all` or `race` do not exist in this primitive.
- Line 44 checks `.catch` under the heading for `finally`, and line 259 uses `resolve()` in the rejected
  block. No property is derived from either line.
