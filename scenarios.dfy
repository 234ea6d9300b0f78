/** The concrete pipelines of the test suite, each stated as what running the
    chain from the constructed promise gives and what the final `finally`
    observer is shown. The user functions of those pipelines are written out
    for the operand types they receive there; JavaScript's coercions for any
    other operand are not modelled and give `undefined` here. */
module Scenarios {
  import opened Values
  import opened Chain

  // ---------------------------------------------------------------------
  // The few string operations the pipelines use

  /** `s.repeat(n)`. */
  function Repeat(s: string, n: nat): (r: string)
  {
    if n == 0 then "" else s + Repeat(s, n - 1)
  }

  /** The decimal digits of a natural number, as `String(n)` writes them. */
  function Decimal(n: nat): (digits: string)
    decreases n
  {
    if n < 10 then ["0123456789"[n]] else Decimal(n / 10) + ["0123456789"[n % 10]]
  }

  /** `v.toString()` for the values the pipelines stringify. */
  function Text(v: Value): (text: string)
  {
    match v
    case Num(n) => if n >= 0 then Decimal(n) else "-" + Decimal(-n)
    case Str(s) => s
    case Undefined => "undefined"
    case ErrorObject(m) => "Error: " + m
  }

  /** `toLowerCase()` on ASCII letters. */
  function Lower(s: string): (r: string)
  {
    if s == "" then ""
    else [if 'A' <= s[0] <= 'Z' then (s[0] as int + 32) as char else s[0]] + Lower(s[1..])
  }

  /** An observer that, like the pipelines' last `finally`, only inspects its
      snapshot. */
  const Inspect: Observer := snap => Returned(Undefined)

  /** Runs a chain from the promise a resolver settles, then `finally`. */
  function Pipeline(run: ResolverRun, steps: seq<Step>): (r: Reply<Outcome, Snapshot>)
  {
    var chain := Run(Settle(run), steps);
    match chain.result
    case Err(e) => Refused(e)
    case Ok(s) => Finally(s, Callable(Inspect))
  }

  // ---------------------------------------------------------------------
  // resolve(80).then(v => v * 3)

  const Triple: Transform := (v: Value) => if v.Num? then Returned(Num(v.n * 3)) else Returned(Undefined)

  lemma ResolveThenFinally()
    ensures Run(Settle(ResolveWith(Num(80))), [ThenStep(Callable(Triple))]).result == Ok(Resolved(Num(240)))
    ensures Pipeline(ResolveWith(Num(80)), [ThenStep(Callable(Triple))]).invocations
         == [Snapshot("Resolved", Num(240))]
  {
  }

  // ---------------------------------------------------------------------
  // reject(80).then(v => 'doh').catch(v => v * 3)

  const Doh: Transform := (v: Value) => Returned(Str("doh"))

  lemma RejectThenCatchFinally()
    ensures Run(Settle(RejectWith(Num(80))), [ThenStep(Callable(Doh)), CatchStep(Callable(Triple))])
         == Reply(Ok(Resolved(Num(240))), [Num(80)])
    ensures Pipeline(RejectWith(Num(80)), [ThenStep(Callable(Doh)), CatchStep(Callable(Triple))]).invocations
         == [Snapshot("Resolved", Num(240))]
  {
    RunFirst(Rejected(Num(80)), ThenStep(Callable(Doh)), [CatchStep(Callable(Triple))]);
    RunFirst(Rejected(Num(80)), CatchStep(Callable(Triple)), []);
  }

  // ---------------------------------------------------------------------
  // resolve(145).catch(v => 'err').then(v => v + 3)

  const ErrString: Transform := (v: Value) => Returned(Str("err"))
  const PlusThree: Transform := (v: Value) => if v.Num? then Returned(Num(v.n + 3)) else Returned(Undefined)

  lemma ResolveCatchThenFinally()
    ensures Run(Settle(ResolveWith(Num(145))), [CatchStep(Callable(ErrString)), ThenStep(Callable(PlusThree))])
         == Reply(Ok(Resolved(Num(148))), [Num(145)])
    ensures Pipeline(ResolveWith(Num(145)), [CatchStep(Callable(ErrString)), ThenStep(Callable(PlusThree))]).invocations
         == [Snapshot("Resolved", Num(148))]
  {
    RunFirst(Resolved(Num(145)), CatchStep(Callable(ErrString)), [ThenStep(Callable(PlusThree))]);
    RunFirst(Resolved(Num(145)), ThenStep(Callable(PlusThree)), []);
  }

  // ---------------------------------------------------------------------
  // resolve(2).catch(v => 0).then(v => { throw 'err'.repeat(v) })
  //   .catch(v => v + 6).then(v => { throw `!${v}` })

  const Zero: Transform := (v: Value) => Returned(Num(0))
  const ThrowRepeat: Transform := (v: Value) => if v.Num? && v.n >= 0 then Threw(Str(Repeat("err", v.n))) else Threw(Undefined)
  const AppendSix: Transform := (v: Value) => if v.Str? then Returned(Str(v.s + Decimal(6))) else Returned(Undefined)
  const ThrowBang: Transform := (v: Value) => Threw(Str("!" + Text(v)))

  const FourLinks: seq<Step> :=
    [CatchStep(Callable(Zero)), ThenStep(Callable(ThrowRepeat)),
     CatchStep(Callable(AppendSix)), ThenStep(Callable(ThrowBang))]

  lemma ResolveFourLinksFinally()
    ensures Run(Settle(ResolveWith(Num(2))), FourLinks).result == Ok(Rejected(Str("!errerr6")))
    ensures Pipeline(ResolveWith(Num(2)), FourLinks).invocations == [Snapshot("Rejected", Str("!errerr6"))]
  {
    assert Repeat("err", 2) == "errerr";
    assert "errerr" + Decimal(6) == "errerr6";
    assert "!" + Text(Str("errerr6")) == "!errerr6";
    var s0 := Resolved(Num(2));
    var s2 := Rejected(Str("errerr"));
    var s3 := Resolved(Str("errerr6"));
    var s4 := Rejected(Str("!errerr6"));
    RunFirst(s3, FourLinks[3], []);
    RunFirst(s2, FourLinks[2], FourLinks[3..]);
    RunFirst(s0, FourLinks[1], FourLinks[2..]);
    RunFirst(s0, FourLinks[0], FourLinks[1..]);
    assert [FourLinks[0]] + FourLinks[1..] == FourLinks;
  }

  // ---------------------------------------------------------------------
  // reject(5).then(v => v + '#').catch(v => v - 1)
  //   .then(v => { throw v + 'H' }).catch(v => v.toString().toLowerCase())

  const AppendHash: Transform := (v: Value) => Returned(Str(Text(v) + "#"))
  const MinusOne: Transform := (v: Value) => if v.Num? then Returned(Num(v.n - 1)) else Returned(Undefined)
  const ThrowH: Transform := (v: Value) => Threw(Str(Text(v) + "H"))
  const Lowered: Transform := (v: Value) => Returned(Str(Lower(Text(v))))

  const OtherFourLinks: seq<Step> :=
    [ThenStep(Callable(AppendHash)), CatchStep(Callable(MinusOne)),
     ThenStep(Callable(ThrowH)), CatchStep(Callable(Lowered))]

  lemma RejectFourLinksFinally()
    ensures Run(Settle(RejectWith(Num(5))), OtherFourLinks).result == Ok(Resolved(Str("4h")))
    ensures Pipeline(RejectWith(Num(5)), OtherFourLinks).invocations == [Snapshot("Resolved", Str("4h"))]
  {
    assert Text(Num(4)) + "H" == "4H";
    assert Lower("4H") == "4h";
    var s0 := Rejected(Num(5));
    var s2 := Resolved(Num(4));
    var s3 := Rejected(Str("4H"));
    RunFirst(s3, OtherFourLinks[3], []);
    RunFirst(s2, OtherFourLinks[2], OtherFourLinks[3..]);
    RunFirst(s0, OtherFourLinks[1], OtherFourLinks[2..]);
    RunFirst(s0, OtherFourLinks[0], OtherFourLinks[1..]);
    assert [OtherFourLinks[0]] + OtherFourLinks[1..] == OtherFourLinks;
  }

  // ---------------------------------------------------------------------
  // Errors thrown by the resolver, by `then` and by `catch` are trapped

  /** `abort(value)` as a function given to `then` or `catch`. */
  function AbortWith(e: Value): (f: Transform)
  {
    v => Threw(e)
  }

  lemma ThrowsBecomeRejections(err: Value)
    ensures Settle(Abort(err)) == Rejected(err)
    ensures Pipeline(Abort(err), []).invocations == [Snapshot("Rejected", err)]
    ensures Pipeline(ResolveWith(Undefined), [ThenStep(Callable(AbortWith(err)))]).invocations
         == [Snapshot("Rejected", err)]
    ensures Pipeline(RejectWith(Undefined), [CatchStep(Callable(AbortWith(err)))]).invocations
         == [Snapshot("Rejected", err)]
  {
  }

  /** A resolver that calls neither callback leaves the promise pending, and
      `then`/`catch` on it throw. */
  lemma NoopStaysPending(f: Transform)
    ensures Settle(Noop) == Pending
    ensures Pipeline(Noop, []).invocations == [Snapshot("Pending", Undefined)]
    ensures Pipeline(Noop, [ThenStep(Callable(f))]).result.Err?
    ensures Pipeline(Noop, [CatchStep(Callable(f))]).result.Err?
  {
  }
}
