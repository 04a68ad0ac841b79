/** promise-helper.ts: the structural promise test and the `RejectionError`
    carrier, which lets a failure travel through a chain of promises as an
    ordinary fulfilment value and be turned back into a rejection on demand.

    Only the eventual outcome of a promise is modelled: every continuation of
    these combinators maps that outcome, so scheduling does not change it. */
module PromiseHelper {
  import opened JsValues

  /** How a promise eventually settles. */
  datatype Outcome = Fulfilled(value: Value) | Rejected(cause: Value)

  /** A value or a promise (`ValueOrPromise`, `ValueOrPromiseWithError`).
      `native` tells a native `Promise` from a promise of another library
      (such as Bluebird), which `RejectionError.catch` treats differently. */
  datatype VP = Now(value: Value) | Later(native: bool, outcome: Outcome)

  /** `isPromise(value)` on a JavaScript value: it must be truthy, an object or
      a function, and its `then` must be a function. */
  predicate IsPromiseLike(v: Value)
    ensures IsPromiseLike(v) <==> v.Obj? && "then" in v.props && v.props["then"].Fn?
  {
    if !Truthy(v) then false
    else if TypeOf(v) != "object" && TypeOf(v) != "function" then false
    else TypeOf(ThenProperty(v)) == "function"
  }

  /** `isPromise(x)` on the model's values-or-promises: a direct value is
      never a promise. */
  predicate IsPromise(x: VP) {
    x.Later?
  }

  /** Whether a value is the failure carrier: `v instanceof RejectionError`. */
  predicate IsCarrier(v: Value) {
    v.RejErr?
  }

  /** `new RejectionError(cause)`: the cause is kept as given; the message is
      the cause's own when the cause is an `Error`, and empty otherwise
      (`super(undefined)`). */
  function NewRejectionError(cause: Value): (e: Value)
    ensures IsCarrier(e) && IsError(e)
    ensures e.cause == cause
    ensures IsError(cause) ==> e.message == cause.message
    ensures !IsError(cause) ==> e.message == ""
  {
    RejErr(cause, if IsError(cause) then cause.message else "")
  }

  /** `err.reject()`: a promise rejected with the carrier's cause. */
  function RejectCarrier(err: Value): (p: VP)
    requires IsCarrier(err)
    ensures p.Later? && p.outcome == Rejected(err.cause)
  {
    Later(true, Rejected(err.cause))
  }

  /** `RejectionError.catch(p)`: a native promise's rejection becomes a
      fulfilment with a carrier of the cause; anything else, including a
      promise of another library, is returned as it is. */
  function Catch(p: VP): (r: VP)
    ensures !(p.Later? && p.native) ==> r == p
    ensures IsPromise(r) == IsPromise(p)
    ensures p.Later? && p.native && p.outcome.Fulfilled? ==> r == p
    ensures p.Later? && p.native && p.outcome.Rejected? ==>
              r == Later(true, Fulfilled(NewRejectionError(p.outcome.cause)))
  {
    match p
    case Later(true, Rejected(c)) => Later(true, Fulfilled(NewRejectionError(c)))
    case _ => p
  }

  /** `RejectionError.reject(val)`: a promise that fulfils with a carrier
      becomes a promise rejected with the carrier's cause; other outcomes pass
      through, and a direct value is returned as it is. */
  function Reject(x: VP): (r: VP)
    ensures !IsPromise(x) ==> r == x
    ensures IsPromise(x) ==> r.Later? && r.native == x.native
    ensures IsPromise(x) && x.outcome.Fulfilled? && IsCarrier(x.outcome.value) ==>
              r.outcome == Rejected(x.outcome.value.cause)
    ensures IsPromise(x) && !(x.outcome.Fulfilled? && IsCarrier(x.outcome.value)) ==> r == x
  {
    match x
    case Now(_) => x
    case Later(n, Fulfilled(v)) =>
      if IsCarrier(v) then Later(n, RejectCarrier(v).outcome) else Later(n, Fulfilled(v))
    case Later(n, Rejected(c)) => Later(n, Rejected(c))
  }

  /** What awaiting the result of a continuation settles with: a direct value
      fulfils, a promise is adopted and a throw rejects. */
  function Await(c: Completion<VP>): (o: Outcome)
    ensures c.Thrown? ==> o == Rejected(c.error)
    ensures c.Normal? && c.value.Now? ==> o == Fulfilled(c.value.value)
    ensures c.Normal? && c.value.Later? ==> o == c.value.outcome
  {
    match c
    case Thrown(e) => Rejected(e)
    case Normal(Now(v)) => Fulfilled(v)
    case Normal(Later(_, o)) => o
  }

  /** `RejectionError.then(val, onFulfilled)`: a direct value is handed to
      `onFulfilled` at once, carrier or not (and a throw of `onFulfilled`
      propagates); a promise fulfilled with a carrier yields that carrier
      without calling `onFulfilled`; a promise fulfilled with anything else
      settles as `onFulfilled` of that value; a rejection passes through. */
  function Then(x: VP, onFulfilled: Value -> Completion<VP>): (r: Completion<VP>)
    ensures !IsPromise(x) ==> r == onFulfilled(x.value)
    ensures IsPromise(x) ==> r.Normal? && r.value.Later? && r.value.native == x.native
    ensures IsPromise(x) && x.outcome.Fulfilled? && IsCarrier(x.outcome.value) ==> r.value == x
    ensures IsPromise(x) && x.outcome.Fulfilled? && !IsCarrier(x.outcome.value) ==>
              r.value.outcome == Await(onFulfilled(x.outcome.value))
    ensures IsPromise(x) && x.outcome.Rejected? ==> r.value == x
  {
    match x
    case Now(v) => onFulfilled(v)
    case Later(n, Fulfilled(v)) =>
      if IsCarrier(v) then Normal(x) else Normal(Later(n, Await(onFulfilled(v))))
    case Later(n, Rejected(c)) => Normal(x)
  }

  /** `reject(catch(p))` settles as `p` does whenever `p` does not itself
      fulfil with a carrier: the carrier round trip loses nothing. */
  lemma RejectCatchRoundTrip(p: VP)
    requires !(p.Later? && p.outcome.Fulfilled? && IsCarrier(p.outcome.value))
    ensures Reject(Catch(p)) == p
  {
  }

  /** The converse fails: a promise that fulfils with a carrier comes back
      from the round trip rejected with the carrier's cause. */
  lemma RejectCatchCarrierFulfilment(cause: Value)
    ensures Reject(Catch(Later(true, Fulfilled(NewRejectionError(cause))))) == Later(true, Rejected(cause))
  {
  }

  /** `then` with a continuation that returns its argument as a direct value
      leaves every promise as it is. */
  lemma ThenIdentity(x: VP)
    requires IsPromise(x)
    ensures Then(x, (v: Value) => Normal(Now(v))) == Normal(x)
  {
  }

  /** Chaining two continuations on a promise is chaining their composition:
      a carrier skips both, a rejection passes both. */
  lemma ThenCarrierSkipsChain(n: bool, e: Value, f: Value -> Completion<VP>, g: Value -> Completion<VP>)
    requires IsCarrier(e)
    ensures Then(Later(n, Fulfilled(e)), f) == Normal(Later(n, Fulfilled(e)))
    ensures Then(Then(Later(n, Fulfilled(e)), f).value, g) == Normal(Later(n, Fulfilled(e)))
  {
  }
}
