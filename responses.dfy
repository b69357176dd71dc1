/**
 * Response<T>: what every wrapped call returns, a nullable body and a nullable
 * error.  The inspectors `success` and `error` hand the body (resp. the error)
 * to a listener when it is present and return the response itself, so they
 * chain.  A listener is arbitrary code; the model records, in call order,
 * the argument each listener was given.
 */
module Responses {
  import opened Wrappers

  datatype Response<T> = Response(body: Option<T>, error: Option<Cause>)

  /** `Response()`: both sides left at their `null` default. */
  function Default<T>(): Response<T> {
    Response(None, None)
  }

  /** Exactly one side is populated. */
  predicate OneSided<T>(r: Response<T>) {
    r.body.Some? != r.error.Some?
  }

  /** A one-sided response read back as the outcome it stands for. */
  function ToOutcome<T>(r: Response<T>): Outcome<T>
    requires OneSided(r)
  {
    if r.body.Some? then Ok(r.body.value) else Exn(r.error.value)
  }

  /** The argument one listener invocation received. */
  datatype Event<T> = BodySeen(body: T) | ErrorSeen(error: Cause)

  /** A response being inspected, and the listener invocations so far. */
  datatype Inspection<T> = Inspection(response: Response<T>, fired: seq<Event<T>>)

  /** The listener events a response's body (resp. error) gives rise to. */
  function BodyEvents<T>(r: Response<T>): seq<Event<T>> {
    if r.body.Some? then [BodySeen(r.body.value)] else []
  }

  function ErrorEvents<T>(r: Response<T>): seq<Event<T>> {
    if r.error.Some? then [ErrorSeen(r.error.value)] else []
  }

  /**
   * `success(listener)`: the response is returned unchanged, and the listener
   * runs once, on the body, exactly when there is a body.
   */
  function Success<T>(i: Inspection<T>): (o: Inspection<T>)
    ensures o.response == i.response
    ensures |o.fired| == |i.fired| + (if i.response.body.Some? then 1 else 0)
    ensures o.fired[..|i.fired|] == i.fired
    ensures forall k :: |i.fired| <= k < |o.fired| ==> o.fired[k] == BodySeen(i.response.body.value)
  {
    Inspection(i.response, i.fired + BodyEvents(i.response))
  }

  /**
   * `error(listener)`: the response is returned unchanged, and the listener
   * runs once, on the error, exactly when there is an error.
   */
  function Error<T>(i: Inspection<T>): (o: Inspection<T>)
    ensures o.response == i.response
    ensures |o.fired| == |i.fired| + (if i.response.error.Some? then 1 else 0)
    ensures o.fired[..|i.fired|] == i.fired
    ensures forall k :: |i.fired| <= k < |o.fired| ==> o.fired[k] == ErrorSeen(i.response.error.value)
  {
    Inspection(i.response, i.fired + ErrorEvents(i.response))
  }

  /** Inspecting a fresh response, before any listener has run. */
  function Inspect<T>(r: Response<T>): Inspection<T> {
    Inspection(r, [])
  }

  /** A default response fires neither listener, in either chaining order. */
  lemma DefaultFiresNothing<T>()
    ensures Error(Success(Inspect(Default<T>()))).fired == []
    ensures Success(Error(Inspect(Default<T>()))).fired == []
  {
  }

  /**
   * Chaining fires the listeners in call order and never changes the
   * response: `success(..).error(..)` reports the body first, the reverse
   * chain the error first.
   */
  lemma ChainInCallOrder<T>(r: Response<T>)
    ensures Error(Success(Inspect(r))).response == r
    ensures Error(Success(Inspect(r))).fired == BodyEvents(r) + ErrorEvents(r)
    ensures Success(Error(Inspect(r))).response == r
    ensures Success(Error(Inspect(r))).fired == ErrorEvents(r) + BodyEvents(r)
  {
  }

  /** On a response with both sides set, each chain calls both listeners, in its own order. */
  lemma BothSidesFireBoth<T>(b: T, e: Cause)
    ensures Error(Success(Inspect(Response(Some(b), Some(e))))).fired == [BodySeen(b), ErrorSeen(e)]
    ensures Success(Error(Inspect(Response(Some(b), Some(e))))).fired == [ErrorSeen(e), BodySeen(b)]
  {
  }

  /** On a one-sided response, a chain calls exactly one listener: the one for the outcome. */
  lemma OneSidedFiresOne<T>(r: Response<T>)
    requires OneSided(r)
    ensures Error(Success(Inspect(r))).fired ==
              match ToOutcome(r)
              case Ok(v) => [BodySeen(v)]
              case Exn(c) => [ErrorSeen(c)]
  {
  }
}
