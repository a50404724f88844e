/**
 * How the outcome of a request reaches the caller's completion handler.
 * A handler invocation `onComplete(error, result)` is a `Call`; what a
 * delivery does is the sequence of calls it makes.
 */
module Dispatch {
  import opened Wrappers

  /** What the network layer reports once a request finishes: a decoded response or an error. */
  datatype Outcome<T, E> = Success(response: T) | Failure(error: E)

  /** One invocation of `onComplete(error, result)`; `None` stands for a null argument. */
  datatype Call<E, T> = Call(error: Option<E>, result: Option<T>)

  /** The completion-handler contract: exactly one of error and result is non-null. */
  predicate ExactlyOne<E, T>(c: Call<E, T>) {
    c.error.Some? != c.result.Some?
  }

  /** The wrapped task's two exits: `onPostExecute` passes the response, `onError` the error. */
  function Route<T, E>(o: Outcome<T, E>): (trace: seq<Call<E, T>>)
    ensures |trace| == 1 && ExactlyOne(trace[0])
    ensures trace[0].result.Some? <==> o.Success?
    ensures o.Success? ==> trace[0].result.value == o.response
    ensures o.Failure? ==> trace[0].error.value == o.error
  {
    match o
    case Success(response) => [Call(None, Some(response))]
    case Failure(error) => [Call(Some(error), None)]
  }

  /** Reads an outcome back from a handler call; `None` for a call that breaks the contract. */
  function OutcomeOf<E, T>(c: Call<E, T>): (o: Option<Outcome<T, E>>)
    ensures o.Some? <==> ExactlyOne(c)
  {
    match c
    case Call(None, Some(result)) => Some(Success(result))
    case Call(Some(error), None) => Some(Failure(error))
    case _ => None
  }

  /** Routing loses nothing: the outcome can be read back from the single call. */
  lemma RouteLossless<T, E>(o: Outcome<T, E>)
    ensures OutcomeOf(Route(o)[0]) == Some(o)
  {
  }

  /** Every call that keeps the contract is what routing makes of some outcome. */
  lemma RouteOnto<T, E>(c: Call<E, T>)
    requires ExactlyOne(c)
    ensures OutcomeOf(c).Some? && Route(OutcomeOf(c).value) == [c]
  {
  }

  /**
   * The random endpoint's wrapper handler: a present envelope is projected
   * with `toGif` and passed on with a null error; otherwise the incoming
   * error is passed on unchanged with a null result.
   */
  function AdaptRandom<E, R, G>(toGif: R -> G, c: Call<E, R>): (trace: seq<Call<E, G>>)
    ensures |trace| == 1
    ensures c.result.Some? ==> trace[0].error.None? && trace[0].result == Some(toGif(c.result.value))
    ensures c.result.None? ==> trace[0].error == c.error && trace[0].result.None?
  {
    if c.result.Some? then [Call(None, Some(toGif(c.result.value)))]
    else [Call(c.error, None)]
  }

  /** The random endpoint end to end: route the envelope outcome, then adapt it. */
  function DeliverRandom<E, R, G>(toGif: R -> G, o: Outcome<R, E>): (trace: seq<Call<E, G>>)
    ensures |trace| == 1 && ExactlyOne(trace[0])
    ensures o.Success? ==> trace[0].result == Some(toGif(o.response))
    ensures o.Failure? ==> trace[0].error == Some(o.error)
  {
    AdaptRandom(toGif, Route(o)[0])
  }

  /**
   * The caller of the random endpoint is called exactly once, with exactly one
   * of error and result: the projected envelope on success, the identical
   * error on failure.
   */
  lemma DeliverRandomContract<E, R, G>(toGif: R -> G, o: Outcome<R, E>)
    ensures |DeliverRandom(toGif, o)| == 1
    ensures ExactlyOne(DeliverRandom(toGif, o)[0])
    ensures OutcomeOf(DeliverRandom(toGif, o)[0]) == Some(
      match o
      case Success(envelope) => Success(toGif(envelope))
      case Failure(error) => Failure(error))
  {
  }

  /** The adapter keeps the contract only because routing does: a call with neither part is passed on as it is. */
  lemma AdaptRandomPassesEmptyCall<E, R, G>(toGif: R -> G, c: Call<E, R>)
    requires c.error.None? && c.result.None?
    ensures AdaptRandom(toGif, c) == [Call(None, None)]
  {
  }
}
