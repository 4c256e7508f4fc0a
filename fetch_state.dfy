/**
 * The single observable value of the engine: a record of optional fields,
 * each absent unless the state that wrote it sets it.
 */
module FetchStates {
  import opened Common

  datatype FetchState<R, E, H> = FetchState(
    loading: Option<bool>,
    success: Option<bool>,
    error: Option<bool>,
    responseStatus: Option<int>,
    responseHeaders: Option<H>,
    result: Option<R>,
    errorResult: Option<E>,
    cause: Option<Error>)

  /** 1 when the flag is present and true, as a JavaScript truthiness test sees it. */
  function Flag(b: Option<bool>): nat {
    if b == Some(true) then 1 else 0
  }

  /** At most one of `loading`, `success` and `error` is set. */
  predicate AtMostOneFlag<R, E, H>(s: FetchState<R, E, H>) {
    Flag(s.loading) + Flag(s.success) + Flag(s.error) <= 1
  }

  /** `{}`: no request in flight. Written by `abort`. */
  function Idle<R, E, H>(): FetchState<R, E, H> {
    FetchState(None, None, None, None, None, None, None, None)
  }

  /** `{ loading: !!params }`, the value `useState` starts from. */
  function InitialState<R, E, H>(hasParams: bool): (s: FetchState<R, E, H>)
    ensures AtMostOneFlag(s)
    ensures s.loading == Some(true) <==> hasParams
    ensures s.loading.Some? && s != Idle()
    ensures s.(loading := None) == Idle()
  {
    Idle().(loading := Some(hasParams))
  }

  /** `{ loading: true }` */
  function Loading<R, E, H>(): FetchState<R, E, H> {
    Idle().(loading := Some(true))
  }

  /** `{ success: true, responseStatus, responseHeaders, result }` */
  function Succeeded<R, E, H>(status: int, headers: H, result: R): FetchState<R, E, H> {
    FetchState(None, Some(true), None, Some(status), Some(headers), Some(result), None, None)
  }

  /** `{ error: true, responseStatus, responseHeaders, errorResult }` */
  function Failed<R, E, H>(status: int, headers: H, errorResult: E): FetchState<R, E, H> {
    FetchState(None, None, Some(true), Some(status), Some(headers), None, Some(errorResult), None)
  }

  /** `{ responseStatus, error: true, cause }`; the status is -1 when no response arrived. */
  function Crashed<R, E, H>(status: int, cause: Error): FetchState<R, E, H> {
    FetchState(None, None, Some(true), Some(status), None, None, None, Some(cause))
  }

  /** The five states the engine writes after construction all keep the flags exclusive. */
  lemma WrittenStatesExclusive<R, E, H>(status: int, headers: H, result: R, errorResult: E, cause: Error)
    ensures AtMostOneFlag(Idle<R, E, H>()) && Flag(Idle<R, E, H>().loading) == 0
    ensures AtMostOneFlag(Loading<R, E, H>()) && Flag(Loading<R, E, H>().loading) == 1
    ensures AtMostOneFlag(Succeeded<R, E, H>(status, headers, result))
    ensures Flag(Succeeded<R, E, H>(status, headers, result).success) == 1
    ensures AtMostOneFlag(Failed<R, E, H>(status, headers, errorResult))
    ensures Flag(Failed<R, E, H>(status, headers, errorResult).error) == 1
    ensures AtMostOneFlag(Crashed<R, E, H>(status, cause))
    ensures Flag(Crashed<R, E, H>(status, cause).error) == 1
  {
  }
}
