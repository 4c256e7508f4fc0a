/**
 * What one submission does, as values: the configuration it reads, the
 * outcomes a transport can settle it with, the callbacks it fires and the
 * state writes it asks for. The engine applies these effects to its fields;
 * this module says what they are.
 */
module Settlement {
  import opened Common
  import opened FetchStates

  /**
   * `FetchConfig`. A callback returns `Some(e)` when it throws `e`.
   * `prepare` yields the arguments handed to `fetch` (typed `P` here).
   */
  datatype Config<-A, P, -J, !R, !E, -H> = Config(
    prepare: A -> Result<P>,
    getResult: J -> Result<R>,
    getError: J -> Result<E>,
    onSuccess: Option<(R, int, H) -> Option<Error>>,
    onError: Option<(E, int, H) -> Option<Error>>,
    onException: Option<Error -> Option<Error>>)

  /**
   * How the awaited part of a submission ends: the fetch rejects because its
   * signal was aborted, rejects with another error, or resolves with a
   * response whose body `response.json()` decodes (or fails to).
   */
  datatype Outcome<J, H> =
    | AbortRejected
    | Threw(err: Error)
    | Responded(status: int, headers: H, body: Result<J>)

  /** A callback invocation, in the order the engine makes them. */
  datatype Event<R, E, H> =
    | SuccessCalled(result: R, status: int, headers: H)
    | ErrorCalled(errorResult: E, status: int, headers: H)
    | ExceptionCalled(cause: Error)

  /**
   * The callbacks fired, the state writes attempted (before the mount guard),
   * and the error that escapes the async function, if any.
   */
  datatype Effect<R, E, H> = Effect(
    events: seq<Event<R, E, H>>,
    writes: seq<FetchState<R, E, H>>,
    rejection: Option<Error>)

  /** The arguments passed to `fetch`: `prepare`'s result plus the controller's signal. */
  datatype FetchCall<P> = FetchCall(params: P, signal: nat)

  predicate Silent<R, E, H>(eff: Effect<R, E, H>) {
    eff.events == [] && eff.writes == [] && eff.rejection.None?
  }

  predicate AllExclusive<R, E, H>(ws: seq<FetchState<R, E, H>>) {
    forall i :: 0 <= i < |ws| ==> AtMostOneFlag(ws[i])
  }

  /** An ok status: 200 to 299 inclusive (section 2.2.3 of the WHATWG Fetch Standard). */
  predicate IsOk(status: int) {
    200 <= status <= 299
  }

  /** `responseStatus` as the catch block sees it: -1 until a response has arrived. */
  function StatusSeen<J, H>(outcome: Outcome<J, H>): int {
    if outcome.Responded? then outcome.status else -1
  }

  function Prepend<R, E, H>(evs: seq<Event<R, E, H>>, eff: Effect<R, E, H>): Effect<R, E, H> {
    eff.(events := evs + eff.events)
  }

  /** The catch block: everything but an abort fires `onException` and records the cause. */
  function CatchEffect<A, P, J, R, E, H>(cfg: Config<A, P, J, R, E, H>, status: int, e: Error): (eff: Effect<R, E, H>)
    ensures IsAbortError(e) ==> Silent(eff)
    ensures !IsAbortError(e) ==> eff.events == (if cfg.onException.Some? then [ExceptionCalled(e)] else [])
    ensures eff.rejection.Some? <==> !IsAbortError(e) && cfg.onException.Some? && cfg.onException.value(e).Some?
    ensures eff.rejection.Some? ==> eff.rejection == cfg.onException.value(e) && eff.writes == []
    ensures !IsAbortError(e) && eff.rejection.None? ==> eff.writes == [Crashed(status, e)]
    ensures AllExclusive(eff.writes) && |eff.writes| <= 1
  {
    if IsAbortError(e) then Effect([], [], None)
    else
      match cfg.onException
      case None => Effect([], [Crashed(status, e)], None)
      case Some(cb) =>
        match cb(e)
        case Some(thrown) => Effect([ExceptionCalled(e)], [], Some(thrown))
        case None => Effect([ExceptionCalled(e)], [Crashed(status, e)], None)
  }

  /** The ok branch once the body has been decoded and projected to `result`. */
  function SuccessEffect<A, P, J, R, E, H>(cfg: Config<A, P, J, R, E, H>, status: int, headers: H, result: R): Effect<R, E, H>
  {
    match cfg.onSuccess
    case None => Effect([], [Succeeded(status, headers, result)], None)
    case Some(cb) =>
      match cb(result, status, headers)
      case None => Effect([SuccessCalled(result, status, headers)], [Succeeded(status, headers, result)], None)
      case Some(thrown) => Prepend([SuccessCalled(result, status, headers)], CatchEffect(cfg, status, thrown))
  }

  /** The non-ok branch once the body has been decoded and projected to `errorResult`. */
  function ErrorEffect<A, P, J, R, E, H>(cfg: Config<A, P, J, R, E, H>, status: int, headers: H, errorResult: E): Effect<R, E, H>
  {
    match cfg.onError
    case None => Effect([], [Failed(status, headers, errorResult)], None)
    case Some(cb) =>
      match cb(errorResult, status, headers)
      case None => Effect([ErrorCalled(errorResult, status, headers)], [Failed(status, headers, errorResult)], None)
      case Some(thrown) => Prepend([ErrorCalled(errorResult, status, headers)], CatchEffect(cfg, status, thrown))
  }

  /**
   * Everything after `responseStatus = response.status`, including the
   * catch of what `response.json()`, a projector or a callback throws.
   */
  function ResponseEffect<A, P, J, R, E, H>(cfg: Config<A, P, J, R, E, H>, status: int, headers: H, body: Result<J>)
    : (eff: Effect<R, E, H>)
    ensures AllExclusive(eff.writes) && |eff.writes| <= 1
    // a success state is written exactly when an ok response decoded, projected and its callback returned
    ensures (eff.writes != [] && eff.writes[0].success == Some(true)) <==>
      IsOk(status) && body.Ok? && cfg.getResult(body.value).Ok? &&
      (cfg.onSuccess.None? || cfg.onSuccess.value(cfg.getResult(body.value).value, status, headers).None?)
    ensures eff.writes != [] && eff.writes[0].success == Some(true) ==>
      var result := cfg.getResult(body.value).value;
      eff.writes == [Succeeded(status, headers, result)] &&
      eff.events == (if cfg.onSuccess.Some? then [SuccessCalled(result, status, headers)] else [])
    // an error-response state is written exactly when a non-ok response decoded, projected and its callback returned
    ensures (eff.writes != [] && eff.writes[0].errorResult.Some?) <==>
      !IsOk(status) && body.Ok? && cfg.getError(body.value).Ok? &&
      (cfg.onError.None? || cfg.onError.value(cfg.getError(body.value).value, status, headers).None?)
    ensures eff.writes != [] && eff.writes[0].errorResult.Some? ==>
      var errorResult := cfg.getError(body.value).value;
      eff.writes == [Failed(status, headers, errorResult)] &&
      eff.events == (if cfg.onError.Some? then [ErrorCalled(errorResult, status, headers)] else [])
    // otherwise the catch block records the real status of the response
    ensures eff.writes != [] && eff.writes[0].cause.Some? ==>
      eff.writes == [Crashed(status, eff.writes[0].cause.value)]
    ensures eff.writes != [] ==>
      eff.writes[0].success == Some(true) || eff.writes[0].errorResult.Some? || eff.writes[0].cause.Some?
    // every throw on the way reaches the catch block, with the response's real status
    ensures body.Throws? ==> eff == CatchEffect(cfg, status, body.error)
    ensures body.Ok? && IsOk(status) && cfg.getResult(body.value).Throws? ==>
      eff == CatchEffect(cfg, status, cfg.getResult(body.value).error)
    ensures body.Ok? && !IsOk(status) && cfg.getError(body.value).Throws? ==>
      eff == CatchEffect(cfg, status, cfg.getError(body.value).error)
    // a throwing callback has fired before the catch block runs
    ensures body.Ok? && IsOk(status) && cfg.getResult(body.value).Ok? && cfg.onSuccess.Some? ==>
      var result := cfg.getResult(body.value).value;
      var thrown := cfg.onSuccess.value(result, status, headers);
      thrown.Some? ==> eff == Prepend([SuccessCalled(result, status, headers)], CatchEffect(cfg, status, thrown.value))
    ensures body.Ok? && !IsOk(status) && cfg.getError(body.value).Ok? && cfg.onError.Some? ==>
      var errorResult := cfg.getError(body.value).value;
      var thrown := cfg.onError.value(errorResult, status, headers);
      thrown.Some? ==> eff == Prepend([ErrorCalled(errorResult, status, headers)], CatchEffect(cfg, status, thrown.value))
  {
    match body
    case Throws(e) => CatchEffect(cfg, status, e)
    case Ok(json) =>
      if IsOk(status) then
        match cfg.getResult(json)
        case Throws(e) => CatchEffect(cfg, status, e)
        case Ok(result) => SuccessEffect(cfg, status, headers, result)
      else
        match cfg.getError(json)
        case Throws(e) => CatchEffect(cfg, status, e)
        case Ok(errorResult) => ErrorEffect(cfg, status, headers, errorResult)
  }

  /**
   * The continuation of `submit` after `await fetch(...)`, under the
   * configuration read when the submission started.
   */
  function Continuation<A, P, J, R, E, H>(cfg: Config<A, P, J, R, E, H>, outcome: Outcome<J, H>): (eff: Effect<R, E, H>)
    // cancellation is silent
    ensures outcome.AbortRejected? ==> Silent(eff)
    ensures outcome.Threw? && IsAbortError(outcome.err) ==> Silent(eff)
    // exclusivity of every state asked for, and at most one of them
    ensures AllExclusive(eff.writes) && |eff.writes| <= 1
    // an escaping error means nothing was written
    ensures eff.rejection.Some? ==> eff.writes == [] && cfg.onException.Some?
    // only a response can produce a success or an error-response state
    ensures eff.writes != [] && (eff.writes[0].success == Some(true) || eff.writes[0].errorResult.Some?) ==>
      outcome.Responded?
    ensures outcome.Responded? ==> eff == ResponseEffect(cfg, outcome.status, outcome.headers, outcome.body)
    // a recorded exception keeps the status seen so far and is never an abort
    ensures eff.writes != [] && eff.writes[0].cause.Some? ==>
      eff.writes == [Crashed(StatusSeen(outcome), eff.writes[0].cause.value)] &&
      !IsAbortError(eff.writes[0].cause.value)
    // a rejected fetch fires at most `onException`, with the error as thrown
    ensures outcome.Threw? && !IsAbortError(outcome.err) ==>
      eff.events == (if cfg.onException.Some? then [ExceptionCalled(outcome.err)] else []) &&
      (eff.rejection.None? ==> eff.writes == [Crashed(-1, outcome.err)])
    // a rejected fetch goes straight to the catch block, before any response status is seen
    ensures outcome.Threw? ==> eff == CatchEffect(cfg, -1, outcome.err)
  {
    match outcome
    case AbortRejected => CatchEffect(cfg, -1, AbortError)
    case Threw(e) => CatchEffect(cfg, -1, e)
    case Responded(status, headers, body) => ResponseEffect(cfg, status, headers, body)
  }

  /**
   * The writes of the synchronous prefix of `submit`: `abort()` of a held
   * controller writes `{}`, then `{ loading: true }`.
   */
  function AbortAndLoad<R, E, H>(hadController: bool): (ws: seq<FetchState<R, E, H>>)
    ensures AllExclusive(ws)
    ensures |ws| == (if hadController then 2 else 1)
    ensures ws[0] == Idle() <==> hadController
    ensures Last(ws) == Loading()
  {
    (if hadController then [Idle()] else []) + [Loading()]
  }

  /** `prepare(...args)`, run before the first `await`: nothing observable unless it throws. */
  function PrepareEffect<A, P, J, R, E, H>(cfg: Config<A, P, J, R, E, H>, args: A): (eff: Effect<R, E, H>)
    ensures cfg.prepare(args).Ok? ==> Silent(eff)
    ensures AllExclusive(eff.writes) && |eff.writes| <= 1
    ensures eff.writes != [] ==> eff.writes == [Crashed(-1, cfg.prepare(args).error)]
    ensures eff.events != [] ==> eff.events == [ExceptionCalled(cfg.prepare(args).error)]
    ensures cfg.prepare(args).Throws? && !IsAbortError(cfg.prepare(args).error) ==>
      (eff.writes != [] <==> eff.rejection.None?) &&
      (eff.events != [] <==> cfg.onException.Some?)
    ensures cfg.prepare(args).Throws? ==> eff == CatchEffect(cfg, -1, cfg.prepare(args).error)
  {
    match cfg.prepare(args)
    case Ok(_) => Effect([], [], None)
    case Throws(e) => CatchEffect(cfg, -1, e)
  }
}
