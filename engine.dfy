/**
 * The request engine behind `useFetch`, with the React primitives replaced
 * by fields: the state slot, the `mounted` ref, the controller ref and the
 * latest-config ref. The `await` inside `submit` splits it into `Submit`
 * (the synchronous prefix) and `Settle` (the continuation, run when the
 * transport settles the fetch of a token).
 */
module Engine {
  import opened Common
  import opened FetchStates
  import opened Settlement

  /** An `AbortController`, identified by the order in which it was created. */
  type Token = nat

  class FetchEngine<A, P, J, R, E, H> {
    /** `latestConfig.current`: reassigned on every render. */
    var latestConfig: Config<A, P, J, R, E, H>
    /** The `params` of the first render, which the layout effect captures. */
    const initialParams: Option<A>
    /** The state slot behind `useState`. */
    var state: FetchState<R, E, H>
    /** `mounted.current` */
    var mounted: bool
    /** `controller.current` */
    var current: Option<Token>
    /** The controllers whose `abort()` has been called. */
    var aborted: set<Token>
    /** The next controller to be created. */
    var nextToken: Token
    /** Fetches still awaited, each with the configuration its submission read. */
    var inFlight: map<Token, Config<A, P, J, R, E, H>>
    /** Every callback invocation, in order. */
    var log: seq<Event<R, E, H>>

    /** The controllers created so far. */
    ghost var issued: set<Token>
    /** Every value the state slot has held, the latest last. */
    ghost var writes: seq<FetchState<R, E, H>>

    ghost predicate Valid()
      reads this
    {
      (forall t :: t in issued ==> t < nextToken) &&
      inFlight.Keys <= issued && Held(current) <= issued &&
      // single-flight: every controller but the current one has been aborted
      aborted == issued - Held(current) &&
      |writes| > 0 && state == Last(writes) &&
      AllExclusive(writes)
    }

    /**
     * The effect `eff` has been applied to the earlier log and writes: every
     * callback fired, the writes kept only while mounted. With Valid(), the
     * state is then the last write kept, or unchanged when none was.
     */
    ghost predicate Applied(eff: Effect<R, E, H>, writes0: seq<FetchState<R, E, H>>, log0: seq<Event<R, E, H>>)
      reads this
    {
      log == log0 + eff.events &&
      writes == writes0 + Guard(mounted, eff.writes)
    }

    /** The first render: `useState({ loading: !!params })`, `useRef(true)`, `useRef()`. */
    constructor (config: Config<A, P, J, R, E, H>, params: Option<A>)
      ensures Valid()
      ensures state == InitialState(params.Some?) && writes == [state]
      ensures mounted && current.None? && aborted == {} && issued == {} && nextToken == 0
      ensures inFlight == map[] && log == []
      ensures latestConfig == config && initialParams == params
    {
      latestConfig := config;
      initialParams := params;
      state := InitialState(params.Some?);
      mounted := true;
      current := None;
      aborted := {};
      nextToken := 0;
      inFlight := map[];
      log := [];
      issued := {};
      writes := [InitialState(params.Some?)];
    }

    /** A later render: `useAndSetRef` stores the new configuration and nothing else. */
    method Render(config: Config<A, P, J, R, E, H>)
      requires Valid()
      modifies this`latestConfig
      ensures Valid() && latestConfig == config
    {
      latestConfig := config;
    }

    /** The guarded `setState`: dropped while unmounted. */
    method SetState(s: FetchState<R, E, H>)
      requires Valid() && AtMostOneFlag(s)
      modifies this`state, this`writes
      ensures Valid()
      ensures writes == old(writes) + Guard(mounted, [s])
      ensures state == if mounted then s else old(state)
    {
      if mounted {
        state := s;
        writes := writes + [s];
      }
    }

    /** `abort`: with a controller held, abort it, drop the reference, write `{}`. */
    method Abort()
      requires Valid()
      modifies this`current, this`aborted, this`state, this`writes
      ensures Valid()
      ensures current.None? && aborted == old(aborted) + Held(old(current))
      ensures writes == old(writes) + Guard(mounted, if old(current).Some? then [Idle()] else [])
      ensures old(current).None? ==> state == old(state) && aborted == old(aborted)
      ensures old(current).Some? ==> state == if mounted then Idle() else old(state)
    {
      if current.Some? {
        aborted := aborted + {current.value};
        current := None;
        SetState(Idle());
      }
    }

    /** The catch block of `submit`, with `responseStatus` as it stood and the error thrown. */
    method Catch(config: Config<A, P, J, R, E, H>, responseStatus: int, error: Error) returns (rejection: Option<Error>)
      requires Valid()
      modifies this`state, this`writes, this`log
      ensures Valid()
      ensures Applied(CatchEffect(config, responseStatus, error), old(writes), old(log))
      ensures rejection == CatchEffect(config, responseStatus, error).rejection
    {
      rejection := None;
      if !IsAbortError(error) {
        match config.onException {
          case Some(onException) =>
            log := log + [ExceptionCalled(error)];
            rejection := onException(error);
          case None =>
        }
        if rejection.None? {
          SetState(Crashed(responseStatus, error));
        }
      }
    }

    /** The ok branch: `getResult(await response.json())`, `onSuccess`, then the success state. */
    method Succeed(config: Config<A, P, J, R, E, H>, status: int, headers: H, body: Result<J>)
      returns (rejection: Option<Error>)
      requires Valid() && IsOk(status)
      modifies this`state, this`writes, this`log
      ensures Valid()
      ensures Applied(ResponseEffect(config, status, headers, body), old(writes), old(log))
      ensures rejection == ResponseEffect(config, status, headers, body).rejection
    {
      var thrown: Option<Error> := None;
      var result: R;
      match body {
        case Throws(e) => thrown := Some(e);
        case Ok(json) =>
          match config.getResult(json) {
            case Throws(e) => thrown := Some(e);
            case Ok(r) =>
              result := r;
              match config.onSuccess {
                case Some(onSuccess) =>
                  log := log + [SuccessCalled(result, status, headers)];
                  thrown := onSuccess(result, status, headers);
                case None =>
              }
              if thrown.None? {
                SetState(Succeeded(status, headers, result));
              }
          }
      }
      if thrown.Some? {
        rejection := Catch(config, status, thrown.value);
      } else {
        rejection := None;
      }
    }

    /** The non-ok branch: `getError(await response.json())`, `onError`, then the error state. */
    method Fail(config: Config<A, P, J, R, E, H>, status: int, headers: H, body: Result<J>)
      returns (rejection: Option<Error>)
      requires Valid() && !IsOk(status)
      modifies this`state, this`writes, this`log
      ensures Valid()
      ensures Applied(ResponseEffect(config, status, headers, body), old(writes), old(log))
      ensures rejection == ResponseEffect(config, status, headers, body).rejection
    {
      var thrown: Option<Error> := None;
      var errorResult: E;
      match body {
        case Throws(e) => thrown := Some(e);
        case Ok(json) =>
          match config.getError(json) {
            case Throws(e) => thrown := Some(e);
            case Ok(er) =>
              errorResult := er;
              match config.onError {
                case Some(onError) =>
                  log := log + [ErrorCalled(errorResult, status, headers)];
                  thrown := onError(errorResult, status, headers);
                case None =>
              }
              if thrown.None? {
                SetState(Failed(status, headers, errorResult));
              }
          }
      }
      if thrown.Some? {
        rejection := Catch(config, status, thrown.value);
      } else {
        rejection := None;
      }
    }

    /** `controller.current = new AbortController()`, once no controller is held. */
    method Install() returns (t: Token)
      requires Valid() && current.None?
      modifies this`nextToken, this`issued, this`current
      ensures Valid()
      ensures t == old(nextToken) && t !in old(issued) && issued == old(issued) + {t} && nextToken == t + 1
      ensures current == Some(t)
    {
      t := nextToken;
      nextToken := nextToken + 1;
      issued := issued + {t};
      current := Some(t);
    }

    /**
     * The synchronous prefix of `submit(...args)`: read the configuration,
     * abort the held controller, install a fresh one, write
     * `{ loading: true }`, call `prepare` and issue the fetch with the new
     * controller's signal. A throw from `prepare` is caught right away.
     */
    method Submit(args: A) returns (t: Token, call: Option<FetchCall<P>>, rejection: Option<Error>)
      requires Valid()
      modifies this
      ensures Valid()
      ensures t == old(nextToken) && t !in old(issued) && issued == old(issued) + {t} && nextToken == t + 1
      ensures current == Some(t) && aborted == old(aborted) + Held(old(current))
      ensures mounted == old(mounted) && latestConfig == old(latestConfig)
      ensures writes == old(writes) + Guard(mounted, AbortAndLoad(old(current).Some?))
                                    + Guard(mounted, PrepareEffect(old(latestConfig), args).writes)
      ensures log == old(log) + PrepareEffect(old(latestConfig), args).events
      ensures rejection == PrepareEffect(old(latestConfig), args).rejection
      ensures old(latestConfig).prepare(args).Ok? ==>
        call == Some(FetchCall(old(latestConfig).prepare(args).value, t)) &&
        inFlight == old(inFlight)[t := old(latestConfig)]
      ensures old(latestConfig).prepare(args).Throws? ==> call.None? && inFlight == old(inFlight)
    {
      var config := latestConfig;
      t := Restart();
      call, rejection := Dispatch(config, args, t);
    }

    /** `abort()`, `controller.current = new AbortController()`, `setState({ loading: true })`. */
    method Restart() returns (t: Token)
      requires Valid()
      modifies this`current, this`aborted, this`state, this`writes, this`nextToken, this`issued
      ensures Valid()
      ensures t == old(nextToken) && t !in old(issued) && issued == old(issued) + {t} && nextToken == t + 1
      ensures current == Some(t) && aborted == old(aborted) + Held(old(current))
      ensures writes == old(writes) + Guard(mounted, AbortAndLoad(old(current).Some?))
    {
      Abort();
      t := Install();
      SetState(Loading());
    }

    /**
     * `const [input, init] = config.prepare(...args)` and the call
     * `fetch(input, { ...init, signal })`; a throw from `prepare` reaches the
     * catch block with `responseStatus` still -1.
     */
    method Dispatch(config: Config<A, P, J, R, E, H>, args: A, t: Token)
      returns (call: Option<FetchCall<P>>, rejection: Option<Error>)
      requires Valid() && t in issued && t !in inFlight
      modifies this`inFlight, this`state, this`writes, this`log
      ensures Valid()
      ensures Applied(PrepareEffect(config, args), old(writes), old(log))
      ensures rejection == PrepareEffect(config, args).rejection
      ensures config.prepare(args).Ok? ==>
        call == Some(FetchCall(config.prepare(args).value, t)) && inFlight == old(inFlight)[t := config]
      ensures config.prepare(args).Throws? ==> call.None? && inFlight == old(inFlight)
    {
      var responseStatus := -1;
      match config.prepare(args) {
        case Throws(e) =>
          call := None;
          rejection := Catch(config, responseStatus, e);
        case Ok(params) =>
          call := Some(FetchCall(params, t));
          inFlight := inFlight[t := config];
          rejection := None;
      }
    }

    /** The transport honours the controller: the fetch of an aborted controller rejects with `AbortError`. */
    ghost predicate HonoursAbort(t: Token, outcome: Outcome<J, H>)
      reads this
    {
      t in aborted ==> outcome.AbortRejected?
    }

    /**
     * The continuation of `submit` for controller `t`, once the transport has
     * settled its fetch with `outcome`. It runs under the configuration read
     * when `t`'s submission started, whatever has been rendered since.
     */
    method Settle(t: Token, outcome: Outcome<J, H>) returns (rejection: Option<Error>)
      requires Valid() && t in inFlight && HonoursAbort(t, outcome)
      modifies this
      ensures Valid()
      ensures inFlight == old(inFlight) - {t}
      ensures latestConfig == old(latestConfig) && mounted == old(mounted) && current == old(current)
      ensures aborted == old(aborted) && issued == old(issued) && nextToken == old(nextToken)
      ensures Applied(Continuation(old(inFlight)[t], outcome), old(writes), old(log))
      ensures rejection == Continuation(old(inFlight)[t], outcome).rejection
      // a superseded submission leaves no trace
      ensures old(current) != Some(t) ==>
        state == old(state) && writes == old(writes) && log == old(log) && rejection.None?
      // an unmounted engine keeps its state, though callbacks still fire
      ensures !mounted ==> state == old(state) && writes == old(writes)
    {
      assert current != Some(t) ==> t in aborted;
      var config := inFlight[t];
      inFlight := inFlight - {t};
      rejection := Resume(config, outcome);
    }

    /** The body of `submit` from `responseStatus = response.status` on, with its catch block. */
    method Resume(config: Config<A, P, J, R, E, H>, outcome: Outcome<J, H>) returns (rejection: Option<Error>)
      requires Valid()
      modifies this`state, this`writes, this`log
      ensures Valid()
      ensures Applied(Continuation(config, outcome), old(writes), old(log))
      ensures rejection == Continuation(config, outcome).rejection
    {
      var responseStatus := -1;
      match outcome {
        case AbortRejected =>
          rejection := Catch(config, responseStatus, AbortError);
        case Threw(e) =>
          rejection := Catch(config, responseStatus, e);
        case Responded(status, headers, body) =>
          responseStatus := status;
          if IsOk(status) {
            rejection := Succeed(config, responseStatus, headers, body);
          } else {
            rejection := Fail(config, responseStatus, headers, body);
          }
      }
    }

    /** The layout effect: set `mounted`, then `submit(...params)` when the first render had params. */
    method Attach() returns (submitted: Option<(Token, Option<FetchCall<P>>)>, rejection: Option<Error>)
      requires Valid()
      modifies this
      ensures Valid() && mounted && latestConfig == old(latestConfig)
      ensures initialParams.None? ==>
        submitted.None? && rejection.None? &&
        state == old(state) && writes == old(writes) && log == old(log) &&
        current == old(current) && aborted == old(aborted) && issued == old(issued) &&
        nextToken == old(nextToken) && inFlight == old(inFlight)
      ensures initialParams.Some? ==>
        submitted.Some? && submitted.value.0 == old(nextToken) &&
        issued == old(issued) + {old(nextToken)} && nextToken == old(nextToken) + 1 &&
        current == Some(old(nextToken)) && aborted == old(aborted) + Held(old(current)) &&
        writes == old(writes) + AbortAndLoad(old(current).Some?)
                              + PrepareEffect(old(latestConfig), initialParams.value).writes &&
        log == old(log) + PrepareEffect(old(latestConfig), initialParams.value).events &&
        rejection == PrepareEffect(old(latestConfig), initialParams.value).rejection
    // the initial fetch is issued, and awaited, exactly when `prepare` returns
    ensures initialParams.Some? && old(latestConfig).prepare(initialParams.value).Ok? ==>
      submitted == Some((old(nextToken), Some(FetchCall(old(latestConfig).prepare(initialParams.value).value, old(nextToken))))) &&
      inFlight == old(inFlight)[old(nextToken) := old(latestConfig)]
    ensures initialParams.Some? && old(latestConfig).prepare(initialParams.value).Throws? ==>
      submitted == Some((old(nextToken), None)) && inFlight == old(inFlight)
    {
      mounted := true;
      submitted, rejection := None, None;
      if initialParams.Some? {
        var t, call;
        t, call, rejection := Submit(initialParams.value);
        submitted := Some((t, call));
      }
    }

    /** The effect's cleanup: clear `mounted` first, so the `{}` that `abort` writes is dropped. */
    method Detach()
      requires Valid()
      modifies this`mounted, this`current, this`aborted, this`state, this`writes
      ensures Valid() && !mounted
      ensures current.None? && aborted == old(aborted) + Held(old(current))
      ensures state == old(state) && writes == old(writes)
    {
      mounted := false;
      Abort();
    }
  }

  /**
   * Two submissions in a row, the first superseded while its fetch is
   * pending, its aborted fetch settling after the second's: the state ends
   * as the second's success, and only the second fires `onSuccess`.
   */
  method SupersededSubmission<A, P, J, R, E, H>(engine: FetchEngine<A, P, J, R, E, H>, a: A, b: A,
                                                status: int, headers: H, json: J)
    returns (final: FetchState<R, E, H>)
    requires engine.Valid() && engine.mounted
    requires engine.latestConfig.prepare(a).Ok? && engine.latestConfig.prepare(b).Ok?
    requires IsOk(status) && engine.latestConfig.getResult(json).Ok?
    requires engine.latestConfig.onSuccess.Some? ==>
      engine.latestConfig.onSuccess.value(engine.latestConfig.getResult(json).value, status, headers).None?
    modifies engine
    ensures final == engine.state == Succeeded(status, headers, old(engine.latestConfig).getResult(json).value)
    ensures engine.log == old(engine.log) +
      (if old(engine.latestConfig).onSuccess.Some?
       then [SuccessCalled(old(engine.latestConfig).getResult(json).value, status, headers)]
       else [])
  {
    ghost var config := engine.latestConfig;
    ghost var log0 := engine.log;
    var ta, callA, rejectA := engine.Submit(a);
    var tb, callB, rejectB := engine.Submit(b);
    assert ta in engine.aborted && engine.inFlight[tb] == config;
    var settledB := engine.Settle(tb, Responded(status, headers, Ok(json)));
    ghost var effB := ResponseEffect(config, status, headers, Ok(json));
    assert effB.writes != [] && effB.writes[0].success == Some(true);
    assert engine.log == log0 + effB.events;
    var settledA := engine.Settle(ta, AbortRejected);
    final := engine.state;
  }

  /** The same two submissions, the aborted first fetch settling before the second's. */
  method SupersededSubmissionAbortFirst<A, P, J, R, E, H>(engine: FetchEngine<A, P, J, R, E, H>, a: A, b: A,
                                                          status: int, headers: H, json: J)
    returns (final: FetchState<R, E, H>)
    requires engine.Valid() && engine.mounted
    requires engine.latestConfig.prepare(a).Ok? && engine.latestConfig.prepare(b).Ok?
    requires IsOk(status) && engine.latestConfig.getResult(json).Ok?
    requires engine.latestConfig.onSuccess.Some? ==>
      engine.latestConfig.onSuccess.value(engine.latestConfig.getResult(json).value, status, headers).None?
    modifies engine
    ensures final == engine.state == Succeeded(status, headers, old(engine.latestConfig).getResult(json).value)
    ensures engine.log == old(engine.log) +
      (if old(engine.latestConfig).onSuccess.Some?
       then [SuccessCalled(old(engine.latestConfig).getResult(json).value, status, headers)]
       else [])
  {
    ghost var config := engine.latestConfig;
    ghost var log0 := engine.log;
    var ta, callA, rejectA := engine.Submit(a);
    var tb, callB, rejectB := engine.Submit(b);
    assert ta in engine.aborted && engine.inFlight[tb] == config;
    var settledA := engine.Settle(ta, AbortRejected);
    assert engine.log == log0 && engine.inFlight[tb] == config;
    var settledB := engine.Settle(tb, Responded(status, headers, Ok(json)));
    ghost var effB := ResponseEffect(config, status, headers, Ok(json));
    assert effB.writes != [] && effB.writes[0].success == Some(true);
    final := engine.state;
  }
}
