# react-use-fetch-ts: the `useFetch` request engine and `initFormPost`, in Dafny

This project models the core of `react-use-fetch-ts`:

- **The request engine inside `useFetch`.** It is one state slot (`FetchState`), guarded by a `mounted` flag. It holds one current `AbortController`. It reads the latest configuration through a ref. It provides `submit`, `abort` and a mount/unmount effect.
- **`initFormPost` and the three `RequestInit` presets it builds on.**

The engine is imperative, so it is the class `Engine.FetchEngine`. Its fields are the hook's refs and state:

- `state`
- `mounted`
- `current`, the controller ref
- `latestConfig`
- `aborted`, the set of aborted controllers
- `inFlight`, the awaited fetches, each with the configuration its submission read
- `log`, the callback invocations

A controller is a `Token`, numbered in creation order. The `await` in `submit` splits it into two methods:

- `Submit` is the synchronous prefix. It aborts the held controller, installs a fresh one, writes `{loading: true}`, calls `prepare` and issues the fetch.
- `Settle(t, outcome)` is the continuation. It runs when the transport settles controller `t`'s fetch.

`Settle` requires that the transport honour the abort signal: an aborted controller's fetch can only settle as `AbortRejected`. From that requirement and the class invariant `Valid()` (every controller but the current one is aborted), `Settle` proves that a superseded submission changes neither the state nor the callback log.

What each step does is also stated as values, in module `Settlement`. `Continuation`, `ResponseEffect`, `CatchEffect`, `AbortAndLoad` and `PrepareEffect` give the callbacks fired, the state writes asked for and the error that escapes. They are pure functions whose contracts state the classification rules. The engine's methods are proved to apply exactly these effects, with writes kept only while mounted.

`initFormPost` is pure, so it is the function `Defaults.InitFormPost`. `encodeURIComponent` is a parameter `encode`. The URL-encoded branch is proved against a reference reader, `ParseUrlEncoded`: split on `&`, cut each part at its first `=`, decode the value.

Abstract parts:

- The transport is abstract. An outcome is `AbortRejected`, `Threw(error)` or `Responded(status, headers, decoded body)`.
- `prepare`, `getResult` and `getError` are functions that either return a value or throw (`Result`).
- A callback is a function that either returns or throws. `onException` throwing is the one way an error escapes `submit`.
- "ok" means status 200 to 299, the ok status of section 2.2.3 of the WHATWG Fetch Standard.

Behaviour the model records as the code has it:

- With no params the initial state is `{loading: false}`, not `{}` (`FetchStates.InitialState`).
- The controller is not cleared when a request completes. `Settle` leaves `current` unchanged, so a later `Abort` still aborts it and writes `{}`.
- Callbacks run before `setState`: `onSuccess` and `onError` fire before the terminal state is written. They are not mount-guarded, so `log` grows even while unmounted.
- A throw from `response.json()`, `getResult`, `getError` or a callback reaches the catch block with the response's real status. A rejected fetch or a throwing `prepare` gets -1. The doc comments of `responseStatus` and `responseHeaders` (src/index.ts:12-15) say they are set only "if no exception has been thrown", yet the catch block writes `responseStatus` into the exception state (src/index.ts:92), and the model follows the code.
- A throw from `onException` escapes the catch block: no exception state is written and `submit`'s promise rejects. The model returns this error as `rejection`.
- The layout effect sets `mounted` to `true` each time it runs (`Attach`), so the flag can be set again after an unmount.
- The configuration is read once, at the start of `submit`. `Render` changes only `latestConfig`. `Settle` uses the configuration stored in `inFlight`.

## Model

| member | source | states |
|---|---|---|
| `FetchStates.InitialState` | src/index.ts:54 | the initial state has `loading` set to true iff params were given; otherwise it is `{loading: false}`, which is not `{}`, and it has no other field |
| `FetchStates.WrittenStatesExclusive` | src/index.ts:64-92 | each of `{}`, `{loading: true}`, the success, error-response and exception states sets at most one of `loading`/`success`/`error`, and sets the one its kind names |
| `Settlement.CatchEffect` | src/index.ts:88-94 | an error named `AbortError` has no effect; any other error fires `onException` once, then writes `{responseStatus, error: true, cause}` with the status as it stood, unless `onException` throws, in which case nothing is written and its error escapes |
| `Settlement.ResponseEffect` | src/index.ts:77-94 | a success state with `result = getResult(body)` is written iff the status is ok, the body decoded, `getResult` returned and `onSuccess` (fired once, before the write) returned; symmetrically `onError`, `getError` and `errorResult` for a non-ok status; a throw from `json()`, `getResult` or `getError` is exactly the catch block (`CatchEffect`) with the response's real status, and a throw from `onSuccess`/`onError` is that callback's invocation followed by the catch block; at most one state is written, and it is exclusive |
| `Settlement.Continuation` | src/index.ts:75-94 | an abort rejection, or any rejection named `AbortError`, is silent; a rejected fetch is exactly the catch block with status -1 (`CatchEffect(cfg, -1, err)`); a response follows `ResponseEffect`, so the success and error-response states come only from a response; an escaping error writes nothing; every write keeps the flags exclusive |
| `Settlement.AbortAndLoad` | src/index.ts:71-73 | the synchronous prefix writes `{}` first exactly when a controller was held, and ends with `{loading: true}`; both writes are exclusive |
| `Settlement.PrepareEffect` | src/index.ts:74 | a `prepare` that returns has no effect; one that throws is exactly the catch block with status -1 (`CatchEffect(cfg, -1, e)`), so at most `onException` fires and, unless it throws, `{responseStatus: -1, error: true, cause}` is written |
| `Engine.FetchEngine.constructor` | src/index.ts:53-59 | the engine starts mounted, with no controller, no in-flight fetch, an empty callback log, the given configuration, and the state `InitialState(params given)` |
| `Engine.FetchEngine.Render` | src/index.ts:43-47 | a re-render replaces only the latest configuration |
| `Engine.FetchEngine.SetState` | src/index.ts:56-58 | a write takes effect iff the engine is mounted; otherwise state and history are unchanged |
| `Engine.FetchEngine.Abort` | src/index.ts:60-66 | with no controller held nothing changes; otherwise that controller is aborted, the reference is cleared and `{}` is written (subject to the mount guard) |
| `Engine.FetchEngine.Catch` | src/index.ts:88-94 | the catch block applies `CatchEffect`: its callbacks are logged unconditionally, its write goes through the mount guard, and its escaping error is returned |
| `Engine.FetchEngine.Succeed` | src/index.ts:79-82 | the ok branch (from decoding the body to the success write, including the catch of its throws) applies `ResponseEffect` |
| `Engine.FetchEngine.Fail` | src/index.ts:83-87 | the non-ok branch (from decoding the body to the error-response write, including the catch of its throws) applies `ResponseEffect` |
| `Engine.FetchEngine.Install` | src/index.ts:72 | a controller never created before becomes the current one |
| `Engine.FetchEngine.Restart` | src/index.ts:71-73 | the held controller, if any, is aborted; a fresh controller is installed as current; the writes `AbortAndLoad` lists go through the mount guard |
| `Engine.FetchEngine.Dispatch` | src/index.ts:74-75 | when `prepare` returns, the fetch is issued with the new controller's signal and the configuration is kept for the continuation; when it throws, nothing is issued and `PrepareEffect` is applied |
| `Engine.FetchEngine.Submit` | src/index.ts:67-75 | `submit` reads the latest configuration once, aborts the held controller, installs a fresh one as the only non-aborted controller, asks for `{}` when a controller was held and then `{loading: true}`, and issues the fetch with the fresh signal or catches `prepare`'s throw; mounted flag and configuration are unchanged |
| `Engine.FetchEngine.Settle` | src/index.ts:75-94 | given a transport that honours aborts, the settlement applies `Continuation` under the configuration its submission read; a settlement of a controller that is no longer current changes neither state, writes nor callback log; while unmounted the state never changes; the controller reference is not cleared |
| `Engine.FetchEngine.Resume` | src/index.ts:77-94 | the continuation's body, dispatching on the outcome to the catch block or to the ok or non-ok branch, applies `Continuation` |
| `Engine.FetchEngine.Attach` | src/index.ts:96-98 | the effect sets `mounted`; without params nothing else changes; with params exactly one submission starts, whose writes all take effect: a fresh controller becomes the only non-aborted one, and when `prepare` returns its fetch is issued with that controller's signal and awaited under the configuration read, otherwise nothing is issued and `prepare`'s throw is caught; the escaping error is `PrepareEffect`'s |
| `Engine.FetchEngine.Detach` | src/index.ts:99-102 | cleanup clears `mounted` before aborting, so the held controller is aborted and released while the state and its history stay unchanged |
| `Engine.SupersededSubmission` | src/index.ts:71-89 | `submit(a)` then `submit(b)`, then `b`'s fetch resolves ok and `a`'s aborted fetch settles after it: the state ends as `b`'s success and `onSuccess` fires once, for `b` only |
| `Engine.SupersededSubmissionAbortFirst` | src/index.ts:71-89 | `submit(a)` then `submit(b)`, then `a`'s aborted fetch settles before `b`'s ok response: the state ends as `b`'s success and `onSuccess` fires once, for `b` only |
| `Defaults.PresetRules` | src/defaults.ts:1-24 | GET uses `GET`, both POST presets use `POST`, all three use `credentials: "include"` and `Accept: application/json` and have no body; only the URL-encoded preset sets `Content-Type: application/x-www-form-urlencoded` |
| `Defaults.HasFile` | src/defaults.ts:28 | true iff some entry's value is a file |
| `Defaults.InitFormPost` | src/defaults.ts:26-38 | with a file among the entries the result is the multipart preset plus the form data itself as body; otherwise the URL-encoded preset plus the entries rendered in order as `key=encode(value)` joined by `&`; the preset's fields are copied unchanged and only the body is added |
| `Defaults.EmptyFormIsUrlEncoded` | src/defaults.ts:28-36 | an empty form takes the URL-encoded branch with body `""` |
| `Defaults.UrlEncodedRoundTrip` | src/defaults.ts:34-37 | for a form without files whose keys hold neither `&` nor `=`, with an encoder that never emits `&` and a decoder that undoes it, reading the body back gives each key verbatim with its string value, in order |

## Left out

- React primitives (`useState`, `useRef`, `useCallback`, `useLayoutEffect`) are replaced by class fields and the explicit methods `Attach`, `Detach` and `Render`. Re-render scheduling and the batching of several `setState` calls are not modelled. `writes` records every value the slot is given.
- Only the first render's `params` reach the effect (`initialParams`), as the empty dependency list has it.
- `fetch`, `Response`, `Headers`, `AbortController` and JSON decoding are browser APIs. They are abstract outcomes and opaque types.
- The two awaits (the fetch and `response.json()`) are one `Settle` step. An abort between them makes `json()` reject with `AbortError`, which the catch block ignores, so the effect is the one `AbortRejected` has.
- Async scheduling is the split between `Submit` and `Settle`, not concurrency.
- Callbacks that call back into the engine (`submit`, `abort`, or an unmount from inside a callback) are not modelled.
- `console.log(error)` is a logging side effect and is left out.
- `fetchConfig` is an identity function for typing and is left out.
- Thrown values are modelled as errors with a `name`. Throwing a non-object, whose `name` is `undefined`, is not modelled.
- TypeScript generics and the `any`-typed bodies are opaque type parameters.
- `FormData` and `File` are reduced to a sequence of entries. A file is kept only by its name, and object identity is not modelled.
- The percent-encoding algorithm of `encodeURIComponent` and its inverse are parameters. The round trip assumes the decoder undoes the encoder.
