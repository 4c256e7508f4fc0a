/** Values shared by the request engine and the option presets. */
module Common {

  datatype Option<+T> = None | Some(value: T)

  /** A thrown JavaScript value, reduced to what the engine inspects: its `name`. */
  datatype Error = Error(name: string, message: string)

  /** The outcome of a call into code outside the model that may throw. */
  datatype Result<+T> = Ok(value: T) | Throws(error: Error)

  /** The name an `AbortController` gives the rejection of an aborted fetch. */
  const AbortErrorName: string := "AbortError"

  predicate IsAbortError(e: Error) {
    e.name == AbortErrorName
  }

  /** The rejection a transport produces when its abort signal fires. */
  const AbortError: Error := Error(AbortErrorName, "The operation was aborted.")

  /** The elements an optional reference holds: none or one. */
  function Held<T>(o: Option<T>): set<T> {
    if o.Some? then {o.value} else {}
  }

  /** The writes that survive the mount guard. */
  function Guard<T>(mounted: bool, ws: seq<T>): seq<T> {
    if mounted then ws else []
  }

  function Last<T>(s: seq<T>): T
    requires s != []
  {
    s[|s| - 1]
  }
}
