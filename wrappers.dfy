/** Optional values, used where the TypeScript code has `T | null`,
    `undefined` or an error path. */
module Wrappers {

  datatype Option<+T> = None | Some(value: T) {
    function GetOr(default: T): T {
      match this
      case Some(v) => v
      case None => default
    }
  }

  datatype Result<+T, +E> = Ok(value: T) | Err(error: E)

  /** `useContext` followed by the hooks' guard: the provided value when a
      provider is above the caller, an error carrying `message` otherwise. */
  function RequireContext<T>(context: Option<T>, message: string): (r: Result<T, string>)
    ensures r.Ok? <==> context.Some?
    ensures r.Ok? ==> r.value == context.value
    ensures r.Err? ==> r.error == message
  {
    match context
    case Some(v) => Ok(v)
    case None => Err(message)
  }
}
