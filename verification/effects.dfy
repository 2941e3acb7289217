/**
 The observable effects of the sockets API's JavaScript handlers, as a trace:
 events fired on `onReceive` / `onReceiveError`, calls into the native bridge
 through `exec`, calls of the caller's callbacks, and a synchronous throw,
 which ends the handler.
 */
module Effects {
  import opened Js

  /** The two event streams the API exposes. */
  datatype Event = OnReceive | OnReceiveError

  /** What a handler throws. */
  datatype Thrown =
    | TypeError                  // a call of a value that is not a function, or `in` on a primitive
    | InvalidCharacterError      // `window.atob` on a string that is not base64
    | Error(message: string)     // `throw new Error(message)`

  datatype Effect =
    | Fire(event: Event, payload: Fields)      // `exports.<event>.fire(payload)`
    | Exec(action: string, args: seq<Value>)   // `exec(win, fail, 'ChromeSocketsTcp', action, args)`
    | Invoke(callback: nat, arg: Value)        // the caller's function with this identity is called
    | Raise(thrown: Thrown)                    // a synchronous throw

  type Trace = seq<Effect>

  /** The trace ends in a throw. */
  predicate Aborted(t: Trace) {
    |t| > 0 && t[|t| - 1].Raise?
  }

  /** Nothing happens after a throw. */
  ghost predicate WellFormed(t: Trace) {
    forall i :: 0 <= i < |t| && t[i].Raise? ==> i == |t| - 1
  }

  /** No bridge call is made. */
  ghost predicate NoExec(t: Trace) {
    forall i :: 0 <= i < |t| ==> !t[i].Exec?
  }

  /** Statement sequencing: `b` runs only when `a` did not throw. */
  function Then(a: Trace, b: Trace): (r: Trace)
    requires WellFormed(a) && WellFormed(b)
    ensures WellFormed(r)
  {
    if Aborted(a) then a else a + b
  }

  /** The call `cb(arg)`: a function is invoked, any other value throws. */
  function Call(cb: Value, arg: Value): (t: Trace)
    ensures WellFormed(t) && NoExec(t) && |t| == 1
  {
    if cb.Func? then [Invoke(cb.id, arg)] else [Raise(TypeError)]
  }

  /** A native completion of a callback built as `cb && function ...`: when
      `cb` is falsy there is no handler and the completion is dropped. */
  function Completion(cb: Value, body: Trace): Trace
  {
    if Truthy(cb) then body else []
  }
}
