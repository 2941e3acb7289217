/**
 The JavaScript entry points of `chrome.sockets.tcp`. Each entry point is
 modelled by the trace it produces when called (argument defaulting, the
 platform check, the synchronous throw and the zero-length short cut of
 `send`), and each callback it hands to the native bridge by the trace it
 produces when the bridge later completes the call. A callback built as
 `cb && function ...` does not exist when `cb` is falsy, and the bridge then
 drops that completion.
 */
module SocketsTcp {
  import opened Wrappers
  import opened Js
  import opened Effects
  import opened ErrorCodes

  // ---------------------------------------------------------------------
  // Optional arguments

  /** An optional argument and the callback, after defaulting. */
  datatype Shuffled = Shuffled(arg: Value, callback: Value)

  /** A function passed in the optional argument's place is the callback,
      and the optional argument takes its default. */
  function ShuffleOptional(arg: Value, callback: Value, default: Value): Shuffled {
    if IsFunction(arg) then Shuffled(default, arg) else Shuffled(arg, callback)
  }

  /** After defaulting, the optional argument is never a function, the
      callback is the function that was passed when one was passed in the
      optional argument's place, and defaulting again changes nothing. */
  lemma ShuffleOptionalSpec(arg: Value, callback: Value, default: Value)
    requires !IsFunction(default)
    ensures var s := ShuffleOptional(arg, callback, default);
            && !IsFunction(s.arg)
            && (IsFunction(arg) ==> s.callback == arg && s.arg == default)
            && (!IsFunction(arg) ==> s.callback == callback && s.arg == arg)
            && ShuffleOptional(s.arg, s.callback, default) == s
  {
  }

  // ---------------------------------------------------------------------
  // create

  /** `create(properties, callback)`: one bridge call carrying the
      properties, or `{}` when the first argument is the callback. */
  function Create(properties: Value, callback: Value): (t: Trace)
    ensures IsFunction(properties) ==> t == [Exec("create", [EmptyObject])]
    ensures !IsFunction(properties) ==> t == [Exec("create", [properties])]
  {
    var s := ShuffleOptional(properties, callback, EmptyObject);
    [Exec("create", [s.arg])]
  }

  /** The bridge's completion of `create`: the callback receives
      `{socketId: socketId}`. */
  function CreateCompleted(properties: Value, callback: Value, socketId: Value): (t: Trace)
    ensures WellFormed(t) && NoExec(t)
    ensures IsFunction(properties) ==> t == [Invoke(properties.id, Obj(map["socketId" := socketId]))]
    ensures !IsFunction(properties) && IsFunction(callback) ==>
              t == [Invoke(callback.id, Obj(map["socketId" := socketId]))]
    ensures !IsFunction(properties) && !Truthy(callback) ==> t == []
    ensures !IsFunction(properties) && Truthy(callback) && !IsFunction(callback) ==> t == [Raise(TypeError)]
  {
    var s := ShuffleOptional(properties, callback, EmptyObject);
    Completion(s.callback, Call(s.callback, Obj(map["socketId" := socketId])))
  }

  // ---------------------------------------------------------------------
  // Shared completion handlers

  /** A success completion that calls the callback with 0. */
  function Acknowledged(callback: Value): (t: Trace)
    ensures WellFormed(t) && NoExec(t)
    ensures IsFunction(callback) ==> t == [Invoke(callback.id, Number(0))]
    ensures !Truthy(callback) ==> t == []
    ensures Truthy(callback) && !IsFunction(callback) ==> t == [Raise(TypeError)]
  {
    Completion(callback, Call(callback, Number(0)))
  }

  /** A failure completion that only broadcasts the error record on
      `onReceiveError`; it exists only when `gate` is truthy. */
  function BroadcastFailure(os: Os, gate: Value, error: Fields, socketId: Value): (t: Trace)
    ensures WellFormed(t) && NoExec(t)
    ensures Truthy(gate) ==> t == [Fire(OnReceiveError, CreateErrorObj(os, error, socketId))]
    ensures !Truthy(gate) ==> t == []
  {
    Completion(gate, [Fire(OnReceiveError, CreateErrorObj(os, error, socketId))])
  }

  /** A failure completion that hands the error record to `failCallback`
      and then broadcasts it; it exists only when `gate` (the success
      callback) is truthy, and a `failCallback` that is not a function
      throws before the broadcast. */
  function ReportFailure(os: Os, gate: Value, failCallback: Value, error: Fields, socketId: Value): (t: Trace)
    ensures WellFormed(t) && NoExec(t)
    ensures var e := CreateErrorObj(os, error, socketId);
            Truthy(gate) && IsFunction(failCallback) ==>
              t == [Invoke(failCallback.id, Obj(e)), Fire(OnReceiveError, e)]
    ensures Truthy(gate) && !IsFunction(failCallback) ==> t == [Raise(TypeError)]
    ensures !Truthy(gate) ==> t == []
  {
    var e := CreateErrorObj(os, error, socketId);
    Completion(gate, Then(Call(failCallback, Obj(e)), [Fire(OnReceiveError, e)]))
  }

  /** Whatever the native error, the record a failure completion passes on
      has no bytes sent, the failing socket's id, and a standardised code. */
  lemma FailureRecordIsStandardised(os: Os, gate: Value, failCallback: Value, error: Fields, socketId: Value)
    ensures var t := ReportFailure(os, gate, failCallback, error, socketId);
            forall i :: 0 <= i < |t| && t[i].Fire? ==>
              && t[i].event == OnReceiveError
              && t[i].payload["bytesSent"] == Number(0)
              && t[i].payload["socketId"] == socketId
              && IsStandardised(os, t[i].payload["resultCode"])
  {
  }

  // ---------------------------------------------------------------------
  // setKeepAlive and setNoDelay

  /** `setKeepAlive(socketId, enabled, delay, callback)`: on Android one
      bridge call with `delay` defaulted to 0 when it is the callback; on
      iOS no bridge call at all. */
  function SetKeepAlive(os: Os, socketId: Value, enabled: Value, delay: Value, callback: Value): (t: Trace)
    ensures os == Ios ==> t == []
    ensures os == Android && IsFunction(delay) ==> t == [Exec("setKeepAlive", [socketId, enabled, Number(0)])]
    ensures os == Android && !IsFunction(delay) ==> t == [Exec("setKeepAlive", [socketId, enabled, delay])]
  {
    var s := ShuffleOptional(delay, callback, Number(0));
    if os == Android then [Exec("setKeepAlive", [socketId, enabled, s.arg])] else []
  }

  /** The bridge's success completion of `setKeepAlive`. */
  function SetKeepAliveCompleted(delay: Value, callback: Value): (t: Trace)
    ensures IsFunction(delay) ==> t == [Invoke(delay.id, Number(0))]
    ensures !IsFunction(delay) && IsFunction(callback) ==> t == [Invoke(callback.id, Number(0))]
    ensures !IsFunction(delay) && !Truthy(callback) ==> t == []
    ensures !IsFunction(delay) && Truthy(callback) && !IsFunction(callback) ==> t == [Raise(TypeError)]
  {
    Acknowledged(ShuffleOptional(delay, callback, Number(0)).callback)
  }

  /** The bridge's failure completion of `setKeepAlive`: the error is
      broadcast only when a callback was given. */
  function SetKeepAliveFailed(os: Os, socketId: Value, delay: Value, callback: Value, error: Fields): (t: Trace)
    ensures IsFunction(delay) || Truthy(callback) ==> t == [Fire(OnReceiveError, CreateErrorObj(os, error, socketId))]
    ensures !IsFunction(delay) && !Truthy(callback) ==> t == []
  {
    BroadcastFailure(os, ShuffleOptional(delay, callback, Number(0)).callback, error, socketId)
  }

  /** `setNoDelay(socketId, noDelay, callback)`: one bridge call on Android,
      none on iOS. */
  function SetNoDelay(os: Os, socketId: Value, noDelay: Value): (t: Trace)
    ensures os == Ios ==> t == []
    ensures os == Android ==> |t| == 1 && t[0] == Exec("setNoDelay", [socketId, noDelay])
  {
    if os == Android then [Exec("setNoDelay", [socketId, noDelay])] else []
  }

  /** The bridge's completions of `setNoDelay`. */
  function SetNoDelayCompleted(callback: Value): (t: Trace)
    ensures IsFunction(callback) ==> t == [Invoke(callback.id, Number(0))]
    ensures !Truthy(callback) ==> t == []
    ensures Truthy(callback) && !IsFunction(callback) ==> t == [Raise(TypeError)]
  {
    Acknowledged(callback)
  }

  function SetNoDelayFailed(os: Os, socketId: Value, callback: Value, error: Fields): (t: Trace)
    ensures Truthy(callback) ==> t == [Fire(OnReceiveError, CreateErrorObj(os, error, socketId))]
    ensures !Truthy(callback) ==> t == []
  {
    BroadcastFailure(os, callback, error, socketId)
  }

  // ---------------------------------------------------------------------
  // connect and secure

  /** The bridge's success completion of `connect`. */
  function ConnectCompleted(successCallback: Value): (t: Trace)
    ensures IsFunction(successCallback) ==> t == [Invoke(successCallback.id, Number(0))]
    ensures !Truthy(successCallback) ==> t == []
    ensures Truthy(successCallback) && !IsFunction(successCallback) ==> t == [Raise(TypeError)]
  {
    Acknowledged(successCallback)
  }

  /** The bridge's failure completion of `connect`: the record goes to
      `failCallback` first and is then broadcast. */
  function ConnectFailed(os: Os, socketId: Value, successCallback: Value, failCallback: Value, error: Fields): (t: Trace)
    ensures var e := CreateErrorObj(os, error, socketId);
            Truthy(successCallback) && IsFunction(failCallback) ==>
              t == [Invoke(failCallback.id, Obj(e)), Fire(OnReceiveError, e)]
    ensures Truthy(successCallback) && !IsFunction(failCallback) ==> t == [Raise(TypeError)]
    ensures !Truthy(successCallback) ==> t == []
  {
    ReportFailure(os, successCallback, failCallback, error, socketId)
  }

  /** `secure(socketId, options, callback)`: one bridge call carrying the
      options, or `{}` when the second argument is the callback. */
  function Secure(socketId: Value, options: Value, callback: Value): (t: Trace)
    ensures IsFunction(options) ==> t == [Exec("secure", [socketId, EmptyObject])]
    ensures !IsFunction(options) ==> t == [Exec("secure", [socketId, options])]
  {
    var s := ShuffleOptional(options, callback, EmptyObject);
    [Exec("secure", [socketId, s.arg])]
  }

  /** The bridge's success completion of `secure`. */
  function SecureCompleted(options: Value, callback: Value): (t: Trace)
    ensures IsFunction(options) ==> t == [Invoke(options.id, Number(0))]
    ensures !IsFunction(options) && IsFunction(callback) ==> t == [Invoke(callback.id, Number(0))]
    ensures !IsFunction(options) && !Truthy(callback) ==> t == []
    ensures !IsFunction(options) && Truthy(callback) && !IsFunction(callback) ==> t == [Raise(TypeError)]
  {
    Acknowledged(ShuffleOptional(options, callback, EmptyObject).callback)
  }

  /** The bridge's failure completion of `secure`: a failed upgrade is only
      broadcast, and only when a callback was given. */
  function SecureFailed(os: Os, socketId: Value, options: Value, callback: Value, error: Fields): (t: Trace)
    ensures NoExec(t)
    ensures IsFunction(options) || Truthy(callback) ==> t == [Fire(OnReceiveError, CreateErrorObj(os, error, socketId))]
    ensures !IsFunction(options) && !Truthy(callback) ==> t == []
  {
    BroadcastFailure(os, ShuffleOptional(options, callback, EmptyObject).callback, error, socketId)
  }

  // ---------------------------------------------------------------------
  // send

  /** What `send` decides before anything is dispatched. */
  datatype SendOutcome =
    | Throw(tag: string)                  // the payload is not an ArrayBuffer
    | ImmediateSuccess(bytesSent: nat)    // an empty buffer: report success at once
    | Forward                             // hand the buffer to the bridge

  /** The message `send` throws for a payload with the given type tag. */
  function NotArrayBufferMessage(tag: string): string {
    "chrome.sockets.tcp.send - data is not an Array Buffer! (Got: " + tag + ")"
  }

  /** `send`'s pre-dispatch decision on the payload. */
  function SendDecision(data: Value): (r: SendOutcome)
    ensures r.Throw? <==> !data.ArrayBuffer?
    ensures r.Throw? ==> r.tag == TypeTag(data) && r.tag != "ArrayBuffer"
    ensures r == ImmediateSuccess(0) <==> data.ArrayBuffer? && |data.bytes| == 0
    ensures r.Forward? <==> data.ArrayBuffer? && |data.bytes| > 0
  {
    var tag := TypeTag(data);
    ArrayBufferTag(data);
    if tag != "ArrayBuffer" then Throw(tag)
    else if |data.bytes| == 0 then ImmediateSuccess(0)
    else Forward
  }

  /** The success record of a send: the number of bytes sent and result
      code 0. */
  function SendInfo(bytesSent: Value): Value {
    Obj(map["bytesSent" := bytesSent, "resultCode" := Number(0)])
  }

  /** `send(socketId, data, successCallback, failCallback)`. A payload that
      is not an ArrayBuffer throws before any callback or bridge call; an
      empty buffer calls the success callback once with zero bytes sent and
      makes no bridge call (and throws when there is no success callback to
      call); any other buffer makes exactly one bridge call. */
  function Send(socketId: Value, data: Value, successCallback: Value, failCallback: Value): (t: Trace)
    ensures WellFormed(t)
    ensures !data.ArrayBuffer? ==> t == [Raise(Error(NotArrayBufferMessage(TypeTag(data))))]
    ensures data.ArrayBuffer? && |data.bytes| == 0 ==>
              && NoExec(t)
              && (IsFunction(successCallback) ==> t == [Invoke(successCallback.id, SendInfo(Number(0)))])
              && (!IsFunction(successCallback) ==> t == [Raise(TypeError)])
    ensures data.ArrayBuffer? && |data.bytes| > 0 ==> t == [Exec("send", [socketId, data])]
  {
    match SendDecision(data)
    case Throw(tag) => [Raise(Error(NotArrayBufferMessage(tag)))]
    case ImmediateSuccess(n) =>
      if Truthy(successCallback) then Call(successCallback, SendInfo(Number(n))) else [Raise(TypeError)]
    case Forward => [Exec("send", [socketId, data])]
  }

  /** The bridge's success completion of `send`. */
  function SendCompleted(successCallback: Value, bytesSent: Value): (t: Trace)
    ensures IsFunction(successCallback) ==> t == [Invoke(successCallback.id, SendInfo(bytesSent))]
    ensures !Truthy(successCallback) ==> t == []
    ensures Truthy(successCallback) && !IsFunction(successCallback) ==> t == [Raise(TypeError)]
  {
    Completion(successCallback, Call(successCallback, SendInfo(bytesSent)))
  }

  /** The bridge's failure completion of `send`. */
  function SendFailed(os: Os, socketId: Value, successCallback: Value, failCallback: Value, error: Fields): (t: Trace)
    ensures var e := CreateErrorObj(os, error, socketId);
            Truthy(successCallback) && IsFunction(failCallback) ==>
              t == [Invoke(failCallback.id, Obj(e)), Fire(OnReceiveError, e)]
    ensures Truthy(successCallback) && !IsFunction(failCallback) ==> t == [Raise(TypeError)]
    ensures !Truthy(successCallback) ==> t == []
  {
    ReportFailure(os, successCallback, failCallback, error, socketId)
  }

  /** With a success callback given, a zero-length send reports success
      through the same trace as a bridge completion of zero bytes would;
      without one the send throws, where such a completion is dropped. */
  lemma ZeroLengthSendIsCompletion(socketId: Value, successCallback: Value, failCallback: Value)
    ensures Truthy(successCallback) ==>
              Send(socketId, ArrayBuffer([]), successCallback, failCallback)
              == SendCompleted(successCallback, Number(0))
    ensures !Truthy(successCallback) ==>
              && Send(socketId, ArrayBuffer([]), successCallback, failCallback) == [Raise(TypeError)]
              && SendCompleted(successCallback, Number(0)) == []
  {
  }

  // ---------------------------------------------------------------------
  // getInfo and getSockets

  /** The info record with both flags replaced by booleans holding their
      truth values; a missing flag becomes false. */
  function CoerceFlags(result: Fields): (r: Fields)
    ensures r.Keys == result.Keys + {"persistent", "paused"}
    ensures r["persistent"].Bool? && r["persistent"].b == Truthy(Get(result, "persistent"))
    ensures r["paused"].Bool? && r["paused"].b == Truthy(Get(result, "paused"))
    ensures forall k :: k in result && k != "persistent" && k != "paused" ==> r[k] == result[k]
  {
    result["persistent" := Bool(Truthy(Get(result, "persistent")))]
          ["paused" := Bool(Truthy(Get(result, "paused")))]
  }

  /** Both flags of a socket info record are booleans. */
  ghost predicate FlagsAreBooleans(o: Fields) {
    "persistent" in o && o["persistent"].Bool? && "paused" in o && o["paused"].Bool?
  }

  /** Coercion keeps each flag's truth value and is idempotent. */
  lemma CoerceFlagsSpec(result: Fields)
    ensures FlagsAreBooleans(CoerceFlags(result))
    ensures Truthy(CoerceFlags(result)["persistent"]) == Truthy(Get(result, "persistent"))
    ensures Truthy(CoerceFlags(result)["paused"]) == Truthy(Get(result, "paused"))
    ensures CoerceFlags(CoerceFlags(result)) == CoerceFlags(result)
    ensures FlagsAreBooleans(result) ==> CoerceFlags(result) == result
  {
  }

  /** The bridge's completion of `getInfo`: the callback receives the
      record with both flags coerced to booleans. */
  function GetInfoCompleted(callback: Value, result: Fields): (t: Trace)
    ensures IsFunction(callback) ==>
              && t == [Invoke(callback.id, Obj(CoerceFlags(result)))]
              && FlagsAreBooleans(t[0].arg.fields)
    ensures !Truthy(callback) ==> t == []
    ensures Truthy(callback) && !IsFunction(callback) ==> t == [Raise(TypeError)]
  {
    Completion(callback, Call(callback, Obj(CoerceFlags(result))))
  }

  /** The bridge's completion of `getSockets`, as written: the loop binds
      its variable to the array's index strings, the assignments to their
      properties are lost, and the records reach the callback unchanged. */
  function GetSocketsCompleted(callback: Value, results: seq<Value>): (t: Trace)
    ensures IsFunction(callback) ==> t == [Invoke(callback.id, Array(results))]
    ensures !Truthy(callback) ==> t == []
    ensures Truthy(callback) && !IsFunction(callback) ==> t == [Raise(TypeError)]
  {
    Completion(callback, Call(callback, Array(results)))
  }

  /** A record with a numeric `persistent` flag reaches the callback with
      that flag still numeric. */
  lemma GetSocketsLeavesFlags()
    ensures var results := [Obj(map["persistent" := Number(1), "paused" := Number(0)])];
            && GetSocketsCompleted(Func(0), results) == [Invoke(0, Array(results))]
            && !FlagsAreBooleans(results[0].fields)
  {
  }

  /** One element of the list: an object with its flags coerced, any other
      value as it is. */
  function CoerceElement(v: Value): (r: Value)
    ensures v.Obj? ==> r.Obj? && FlagsAreBooleans(r.fields)
                       && forall k :: k in v.fields && k != "persistent" && k != "paused" ==>
                            k in r.fields && r.fields[k] == v.fields[k]
    ensures v.Obj? ==> r == Obj(CoerceFlags(v.fields))
    ensures !v.Obj? ==> r == v
  {
    if v.Obj? then Obj(CoerceFlags(v.fields)) else v
  }

  /** Every element of the list coerced. */
  function CoerceEach(results: seq<Value>): (r: seq<Value>)
    ensures |r| == |results|
    ensures forall i :: 0 <= i < |results| ==> r[i] == CoerceElement(results[i])
  {
    seq(|results|, i requires 0 <= i < |results| => CoerceElement(results[i]))
  }

  /** The completion of `getSockets` as evidently intended: every record
      reaches the callback with both flags coerced to booleans. */
  function GetSocketsCompletedIntended(callback: Value, results: seq<Value>): (t: Trace)
    ensures IsFunction(callback) ==>
              && |t| == 1 && t[0].Invoke? && t[0].callback == callback.id
              && t[0].arg.Array? && |t[0].arg.elems| == |results|
              && (forall i :: 0 <= i < |results| && results[i].Obj? ==>
                    && t[0].arg.elems[i] == Obj(CoerceFlags(results[i].fields))
                    && FlagsAreBooleans(t[0].arg.elems[i].fields))
              && (forall i :: 0 <= i < |results| && !results[i].Obj? ==> t[0].arg.elems[i] == results[i])
    ensures !Truthy(callback) ==> t == []
    ensures Truthy(callback) && !IsFunction(callback) ==> t == [Raise(TypeError)]
  {
    Completion(callback, Call(callback, Array(CoerceEach(results))))
  }
}
