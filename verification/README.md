# chrome.sockets.tcp (Cordova plugin), JavaScript layer

This project models the JavaScript half of the Cordova `chrome.sockets.tcp` plugin. That half is a
thin layer over a native `ChromeSocketsTcp` bridge, and only its own logic is modelled:

- the table that standardises Android and iOS native error codes;
- the error record built from a native error;
- argument defaulting in `create`, `setKeepAlive` and `secure`;
- the platform check in `setKeepAlive` and `setNoDelay`;
- the payload check and the zero-length short cut of `send`;
- the completion handlers each entry point hands to the bridge;
- the boolean coercion of `getInfo`, and the `getSockets` loop that misses it;
- the receive handlers: each fires `onReceive` before it asks the bridge for the next chunk with `readyToRead`.

Every handler is a pure function that returns a trace of effects (`Effects.Effect`):

- `Fire(event, payload)`: an event fired on `onReceive` or `onReceiveError`;
- `Exec(action, args)`: a call into the bridge;
- `Invoke(callback, arg)`: a call of one of the caller's functions;
- `Raise(thrown)`: a synchronous throw, which ends the trace.

JavaScript values are the datatype `Js.Value`. The platform is a parameter, `ErrorCodes.Os`.

Modules:

- `Wrappers`: `Option`.
- `Js`: values, truthiness, `typeof`, the `Object.prototype.toString` tag, the `in` operator.
- `ErrorCodes`: `ERROR_CODES`, `getStandardiseErrorCode`, `createErrorObj`.
- `Effects`: the trace.
- `SocketsTcp`: the exported entry points and their completions.
- `Receive`: the handlers of `registerReceiveEvents`.

Translation works like this. The table is scanned in key order, and the first kind whose list for the
current platform contains the native code wins. A code that no kind lists is returned as it is.

Two things follow from that, and the model proves both:

- On iOS, code 57 is listed under both `CONNECTION_TIMED_OUT` and `SOCKET_NOT_CONNECTED`. No iOS code
  is ever classified as `SOCKET_NOT_CONNECTED`. The number 4 comes out on iOS only when the native code
  is 4, which no list names and which is passed through unchanged.
- No list names any of the numbers 1 to 5. So translation is idempotent, and an error record built by
  `createErrorObj` goes through the receive-error handler unchanged.

On iOS the `readyToRead` arguments are read from the chunk itself (`'socketId' in data`). For a binary
chunk (an ArrayBuffer) they are therefore always empty. For a truthy primitive chunk, the `in` operator
throws after `onReceive` has fired. The model keeps both behaviours as written.

Behaviour of the code worth noting:

- No construction-time check rejects overlapping lists. The iOS table does overlap.
- An unclassified code comes back as the bare native number, not as a separate kind.
- A payload that is not an ArrayBuffer throws an `Error` carrying its type tag.
- On iOS, `setKeepAlive` and `setNoDelay` make no bridge call at all.
- Failures of `connect` and `send` are reported only when a success callback was given. They are broadcast only when a fail callback that is a function was given too; otherwise the call of the fail callback throws a TypeError first.
- Failures of `secure`, `setKeepAlive` and `setNoDelay` are broadcast only when a callback was given.

## Model

| member | source | states |
|---|---|---|
| `ErrorCodes.TableValues` | sockets.tcp.js:7-33 | the kinds appear in key order: closed by server, timed out, generic, not connected, refused; their standardised numbers are 1 to 5 in that order |
| `ErrorCodes.AndroidListsDisjoint` | sockets.tcp.js:8-32 | no native code is listed under two kinds for Android |
| `ErrorCodes.IosListsOverlap` | sockets.tcp.js:13-27 | iOS code 57 is listed under CONNECTION_TIMED_OUT and SOCKET_NOT_CONNECTED, so the iOS lists are not pairwise disjoint |
| `ErrorCodes.EveryKindReachableOnAndroid` | sockets.tcp.js:7-33 | on Android every kind is the classification of some native code |
| `ErrorCodes.StandardisedNumbersUnlisted` | sockets.tcp.js:7-33 | no list, on either platform, contains any of the numbers 1 to 5 |
| `ErrorCodes.FirstMatch` | sockets.tcp.js:183-185 | the scan returns an index exactly when some entry lists the code; that entry lists it and no earlier entry does; no index means no entry lists it |
| `ErrorCodes.FindListing` | sockets.tcp.js:183-185 | the loop over the keys, stopping at the first entry whose list includes the code, returns the first listing entry, or nothing exactly when no entry lists the code; it agrees with `FirstMatch` on every table |
| `ErrorCodes.Standardise` | sockets.tcp.js:182-188 | the result is either the native code itself or a standardised number between 1 and 5 |
| `ErrorCodes.StandardiseIsFirstListing` | sockets.tcp.js:182-188 | the result is the standardised number of the first entry listing the code for the platform, and the classification is that entry's kind; a code no entry lists is returned unchanged and is unclassified |
| `ErrorCodes.DisjointListingIsFound` | sockets.tcp.js:183-185 | in any table with pairwise disjoint lists, a code listed at entry i is found at entry i |
| `ErrorCodes.EarlierListingShadows` | sockets.tcp.js:183-185 | in any table, an entry is never the match for a code that an earlier entry also lists (first match wins) |
| `ErrorCodes.AndroidCodesMapToOwnKind` | sockets.tcp.js:182-188 | on Android each code a kind lists standardises to that kind's number and is classified as that kind |
| `ErrorCodes.Ios57IsConnectionTimedOut` | sockets.tcp.js:13-27 | on iOS, native 57 standardises to 2 and is classified as CONNECTION_TIMED_OUT |
| `ErrorCodes.SocketNotConnectedUnreachableOnIos` | sockets.tcp.js:23-27 | on iOS no native code is classified as SOCKET_NOT_CONNECTED, and a result of 4 means the native code was 4, passed through unchanged |
| `ErrorCodes.StandardiseIdempotent` | sockets.tcp.js:182-188 | translating a translated code again changes nothing |
| `ErrorCodes.StandardiseValueIdempotent` | sockets.tcp.js:182-188 | for any JavaScript value passed as the code (a non-number never matches), the translated value is a fixed point of translation |
| `ErrorCodes.CreateErrorObj` | sockets.tcp.js:190-197 | the record has exactly the keys bytesSent, resultCode, message and socketId; bytesSent is 0; socketId and message are the given ones; for a numeric native code resultCode is its standardisation (a number that equals the native code or lies in 1 to 5), a non-number is kept, and resultCode is already standardised |
| `Js.ArrayBufferTag` | sockets.tcp.js:128-129 | the type tag is "ArrayBuffer" exactly for ArrayBuffer values |
| `Js.In` | sockets.tcp.js:212 | the `in` operator throws exactly on primitives, and is true only for an object that has the key |
| `SocketsTcp.ShuffleOptionalSpec` | sockets.tcp.js:37-40 | after defaulting (also at lines 59-62 and 112-115) the optional argument is never a function; a function passed in its place becomes the callback and the argument takes its default; defaulting again changes nothing |
| `SocketsTcp.Create` | sockets.tcp.js:36-48 | one `create` bridge call carrying the properties, or `{}` when the first argument is a function |
| `SocketsTcp.CreateCompleted` | sockets.tcp.js:41-46 | the callback (or the function passed first) receives `{socketId}`; with no callback nothing happens; a callback that is truthy but not a function throws a TypeError |
| `SocketsTcp.Acknowledged` | sockets.tcp.js:116-118 | a success completion calls the callback once with 0 and makes no bridge call; with no callback nothing happens; a callback that is truthy but not a function throws a TypeError |
| `SocketsTcp.BroadcastFailure` | sockets.tcp.js:119-123 | a failure completion fires the standardised error record on onReceiveError exactly once when the gating callback is truthy, and does nothing otherwise |
| `SocketsTcp.ReportFailure` | sockets.tcp.js:139-143 | with a truthy success callback, the record goes to the fail callback before it is broadcast; a fail callback that is not a function throws before the broadcast; with no success callback nothing happens |
| `SocketsTcp.FailureRecordIsStandardised` | sockets.tcp.js:139-143 | every record a failure completion fires has bytesSent 0, the failing socket's id and a standardised resultCode |
| `SocketsTcp.SetKeepAlive` | sockets.tcp.js:58-76 | on Android one `setKeepAlive` bridge call, with delay 0 when the third argument is the callback; on iOS no bridge call |
| `SocketsTcp.SetKeepAliveCompleted` | sockets.tcp.js:64-66 | the callback, or the function given as delay, is called once with 0; a callback that is truthy but not a function throws a TypeError |
| `SocketsTcp.SetKeepAliveFailed` | sockets.tcp.js:67-71 | the error record is broadcast once if a callback was given, in either position; otherwise the failure is dropped |
| `SocketsTcp.SetNoDelay` | sockets.tcp.js:78-92 | on Android one `setNoDelay` bridge call; on iOS none |
| `SocketsTcp.SetNoDelayCompleted` | sockets.tcp.js:80-82 | the callback is called once with 0; with no callback nothing happens; a callback that is truthy but not a function throws a TypeError |
| `SocketsTcp.SetNoDelayFailed` | sockets.tcp.js:83-87 | the error record is broadcast once if a callback was given; otherwise the failure is dropped |
| `SocketsTcp.ConnectCompleted` | sockets.tcp.js:95-97 | the success callback is called once with 0; a callback that is truthy but not a function throws a TypeError |
| `SocketsTcp.ConnectFailed` | sockets.tcp.js:98-103 | the fail callback receives the error record, and then the record is broadcast; with a success callback but no fail function the call throws a TypeError before the broadcast; without a success callback the failure is dropped |
| `SocketsTcp.Secure` | sockets.tcp.js:111-125 | one `secure` bridge call carrying the options, or `{}` when the second argument is a function |
| `SocketsTcp.SecureCompleted` | sockets.tcp.js:116-118 | the callback, or the function given as options, is called once with 0; a callback that is truthy but not a function throws a TypeError |
| `SocketsTcp.SecureFailed` | sockets.tcp.js:119-123 | a failed upgrade is only broadcast (no bridge call, nothing closed), and only when a callback was given |
| `SocketsTcp.SendDecision` | sockets.tcp.js:128-148 | it throws exactly when the payload is not an ArrayBuffer (carrying its type tag); it reports zero bytes at once exactly for an empty buffer; it forwards exactly a non-empty buffer |
| `SocketsTcp.Send` | sockets.tcp.js:127-149 | a payload that is not an ArrayBuffer throws the tagged Error before anything else; an empty buffer makes no bridge call and calls the success callback once with `{bytesSent: 0, resultCode: 0}`, or throws a TypeError when there is none; a non-empty buffer makes exactly one `send` bridge call with `[socketId, data]` |
| `SocketsTcp.SendCompleted` | sockets.tcp.js:132-138 | the success callback receives `{bytesSent, resultCode: 0}` once; a callback that is truthy but not a function throws a TypeError |
| `SocketsTcp.SendFailed` | sockets.tcp.js:139-143 | the fail callback receives the error record, and then the record is broadcast; with a success callback but no fail function the call throws a TypeError before the broadcast; without a success callback the failure is dropped |
| `SocketsTcp.ZeroLengthSendIsCompletion` | sockets.tcp.js:144-145 | with a success callback given, an empty send produces the same trace as a zero-byte completion; with none, the send throws a TypeError and a completion would be dropped |
| `SocketsTcp.CoerceFlags` | sockets.tcp.js:157-158 | persistent and paused become booleans holding their former truth values; every other key is unchanged |
| `SocketsTcp.CoerceFlagsSpec` | sockets.tcp.js:157-158 | after coercion both flags are booleans with their former truth values; coercing twice is coercing once; a record whose flags are already booleans is left unchanged |
| `SocketsTcp.GetInfoCompleted` | sockets.tcp.js:156-160 | the callback receives the record with persistent and paused replaced by booleans holding their truth values and every other key unchanged; a callback that is truthy but not a function throws a TypeError |
| `SocketsTcp.GetSocketsCompleted` | sockets.tcp.js:165-171 | as written: the callback receives the bridge's list unchanged; a callback that is truthy but not a function throws a TypeError |
| `SocketsTcp.GetSocketsLeavesFlags` | sockets.tcp.js:166-169 | a record with persistent 1 reaches the callback with persistent still a number |
| `SocketsTcp.GetSocketsCompletedIntended` | sockets.tcp.js:165-171 | corrected: the callback receives a list of the same length in which each object has its flags replaced by booleans holding their truth values and its other keys unchanged, and every other element is unchanged; a callback that is truthy but not a function throws a TypeError |
| `Receive.IosReceive` | sockets.tcp.js:201-215 | onReceive fires first, with the data attached when it is truthy; readyToRead follows only for truthy object data; a chunk without data (file mode) fires alone; truthy primitive data throws after the fire |
| `Receive.IosBinaryChunk` | sockets.tcp.js:206-213 | a binary chunk yields exactly [fire onReceive, readyToRead with no arguments] |
| `Receive.AndroidReceive` | sockets.tcp.js:218-222 | the trace is exactly [fire onReceive with decoded data, readyToRead with the record's socketId]; a decoding failure throws before anything fires |
| `Receive.ReadyToReadFollowsFire` | sockets.tcp.js:199-223 | on both platforms a chunk makes at most one bridge call; it is readyToRead, and it comes second, after onReceive has fired |
| `Receive.ReceiveError` | sockets.tcp.js:225-229 | onReceiveError fires once; a numeric resultCode is replaced by its standardisation, a non-number is kept, and every other key is unchanged |
| `Receive.ErrorRecordIsStable` | sockets.tcp.js:190-229 | a record built by createErrorObj is fired by the receive-error handler unchanged |

## Left out

- The native `ChromeSocketsTcp` bridge and `exec` are not modelled. A bridge call appears only as an `Exec` effect.
- Completions are modelled as separate functions of the original call's arguments.
- `update`, `setPaused`, `disconnect`, `close` and `pipeToFile` only forward their arguments to the bridge, so they are not modelled.
- The bridge calls of `connect`, `getInfo`, `getSockets` and `registerReceiveEvents` only forward their arguments, so they are not modelled. Their completions are modelled.
- The socket state machine, registry, pause semantics and file-sink switching live on the native side, which is not part of this model.
- The `Event` emitter is a foreign module. Firing is an opaque `Fire` effect, and listeners are assumed not to throw.
- `base64ToArrayBuffer` depends on `window.atob`. It is the `decode` parameter of `Receive.AndroidReceive`, where None stands for a throw.
- Platform detection is replaced by the `Os` parameter.
- The `console.warn` on iOS in `setKeepAlive` and `setNoDelay` is not modelled. Those traces are empty.
- JavaScript numbers are integers in the model. NaN, fractions and -0 are not represented.
- Objects are maps of their own properties. Key order, prototypes and `Symbol.toStringTag` are not modelled, and typed arrays other than `Uint8Array` are not modelled either.
- JavaScript mutates `info` and `result` in place. The model delivers the updated record as a new value.
- The caller's callbacks and the event listeners are assumed to return normally and not to change the objects they receive. `send` and `connect` hand the same error object to the fail callback and then fire it, and the iOS handler reads `socketId` from the data after the listeners have run; and the Android handler reads `result.socketId` after the listeners have run; the traces of `SocketsTcp.ReportFailure`, `SocketsTcp.FailureRecordIsStandardised`, `Receive.IosReceive` and `Receive.AndroidReceive` hold under that assumption.
- The `error`, `info` and `result` values the bridge passes are assumed to be objects (their type is `Fields`). A `null` or `undefined` there would throw when a property is read or written, and that case is not modelled.

## Findings

| source | as written | input that shows it | evidently intended | confidence | as-written member | corrected member |
|---|---|---|---|---|---|---|
| sockets.tcp.js:166-169 | `for (var result in results)` binds `result` to the index strings of the array, so assigning its properties changes nothing | bridge list `[{persistent: 1, paused: 0}]` reaches the callback with persistent still 1 | coerce each element: `results[i].persistent = !!results[i].persistent`, and the same for paused | high, not executed | `SocketsTcp.GetSocketsLeavesFlags` | `SocketsTcp.GetSocketsCompletedIntended` |
