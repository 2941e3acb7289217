/**
 The receive handlers `registerReceiveEvents` installs with the bridge. Each
 delivered chunk fires `onReceive`; in callback mode the handler then asks
 the bridge for the next chunk with `readyToRead`, so that anything the
 listeners did synchronously (pausing the socket, say) reaches the bridge
 before the next read. A receive error is standardised and fired on
 `onReceiveError`.
 */
module Receive {
  import opened Wrappers
  import opened Js
  import opened Effects
  import opened ErrorCodes

  /** The arguments of the iOS `readyToRead` call for a chunk `data`. */
  function ReadyToReadArgs(data: Value): seq<Value> {
    if In("socketId", data) == Some(true) then [Property(data, "socketId")] else []
  }

  /** The iOS receive handler, called with the chunk's info record and its
      binary data; a chunk piped to a file arrives without data. */
  function IosReceive(info: Fields, data: Value): (t: Trace)
    ensures WellFormed(t)
    ensures |t| >= 1 && t[0] == Fire(OnReceive, if Truthy(data) then info["data" := data] else info)
    ensures !Truthy(data) ==> |t| == 1
    ensures Truthy(data) && IsObject(data) ==> t == [t[0], Exec("readyToRead", ReadyToReadArgs(data))]
    ensures Truthy(data) && !IsObject(data) ==> t == [t[0], Raise(TypeError)]
  {
    var delivered := if Truthy(data) then info["data" := data] else info;
    var fired := [Fire(OnReceive, delivered)];
    if !Truthy(data) then fired
    else match In("socketId", data)
      case None => fired + [Raise(TypeError)]
      case Some(_) => fired + [Exec("readyToRead", ReadyToReadArgs(data))]
  }

  /** On iOS a binary chunk is always followed by `readyToRead`, which
      carries no socket id: an ArrayBuffer has no `socketId` property. */
  lemma IosBinaryChunk(info: Fields, bytes: seq<byte>)
    ensures IosReceive(info, ArrayBuffer(bytes))
            == [Fire(OnReceive, info["data" := ArrayBuffer(bytes)]), Exec("readyToRead", [])]
  {
  }

  /** The Android receive handler, called with one record whose `data` is
      base64 text; `decode` stands for `base64ToArrayBuffer`: Some(v) holds
      the ArrayBuffer it returns, None stands for a throw of `window.atob`. */
  function AndroidReceive(result: Fields, decode: Value -> Option<Value>): (t: Trace)
    ensures WellFormed(t)
    ensures decode(Get(result, "data")).None? ==> t == [Raise(InvalidCharacterError)]
    ensures decode(Get(result, "data")).Some? ==>
              t == [Fire(OnReceive, result["data" := decode(Get(result, "data")).value]),
                    Exec("readyToRead", [Get(result, "socketId")])]
  {
    match decode(Get(result, "data"))
    case None => [Raise(InvalidCharacterError)]
    case Some(buffer) =>
      [Fire(OnReceive, result["data" := buffer]), Exec("readyToRead", [Get(result, "socketId")])]
  }

  /** The handler in use on each platform. */
  function OnNativeReceive(os: Os, info: Fields, data: Value, decode: Value -> Option<Value>): Trace {
    match os
    case Android => AndroidReceive(info, decode)
    case Ios => IosReceive(info, data)
  }

  /** On both platforms a chunk triggers at most one bridge call, it is
      `readyToRead`, and `onReceive` has fired before it. */
  lemma ReadyToReadFollowsFire(os: Os, info: Fields, data: Value, decode: Value -> Option<Value>)
    ensures var t := OnNativeReceive(os, info, data, decode);
            && WellFormed(t)
            && forall i :: 0 <= i < |t| && t[i].Exec? ==>
                 && t[i].action == "readyToRead"
                 && i == 1 && t[0].Fire? && t[0].event == OnReceive
  {
  }

  /** The receive-error handler: the native `resultCode` is standardised
      in place before the record is fired. */
  function ReceiveError(os: Os, info: Fields): (t: Trace)
    ensures |t| == 1 && t[0].Fire? && t[0].event == OnReceiveError
    ensures t[0].payload.Keys == info.Keys + {"resultCode"}
    ensures IsStandardised(os, t[0].payload["resultCode"])
    ensures var native := Get(info, "resultCode");
            var code := t[0].payload["resultCode"];
            if native.Number? then code.Number? && (code.n == native.n || 1 <= code.n <= 5)
            else code == native
    ensures var native := Get(info, "resultCode");
            native.Number? ==> t[0].payload["resultCode"] == Number(Standardise(os, native.n))
    ensures forall k :: k in info && k != "resultCode" ==> t[0].payload[k] == info[k]
  {
    var native := Get(info, "resultCode");
    StandardiseValueIdempotent(os, native);
    [Fire(OnReceiveError, info["resultCode" := StandardiseValue(os, native)])]
  }

  /** A record `createErrorObj` built passes through the receive-error
      handler unchanged: its code is already standardised. */
  lemma ErrorRecordIsStable(os: Os, error: Fields, socketId: Value)
    ensures var e := CreateErrorObj(os, error, socketId);
            ReceiveError(os, e) == [Fire(OnReceiveError, e)]
  {
    var e := CreateErrorObj(os, error, socketId);
    assert e["resultCode" := StandardiseValue(os, e["resultCode"])] == e;
  }
}
