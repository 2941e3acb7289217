/**
 The error-code standardisation of the sockets API: a constant table that
 lists, for each standardised kind of socket error, the native codes the
 Android and the iOS stacks report for it. A native code is translated by
 scanning the table in order and taking the first kind that lists it for the
 current platform; a code no kind lists is passed through unchanged.
 */
module ErrorCodes {
  import opened Wrappers
  import opened Js

  /** The platform the plugin runs on. */
  datatype Os = Android | Ios

  /** The standardised kinds, in the table's key order. */
  datatype Kind =
    | SocketClosedByServer
    | ConnectionTimedOut
    | GenericSocketError
    | SocketNotConnected
    | ConnectionRefused

  /** One table entry: a kind, its native codes per platform, and the number
      it standardises to. */
  datatype Entry = Entry(kind: Kind, android: seq<int>, ios: seq<int>, standardised: int)

  /** The native codes an entry lists for one platform. */
  function Codes(e: Entry, os: Os): seq<int> {
    match os
    case Android => e.android
    case Ios => e.ios
  }

  /** The table, in key order. iOS code 57 is listed under two kinds. */
  const Table: seq<Entry> := [
    Entry(SocketClosedByServer, [-100], [7], 1),
    Entry(ConnectionTimedOut, [-118], [57], 2),
    Entry(GenericSocketError, [-2], [32], 3),
    Entry(SocketNotConnected, [-15], [57], 4),
    Entry(ConnectionRefused, [-104], [61], 5)
  ]

  /** `i` is the first entry of `entries` that lists `code` for `os`. */
  ghost predicate FirstListing(entries: seq<Entry>, os: Os, code: int, i: int) {
    && 0 <= i < |entries|
    && code in Codes(entries[i], os)
    && forall j :: 0 <= j < i ==> code !in Codes(entries[j], os)
  }

  /** No entry of `entries` lists `code` for `os`. */
  ghost predicate Unlisted(entries: seq<Entry>, os: Os, code: int) {
    forall j :: 0 <= j < |entries| ==> code !in Codes(entries[j], os)
  }

  /** The in-order scan for the first entry whose list for `os` contains
      `code`, as `Array.prototype.find` performs it over the table's keys. */
  function FirstMatch(entries: seq<Entry>, os: Os, code: int): (r: Option<nat>)
    ensures r.Some? ==> FirstListing(entries, os, code, r.value)
    ensures r.None? ==> Unlisted(entries, os, code)
  {
    if |entries| == 0 then None
    else if code in Codes(entries[0], os) then Some(0)
    else match FirstMatch(entries[1..], os, code)
      case None => None
      case Some(i) => Some(i + 1)
  }

  /** The same scan as a loop over the table's keys, stopping at the first
      entry whose list for `os` includes `code`. */
  method FindListing(entries: seq<Entry>, os: Os, code: int) returns (r: Option<nat>)
    ensures r.Some? ==> FirstListing(entries, os, code, r.value)
    ensures r.None? ==> Unlisted(entries, os, code)
    ensures r == FirstMatch(entries, os, code)
  {
    var i := 0;
    while i < |entries|
      invariant 0 <= i <= |entries|
      invariant forall j :: 0 <= j < i ==> code !in Codes(entries[j], os)
    {
      if code in Codes(entries[i], os) {
        return Some(i);
      }
      i := i + 1;
    }
    return None;
  }

  /** The kind a native code is classified as, if any. */
  function Classify(os: Os, code: int): Option<Kind> {
    match FirstMatch(Table, os, code)
    case Some(i) => Some(Table[i].kind)
    case None => None
  }

  /** The standardised code for a native code on `os`. */
  function Standardise(os: Os, code: int): (r: int)
    ensures r == code || 1 <= r <= 5
  {
    match FirstMatch(Table, os, code)
    case Some(i) => TableValues(i); Table[i].standardised
    case None => code
  }

  /** The standardised numbers are 1 to 5 in table order. */
  lemma TableValues(i: int)
    requires 0 <= i < |Table|
    ensures Table[i].standardised == i + 1
    ensures Table[i].kind == [SocketClosedByServer, ConnectionTimedOut, GenericSocketError,
                              SocketNotConnected, ConnectionRefused][i]
  {
  }

  /** The translation applied to an arbitrary JavaScript value: only numbers
      can equal a listed code, so every other value is returned as it is. */
  function StandardiseValue(os: Os, v: Value): Value {
    if v.Number? then Number(Standardise(os, v.n)) else v
  }

  /** A translated value that translating again leaves unchanged. */
  predicate IsStandardised(os: Os, v: Value) {
    StandardiseValue(os, v) == v
  }

  /** The first listing kind wins; an unlisted code is passed through. */
  lemma StandardiseIsFirstListing(os: Os, code: int)
    ensures forall i :: FirstListing(Table, os, code, i) ==>
              Standardise(os, code) == Table[i].standardised && Classify(os, code) == Some(Table[i].kind)
    ensures Unlisted(Table, os, code) ==> Standardise(os, code) == code && Classify(os, code) == None
  {
    match FirstMatch(Table, os, code)
    case Some(k) =>
      forall i | FirstListing(Table, os, code, i)
        ensures i == k
      {
      }
    case None =>
  }

  /** Two code lists share no code. */
  ghost predicate Disjoint(a: seq<int>, b: seq<int>) {
    forall c :: c in a ==> c !in b
  }

  /** No native code is listed by two entries for the same platform. */
  ghost predicate PairwiseDisjoint(entries: seq<Entry>, os: Os) {
    forall i, j :: 0 <= i < j < |entries| ==> Disjoint(Codes(entries[i], os), Codes(entries[j], os))
  }

  /** In a table whose lists are pairwise disjoint, every listed code is
      found at its own entry: no earlier entry shadows it. */
  lemma DisjointListingIsFound(entries: seq<Entry>, os: Os, i: int, code: int)
    requires PairwiseDisjoint(entries, os)
    requires 0 <= i < |entries| && code in Codes(entries[i], os)
    ensures FirstMatch(entries, os, code) == Some(i)
  {
  }

  /** An entry can never be the first match for a code an earlier entry
      lists too: table order decides overlaps. */
  lemma EarlierListingShadows(entries: seq<Entry>, os: Os, j: int, i: int, code: int)
    requires 0 <= j < i < |entries| && code in Codes(entries[j], os)
    ensures FirstMatch(entries, os, code) != Some(i)
  {
  }

  /** The Android lists are pairwise disjoint. */
  lemma AndroidListsDisjoint()
    ensures PairwiseDisjoint(Table, Android)
  {
  }

  /** The iOS lists are not: code 57 appears under ConnectionTimedOut and
      under SocketNotConnected. */
  lemma IosListsOverlap()
    ensures 57 in Codes(Table[1], Ios) && 57 in Codes(Table[3], Ios)
    ensures !PairwiseDisjoint(Table, Ios)
  {
    assert !Disjoint(Codes(Table[1], Ios), Codes(Table[3], Ios)) by {
      assert 57 in Codes(Table[1], Ios);
    }
  }

  /** On Android each code a kind lists standardises to that kind's number. */
  lemma AndroidCodesMapToOwnKind(i: int, code: int)
    requires 0 <= i < |Table| && code in Table[i].android
    ensures Standardise(Android, code) == Table[i].standardised
    ensures Classify(Android, code) == Some(Table[i].kind)
  {
    AndroidListsDisjoint();
    DisjointListingIsFound(Table, Android, i, code);
  }

  /** On iOS, 57 standardises to 2 (ConnectionTimedOut), never to 4. */
  lemma Ios57IsConnectionTimedOut()
    ensures Standardise(Ios, 57) == 2
    ensures Classify(Ios, 57) == Some(ConnectionTimedOut)
  {
    assert FirstListing(Table, Ios, 57, 1);
    StandardiseIsFirstListing(Ios, 57);
  }

  /** No iOS code is classified as SocketNotConnected; the only way iOS
      produces 4 is an unlisted native 4 passed through unchanged. */
  lemma SocketNotConnectedUnreachableOnIos(code: int)
    ensures Classify(Ios, code) != Some(SocketNotConnected)
    ensures Standardise(Ios, code) == 4 ==> code == 4
  {
    var r := FirstMatch(Table, Ios, code);
    if r.Some? {
      TableValues(r.value);
      if r.value == 3 {
        EarlierListingShadows(Table, Ios, 1, 3, code);
      }
    }
  }

  /** On Android every kind is reachable. */
  lemma EveryKindReachableOnAndroid(k: Kind)
    ensures exists code :: Classify(Android, code) == Some(k)
  {
    var i := match k
      case SocketClosedByServer => 0
      case ConnectionTimedOut => 1
      case GenericSocketError => 2
      case SocketNotConnected => 3
      case ConnectionRefused => 4;
    var code := Table[i].android[0];
    AndroidCodesMapToOwnKind(i, code);
  }

  /** No list names a standardised number, so the numbers 1 to 5 are
      fixed points of the translation. */
  lemma StandardisedNumbersUnlisted(os: Os, code: int)
    requires 1 <= code <= 5
    ensures Unlisted(Table, os, code)
  {
  }

  /** Translating twice is translating once. */
  lemma StandardiseIdempotent(os: Os, code: int)
    ensures Standardise(os, Standardise(os, code)) == Standardise(os, code)
  {
    var r := Standardise(os, code);
    if r != code {
      StandardisedNumbersUnlisted(os, r);
      StandardiseIsFirstListing(os, r);
    }
  }

  /** Every translated value is already standardised. */
  lemma StandardiseValueIdempotent(os: Os, v: Value)
    ensures IsStandardised(os, StandardiseValue(os, v))
  {
    if v.Number? {
      StandardiseIdempotent(os, v.n);
    }
  }

  /** The record `createErrorObj` builds from a native error and a socket id. */
  function CreateErrorObj(os: Os, error: Fields, socketId: Value): (r: Fields)
    ensures r.Keys == {"bytesSent", "resultCode", "message", "socketId"}
    ensures r["bytesSent"] == Number(0)
    ensures r["message"] == Get(error, "message") && r["socketId"] == socketId
    ensures IsStandardised(os, r["resultCode"])
    ensures var native := Get(error, "resultCode");
            if native.Number?
            then r["resultCode"].Number? && (r["resultCode"].n == native.n || 1 <= r["resultCode"].n <= 5)
            else r["resultCode"] == native
    ensures var native := Get(error, "resultCode");
            native.Number? ==> r["resultCode"] == Number(Standardise(os, native.n))
  {
    var native := Get(error, "resultCode");
    StandardiseValueIdempotent(os, native);
    map["bytesSent" := Number(0),
        "resultCode" := StandardiseValue(os, native),
        "message" := Get(error, "message"),
        "socketId" := socketId]
  }
}
