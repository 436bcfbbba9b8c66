/** pynuki/bridge.py: the bridge client. It keeps the token, its digest and
    the cached `info` answer; it builds every request from the
    authentication parameters and the caller's, and turns the `list` answer
    into device wrappers. Answers of the bridge are parameters. */
module Bridge {
  import opened Json
  import opened Text
  import opened Params
  import opened Encoding
  import opened Utils
  import opened Constants
  import opened Records
  import opened Calls
  import opened Device

  /** The token setter hashes a truthy token with `.encode`, which only text
      has. */
  predicate TokenIsText(token: Value)
  {
    !Truthy(token) || token.Str?
  }

  /** `sha256sum(token) if token else None`: a truthy token that is not text
      raises AttributeError at `.encode`. */
  function TokenDigest(token: Value, sha256: seq<byte> -> seq<byte>): (digest: Result<Value>)
    requires IsSha256Shaped(sha256)
    ensures digest.Err? <==> !TokenIsText(token)
    ensures digest.Err? ==> digest.error == AttributeError
    ensures Truthy(token) && digest.Ok? ==>
              digest.value.Str? && |digest.value.s| == 64
              && HexDecode(digest.value.s) == sha256(EncodeUtf8(token.s))
    ensures !Truthy(token) ==> digest == Ok(Null)
  {
    if !Truthy(token) then Ok(Null)
    else if token.Str? then Ok(Str(Sha256Sum(token.s, sha256)))
    else Err(AttributeError)
  }

  class NukiBridge {
    const hostname: Value
    const port: Value
    const secure: bool
    var token: Value
    /** `self.__tokendigest`. */
    var tokenDigest: Value
    /** `self._json`, the cached `info` answer. */
    var cache: Value

    /** `NukiBridge(hostname, token, port, secure)`. The cache starts empty
        and the token setter then runs: a truthy token makes it call
        `info()`, whose answer `probe` becomes the cache. */
    constructor (hostname: Value, token: Value, port: Value, secure: bool,
                 sha256: seq<byte> -> seq<byte>, probe: Value)
      requires TokenIsText(token) && IsSha256Shaped(sha256)
      ensures this.hostname == hostname && this.port == port && this.secure == secure
      ensures this.token == token && Ok(tokenDigest) == TokenDigest(token, sha256)
      ensures Truthy(token) ==> cache == probe
      ensures !Truthy(token) ==> cache == Null
    {
      this.hostname := hostname;
      this.port := port;
      this.secure := secure;
      this.token := token;
      tokenDigest := TokenDigest(token, sha256).value;
      cache := if Truthy(token) then probe else Null;
    }

    /** The `token` setter: the token is stored first, then hashed. A truthy
        token that is not text raises there, leaving the old digest; any
        other token gets its digest, and a truthy one is tried out with
        `info()`, answered by `probe`. */
    method SetToken(token: Value, sha256: seq<byte> -> seq<byte>, encrypted: Dict, probe: Value)
      returns (sent: Option<Request>, o: Outcome)
      requires IsSha256Shaped(sha256)
      modifies this`token, this`tokenDigest, this`cache
      ensures this.token == token
      ensures o.Fail? <==> !TokenIsText(token)
      ensures o.Fail? ==> o.error == AttributeError && tokenDigest == old(tokenDigest)
      ensures o.Pass? ==> Ok(tokenDigest) == TokenDigest(token, sha256)
      ensures (o.Fail? || !Truthy(token) || Truthy(old(cache))) ==> sent == None && cache == old(cache)
      ensures o.Pass? && Truthy(token) && !Truthy(old(cache)) ==>
                sent == Some(Request(EndpointUrl(hostname, port, "info"),
                                     QueryString(if secure then encrypted else PlainBase(token))))
                && cache == probe
    {
      this.token := token;
      var digest := TokenDigest(token, sha256);
      if digest.Err? {
        return None, Fail(digest.error);
      }
      tokenDigest := digest.value;
      o := Pass;
      sent := None;
      if Truthy(token) {
        var data;
        sent, data := Info(encrypted, probe);
      }
    }

    /** `__rq(endpoint, params)` up to the GET: the URL and the query string.
        In secure mode the parameters `encrypt_token` derives from the digest
        are the input `encrypted`. In plain mode the bridge reads the token
        first and then the caller's parameters in order. */
    method Rq(call: Call, encrypted: Dict) returns (req: Request)
      ensures req.url == EndpointUrl(hostname, port, call.endpoint)
      ensures req.query == QueryString(Overlay(if secure then encrypted else PlainBase(token), call.params))
      ensures !secure && IsDict(call.params) && "token" !in Keys(call.params)
              && '&' !in Render(token) && QuerySafe(call.params) ==>
                ParseQuery(req.query) == [("token", Render(token))] + Rendered(call.params)
    {
      var url := EndpointUrl(hostname, port, call.endpoint);
      var getParams: Dict;
      if secure {
        getParams := encrypted;
      } else {
        getParams := PlainBase(token);
      }
      if |call.params| > 0 {
        getParams := Params.Update(getParams, call.params);
      }
      req := Request(url, QueryString(getParams));
      if !secure && IsDict(call.params) && "token" !in Keys(call.params) && '&' !in Render(token) && QuerySafe(call.params) {
        PlainQueryStartsWithToken(token, call.params);
      }
    }

    /** `info()`: a truthy cached answer is returned without a request;
        otherwise the bridge is asked and its answer is cached. */
    method Info(encrypted: Dict, response: Value) returns (sent: Option<Request>, data: Value)
      modifies this`cache
      ensures Truthy(old(cache)) ==> sent == None && data == old(cache) && cache == old(cache)
      ensures !Truthy(old(cache)) ==>
                sent == Some(Request(EndpointUrl(hostname, port, "info"),
                                     QueryString(if secure then encrypted else PlainBase(token))))
                && data == response && cache == response
    {
      if Truthy(cache) {
        return None, cache;
      }
      var base := if secure then encrypted else PlainBase(token);
      var req := Rq(Call("info", []), encrypted);
      assert Overlay(base, []) == base;
      cache := response;
      return Some(req), response;
    }

    /** `update()`: drop the cache, so the bridge is always asked and its
        answer is what gets cached. */
    method Update(encrypted: Dict, response: Value) returns (sent: Option<Request>, data: Value)
      modifies this`cache
      ensures sent.Some? && sent.value.url == EndpointUrl(hostname, port, "info")
      ensures data == response && cache == response
    {
      cache := Null;
      sent, data := Info(encrypted, response);
    }

    /** `_get_devices(device_type)` on the `list` answer `listing`: one
        wrapper per listed descriptor of the type, in list order, holding
        the merged record and of the kind its top-level `deviceType` picks.
        A `lastKnownState` that is not an object raises; the first such
        descriptor decides the error. */
    method GetDevices(deviceType: Value, listing: seq<Record>) returns (devices: seq<NukiDevice>, o: Outcome)
      ensures var ds := ListFilter(listing, deviceType);
        && (o.Pass? <==> forall i :: 0 <= i < |ds| ==> Merge(ds[i], TreatAsEmpty).Ok?)
        && (o.Pass? ==>
              && |devices| == |ds|
              && forall i :: 0 <= i < |ds| ==>
                   devices[i].kind == KindOf(ds[i]) && Merge(ds[i], TreatAsEmpty) == Ok(devices[i].json))
        && (o.Fail? ==>
              && devices == []
              && exists i :: 0 <= i < |ds| && Merge(ds[i], TreatAsEmpty) == Err(o.error)
                             && forall j :: 0 <= j < i ==> Merge(ds[j], TreatAsEmpty).Ok?)
    {
      var ds := ListFilter(listing, deviceType);
      devices := [];
      var i := 0;
      while i < |ds|
        invariant 0 <= i <= |ds|
        invariant |devices| == i
        invariant forall j :: 0 <= j < i ==>
                    devices[j].kind == KindOf(ds[j]) && Merge(ds[j], TreatAsEmpty) == Ok(devices[j].json)
      {
        match Merge(ds[i], TreatAsEmpty)
        case Err(e) =>
          return [], Fail(e);
        case Ok(data) =>
          var dev := new NukiDevice(KindOf(ds[i]), data);
          devices := devices + [dev];
        i := i + 1;
      }
      o := Pass;
    }

    /** `locks`: the lock wrappers among all devices, in list order. */
    method Locks(listing: seq<Record>) returns (locks: seq<NukiDevice>, o: Outcome)
      ensures o.Pass? <==> forall i :: 0 <= i < |listing| ==> Merge(listing[i], TreatAsEmpty).Ok?
      ensures o.Pass? ==>
                var ls := LockDescs(listing);
                |locks| == |ls| &&
                forall i :: 0 <= i < |ls| ==> locks[i].kind == LockKind && Merge(ls[i], TreatAsEmpty) == Ok(locks[i].json)
      ensures o.Fail? ==>
                && locks == []
                && exists i :: 0 <= i < |listing| && Merge(listing[i], TreatAsEmpty) == Err(o.error)
                               && forall j :: 0 <= j < i ==> Merge(listing[j], TreatAsEmpty).Ok?
    {
      var devices;
      devices, o := GetDevices(Null, listing);
      if o.Fail? {
        return [], o;
      }
      assert ListFilter(listing, Null) == listing;
      locks := [];
      var i := 0;
      while i < |devices|
        invariant 0 <= i <= |devices| == |listing|
        invariant forall j :: 0 <= j < |devices| ==>
                    devices[j].kind == KindOf(listing[j]) && Merge(listing[j], TreatAsEmpty) == Ok(devices[j].json)
        invariant |locks| == |LockDescs(listing[..i])|
        invariant forall j :: 0 <= j < |locks| ==>
                    locks[j].kind == LockKind && Merge(LockDescs(listing[..i])[j], TreatAsEmpty) == Ok(locks[j].json)
      {
        LockDescsStep(listing, i);
        if devices[i].kind == LockKind {
          locks := locks + [devices[i]];
        }
        i := i + 1;
      }
      assert listing[..i] == listing;
    }

    /** `openers`: the devices listed with the opener type, every one of
        them an opener wrapper. */
    method Openers(listing: seq<Record>) returns (openers: seq<NukiDevice>, o: Outcome)
      ensures var ds := ListFilter(listing, Int(DEVICE_TYPE_OPENER));
        && (o.Pass? <==> forall i :: 0 <= i < |ds| ==> Merge(ds[i], TreatAsEmpty).Ok?)
        && (o.Pass? ==>
              && |openers| == |ds|
              && forall i :: 0 <= i < |ds| ==>
                   openers[i].kind == OpenerKind && Merge(ds[i], TreatAsEmpty) == Ok(openers[i].json))
        && (o.Fail? ==>
              && openers == []
              && exists i :: 0 <= i < |ds| && Merge(ds[i], TreatAsEmpty) == Err(o.error)
                             && forall j :: 0 <= j < i ==> Merge(ds[j], TreatAsEmpty).Ok?)
    {
      openers, o := GetDevices(Int(DEVICE_TYPE_OPENER), listing);
      var ds := ListFilter(listing, Int(DEVICE_TYPE_OPENER));
      forall i | 0 <= i < |ds| ensures KindOf(ds[i]) == OpenerKind {
        OpenerListingIsOpeners(listing, ds[i]);
      }
    }
  }
}
