/** pynuki/pynuki.py: the older single-file client. Its lock wrapper reads
    and refreshes a record like the newer device class, its bridge signs
    every request with the hashed-token triple in secure mode, and `locks`
    wraps every listed device as a lock without a dispatch on its type. */
module Legacy {
  import opened Json
  import opened Text
  import opened Params
  import opened Encoding
  import opened Utils
  import opened Constants
  import opened Records
  import opened Calls
  import Lock

  /** `info(bridge_type)`: unlike the newer client it always names the
      bridge type. */
  function InfoCall(bridgeType: Value): (c: Call)
    ensures c.endpoint == "info" && IsDict(c.params) && Keys(c.params) == ["bridgeType"]
    ensures Find(c.params, "bridgeType") == Some(bridgeType)
  {
    var d := [("bridgeType", bridgeType)];
    DictLiteral(d);
    Call("info", d)
  }

  /** The authentication parameters `__rq` starts from. */
  function AuthParams(secure: bool, token: Value, now: DateTime, rnr: Nonce, sha256: seq<byte> -> seq<byte>): Dict
    requires ValidDateTime(now) && IsSha256Shaped(sha256)
  {
    if secure then HashToken(token, now, rnr, sha256) else PlainBase(token)
  }

  /** A signed request whose caller parameters leave `ts`, `rnr` and `hash`
      alone is accepted by a bridge holding the same token. */
  lemma SecureParamsAccepted(token: Value, now: DateTime, rnr: Nonce, sha256: seq<byte> -> seq<byte>, params: Dict)
    requires ValidDateTime(now) && IsSha256Shaped(sha256)
    requires IsDict(params) && "ts" !in Keys(params) && "rnr" !in Keys(params) && "hash" !in Keys(params)
    ensures BridgeAccepts(Overlay(HashToken(token, now, rnr, sha256), params), token, sha256)
  {
    var h := HashToken(token, now, rnr, sha256);
    OverlaySpec(h, params);
    HashTokenAccepted(token, now, rnr, sha256);
    assert Find(Overlay(h, params), "ts") == Find(h, "ts");
    assert Find(Overlay(h, params), "rnr") == Find(h, "rnr");
    assert Find(Overlay(h, params), "hash") == Find(h, "hash");
  }

  /** None of the three signing values holds an `&`. */
  lemma SigningTextsSafe(token: Value, now: DateTime, rnr: Nonce, sha256: seq<byte> -> seq<byte>)
    requires ValidDateTime(now) && IsSha256Shaped(sha256)
    ensures '&' !in FormatTimestamp(now)
    ensures '&' !in NatToString(rnr)
    ensures '&' !in Sha256Sum(HashInput(FormatTimestamp(now), rnr, token), sha256)
  {
    var ts := FormatTimestamp(now);
    forall i | 0 <= i < |ts| ensures ts[i] != '&' {
      if i !in {4, 7, 10, 13, 16, 19} { assert IsDigit(ts[i]); }
    }
    var r := NatToString(rnr);
    forall i | 0 <= i < |r| ensures r[i] != '&' { assert IsDigit(r[i]); }
    var hash := Sha256Sum(HashInput(ts, rnr, token), sha256);
    forall i | 0 <= i < |hash| ensures hash[i] != '&' { assert IsLowerHex(hash[i]); }
  }

  /** In secure mode the bridge reads `ts`, `rnr` and `hash` back first, in
      that order, and then the caller's parameters. */
  lemma SecureQueryOrder(token: Value, now: DateTime, rnr: Nonce, sha256: seq<byte> -> seq<byte>, params: Dict)
    requires ValidDateTime(now) && IsSha256Shaped(sha256)
    requires IsDict(params) && "ts" !in Keys(params) && "rnr" !in Keys(params) && "hash" !in Keys(params)
    requires QuerySafe(params)
    ensures var ts := FormatTimestamp(now);
      ParseQuery(QueryString(Overlay(HashToken(token, now, rnr, sha256), params))) ==
        [("ts", ts), ("rnr", NatToString(rnr)), ("hash", Sha256Sum(HashInput(ts, rnr, token), sha256))]
        + Rendered(params)
  {
    SigningPairs(token, now, rnr, sha256);
    QueryCarriesBaseThenParams(HashToken(token, now, rnr, sha256), params);
  }

  /** The signing triple is safe to join into a query and renders to its
      three texts. */
  lemma SigningPairs(token: Value, now: DateTime, rnr: Nonce, sha256: seq<byte> -> seq<byte>)
    requires ValidDateTime(now) && IsSha256Shaped(sha256)
    ensures QuerySafe(HashToken(token, now, rnr, sha256))
    ensures var ts := FormatTimestamp(now);
      Rendered(HashToken(token, now, rnr, sha256)) ==
        [("ts", ts), ("rnr", NatToString(rnr)), ("hash", Sha256Sum(HashInput(ts, rnr, token), sha256))]
  {
    var ts := FormatTimestamp(now);
    var hash := Sha256Sum(HashInput(ts, rnr, token), sha256);
    SigningItems(token, now, rnr, sha256);
    SigningTextsSafe(token, now, rnr, sha256);
    TripleSafe(ts, NatToString(rnr), hash, rnr);
  }

  /** The items `hash_token` returns. */
  lemma SigningItems(token: Value, now: DateTime, rnr: Nonce, sha256: seq<byte> -> seq<byte>)
    requires ValidDateTime(now) && IsSha256Shaped(sha256)
    ensures var ts := FormatTimestamp(now);
      HashToken(token, now, rnr, sha256) ==
        [("ts", Str(ts)), ("rnr", Int(rnr)), ("hash", Str(Sha256Sum(HashInput(ts, rnr, token), sha256)))]
  {
  }

  lemma TripleSafe(ts: string, digits: string, hash: string, rnr: nat)
    requires '&' !in ts && '&' !in hash && digits == NatToString(rnr) && '&' !in digits
    ensures var h: Dict := [("ts", Str(ts)), ("rnr", Int(rnr)), ("hash", Str(hash))];
      QuerySafe(h) && Rendered(h) == [("ts", ts), ("rnr", digits), ("hash", hash)]
  {
    var h: Dict := [("ts", Str(ts)), ("rnr", Int(rnr)), ("hash", Str(hash))];
    assert Render(h[1].1) == digits;
  }

  class LegacyLock {
    /** `self._json`. */
    var json: Record

    constructor (json: Record)
      ensures this.json == json
    {
      this.json := json;
    }

    function Name(): Value reads this { Get(json, "name") }
    function NukiId(): Value reads this { Get(json, NUKI_ID) }
    function BatteryCritical(): Value reads this { Get(json, "batteryCritical") }
    function State(): Value reads this { Get(json, "state") }
    function StateName(): Value reads this { Get(json, "stateName") }

    /** `is_locked`: the state is 1 (or `True`). */
    predicate IsLocked()
      reads this
    {
      PyEq(State(), Int(STATE_LOCK_LOCKED))
    }

    /** `update(aggressive=True)`: `data["success"]` raises when the key is
        missing; a false `success` is only logged, and the answer, `success`
        removed, is folded into the record all the same. */
    method UpdateAggressive(data: Record) returns (call: Call, o: Outcome)
      modifies this
      ensures call == LockState(old(NukiId()), Int(DEVICE_TYPE_LOCK))
      ensures o.Pass? <==> SUCCESS in data
      ensures o.Fail? ==> o == Fail(KeyError(SUCCESS)) && json == old(json)
      ensures o.Pass? ==> json == old(json) + Without(data, SUCCESS)
    {
      call := LockState(NukiId(), Int(DEVICE_TYPE_LOCK));
      if SUCCESS !in data {
        return call, Fail(KeyError(SUCCESS));
      }
      json := json + Without(data, SUCCESS);
      o := Pass;
    }

    /** `update(aggressive=False)`: the first of the bridge's `locks` with
        the same Nuki ID is overlaid on the record; a listed device without
        `lastKnownState` makes `locks` raise, and no match fails the
        assertion. */
    method UpdatePassive(listing: seq<Record>) returns (o: Outcome)
      modifies this
      ensures match Lookup(listing, Raise, old(NukiId()))
              case Ok(r) => o == Pass && json == old(json) + r
              case Err(e) => o == Fail(e) && json == old(json)
      ensures PyEq(NukiId(), old(NukiId()))
    {
      var id := NukiId();
      PyEqIsEquivalence(id, id, id);
      match Lookup(listing, Raise, id)
      case Err(e) =>
        o := Fail(e);
      case Ok(r) =>
        LookupSpec(listing, Raise, id);
        PyEqIsEquivalence(Get(r, NUKI_ID), id, id);
        json := json + r;
        o := Pass;
    }
  }

  /** The older lock reads as locked exactly when the newer one would, and
      its four actions send the same calls: its own Nuki ID, the default
      lock type, `block` passed through. `LegacyLock` therefore has no
      action members of its own: its `lock`, `unlock`, `unlatch` and
      `lock_n_go` are `Lock.LockCall`, `Lock.UnlockCall`, `Lock.UnlatchCall`
      and `Lock.LockNGoCall` on its record, and this lemma is where that
      reuse is justified. */
  lemma LegacyLockAgrees(l: LegacyLock, unlatch: bool, block: bool)
    ensures l.IsLocked() <==> Lock.IsLocked(l.json)
    ensures l.IsLocked() <==> l.State() == Int(STATE_LOCK_LOCKED) || l.State() == Bool(true)
    ensures ActsOn(Lock.LockCall(l.json, block), l.NukiId(), Int(DEVICE_TYPE_LOCK), block)
    ensures ActsOn(Lock.UnlockCall(l.json, block), l.NukiId(), Int(DEVICE_TYPE_LOCK), block)
    ensures ActsOn(Lock.UnlatchCall(l.json, block), l.NukiId(), Int(DEVICE_TYPE_LOCK), block)
    ensures ActsOn(Lock.LockNGoCall(l.json, unlatch, block), l.NukiId(), Int(DEVICE_TYPE_LOCK), block)
    ensures ActionOf(Lock.LockNGoCall(l.json, unlatch, block)) == Some(Int(5)) <==> unlatch
    ensures ActionOf(Lock.LockNGoCall(l.json, unlatch, block)) == Some(Int(4)) <==> !unlatch
  {
    Lock.LockActionsUseDefaultType(l.json, unlatch, block);
    Lock.LockedStates(l.json);
    LockShorthands(l.NukiId(), Int(DEVICE_TYPE_LOCK), unlatch, block);
  }

  class LegacyBridge {
    const hostname: Value
    const port: Value
    const secure: bool
    var token: Value
    /** `self._json`, the last `info` answer. */
    var cache: Value

    /** `NukiBridge(hostname, token, port, secure)`. The cache starts empty
        and the token setter then runs: a truthy token makes it call
        `info()`, whose answer `probe` becomes the cache. */
    constructor (hostname: Value, token: Value, port: Value, secure: bool, probe: Value)
      ensures this.hostname == hostname && this.port == port && this.secure == secure
      ensures this.token == token
      ensures Truthy(token) ==> cache == probe
      ensures !Truthy(token) ==> cache == Null
    {
      this.hostname := hostname;
      this.port := port;
      this.secure := secure;
      this.token := token;
      cache := if Truthy(token) then probe else Null;
    }

    /** The `token` setter: a truthy token is tried out with `info()` for the
        hardware bridge type, answered by `probe`; a falsy one sends
        nothing. */
    method SetToken(token: Value, now: DateTime, rnr: Nonce, sha256: seq<byte> -> seq<byte>, probe: Value)
      returns (sent: Option<Request>)
      requires ValidDateTime(now) && IsSha256Shaped(sha256)
      modifies this`token, this`cache
      ensures this.token == token
      ensures !Truthy(token) ==> sent == None && cache == old(cache)
      ensures Truthy(token) ==>
                && sent.Some? && sent.value.url == EndpointUrl(hostname, port, "info")
                && sent.value.query == QueryString(Overlay(AuthParams(secure, token, now, rnr, sha256),
                                                           InfoCall(Int(BRIDGE_TYPE_HW)).params))
                && cache == probe
    {
      this.token := token;
      sent := None;
      if Truthy(token) {
        var req, data := Info(Int(BRIDGE_TYPE_HW), now, rnr, sha256, probe);
        sent := Some(req);
      }
    }

    /** `__rq(endpoint, params)` up to the GET, with the clock reading, the
        nonce and SHA-256 as inputs. Signed requests are accepted by a
        bridge holding the token and carry the triple first; plain ones
        carry the token first. */
    method Rq(call: Call, now: DateTime, rnr: Nonce, sha256: seq<byte> -> seq<byte>) returns (req: Request)
      requires ValidDateTime(now) && IsSha256Shaped(sha256)
      ensures req.url == EndpointUrl(hostname, port, call.endpoint)
      ensures req.query == QueryString(Overlay(AuthParams(secure, token, now, rnr, sha256), call.params))
      ensures secure && IsDict(call.params)
              && "ts" !in Keys(call.params) && "rnr" !in Keys(call.params) && "hash" !in Keys(call.params) ==>
                BridgeAccepts(Overlay(AuthParams(secure, token, now, rnr, sha256), call.params), token, sha256)
      ensures !secure && IsDict(call.params) && "token" !in Keys(call.params)
              && '&' !in Render(token) && QuerySafe(call.params) ==>
                ParseQuery(req.query) == [("token", Render(token))] + Rendered(call.params)
    {
      var url := EndpointUrl(hostname, port, call.endpoint);
      var getParams: Dict;
      if secure {
        getParams := HashToken(token, now, rnr, sha256);
      } else {
        getParams := PlainBase(token);
      }
      if |call.params| > 0 {
        getParams := Update(getParams, call.params);
      }
      req := Request(url, QueryString(getParams));
      if secure && IsDict(call.params)
         && "ts" !in Keys(call.params) && "rnr" !in Keys(call.params) && "hash" !in Keys(call.params) {
        SecureParamsAccepted(token, now, rnr, sha256, call.params);
      }
      if !secure && IsDict(call.params) && "token" !in Keys(call.params) && '&' !in Render(token) && QuerySafe(call.params) {
        PlainQueryStartsWithToken(token, call.params);
      }
    }

    /** `info(bridge_type)`: always asks the bridge, and keeps the answer. */
    method Info(bridgeType: Value, now: DateTime, rnr: Nonce, sha256: seq<byte> -> seq<byte>, response: Value)
      returns (req: Request, data: Value)
      requires ValidDateTime(now) && IsSha256Shaped(sha256)
      modifies this`cache
      ensures req.url == EndpointUrl(hostname, port, "info")
      ensures req.query == QueryString(Overlay(AuthParams(secure, token, now, rnr, sha256), InfoCall(bridgeType).params))
      ensures data == response && cache == response
    {
      cache := response;
      req := Rq(InfoCall(bridgeType), now, rnr, sha256);
      data := response;
    }

    /** `locks` on the `list` answer `listing`: every listed device becomes a
        lock wrapper holding its merged record, in list order; the first
        descriptor without a mergeable `lastKnownState` raises. */
    method Locks(listing: seq<Record>) returns (locks: seq<LegacyLock>, o: Outcome)
      ensures o.Pass? <==> forall i :: 0 <= i < |listing| ==> Merge(listing[i], Raise).Ok?
      ensures o.Pass? ==>
                && |locks| == |listing|
                && forall i :: 0 <= i < |listing| ==> Merge(listing[i], Raise) == Ok(locks[i].json)
      ensures o.Fail? ==>
                && locks == []
                && exists i :: 0 <= i < |listing| && Merge(listing[i], Raise) == Err(o.error)
                               && forall j :: 0 <= j < i ==> Merge(listing[j], Raise).Ok?
    {
      locks := [];
      var i := 0;
      while i < |listing|
        invariant 0 <= i <= |listing|
        invariant |locks| == i
        invariant forall j :: 0 <= j < i ==> Merge(listing[j], Raise) == Ok(locks[j].json)
      {
        match Merge(listing[i], Raise)
        case Err(e) =>
          return [], Fail(e);
        case Ok(data) =>
          var l := new LegacyLock(data);
          locks := locks + [l];
        i := i + 1;
      }
      o := Pass;
    }
  }
}
