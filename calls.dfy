/** The calls the library makes on the bridge: an endpoint with the caller's
    parameters, as handed to `__rq`, and the steps `__rq` takes to turn the
    authentication parameters and the caller's into a request
    (pynuki/bridge.py:96-152, pynuki/pynuki.py:206-258). */
module Calls {
  import opened Json
  import opened Text
  import opened Params
  import opened Constants

  /** `self.__rq(endpoint, params)`. */
  datatype Call = Call(endpoint: string, params: Dict)

  /** What goes on the wire: the URL and the hand-built query string. */
  datatype Request = Request(url: string, query: string)

  /** `f"http://{hostname}:{port}"`. */
  function ApiUrl(hostname: Value, port: Value): string
  {
    "http://" + Render(hostname) + ":" + Render(port)
  }

  /** `f"{self.__api_url}/{endpoint}"`. */
  function EndpointUrl(hostname: Value, port: Value, endpoint: string): string
  {
    ApiUrl(hostname, port) + "/" + endpoint
  }

  /** `{"token": self.token}`: the plain-token authentication. */
  function PlainBase(token: Value): Dict
  {
    [("token", token)]
  }

  /** `if params: get_params.update(params)`. */
  function Overlay(base: Dict, params: Dict): Dict
  {
    if |params| > 0 then Update(base, params) else base
  }

  /** The caller's parameters override same-named authentication
      parameters; the authentication keys keep their places and the new
      keys follow in the caller's order. */
  lemma OverlaySpec(base: Dict, params: Dict)
    requires IsDict(params)
    ensures forall k :: Find(Overlay(base, params), k) ==
                          if k in Keys(params) then Find(params, k) else Find(base, k)
    ensures Keys(Overlay(base, params)) == Keys(base) + Fresh(Keys(base), Keys(params))
    ensures IsDict(base) ==> IsDict(Overlay(base, params))
  {
    if |params| > 0 {
      forall k ensures Find(Overlay(base, params), k) ==
                       if k in Keys(params) then Find(params, k) else Find(base, k) {
        UpdateFind(base, params, k);
      }
      UpdateKeys(base, params);
      if IsDict(base) {
        UpdateKeepsDistinct(base, params);
      }
    } else {
      assert Keys(params) == [];
      assert Keys(base) + Fresh(Keys(base), []) == Keys(base);
    }
  }

  lemma RenderedConcat(a: Dict, b: Dict)
    ensures Rendered(a + b) == Rendered(a) + Rendered(b)
  {
  }

  /** When no caller key shadows an authentication key, the bridge reads
      back the authentication pairs first and then the caller's, each in
      insertion order. */
  lemma QueryCarriesBaseThenParams(base: Dict, params: Dict)
    requires IsDict(params)
    requires forall k :: k in Keys(params) ==> k !in Keys(base)
    requires |base| > 0 && QuerySafe(base) && QuerySafe(params)
    ensures ParseQuery(QueryString(Overlay(base, params))) == Rendered(base) + Rendered(params)
  {
    if |params| > 0 {
      UpdateFresh(base, params);
    }
    assert Overlay(base, params) == base + params;
    assert QuerySafe(base + params) by {
      forall i | 0 <= i < |base + params|
        ensures '&' !in (base + params)[i].0 && '&' !in Render((base + params)[i].1) && '=' !in (base + params)[i].0
      {
        if i >= |base| { assert (base + params)[i] == params[i - |base|]; }
      }
    }
    QueryStringRoundTrip(base + params);
    RenderedConcat(base, params);
  }

  /** In plain mode the first pair the bridge reads is the token. */
  lemma PlainQueryStartsWithToken(token: Value, params: Dict)
    requires IsDict(params) && "token" !in Keys(params)
    requires '&' !in Render(token) && QuerySafe(params)
    ensures ParseQuery(QueryString(Overlay(PlainBase(token), params))) ==
              [("token", Render(token))] + Rendered(params)
  {
    var base := PlainBase(token);
    assert Keys(base) == ["token"];
    assert QuerySafe(base) by {
      assert base[0].0 == "token";
    }
    assert Rendered(base) == [("token", Render(token))];
    QueryCarriesBaseThenParams(base, params);
  }

  /** `config_auth(enable)`. */
  function ConfigAuth(enable: bool): (c: Call)
    ensures c.endpoint == "configAuth" && IsDict(c.params) && Keys(c.params) == ["enable"]
    ensures Find(c.params, "enable") == Some(Int(1)) <==> enable
    ensures Find(c.params, "enable") == Some(Int(0)) <==> !enable
  {
    var d := [("enable", Int(if enable then 1 else 0))];
    DictLiteral(d);
    Call("configAuth", d)
  }

  /** `lock_state(nuki_id, device_type)`. */
  function LockState(nukiId: Value, deviceType: Value): (c: Call)
    ensures c.endpoint == "lockState" && IsDict(c.params) && Keys(c.params) == ["nukiId", "deviceType"]
    ensures Find(c.params, "nukiId") == Some(nukiId) && Find(c.params, "deviceType") == Some(deviceType)
  {
    var d := [("nukiId", nukiId), ("deviceType", deviceType)];
    DictLiteral(d);
    Call("lockState", d)
  }

  /** `lock_action(nuki_id, action, device_type, block)`: the bridge waits for
      the lock (`noWait` 0) exactly when the caller blocks. */
  function LockAction(nukiId: Value, action: int, deviceType: Value, block: bool): (c: Call)
    ensures c.endpoint == "lockAction" && IsDict(c.params)
    ensures Keys(c.params) == ["nukiId", "deviceType", "action", "noWait"]
    ensures Find(c.params, "nukiId") == Some(nukiId)
    ensures Find(c.params, "deviceType") == Some(deviceType)
    ensures Find(c.params, "action") == Some(Int(action))
    ensures Find(c.params, "noWait") == Some(Int(0)) <==> block
    ensures Find(c.params, "noWait") == Some(Int(1)) <==> !block
  {
    var d := [("nukiId", nukiId), ("deviceType", deviceType), ("action", Int(action)),
              ("noWait", Int(if block then 0 else 1))];
    DictLiteral(d);
    assert Find(d, d[3].0) == Some(d[3].1);
    Call("lockAction", d)
  }

  /** `lock(nuki_id, device_type, block)`. */
  function Lock(nukiId: Value, deviceType: Value, block: bool): Call
  {
    LockAction(nukiId, ACTION_LOCK_LOCK, deviceType, block)
  }

  /** `unlock(nuki_id, device_type, block)`. */
  function Unlock(nukiId: Value, deviceType: Value, block: bool): Call
  {
    LockAction(nukiId, ACTION_LOCK_UNLOCK, deviceType, block)
  }

  /** `lock_n_go(nuki_id, device_type, unlatch, block)`. */
  function LockNGo(nukiId: Value, deviceType: Value, unlatch: bool, block: bool): Call
  {
    var action := if unlatch then ACTION_LOCK_LOCK_N_GO_WITH_UNLATCH else ACTION_LOCK_LOCK_N_GO;
    LockAction(nukiId, action, deviceType, block)
  }

  /** `unlatch(nuki_id, device_type, block)`. */
  function Unlatch(nukiId: Value, deviceType: Value, block: bool): Call
  {
    LockAction(nukiId, ACTION_LOCK_UNLATCH, deviceType, block)
  }

  /** The action code a call asks for. */
  function ActionOf(c: Call): Option<Value>
  {
    Find(c.params, "action")
  }

  /** A `lockAction` call for this device, with `noWait` 0 exactly when the
      caller blocks. */
  predicate ActsOn(c: Call, nukiId: Value, deviceType: Value, block: bool)
  {
    && c.endpoint == "lockAction"
    && Find(c.params, "nukiId") == Some(nukiId)
    && Find(c.params, "deviceType") == Some(deviceType)
    && (Find(c.params, "noWait") == Some(Int(0)) <==> block)
  }

  /** The four shorthands are `lockAction` calls that pass the device, its
      type and `block` through and differ only in the action: lock, unlock
      and unlatch ask for LOCK, UNLOCK and UNLATCH, and lock 'n' go asks for
      LOCK_N_GO_WITH_UNLATCH exactly when it is told to unlatch. No two of
      them send the same call. */
  lemma LockShorthands(nukiId: Value, deviceType: Value, unlatch: bool, block: bool)
    ensures ActsOn(Lock(nukiId, deviceType, block), nukiId, deviceType, block)
    ensures ActsOn(Unlock(nukiId, deviceType, block), nukiId, deviceType, block)
    ensures ActsOn(LockNGo(nukiId, deviceType, unlatch, block), nukiId, deviceType, block)
    ensures ActsOn(Unlatch(nukiId, deviceType, block), nukiId, deviceType, block)
    ensures ActionOf(Lock(nukiId, deviceType, block)) == Some(Int(ACTION_LOCK_LOCK))
    ensures ActionOf(Unlock(nukiId, deviceType, block)) == Some(Int(ACTION_LOCK_UNLOCK))
    ensures ActionOf(Unlatch(nukiId, deviceType, block)) == Some(Int(ACTION_LOCK_UNLATCH))
    ensures ActionOf(LockNGo(nukiId, deviceType, unlatch, block)) == Some(Int(ACTION_LOCK_LOCK_N_GO_WITH_UNLATCH)) <==> unlatch
    ensures ActionOf(LockNGo(nukiId, deviceType, unlatch, block)) == Some(Int(ACTION_LOCK_LOCK_N_GO)) <==> !unlatch
    ensures Lock(nukiId, deviceType, block) != Unlock(nukiId, deviceType, block)
    ensures Lock(nukiId, deviceType, block) != Unlatch(nukiId, deviceType, block)
    ensures Unlock(nukiId, deviceType, block) != Unlatch(nukiId, deviceType, block)
    ensures LockNGo(nukiId, deviceType, unlatch, block) !in
              {Lock(nukiId, deviceType, block), Unlock(nukiId, deviceType, block), Unlatch(nukiId, deviceType, block)}
  {
  }
}
