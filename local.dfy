/** pynuki/local/pynuki.py: the oldest client, for the bridge's plain-token
    API. Action codes come from the LOCK_ACTIONS table, `lock_state` and
    `lock_action` name no device type, and the token can be fetched from the
    bridge's `auth` endpoint. */
module Local {
  import opened Json
  import opened Params
  import opened Constants
  import opened Records
  import opened Calls

  /** `lock_state(nuki_id)`. */
  function LocalLockState(nukiId: Value): (c: Call)
    ensures c.endpoint == "lockState" && IsDict(c.params) && Keys(c.params) == ["nukiId"]
    ensures Find(c.params, "nukiId") == Some(nukiId)
  {
    var d := [("nukiId", nukiId)];
    DictLiteral(d);
    Call("lockState", d)
  }

  /** `lock_action(nuki_id, action, block)`: exactly the Nuki ID, the action
      and `noWait`, which is 0 exactly when the caller blocks. */
  function LocalLockAction(nukiId: Value, action: int, block: bool): (c: Call)
    ensures c.endpoint == "lockAction" && IsDict(c.params)
    ensures Keys(c.params) == ["nukiId", "action", "noWait"]
    ensures Find(c.params, "nukiId") == Some(nukiId)
    ensures Find(c.params, "action") == Some(Int(action))
    ensures Find(c.params, "deviceType") == None
    ensures Find(c.params, "noWait") == Some(Int(0)) <==> block
    ensures Find(c.params, "noWait") == Some(Int(1)) <==> !block
  {
    var d := [("nukiId", nukiId), ("action", Int(action)), ("noWait", Int(if block then 0 else 1))];
    DictLiteral(d);
    assert Find(d, d[2].0) == Some(d[2].1);
    Call("lockAction", d)
  }

  function LocalLock(nukiId: Value, block: bool): Call
  {
    LocalLockAction(nukiId, LOCK_ACTIONS["LOCK"], block)
  }

  function LocalUnlock(nukiId: Value, block: bool): Call
  {
    LocalLockAction(nukiId, LOCK_ACTIONS["UNLOCK"], block)
  }

  function LocalLockNGo(nukiId: Value, unlatch: bool, block: bool): Call
  {
    var action := if unlatch then LOCK_ACTIONS["LOCK_N_GO_WITH_UNLATCH"] else LOCK_ACTIONS["LOCK_N_GO"];
    LocalLockAction(nukiId, action, block)
  }

  function LocalUnlatch(nukiId: Value, block: bool): Call
  {
    LocalLockAction(nukiId, LOCK_ACTIONS["UNLATCH"], block)
  }

  /** A `lockAction` call for this lock that names no device type, with
      `noWait` 0 exactly when the caller blocks. */
  predicate ActsOnLocal(c: Call, nukiId: Value, block: bool)
  {
    && c.endpoint == "lockAction"
    && Find(c.params, "nukiId") == Some(nukiId)
    && Find(c.params, "deviceType") == None
    && (Find(c.params, "noWait") == Some(Int(0)) <==> block)
  }

  /** The four shorthands send the table's codes: lock 2, unlock 1, unlatch
      3, lock 'n' go 5 exactly when told to unlatch and 4 otherwise. These are
      the codes the newer clients name with their own constants. */
  lemma LocalShorthands(nukiId: Value, unlatch: bool, block: bool)
    ensures ActsOnLocal(LocalLock(nukiId, block), nukiId, block)
    ensures ActsOnLocal(LocalUnlock(nukiId, block), nukiId, block)
    ensures ActsOnLocal(LocalLockNGo(nukiId, unlatch, block), nukiId, block)
    ensures ActsOnLocal(LocalUnlatch(nukiId, block), nukiId, block)
    ensures ActionOf(LocalLock(nukiId, block)) == Some(Int(2))
    ensures ActionOf(LocalUnlock(nukiId, block)) == Some(Int(1))
    ensures ActionOf(LocalUnlatch(nukiId, block)) == Some(Int(3))
    ensures ActionOf(LocalLockNGo(nukiId, unlatch, block)) == Some(Int(5)) <==> unlatch
    ensures ActionOf(LocalLockNGo(nukiId, unlatch, block)) == Some(Int(4)) <==> !unlatch
    ensures LOCK_ACTIONS["LOCK"] == ACTION_LOCK_LOCK && LOCK_ACTIONS["UNLOCK"] == ACTION_LOCK_UNLOCK
    ensures LOCK_ACTIONS["UNLATCH"] == ACTION_LOCK_UNLATCH && LOCK_ACTIONS["LOCK_N_GO"] == ACTION_LOCK_LOCK_N_GO
    ensures LOCK_ACTIONS["LOCK_N_GO_WITH_UNLATCH"] == ACTION_LOCK_LOCK_N_GO_WITH_UNLATCH
  {
  }

  class LocalNukiLock {
    /** `self._json`. */
    var json: Record

    constructor (json: Record)
      ensures this.json == json
    {
      this.json := json;
    }

    function Name(): Value reads this { Get(json, "name") }
    function NukiId(): Value reads this { Get(json, NUKI_ID) }
    function BatteryCritical(): Value reads this { Get(json, "batteryCritical") }
    function State(): Value reads this { Get(json, "state") }
    function StateName(): Value reads this { Get(json, "stateName") }

    /** `is_locked`: the state is the table's LOCKED. */
    predicate IsLocked()
      reads this
    {
      PyEq(State(), Int(LOCK_STATES["LOCKED"]))
    }

    /** `update(aggressive=True)`: ask for the state by Nuki ID alone;
        `data["success"]` raises when the key is missing, and otherwise the
        answer, `success` removed, is folded in whether or not it succeeded. */
    method UpdateAggressive(data: Record) returns (call: Call, o: Outcome)
      modifies this
      ensures call == LocalLockState(old(NukiId()))
      ensures o.Pass? <==> SUCCESS in data
      ensures o.Fail? ==> o == Fail(KeyError(SUCCESS)) && json == old(json)
      ensures o.Pass? ==> json == old(json) + Without(data, SUCCESS)
    {
      call := LocalLockState(NukiId());
      if SUCCESS !in data {
        return call, Fail(KeyError(SUCCESS));
      }
      json := json + Without(data, SUCCESS);
      o := Pass;
    }

    /** `update(aggressive=False)`: the first of the bridge's `locks` with
        the same Nuki ID is overlaid on the record. */
    method UpdatePassive(listing: seq<Record>) returns (o: Outcome)
      modifies this
      ensures match Lookup(listing, Raise, old(NukiId()))
              case Ok(r) => o == Pass && json == old(json) + r
              case Err(e) => o == Fail(e) && json == old(json)
      ensures PyEq(NukiId(), old(NukiId()))
    {
      var id := NukiId();
      PyEqIsEquivalence(id, id, id);
      match Lookup(listing, Raise, id)
      case Err(e) =>
        o := Fail(e);
      case Ok(r) =>
        LookupSpec(listing, Raise, id);
        PyEqIsEquivalence(Get(r, NUKI_ID), id, id);
        json := json + r;
        o := Pass;
    }

    function LockCall(block: bool): Call reads this { LocalLock(NukiId(), block) }
    function UnlockCall(block: bool): Call reads this { LocalUnlock(NukiId(), block) }
    function LockNGoCall(unlatch: bool, block: bool): Call reads this { LocalLockNGo(NukiId(), unlatch, block) }
    function UnlatchCall(block: bool): Call reads this { LocalUnlatch(NukiId(), block) }
  }

  /** The lock reads as locked in state 1 (or `True`) only. */
  lemma LocalLockedStates(l: LocalNukiLock)
    ensures l.IsLocked() <==> l.State() == Int(1) || l.State() == Bool(true)
  {
  }

  /** The lock's four actions act on its own Nuki ID with `block` passed
      through. */
  lemma LocalLockSpec(l: LocalNukiLock, unlatch: bool, block: bool)
    ensures ActsOnLocal(l.LockCall(block), l.NukiId(), block)
    ensures ActsOnLocal(l.UnlockCall(block), l.NukiId(), block)
    ensures ActsOnLocal(l.LockNGoCall(unlatch, block), l.NukiId(), block)
    ensures ActsOnLocal(l.UnlatchCall(block), l.NukiId(), block)
    ensures ActionOf(l.LockNGoCall(unlatch, block)) == Some(Int(5)) <==> unlatch
  {
    var id := l.NukiId();
    LocalShorthands(id, unlatch, block);
    assert l.LockCall(block) == LocalLock(id, block);
    assert l.UnlockCall(block) == LocalUnlock(id, block);
    assert l.LockNGoCall(unlatch, block) == LocalLockNGo(id, unlatch, block);
    assert l.UnlatchCall(block) == LocalUnlatch(id, block);
  }

  class LocalBridge {
    const hostname: Value
    const port: Value
    var token: Value

    /** `NukiBridge(hostname, token, port)`; `discovered` is what
        `discover_bridges()` answered, consulted only without a hostname. */
    constructor (hostname: Value, token: Value, port: Value, discovered: seq<Record>)
      ensures !Truthy(hostname) && |discovered| > 0 ==> this.hostname == Get(discovered[0], "ip")
      ensures Truthy(hostname) || |discovered| == 0 ==> this.hostname == hostname
      ensures this.port == port && this.token == token
    {
      if !Truthy(hostname) && |discovered| > 0 {
        this.hostname := Get(discovered[0], "ip");
      } else {
        this.hostname := hostname;
      }
      this.port := port;
      this.token := token;
    }

    /** `__rq(endpoint, params)` up to the GET: the URL and the parameters
        handed to the HTTP client, the token first and the caller's
        parameters over it. */
    method Rq(call: Call) returns (url: string, sent: Dict)
      ensures url == EndpointUrl(hostname, port, call.endpoint)
      ensures sent == Overlay(PlainBase(token), call.params)
      ensures IsDict(call.params) ==>
                && IsDict(sent)
                && Keys(sent) == ["token"] + Fresh(["token"], Keys(call.params))
                && Find(sent, "token") == (if "token" in Keys(call.params) then Find(call.params, "token") else Some(token))
                && forall k :: k != "token" ==> Find(sent, k) == Find(call.params, k)
    {
      url := EndpointUrl(hostname, port, call.endpoint);
      sent := PlainBase(token);
      if |call.params| > 0 {
        sent := Params.Update(sent, call.params);
      }
      if IsDict(call.params) {
        OverlaySpec(PlainBase(token), call.params);
        DictLiteral(PlainBase(token));
      }
    }

    /** `retrieve_token()` with `auth` the answer of the `auth` endpoint: a
        truthy `success` replaces the token with the answered one, anything
        else keeps it. */
    method RetrieveToken(auth: Record) returns (call: Call)
      modifies this`token
      ensures call == Call("auth", [])
      ensures Truthy(Get(auth, SUCCESS)) ==> token == Get(auth, "token")
      ensures !Truthy(Get(auth, SUCCESS)) ==> token == old(token)
    {
      call := Call("auth", []);
      if Truthy(Get(auth, SUCCESS)) {
        token := Get(auth, "token");
      }
    }

    /** `locks` on the `list` answer `listing`: a lock per listed device, in
        list order, holding its merged record; the first descriptor without
        a mergeable `lastKnownState` raises. */
    method Locks(listing: seq<Record>) returns (locks: seq<LocalNukiLock>, o: Outcome)
      ensures match MergeAll(listing, Raise)
              case Ok(rs) => o == Pass && |locks| == |rs| && forall i :: 0 <= i < |rs| ==> locks[i].json == rs[i]
              case Err(e) => o == Fail(e) && locks == []
    {
      MergeAllSpec(listing, Raise);
      locks := [];
      var i := 0;
      while i < |listing|
        invariant 0 <= i <= |listing|
        invariant |locks| == i
        invariant forall j :: 0 <= j < i ==> Merge(listing[j], Raise) == Ok(locks[j].json)
      {
        match Merge(listing[i], Raise)
        case Err(e) =>
          return [], Fail(e);
        case Ok(data) =>
          var l := new LocalNukiLock(data);
          locks := locks + [l];
        i := i + 1;
      }
      o := Pass;
    }
  }
}
