/** Turning the bridge's `list` response into flat device records: the
    merge of a descriptor with its `lastKnownState` (pynuki/bridge.py:207-222,
    pynuki/pynuki.py:306-320, pynuki/local/pynuki.py:183-193) and the
    lookup of a record by Nuki ID that the passive refreshes do. */
module Records {
  import opened Json
  import opened Constants

  const LAST_KNOWN_STATE := "lastKnownState"
  const TIMESTAMP := "timestamp"
  const NUKI_ID := "nukiId"
  const DEVICE_TYPE := "deviceType"
  /** The key of an answer that says whether the call succeeded. */
  const SUCCESS := "success"

  /** What a descriptor without `lastKnownState` leads to: pynuki/bridge.py
      catches the KeyError and takes no state fields, the two older copies
      let it propagate. */
  datatype MissingState = TreatAsEmpty | Raise

  /** The state object of a descriptor, empty when it has none. */
  function StateOf(desc: Record): Record
  {
    if LAST_KNOWN_STATE in desc && desc[LAST_KNOWN_STATE].Obj? then desc[LAST_KNOWN_STATE].fields
    else map[]
  }

  /** `{k: v for k, v in dev["lastKnownState"].items() if k not in ["timestamp"]}`. */
  function StateFields(desc: Record, missing: MissingState): Result<Record>
  {
    if LAST_KNOWN_STATE !in desc then
      if missing == TreatAsEmpty then Ok(map[]) else Err(KeyError(LAST_KNOWN_STATE))
    else match desc[LAST_KNOWN_STATE]
      case Obj(st) => Ok(Without(st, TIMESTAMP))
      case _ => Err(AttributeError)
  }

  /** The flat record of one descriptor: its own fields but `lastKnownState`,
      overlaid with the state fields but `timestamp`. */
  function Merge(desc: Record, missing: MissingState): Result<Record>
  {
    match StateFields(desc, missing)
    case Err(e) => Err(e)
    case Ok(st) => Ok(Without(desc, LAST_KNOWN_STATE) + st)
  }

  /** The merge fails exactly when `lastKnownState` is there but is not an
      object, or, in the older copies, when it is missing. */
  lemma MergeFailsWhen(desc: Record, missing: MissingState)
    ensures Merge(desc, missing).Err? <==>
              (LAST_KNOWN_STATE in desc && !desc[LAST_KNOWN_STATE].Obj?)
              || (LAST_KNOWN_STATE !in desc && missing == Raise)
    ensures Merge(desc, missing) == Err(KeyError(LAST_KNOWN_STATE)) <==>
              LAST_KNOWN_STATE !in desc && missing == Raise
  {
  }

  /** Which keys the merged record has and where each value comes from: the
      state wins on a collision, `timestamp` only survives from the top
      level, and the top-level `lastKnownState` is dropped (a
      `lastKnownState` key inside the state object is kept like any other
      state key). */
  lemma MergedFields(desc: Record, missing: MissingState, k: string)
    requires Merge(desc, missing).Ok?
    ensures var r, st := Merge(desc, missing).value, StateOf(desc);
      && (k in r <==> (k in desc && k != LAST_KNOWN_STATE) || (k in st && k != TIMESTAMP))
      && (k in st && k != TIMESTAMP ==> r[k] == st[k])
      && (k in desc && k != LAST_KNOWN_STATE && (k !in st || k == TIMESTAMP) ==> r[k] == desc[k])
  {
  }

  /** A descriptor without state comes through unchanged (pynuki/bridge.py). */
  lemma MergeWithoutState(desc: Record)
    requires LAST_KNOWN_STATE !in desc
    ensures Merge(desc, TreatAsEmpty) == Ok(desc)
  {
    assert StateFields(desc, TreatAsEmpty) == Ok(map[]);
    assert Without(desc, LAST_KNOWN_STATE) + map[] == desc;
  }

  /** The worked example of a locked lock called "Home". */
  lemma MergeExample()
    ensures Merge(map["name" := Str("Home"), NUKI_ID := Int(123), "deviceType" := Int(0),
                      LAST_KNOWN_STATE := Obj(map["state" := Int(1), "stateName" := Str("locked"),
                                                  TIMESTAMP := Str("x")])], Raise)
         == Ok(map["name" := Str("Home"), NUKI_ID := Int(123), "deviceType" := Int(0),
                   "state" := Int(1), "stateName" := Str("locked")])
  {
    var st := map["state" := Int(1), "stateName" := Str("locked"), TIMESTAMP := Str("x")];
    assert Without(st, TIMESTAMP) == map["state" := Int(1), "stateName" := Str("locked")];
    var desc := map["name" := Str("Home"), NUKI_ID := Int(123), "deviceType" := Int(0), LAST_KNOWN_STATE := Obj(st)];
    var top := map["name" := Str("Home"), NUKI_ID := Int(123), "deviceType" := Int(0)];
    assert Without(desc, LAST_KNOWN_STATE) == top;
    assert StateFields(desc, Raise) == Ok(Without(st, TIMESTAMP));
    assert top + Without(st, TIMESTAMP) == map["name" := Str("Home"), NUKI_ID := Int(123), "deviceType" := Int(0),
                                                "state" := Int(1), "stateName" := Str("locked")];
  }

  /** The merge of every listed descriptor, in order; the first failure is
      the one raised. */
  function MergeAll(descs: seq<Record>, missing: MissingState): Result<seq<Record>>
  {
    if descs == [] then Ok([])
    else match Merge(descs[0], missing)
      case Err(e) => Err(e)
      case Ok(r) =>
        match MergeAll(descs[1..], missing)
        case Err(e) => Err(e)
        case Ok(rs) => Ok([r] + rs)
  }

  /** One record per descriptor, in list order, when every merge succeeds;
      otherwise the error of the first descriptor that fails. */
  lemma {:induction false} MergeAllSpec(descs: seq<Record>, missing: MissingState)
    ensures MergeAll(descs, missing).Ok? <==> forall i :: 0 <= i < |descs| ==> Merge(descs[i], missing).Ok?
    ensures MergeAll(descs, missing).Ok? ==>
              |MergeAll(descs, missing).value| == |descs| &&
              forall i :: 0 <= i < |descs| ==> MergeAll(descs, missing).value[i] == Merge(descs[i], missing).value
    ensures MergeAll(descs, missing).Err? ==>
              exists i :: 0 <= i < |descs| && Merge(descs[i], missing) == Err(MergeAll(descs, missing).error)
                          && forall j :: 0 <= j < i ==> Merge(descs[j], missing).Ok?
  {
    if descs != [] {
      MergeAllSpec(descs[1..], missing);
      var r := MergeAll(descs, missing);
      if Merge(descs[0], missing).Ok? && r.Err? {
        var i :| 0 <= i < |descs[1..]| && Merge(descs[1..][i], missing) == Err(r.error)
                 && forall j :: 0 <= j < i ==> Merge(descs[1..][j], missing).Ok?;
        assert Merge(descs[i + 1], missing) == Err(r.error);
        assert forall j :: 0 <= j < i + 1 ==> Merge(descs[j], missing).Ok? by {
          forall j | 0 <= j < i + 1 ensures Merge(descs[j], missing).Ok? {
            if j > 0 { assert descs[j] == descs[1..][j - 1]; }
          }
        }
      }
      if r.Ok? {
        forall i | 0 <= i < |descs| ensures r.value[i] == Merge(descs[i], missing).value {
          if i > 0 { assert descs[i] == descs[1..][i - 1]; }
        }
      }
      if (forall i :: 0 <= i < |descs| ==> Merge(descs[i], missing).Ok?) {
        assert forall i :: 0 <= i < |descs[1..]| ==> Merge(descs[1..][i], missing).Ok? by {
          forall i | 0 <= i < |descs[1..]| ensures Merge(descs[1..][i], missing).Ok? {
            assert descs[1..][i] == descs[i + 1];
          }
        }
      }
    }
  }

  /** `[r for r in records if r.get("nukiId") == nuki_id][0]`, None when the
      list comprehension is empty. */
  function FirstWithId(records: seq<Record>, id: Value): Option<Record>
  {
    if records == [] then None
    else if PyEq(Get(records[0], NUKI_ID), id) then Some(records[0])
    else FirstWithId(records[1..], id)
  }

  /** The lookup finds nothing exactly when no record carries the ID, and
      otherwise the earliest record that does. */
  lemma {:induction false} FirstWithIdSpec(records: seq<Record>, id: Value)
    ensures FirstWithId(records, id).None? <==>
              forall i :: 0 <= i < |records| ==> !PyEq(Get(records[i], NUKI_ID), id)
    ensures FirstWithId(records, id).Some? ==>
              exists i :: 0 <= i < |records| && FirstWithId(records, id).value == records[i]
                          && PyEq(Get(records[i], NUKI_ID), id)
                          && forall j :: 0 <= j < i ==> !PyEq(Get(records[j], NUKI_ID), id)
  {
    if records != [] {
      FirstWithIdSpec(records[1..], id);
      if !PyEq(Get(records[0], NUKI_ID), id) {
        if FirstWithId(records, id).Some? {
          var i :| 0 <= i < |records[1..]| && FirstWithId(records, id).value == records[1..][i]
                   && PyEq(Get(records[1..][i], NUKI_ID), id)
                   && forall j :: 0 <= j < i ==> !PyEq(Get(records[1..][j], NUKI_ID), id);
          assert records[i + 1] == records[1..][i];
          forall j | 0 <= j < i + 1 ensures !PyEq(Get(records[j], NUKI_ID), id) {
            if j > 0 { assert records[j] == records[1..][j - 1]; }
          }
        } else {
          forall i | 0 <= i < |records| ensures !PyEq(Get(records[i], NUKI_ID), id) {
            if i > 0 { assert records[i] == records[1..][i - 1]; }
          }
        }
      }
    }
  }

  /** `[x for x in data if x.get("deviceType") == device_type]`: the entries of
      a type, in list order. */
  function Matching(data: seq<Record>, deviceType: Value): seq<Record>
  {
    if data == [] then []
    else
      var last := data[|data| - 1];
      Matching(data[..|data| - 1], deviceType) + (if PyEq(Get(last, DEVICE_TYPE), deviceType) then [last] else [])
  }

  /** `list(device_type)`: the whole response when no type is given. */
  function ListFilter(data: seq<Record>, deviceType: Value): seq<Record>
  {
    if deviceType.Null? then data else Matching(data, deviceType)
  }

  /** The filter distributes over concatenation and keeps or drops each
      entry on its own; together these fix it as the order-preserving
      selection of the matching entries. */
  lemma {:induction false} MatchingConcat(a: seq<Record>, b: seq<Record>, deviceType: Value)
    ensures Matching(a + b, deviceType) == Matching(a, deviceType) + Matching(b, deviceType)
    decreases |b|
  {
    if b == [] {
      assert a + b == a;
    } else {
      var b' := b[..|b| - 1];
      MatchingConcat(a, b', deviceType);
      assert (a + b)[..|a + b| - 1] == a + b';
    }
  }

  /** An entry is kept exactly when its `deviceType` equals the argument. */
  lemma {:induction false} MatchingMembers(data: seq<Record>, deviceType: Value, x: Record)
    ensures x in Matching(data, deviceType) <==> x in data && PyEq(Get(x, DEVICE_TYPE), deviceType)
  {
    if data != [] {
      var init := data[..|data| - 1];
      MatchingMembers(init, deviceType, x);
      assert data == init + [data[|data| - 1]];
    }
  }

  /** The wrapper class a descriptor gets in `_get_devices`. */
  datatype Kind = LockKind | OpenerKind | GenericKind

  /** The dispatch on a device type code; unknown codes give a generic
      device rather than an error. */
  function TypeKind(t: Value): (k: Kind)
    ensures k == LockKind <==>
              PyEq(t, Int(DEVICE_TYPE_LOCK)) || PyEq(t, Int(DEVICE_TYPE_SMARTDOOR)) || PyEq(t, Int(DEVICE_TYPE_SMARTLOCK3))
    ensures k == OpenerKind <==> PyEq(t, Int(DEVICE_TYPE_OPENER))
  {
    if PyEq(t, Int(DEVICE_TYPE_LOCK)) then LockKind
    else if PyEq(t, Int(DEVICE_TYPE_SMARTDOOR)) then LockKind
    else if PyEq(t, Int(DEVICE_TYPE_SMARTLOCK3)) then LockKind
    else if PyEq(t, Int(DEVICE_TYPE_OPENER)) then OpenerKind
    else GenericKind
  }

  /** The dispatch of one descriptor reads `deviceType` from its top-level
      fields, `lastKnownState` removed. */
  function KindOf(desc: Record): Kind
  {
    TypeKind(Get(Without(desc, LAST_KNOWN_STATE), DEVICE_TYPE))
  }

  /** A `deviceType` inside `lastKnownState` never changes the dispatch,
      although it does win in the merged record. */
  lemma DispatchIgnoresState(desc: Record, st: Record)
    ensures KindOf(desc[LAST_KNOWN_STATE := Obj(st)]) == KindOf(desc)
    ensures DEVICE_TYPE in st && Merge(desc[LAST_KNOWN_STATE := Obj(st)], TreatAsEmpty).Ok? ==>
              Merge(desc[LAST_KNOWN_STATE := Obj(st)], TreatAsEmpty).value[DEVICE_TYPE] == st[DEVICE_TYPE]
  {
    assert Without(desc[LAST_KNOWN_STATE := Obj(st)], LAST_KNOWN_STATE) == Without(desc, LAST_KNOWN_STATE);
  }

  /** The descriptors that become lock wrappers, in list order. */
  function LockDescs(descs: seq<Record>): seq<Record>
  {
    if descs == [] then []
    else
      var last := descs[|descs| - 1];
      LockDescs(descs[..|descs| - 1]) + (if KindOf(last) == LockKind then [last] else [])
  }

  /** One more listed descriptor adds itself to the lock descriptors exactly
      when it dispatches to a lock. */
  lemma LockDescsStep(descs: seq<Record>, i: nat)
    requires i < |descs|
    ensures LockDescs(descs[..i + 1]) ==
              LockDescs(descs[..i]) + (if KindOf(descs[i]) == LockKind then [descs[i]] else [])
  {
    assert descs[..i + 1][..i] == descs[..i];
  }

  /** A descriptor is among the lock descriptors exactly when it is listed
      and dispatches to a lock. */
  lemma {:induction false} LockDescsMembers(descs: seq<Record>, x: Record)
    ensures x in LockDescs(descs) <==> x in descs && KindOf(x) == LockKind
  {
    if descs != [] {
      var init := descs[..|descs| - 1];
      LockDescsMembers(init, x);
      assert descs == init + [descs[|descs| - 1]];
    }
  }

  /** Listing openers gives only descriptors that dispatch to the opener
      wrapper. */
  lemma OpenerListingIsOpeners(data: seq<Record>, x: Record)
    requires x in ListFilter(data, Int(DEVICE_TYPE_OPENER))
    ensures KindOf(x) == OpenerKind
  {
    MatchingMembers(data, Int(DEVICE_TYPE_OPENER), x);
    assert Get(Without(x, LAST_KNOWN_STATE), DEVICE_TYPE) == Get(x, DEVICE_TYPE);
  }

  /** The lookup of a passive refresh: merge every descriptor, then take the
      first record whose `nukiId` equals `id`; the `assert` on an empty
      match fails. */
  function Lookup(descs: seq<Record>, missing: MissingState, id: Value): Result<Record>
  {
    match MergeAll(descs, missing)
    case Err(e) => Err(e)
    case Ok(rs) =>
      match FirstWithId(rs, id)
      case None => Err(AssertionError)
      case Some(r) => Ok(r)
  }

  /** A lookup that succeeds finds a merged record carrying the ID; when
      every descriptor merges, it succeeds exactly when some merged record
      carries the ID; a descriptor that cannot be merged makes it fail. */
  lemma LookupSpec(descs: seq<Record>, missing: MissingState, id: Value)
    ensures Lookup(descs, missing, id).Ok? ==>
              PyEq(Get(Lookup(descs, missing, id).value, NUKI_ID), id) &&
              exists i :: 0 <= i < |descs| && Merge(descs[i], missing) == Ok(Lookup(descs, missing, id).value)
    ensures (forall i :: 0 <= i < |descs| ==> Merge(descs[i], missing).Ok?) ==>
              (Lookup(descs, missing, id).Ok? <==>
               exists i :: 0 <= i < |descs| && PyEq(Get(Merge(descs[i], missing).value, NUKI_ID), id))
    ensures (exists i :: 0 <= i < |descs| && Merge(descs[i], missing).Err?) ==> Lookup(descs, missing, id).Err?
  {
    MergeAllSpec(descs, missing);
    match MergeAll(descs, missing)
    case Err(_) =>
    case Ok(rs) =>
      FirstWithIdSpec(rs, id);
  }
}
