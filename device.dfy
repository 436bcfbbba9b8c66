/** pynuki/device.py: a device paired to the bridge, holding the flat
    record the bridge listed for it and refreshed in place. The lock and
    opener wrappers are the same class with a different `kind`; what they
    add is in the Lock and Opener modules. */
module Device {
  import opened Json
  import opened Constants
  import opened Records
  import opened Calls

  class NukiDevice {
    /** Which wrapper `_get_devices` chose for the record. */
    const kind: Kind
    /** `self._json`. */
    var json: Record

    constructor (kind: Kind, json: Record)
      ensures this.kind == kind && this.json == json
    {
      this.kind := kind;
      this.json := json;
    }

    function Name(): Value reads this { Get(json, "name") }
    function NukiId(): Value reads this { Get(json, NUKI_ID) }
    function BatteryCritical(): Value reads this { Get(json, "batteryCritical") }
    function FirmwareVersion(): Value reads this { Get(json, "firmwareVersion") }
    function State(): Value reads this { Get(json, "state") }
    function StateName(): Value reads this { Get(json, "stateName") }
    function DeviceType(): Value reads this { Get(json, DEVICE_TYPE) }
    function Mode(): Value reads this { Get(json, "mode") }

    /** `device_type_str`: only the two original type codes have a name;
        every other code, the Smart Door and Smart Lock 3.0 included, reads
        "UNKNOWN". */
    function DeviceTypeStr(): (s: string)
      reads this
      ensures s == "lock" <==> PyEq(DeviceType(), Int(DEVICE_TYPE_LOCK))
      ensures s == "opener" <==> PyEq(DeviceType(), Int(DEVICE_TYPE_OPENER))
      ensures s == "UNKNOWN" <==> !PyEq(DeviceType(), Int(DEVICE_TYPE_LOCK)) && !PyEq(DeviceType(), Int(DEVICE_TYPE_OPENER))
    {
      var dev := DeviceType();
      if PyEq(dev, Int(DEVICE_TYPE_LOCK)) then "lock"
      else if PyEq(dev, Int(DEVICE_TYPE_OPENER)) then "opener"
      else "UNKNOWN"
    }

    /** `device_model_str`: a model name exactly for the four type codes that
        `_get_devices` wraps as a lock or an opener. */
    function DeviceModelStr(): (s: string)
      reads this
      ensures s == "Nuki Smart Lock 1.0/2.0" <==> PyEq(DeviceType(), Int(DEVICE_TYPE_LOCK))
      ensures s == "Nuki Opener" <==> PyEq(DeviceType(), Int(DEVICE_TYPE_OPENER))
      ensures s == "Nuki Smart Door" <==> PyEq(DeviceType(), Int(DEVICE_TYPE_SMARTDOOR))
      ensures s == "Nuki Smart Lock 3.0 (Pro)" <==> PyEq(DeviceType(), Int(DEVICE_TYPE_SMARTLOCK3))
      ensures s == "UNKNOWN" <==> TypeKind(DeviceType()) == GenericKind
    {
      var dev := DeviceType();
      if PyEq(dev, Int(DEVICE_TYPE_LOCK)) then "Nuki Smart Lock 1.0/2.0"
      else if PyEq(dev, Int(DEVICE_TYPE_OPENER)) then "Nuki Opener"
      else if PyEq(dev, Int(DEVICE_TYPE_SMARTDOOR)) then "Nuki Smart Door"
      else if PyEq(dev, Int(DEVICE_TYPE_SMARTLOCK3)) then "Nuki Smart Lock 3.0 (Pro)"
      else "UNKNOWN"
    }

    /** `mode_str`: door mode for a lock or an opener in door mode,
        continuous for an opener in continuous mode, "UNKNOWN" otherwise. */
    function ModeStr(): (s: string)
      reads this
      ensures s == "door mode" <==>
                (PyEq(DeviceType(), Int(DEVICE_TYPE_LOCK)) && PyEq(Mode(), Int(MODE_LOCK_DOOR)))
                || (PyEq(DeviceType(), Int(DEVICE_TYPE_OPENER)) && PyEq(Mode(), Int(MODE_OPENER_DOOR)))
      ensures s == "continuous" <==>
                PyEq(DeviceType(), Int(DEVICE_TYPE_OPENER)) && PyEq(Mode(), Int(MODE_OPENER_CONTINUOUS))
      ensures s in {"door mode", "continuous", "UNKNOWN"}
    {
      var dev, mode := DeviceType(), Mode();
      if PyEq(dev, Int(DEVICE_TYPE_LOCK)) then
        if PyEq(mode, Int(MODE_LOCK_DOOR)) then "door mode" else "UNKNOWN"
      else if PyEq(dev, Int(DEVICE_TYPE_OPENER)) then
        if PyEq(mode, Int(MODE_OPENER_DOOR)) then "door mode"
        else if PyEq(mode, Int(MODE_OPENER_CONTINUOUS)) then "continuous"
        else "UNKNOWN"
      else "UNKNOWN"
    }

    /** `update(aggressive=True)`: ask the bridge for the lock state (always
        with the default lock type, whatever the device is) and fold the
        answer, `success` removed, into the record; an answer without a
        truthy `success` raises and leaves the record alone. */
    method UpdateAggressive(data: Record) returns (call: Call, o: Outcome)
      modifies this
      ensures call == LockState(old(NukiId()), Int(DEVICE_TYPE_LOCK))
      ensures o.Pass? <==> Truthy(GetOr(data, SUCCESS, Bool(false)))
      ensures o.Fail? ==> o == Fail(UpdateFailed(old(NukiId()))) && json == old(json)
      ensures o.Pass? ==> json == old(json) + Without(data, SUCCESS)
    {
      call := LockState(NukiId(), Int(DEVICE_TYPE_LOCK));
      if !Truthy(GetOr(data, SUCCESS, Bool(false))) {
        return call, Fail(UpdateFailed(NukiId()));
      }
      json := json + Without(data, SUCCESS);
      o := Pass;
    }

    /** `update(aggressive=False)`: list the devices of this device's type
        and overlay the first one with the same Nuki ID; none raises. The
        ID the record carries stays equal to the old one. */
    method UpdatePassive(listing: seq<Record>) returns (o: Outcome)
      modifies this
      ensures match Lookup(ListFilter(listing, old(DeviceType())), TreatAsEmpty, old(NukiId()))
              case Ok(r) => o == Pass && json == old(json) + r
              case Err(e) => o == Fail(e) && json == old(json)
      ensures PyEq(NukiId(), old(NukiId()))
    {
      var id := NukiId();
      var descs := ListFilter(listing, DeviceType());
      match Lookup(descs, TreatAsEmpty, id)
      case Err(e) =>
        o := Fail(e);
        PyEqIsEquivalence(id, id, id);
      case Ok(r) =>
        LookupSpec(descs, TreatAsEmpty, id);
        json := json + r;
        o := Pass;
        PyEqIsEquivalence(id, id, id);
        PyEqIsEquivalence(Get(r, NUKI_ID), id, id);
    }

    /** `update_from_callback(json)`: a callback for another Nuki ID fails
        the assertion and changes nothing; otherwise every callback key
        overwrites its field. Either way the ID stays equal to the old one. */
    method UpdateFromCallback(cb: Record) returns (o: Outcome)
      modifies this
      ensures o.Pass? <==> PyEq(Get(cb, NUKI_ID), old(NukiId()))
      ensures o.Fail? ==> o == Fail(AssertionError) && json == old(json)
      ensures o.Pass? ==> json == old(json) + cb
      ensures PyEq(NukiId(), old(NukiId()))
    {
      var id := NukiId();
      PyEqIsEquivalence(id, id, id);
      if !PyEq(Get(cb, NUKI_ID), id) {
        return Fail(AssertionError);
      }
      PyEqIsEquivalence(Get(cb, NUKI_ID), id, id);
      json := json + cb;
      o := Pass;
    }
  }

  /** Each getter reads its own key and gives None when the key is missing. */
  lemma GettersDefaultToNone(d: NukiDevice)
    ensures "name" !in d.json ==> d.Name() == Null
    ensures NUKI_ID !in d.json ==> d.NukiId() == Null
    ensures "batteryCritical" !in d.json ==> d.BatteryCritical() == Null
    ensures "firmwareVersion" !in d.json ==> d.FirmwareVersion() == Null
    ensures "state" !in d.json ==> d.State() == Null
    ensures "stateName" !in d.json ==> d.StateName() == Null
    ensures DEVICE_TYPE !in d.json ==> d.DeviceType() == Null
    ensures "mode" !in d.json ==> d.Mode() == Null
    ensures "state" in d.json ==> d.State() == d.json["state"]
    ensures DEVICE_TYPE in d.json ==> d.DeviceType() == d.json[DEVICE_TYPE]
  {
  }

  /** The type name is narrower than the dispatch: a device wrapped as a
      lock reads "UNKNOWN" exactly when it is a Smart Door or a Smart Lock
      3.0, and an opener always reads "opener". */
  lemma TypeNameVersusDispatch(d: NukiDevice)
    ensures TypeKind(d.DeviceType()) == LockKind && d.DeviceTypeStr() == "UNKNOWN" <==>
              PyEq(d.DeviceType(), Int(DEVICE_TYPE_SMARTDOOR)) || PyEq(d.DeviceType(), Int(DEVICE_TYPE_SMARTLOCK3))
    ensures TypeKind(d.DeviceType()) == OpenerKind <==> d.DeviceTypeStr() == "opener"
  {
    var t := d.DeviceType();
    PyEqIsEquivalence(t, Int(DEVICE_TYPE_LOCK), Int(DEVICE_TYPE_SMARTDOOR));
    PyEqIsEquivalence(t, Int(DEVICE_TYPE_LOCK), Int(DEVICE_TYPE_SMARTLOCK3));
    PyEqIsEquivalence(t, Int(DEVICE_TYPE_OPENER), Int(DEVICE_TYPE_SMARTDOOR));
    PyEqIsEquivalence(t, Int(DEVICE_TYPE_OPENER), Int(DEVICE_TYPE_SMARTLOCK3));
  }

  /** What an aggressive refresh leaves in the record: `success` keeps its
      old value (or stays absent), every other answered key takes the
      answer, every unanswered key keeps its value. */
  lemma AggressiveRefreshFields(old_json: Record, data: Record, k: string)
    ensures var r := old_json + Without(data, SUCCESS);
      && (k in r <==> k in old_json || (k in data && k != SUCCESS))
      && (k in data && k != SUCCESS ==> r[k] == data[k])
      && (k in old_json && (k !in data || k == SUCCESS) ==> r[k] == old_json[k])
  {
  }
}
