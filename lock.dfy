/** pynuki/lock.py: what the lock wrapper adds to a device, read off the
    lock's record (`self._json`). */
module Lock {
  import opened Json
  import opened Constants
  import opened Records
  import opened Calls

  /** `is_locked`. */
  predicate IsLocked(r: Record)
  {
    PyEq(Get(r, "state"), Int(STATE_LOCK_LOCKED))
  }

  /** The lock reads as locked exactly when its state is 1, or `True`, which
      Python takes for 1. */
  lemma LockedStates(r: Record)
    ensures IsLocked(r) <==> Get(r, "state") == Int(STATE_LOCK_LOCKED) || Get(r, "state") == Bool(true)
  {
  }

  function DoorSensorState(r: Record): Value { Get(r, "doorsensorState") }
  function DoorSensorStateName(r: Record): Value { Get(r, "doorsensorStateName") }
  function BatteryCharge(r: Record): Value { Get(r, "batteryChargeState") }
  function BatteryCriticalKeypad(r: Record): Value { Get(r, "keypadBatteryCritical") }

  /** The extra getters read their own keys and give None when it is
      missing. */
  lemma LockGetters(r: Record)
    ensures "doorsensorState" in r ==> DoorSensorState(r) == r["doorsensorState"]
    ensures "doorsensorStateName" in r ==> DoorSensorStateName(r) == r["doorsensorStateName"]
    ensures "batteryChargeState" in r ==> BatteryCharge(r) == r["batteryChargeState"]
    ensures "keypadBatteryCritical" in r ==> BatteryCriticalKeypad(r) == r["keypadBatteryCritical"]
    ensures "doorsensorState" !in r ==> DoorSensorState(r) == Null
    ensures "doorsensorStateName" !in r ==> DoorSensorStateName(r) == Null
    ensures "batteryChargeState" !in r ==> BatteryCharge(r) == Null
    ensures "keypadBatteryCritical" !in r ==> BatteryCriticalKeypad(r) == Null
  {
  }

  /** `is_door_sensor_activated`: None (a lock without a sensor, or one in an
      unknown state) when the sensor state is missing, falsy or UNKNOWN;
      otherwise whether it differs from DEACTIVATED. */
  function DoorSensorActivated(r: Record): (a: Option<bool>)
    ensures a.None? <==> !Truthy(DoorSensorState(r)) || PyEq(DoorSensorState(r), Int(STATE_DOORSENSOR_UNKNOWN))
    ensures a.Some? ==> (a.value <==> !PyEq(DoorSensorState(r), Int(STATE_DOORSENSOR_DEACTIVATED)))
  {
    var s := DoorSensorState(r);
    if !Truthy(s) || PyEq(s, Int(STATE_DOORSENSOR_UNKNOWN)) then None
    else Some(!PyEq(s, Int(STATE_DOORSENSOR_DEACTIVATED)))
  }

  /** The tri-state answer for each sensor state the bridge reports. */
  lemma DoorSensorTable(r: Record)
    ensures DoorSensorState(r) == Null ==> DoorSensorActivated(r) == None
    ensures DoorSensorState(r) == Int(0) ==> DoorSensorActivated(r) == None
    ensures DoorSensorState(r) == Int(STATE_DOORSENSOR_DEACTIVATED) ==> DoorSensorActivated(r) == Some(false)
    ensures DoorSensorState(r) == Int(STATE_DOORSENSOR_DOOR_CLOSED) ==> DoorSensorActivated(r) == Some(true)
    ensures DoorSensorState(r) == Int(STATE_DOORSENSOR_DOOR_OPENED) ==> DoorSensorActivated(r) == Some(true)
    ensures DoorSensorState(r) == Int(STATE_DOORSENSOR_UNKNOWN) ==> DoorSensorActivated(r) == None
  {
  }

  /** `lock(block)`. */
  function LockCall(r: Record, block: bool): Call
  {
    Calls.Lock(Get(r, NUKI_ID), Int(DEVICE_TYPE_LOCK), block)
  }

  /** `unlock(block)`. */
  function UnlockCall(r: Record, block: bool): Call
  {
    Calls.Unlock(Get(r, NUKI_ID), Int(DEVICE_TYPE_LOCK), block)
  }

  /** `lock_n_go(unlatch, block)`. */
  function LockNGoCall(r: Record, unlatch: bool, block: bool): Call
  {
    Calls.LockNGo(Get(r, NUKI_ID), Int(DEVICE_TYPE_LOCK), unlatch, block)
  }

  /** `unlatch(block)`. */
  function UnlatchCall(r: Record, block: bool): Call
  {
    Calls.Unlatch(Get(r, NUKI_ID), Int(DEVICE_TYPE_LOCK), block)
  }

  /** The four actions act on the lock's own Nuki ID and pass `block`
      through, but name no device type, so the bridge's default lock type
      goes out even for a Smart Door or a Smart Lock 3.0; lock 'n' go
      unlatches exactly when asked to. */
  lemma LockActionsUseDefaultType(r: Record, unlatch: bool, block: bool)
    ensures ActsOn(LockCall(r, block), Get(r, NUKI_ID), Int(DEVICE_TYPE_LOCK), block)
    ensures ActsOn(UnlockCall(r, block), Get(r, NUKI_ID), Int(DEVICE_TYPE_LOCK), block)
    ensures ActsOn(LockNGoCall(r, unlatch, block), Get(r, NUKI_ID), Int(DEVICE_TYPE_LOCK), block)
    ensures ActsOn(UnlatchCall(r, block), Get(r, NUKI_ID), Int(DEVICE_TYPE_LOCK), block)
    ensures ActionOf(LockCall(r, block)) == Some(Int(ACTION_LOCK_LOCK))
    ensures ActionOf(UnlockCall(r, block)) == Some(Int(ACTION_LOCK_UNLOCK))
    ensures ActionOf(UnlatchCall(r, block)) == Some(Int(ACTION_LOCK_UNLATCH))
    ensures ActionOf(LockNGoCall(r, unlatch, block)) == Some(Int(ACTION_LOCK_LOCK_N_GO_WITH_UNLATCH)) <==> unlatch
  {
    LockShorthands(Get(r, NUKI_ID), Int(DEVICE_TYPE_LOCK), unlatch, block);
  }
}
