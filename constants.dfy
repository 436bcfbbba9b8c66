/** The bridge's numeric codes. The values stand as pynuki/pynuki.py:27-63
    defines them; pynuki/bridge.py reads the same names from a constants
    module that is not part of this model. The codes that module adds (the
    Smart Door and Smart Lock 3.0 device types and the door sensor states)
    follow the code tables of the Nuki Bridge HTTP API. */
module Constants {

  const ACTION_LOCK_UNLOCK := 1
  const ACTION_LOCK_LOCK := 2
  const ACTION_LOCK_UNLATCH := 3
  const ACTION_LOCK_LOCK_N_GO := 4
  const ACTION_LOCK_LOCK_N_GO_WITH_UNLATCH := 5

  const ACTION_OPENER_ACTIVATE_RTO := 1
  const ACTION_OPENER_DEACTIVATE_RTO := 2
  const ACTION_OPENER_ELECTRIC_STRIKE_ACTUATION := 3
  const ACTION_OPENER_ACTIVATE_CONTINUOUS := 4
  const ACTION_OPENER_DEACTIVATE_CONTINUOUS := 5

  const BRIDGE_TYPE_HW := 1
  const BRIDGE_TYPE_SW := 2

  const DEVICE_TYPE_LOCK := 0
  const DEVICE_TYPE_OPENER := 2
  const DEVICE_TYPE_SMARTDOOR := 3
  const DEVICE_TYPE_SMARTLOCK3 := 4

  const MODE_LOCK_DOOR := 2
  const MODE_OPENER_DOOR := 2
  const MODE_OPENER_CONTINUOUS := 3

  const STATE_OPENER_RTO_ACTIVE := 3

  const STATE_LOCK_LOCKED := 1

  const STATE_DOORSENSOR_DEACTIVATED := 1
  const STATE_DOORSENSOR_DOOR_CLOSED := 2
  const STATE_DOORSENSOR_DOOR_OPENED := 3
  const STATE_DOORSENSOR_UNKNOWN := 4

  /** pynuki/const.py, used by pynuki/local/pynuki.py. */
  const LOCK_STATES: map<string, int> := map[
    "UNCALIBRATED" := 0, "LOCKED" := 1, "UNLOCKING" := 2, "UNLOCKED" := 3,
    "LOCKING" := 4, "UNLATCHED" := 5, "UNLOCKED_LOCK_N_GO" := 6,
    "UNLATCHING" := 7, "MOTOR BLOCKED" := 254, "UNDEFINED" := 255]

  const LOCK_ACTIONS: map<string, int> := map[
    "UNLOCK" := 1, "LOCK" := 2, "UNLATCH" := 3, "LOCK_N_GO" := 4,
    "LOCK_N_GO_WITH_UNLATCH" := 5]
}
