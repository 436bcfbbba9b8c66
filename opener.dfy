/** pynuki/opener.py: what the opener wrapper adds to a device, read off the
    opener's record (`self._json`). */
module Opener {
  import opened Json
  import opened Constants
  import opened Records
  import opened Calls

  /** `is_rto_activated`: ring to open is active. */
  predicate IsRtoActivated(r: Record)
  {
    PyEq(Get(r, "state"), Int(STATE_OPENER_RTO_ACTIVE))
  }

  /** Ring to open reads as active exactly in state 3; no bool stands for 3. */
  lemma RtoActiveState(r: Record)
    ensures IsRtoActivated(r) <==> Get(r, "state") == Int(STATE_OPENER_RTO_ACTIVE)
  {
  }

  function RingActionTimestamp(r: Record): Value { Get(r, "ringactionTimestamp") }
  function RingActionState(r: Record): Value { Get(r, "ringactionState") }

  /** The ring-action getters read their own keys and give None when it is
      missing. */
  lemma RingGetters(r: Record)
    ensures "ringactionTimestamp" in r ==> RingActionTimestamp(r) == r["ringactionTimestamp"]
    ensures "ringactionState" in r ==> RingActionState(r) == r["ringactionState"]
    ensures "ringactionTimestamp" !in r ==> RingActionTimestamp(r) == Null
    ensures "ringactionState" !in r ==> RingActionState(r) == Null
  {
  }

  /** The opener's own call for one action: its Nuki ID and its own device
      type. */
  function OpenerAction(r: Record, action: int, block: bool): Call
  {
    LockAction(Get(r, NUKI_ID), action, Get(r, DEVICE_TYPE), block)
  }

  function ActivateRto(r: Record, block: bool): Call
  {
    OpenerAction(r, ACTION_OPENER_ACTIVATE_RTO, block)
  }

  function DeactivateRto(r: Record, block: bool): Call
  {
    OpenerAction(r, ACTION_OPENER_DEACTIVATE_RTO, block)
  }

  function ElectricStrikeActuation(r: Record, block: bool): Call
  {
    OpenerAction(r, ACTION_OPENER_ELECTRIC_STRIKE_ACTUATION, block)
  }

  function ActivateContinuousMode(r: Record, block: bool): Call
  {
    OpenerAction(r, ACTION_OPENER_ACTIVATE_CONTINUOUS, block)
  }

  function DeactivateContinuousMode(r: Record, block: bool): Call
  {
    OpenerAction(r, ACTION_OPENER_DEACTIVATE_CONTINUOUS, block)
  }

  /** The five actions, in source order. */
  function Actions(r: Record, block: bool): seq<Call>
  {
    [ActivateRto(r, block), DeactivateRto(r, block), ElectricStrikeActuation(r, block),
     ActivateContinuousMode(r, block), DeactivateContinuousMode(r, block)]
  }

  /** Each of the five actions is a `lockAction` on the opener's own Nuki ID
      and its own device type with `block` passed through; they ask for the
      action codes 1 to 5 in order, so no two of them send the same call. */
  lemma OpenerActionsSpec(r: Record, block: bool)
    ensures forall i :: 0 <= i < 5 ==> ActsOn(Actions(r, block)[i], Get(r, NUKI_ID), Get(r, DEVICE_TYPE), block)
    ensures forall i :: 0 <= i < 5 ==> ActionOf(Actions(r, block)[i]) == Some(Int(i + 1))
    ensures forall i, j :: 0 <= i < j < 5 ==> Actions(r, block)[i] != Actions(r, block)[j]
  {
    var cs := Actions(r, block);
    forall i | 0 <= i < 5
      ensures ActsOn(cs[i], Get(r, NUKI_ID), Get(r, DEVICE_TYPE), block)
      ensures ActionOf(cs[i]) == Some(Int(i + 1))
    {
      ActionsAt(r, block, i);
      OneAction(r, i + 1, block);
    }
    forall i, j | 0 <= i < j < 5 ensures cs[i] != cs[j] {
      assert ActionOf(cs[i]) != ActionOf(cs[j]);
    }
  }

  lemma ActionsAt(r: Record, block: bool, i: int)
    requires 0 <= i < 5
    ensures Actions(r, block)[i] == OpenerAction(r, i + 1, block)
  {
  }

  lemma OneAction(r: Record, action: int, block: bool)
    ensures ActsOn(OpenerAction(r, action, block), Get(r, NUKI_ID), Get(r, DEVICE_TYPE), block)
    ensures ActionOf(OpenerAction(r, action, block)) == Some(Int(action))
  {
  }
}
