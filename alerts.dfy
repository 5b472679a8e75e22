/**
 * The five alert levels shared by the firmware (`AlertState_t`) and the
 * backend (`AlertState`, an `IntEnum`): SAFE, CALLING, MESSAGING, DANGER,
 * EVACUATE, numbered 0 to 4 and ordered by that number.
 */
module Alerts {

  datatype AlertLevel = Safe | Calling | Messaging | Danger | Evacuate {
    /** The numeric value. */
    function Code(): (n: int)
      ensures 0 <= n <= 4
    {
      match this
      case Safe => 0
      case Calling => 1
      case Messaging => 2
      case Danger => 3
      case Evacuate => 4
    }

    /** The member name (`state.name`). */
    function Name(): string {
      match this
      case Safe => "SAFE"
      case Calling => "CALLING"
      case Messaging => "MESSAGING"
      case Danger => "DANGER"
      case Evacuate => "EVACUATE"
    }
  }

  /** The level with value n (`(AlertState_t)n`, `AlertState(n)`). */
  function LevelOf(n: int): (a: AlertLevel)
    requires 0 <= n <= 4
    ensures a.Code() == n
  {
    if n == 0 then Safe else if n == 1 then Calling else if n == 2 then Messaging
    else if n == 3 then Danger else Evacuate
  }

  /** Levels are determined by their value and by their name. */
  lemma CodeAndNameIdentify(a: AlertLevel, b: AlertLevel)
    ensures a.Code() == b.Code() <==> a == b
    ensures a.Name() == b.Name() <==> a == b
  {
  }
}
