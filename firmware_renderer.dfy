/**
 * The LED task of the main controller (`ledTask` in
 * firmware/main_controller/src/main.cpp): one render step per loop iteration,
 * a five-way dispatch on the current alert level, with a brightness ramp kept
 * in two task-local variables (`uint8_t brightness`, `bool increasing`).
 */
module AlertRenderer {
  import opened LedStrip
  import opened Alerts

  /** A breathing ramp: the step per tick and the bounds at which the direction turns. */
  datatype Ramp = Ramp(step: nat, high: nat, low: nat)

  const CallingRamp := Ramp(5, 250, 10)
  const MessagingRamp := Ramp(2, 200, 20)

  /** The ramp state: brightness and direction. */
  datatype RampState = RampState(brightness: Byte, increasing: bool)

  const InitialRamp := RampState(0, true)

  /** One ramp step with `uint8_t` arithmetic, exactly as the task computes it (wrap-around included). */
  function RampStep(ramp: Ramp, s: RampState): RampState {
    if s.increasing then
      var b := (s.brightness + ramp.step) % 256;
      RampState(b, !(b >= ramp.high))
    else
      var b := (s.brightness - ramp.step) % 256;
      RampState(b, b <= ramp.low)
  }

  /** The ramp step a tick at this alert level takes: only CALLING and MESSAGING touch the ramp. */
  function TickRamp(alert: AlertLevel, s: RampState): RampState {
    match alert
    case Calling => RampStep(CallingRamp, s)
    case Messaging => RampStep(MessagingRamp, s)
    case _ => s
  }

  /** The brightness the task would compute with unbounded integers. */
  function UnboundedNext(alert: AlertLevel, s: RampState): int {
    match alert
    case Calling => if s.increasing then s.brightness + 5 else s.brightness - 5
    case Messaging => if s.increasing then s.brightness + 2 else s.brightness - 2
    case _ => s.brightness
  }

  /**
   * The ramp's reachable states: rising only at or below 249, falling only at
   * or above 11. From such a state neither ramp can leave 0..255.
   */
  predicate RampSafe(s: RampState) {
    (s.increasing ==> s.brightness <= 249) && (!s.increasing ==> s.brightness >= 11)
  }

  /** From a safe state, any tick computes the brightness without wrap-around and lands in a safe state. */
  lemma TickRampNoWrap(alert: AlertLevel, s: RampState)
    requires RampSafe(s)
    ensures 0 <= UnboundedNext(alert, s) <= 255
    ensures TickRamp(alert, s).brightness == UnboundedNext(alert, s)
    ensures RampSafe(TickRamp(alert, s))
  {
  }

  /** The ramp state after a sequence of ticks, starting from brightness 0, rising. */
  function RampAfter(ticks: seq<AlertLevel>): RampState {
    if ticks == [] then InitialRamp else TickRamp(ticks[|ticks| - 1], RampAfter(ticks[..|ticks| - 1]))
  }

  /**
   * Whatever interleaving of alert levels the task renders, the ramp stays
   * safe, so the next tick's brightness never wraps.
   */
  lemma {:induction false} RampNeverWraps(ticks: seq<AlertLevel>, next: AlertLevel)
    ensures RampSafe(RampAfter(ticks))
    ensures TickRamp(next, RampAfter(ticks)).brightness == UnboundedNext(next, RampAfter(ticks))
  {
    if ticks != [] {
      RampNeverWraps(ticks[..|ticks| - 1], ticks[|ticks| - 1]);
    }
    TickRampNoWrap(next, RampAfter(ticks));
  }

  /** A CALLING ramp that starts rising from 0 climbs to 250 in 50 ticks, where it turns. */
  lemma {:induction false} CallingRampClimbs(n: nat)
    requires n <= 50
    ensures RampAfter(seq(n, _ => Calling)) == RampState(5 * n, n < 50)
  {
    if n > 0 {
      var ticks := seq(n, _ => Calling);
      assert ticks[..n - 1] == seq(n - 1, _ => Calling);
      CallingRampClimbs(n - 1);
    }
  }

  /** The render step. The strip is painted in place; the ramp lives in the task. */
  class LedTask {
    const strip: Strip
    var ramp: RampState

    ghost predicate Valid()
      reads this, strip
    {
      strip.Valid() && RampSafe(ramp)
    }

    /** `uint8_t brightness = 0; bool increasing = true;` */
    constructor (strip: Strip)
      requires strip.Valid()
      ensures Valid() && this.strip == strip && ramp == InitialRamp
    {
      this.strip := strip;
      ramp := InitialRamp;
    }

    /**
     * One iteration of the `ledTask` loop for the alert level read from
     * `currentAlert`. SAFE, CALLING and MESSAGING show one solid frame
     * (green, amber, blue); DANGER shows solid red and then a cleared strip;
     * EVACUATE runs the chase toward zone 3, the exit the task always passes.
     * The array is left holding the last frame shown, which is what a later
     * `set_zone` paints over.
     */
    method Tick(alert: AlertLevel)
      requires Valid()
      modifies this, strip, strip.leds
      ensures Valid()
      ensures ramp == TickRamp(alert, old(ramp))
      ensures ramp.brightness == UnboundedNext(alert, old(ramp))
      ensures alert != Evacuate ==> strip.phase == old(strip.phase)
      ensures match alert
        case Safe => strip.leds[..] == Solid(Green) && strip.shown == old(strip.shown) + [Solid(Green)]
        case Calling => strip.leds[..] == Solid(Amber) && strip.shown == old(strip.shown) + [Solid(Amber)]
        case Messaging => strip.leds[..] == Solid(Blue) && strip.shown == old(strip.shown) + [Solid(Blue)]
        case Danger => strip.leds[..] == Solid(Black) && strip.shown == old(strip.shown) + [Solid(Red), Solid(Black)]
        case Evacuate =>
          && strip.phase == NextPhase(old(strip.phase))
          && strip.shown == old(strip.shown) + [strip.leds[..]]
          && forall i :: 0 <= i < LedCount ==> strip.leds[i] == EvacuationColor(old(strip.phase), 3, i)
    {
      TickRampNoWrap(alert, ramp);
      match alert {
        case Safe =>
          strip.SetAllZonesColor(Green);
          strip.Show();
        case Calling =>
          var b := ramp.brightness;
          if ramp.increasing {
            b := (b + 5) % 256;
            ramp := RampState(b, !(b >= 250));
          } else {
            b := (b - 5) % 256;
            ramp := RampState(b, b <= 10);
          }
          strip.SetAllZonesColor(Amber);
          strip.Show();
        case Messaging =>
          var b := ramp.brightness;
          if ramp.increasing {
            b := (b + 2) % 256;
            ramp := RampState(b, !(b >= 200));
          } else {
            b := (b - 2) % 256;
            ramp := RampState(b, b <= 20);
          }
          strip.SetAllZonesColor(Blue);
          strip.Show();
        case Danger =>
          strip.SetAllZonesColor(Red);
          strip.Show();
          strip.Clear();
          strip.Show();
        case Evacuate =>
          strip.RunEvacuationPattern(3);
      }
    }
  }

  /** With exit zone 3, zones 0 to 2 each carry a comet and no zone is left dark. */
  lemma EvacuateTowardZoneThree(phase: nat, i: int)
    requires 0 <= i < LedCount
    ensures ZoneOf(i) == 3 ==> EvacuationColor(phase, 3, i) == Green
    ensures ZoneOf(i) < 3 ==>
      (EvacuationColor(phase, 3, i) != Black <==>
         var head := LedZones[ZoneOf(i)].first + CometHead(phase, ZoneOf(i));
         head - 2 <= i <= head)
  {
  }
}
