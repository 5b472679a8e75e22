/**
 * The main controller's LED strip: 60 WS2812B pixels split by a compile-time
 * table into four contiguous zones, painted in place by `setZoneColor`,
 * `setAllZonesColor` and the EVACUATE chase `runEvacuationPattern`
 * (firmware/main_controller/src/main.cpp).
 */
module LedStrip {

  /** An 8-bit unsigned value (`uint8_t`). */
  type Byte = x: int | 0 <= x < 256

  /** One pixel (`CRGB`). */
  datatype Color = Color(r: Byte, g: Byte, b: Byte)

  const Black := Color(0, 0, 0)
  /** FastLED's `CRGB::Green` is the HTML colour 0x008000. */
  const Green := Color(0, 128, 0)
  const Blue := Color(0, 0, 255)
  const Red := Color(255, 0, 0)
  const Amber := Color(255, 150, 0)
  /** The two fading trail pixels behind the comet head. */
  const TrailNear := Color(0, 100, 0)
  const TrailFar := Color(0, 50, 0)

  const LedCount := 60
  const NumZones := 4

  /** `{start_led, end_led}`, both inclusive. */
  datatype ZoneBounds = ZoneBounds(first: nat, last: nat)

  /** `LED_ZONES`: entrance, hallway A, hallway B, exit. */
  const LedZones: seq<ZoneBounds> :=
    [ZoneBounds(0, 14), ZoneBounds(15, 29), ZoneBounds(30, 44), ZoneBounds(45, 59)]

  predicate IsZone(z: int) {
    0 <= z < NumZones
  }

  predicate InZone(z: int, i: int)
    requires IsZone(z)
  {
    LedZones[z].first <= i <= LedZones[z].last
  }

  function ZoneLen(z: int): (n: nat)
    requires IsZone(z)
    ensures n >= 1
  {
    LedZones[z].last - LedZones[z].first + 1
  }

  /** The first LED index past zones 0..z-1 (the strip length once z == NumZones). */
  function ZonesEnd(z: int): nat
    requires 0 <= z <= NumZones
  {
    if z == 0 then 0 else LedZones[z - 1].last + 1
  }

  /** The zone table lies inside the strip and its zones follow each other without gaps or overlaps. */
  lemma ZoneTableIsPartition()
    ensures LedZones[0].first == 0 && ZonesEnd(NumZones) == LedCount
    ensures forall z :: IsZone(z) ==> LedZones[z].first == ZonesEnd(z) <= LedZones[z].last < LedCount
  {
  }

  /** The one zone an LED belongs to: every index of the strip is in exactly one zone. */
  function ZoneOf(i: int): (z: int)
    requires 0 <= i < LedCount
    ensures IsZone(z) && InZone(z, i)
    ensures forall z' :: IsZone(z') && InZone(z', i) ==> z' == z
  {
    if InZone(0, i) then 0 else if InZone(1, i) then 1 else if InZone(2, i) then 2 else 3
  }

  /** A frame of the whole strip in one colour. */
  function Solid(c: Color): (frame: seq<Color>)
    ensures |frame| == LedCount && forall i :: 0 <= i < LedCount ==> frame[i] == c
  {
    seq(LedCount, _ => c)
  }

  /** Where the comet head sits inside zone z: `phase % zoneLen`. */
  function CometHead(phase: nat, z: int): (pos: nat)
    requires IsZone(z)
    ensures pos < ZoneLen(z)
  {
    phase % ZoneLen(z)
  }

  /**
   * The colour of LED i after `runEvacuationPattern(exitZone)` ran with the
   * given phase: zones before the exit carry a green head with two fading
   * trail pixels behind it (none that would fall before the zone's first LED),
   * the exit zone is all green, zones after it are dark.
   */
  function EvacuationColor(phase: nat, exitZone: int, i: int): Color
    requires 0 <= i < LedCount
  {
    var z := ZoneOf(i);
    var offset := i - LedZones[z].first;
    var head := CometHead(phase, z);
    if z < exitZone then
      if offset == head then Green
      else if offset == head - 1 then TrailNear
      else if offset == head - 2 then TrailFar
      else Black
    else if z == exitZone then Green
    else Black
  }

  /** In a zone before the exit, exactly the head and up to two pixels behind it are lit, all inside the zone. */
  lemma EvacuationComet(phase: nat, exitZone: int, z: int, i: int)
    requires IsZone(z) && z < exitZone && InZone(z, i)
    ensures var head := LedZones[z].first + CometHead(phase, z);
      EvacuationColor(phase, exitZone, i) != Black <==> head - 2 <= i <= head && LedZones[z].first <= i
  {
  }

  /** The exit zone is fully lit and every zone after it is dark. */
  lemma EvacuationExitAndBeyond(phase: nat, exitZone: int, i: int)
    requires 0 <= i < LedCount && ZoneOf(i) >= exitZone
    ensures EvacuationColor(phase, exitZone, i) == if ZoneOf(i) == exitZone then Green else Black
  {
  }

  /** The phase counter is a `uint8_t`: it steps by one and wraps from 255 to 0. */
  function NextPhase(phase: Byte): (next: Byte)
    ensures next == if phase == 255 then 0 else phase + 1
  {
    (phase + 1) % 256
  }

  /** While the phase does not wrap, each zone's head moves one LED forward, wrapping within the zone. */
  lemma {:induction false} CometAdvances(phase: Byte, z: int)
    requires IsZone(z) && phase < 255
    ensures CometHead(NextPhase(phase), z) == (CometHead(phase, z) + 1) % ZoneLen(z)
  {
    assert ZoneLen(z) == 15;
    assert NextPhase(phase) == phase + 1;
    var q := phase / 15;
    assert phase == q * 15 + phase % 15;
    if phase % 15 + 1 < 15 {
      assert phase + 1 == q * 15 + (phase % 15 + 1);
    } else {
      assert phase + 1 == (q + 1) * 15;
    }
  }

  /**
   * At the wrap of the 8-bit phase (255 to 0) the heads of the 15-LED zones
   * stay where they are for one tick, since 256 is not a multiple of 15.
   */
  lemma CometStallsAtPhaseWrap(z: int)
    requires IsZone(z)
    ensures CometHead(NextPhase(255), z) == CometHead(255, z) == 0
  {
  }

  /** The global `leds[]` array, the chase pattern's static phase, and what `FastLED.show()` sent. */
  class Strip {
    const leds: array<Color>
    /** `static uint8_t phase` inside `runEvacuationPattern`. */
    var phase: Byte
    /** Every frame pushed to the strip, oldest first. */
    var shown: seq<seq<Color>>

    ghost predicate Valid()
      reads this
    {
      leds.Length == LedCount
    }

    /** Globals start zeroed: all pixels black, phase 0. */
    constructor ()
      ensures Valid() && fresh(leds)
      ensures leds[..] == Solid(Black) && phase == 0 && shown == []
    {
      leds := new Color[LedCount](_ => Black);
      phase := 0;
      shown := [];
    }

    /** `FastLED.show()`: pushes the current frame. */
    method Show()
      requires Valid()
      modifies this`shown
      ensures shown == old(shown) + [leds[..]]
    {
      shown := shown + [leds[..]];
    }

    /** `FastLED.clear()`: every pixel black. */
    method Clear()
      requires Valid()
      modifies leds
      ensures leds[..] == Solid(Black)
    {
      var i := 0;
      while i < LedCount
        invariant 0 <= i <= LedCount
        invariant forall k :: 0 <= k < i ==> leds[k] == Black
      {
        leds[i] := Black;
        i := i + 1;
      }
    }

    /** `setZoneColor`: a zone outside 0..3 changes nothing; otherwise exactly that zone's LEDs take the colour. */
    method SetZoneColor(zone: int, color: Color)
      requires Valid()
      modifies leds
      ensures forall i :: 0 <= i < LedCount ==>
        leds[i] == if IsZone(zone) && InZone(zone, i) then color else old(leds[i])
    {
      if zone < 0 || zone >= NumZones {
        return;
      }
      var i := LedZones[zone].first;
      while i <= LedZones[zone].last
        invariant LedZones[zone].first <= i <= LedZones[zone].last + 1
        invariant forall k :: 0 <= k < LedCount ==>
          leds[k] == if LedZones[zone].first <= k < i then color else old(leds[k])
      {
        leds[i] := color;
        i := i + 1;
      }
    }

    /** `setAllZonesColor`: since the zones cover the strip, every LED takes the colour. */
    method SetAllZonesColor(color: Color)
      requires Valid()
      modifies leds
      ensures leds[..] == Solid(color)
    {
      var z := 0;
      while z < NumZones
        invariant 0 <= z <= NumZones
        invariant forall k :: 0 <= k < LedCount ==> leds[k] == if k < ZonesEnd(z) then color else old(leds[k])
      {
        SetZoneColor(z, color);
        z := z + 1;
      }
    }

    /**
     * `runEvacuationPattern`: clears the strip, draws one comet per zone before
     * `exitZone`, fills the exit zone, shows the frame and advances the phase.
     */
    method RunEvacuationPattern(exitZone: int)
      requires Valid()
      modifies this, leds
      ensures Valid()
      ensures forall i :: 0 <= i < LedCount ==> leds[i] == EvacuationColor(old(phase), exitZone, i)
      ensures phase == NextPhase(old(phase))
      ensures shown == old(shown) + [leds[..]]
    {
      Clear();
      var z := 0;
      while z < NumZones
        invariant 0 <= z <= NumZones
        invariant phase == old(phase) && shown == old(shown)
        invariant forall k :: 0 <= k < LedCount ==>
          leds[k] == if k < ZonesEnd(z) then EvacuationColor(phase, exitZone, k) else Black
      {
        DrawZone(z, exitZone);
        z := z + 1;
      }
      Show();
      phase := NextPhase(phase);
    }

    /** One iteration of the zone loop of `runEvacuationPattern`, on a zone that is still dark. */
    method DrawZone(z: int, exitZone: int)
      requires Valid() && IsZone(z)
      requires forall k :: 0 <= k < LedCount && InZone(z, k) ==> leds[k] == Black
      modifies leds
      ensures forall k :: 0 <= k < LedCount ==>
        leds[k] == if InZone(z, k) then EvacuationColor(phase, exitZone, k) else old(leds[k])
    {
      var start := LedZones[z].first;
      var end := LedZones[z].last;
      var zoneLen := end - start + 1;
      var pos := phase % zoneLen;
      if z < exitZone {
        leds[start + pos] := Green;
        if pos > 0 {
          leds[start + pos - 1] := TrailNear;
        }
        if pos > 1 {
          leds[start + pos - 2] := TrailFar;
        }
      } else if z == exitZone {
        var i := start;
        while i <= end
          invariant start <= i <= end + 1
          invariant forall k :: 0 <= k < LedCount ==>
            leds[k] == if start <= k < i then Green else old(leds[k])
        {
          leds[i] := Green;
          i := i + 1;
        }
      }
    }
  }
}
