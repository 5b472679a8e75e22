/**
 * `parseCommand` of the main controller (firmware/main_controller/src/main.cpp)
 * and the GSM output sequences of `gsmCall` and `gsmSendSms`. JSON decoding is
 * done by the JSON library; a command line reaches this model already decoded
 * into the fields `parseCommand` looks at.
 */
module CommandDispatch {
  import opened Wrappers
  import opened Text
  import opened LedStrip
  import opened Alerts

  /** `millis()`: an `unsigned long`, 32 bits wide on the ESP32. */
  type U32 = x: int | 0 <= x < 0x1_0000_0000

  /**
   * The fields `parseCommand` reads from the decoded document. A string
   * field is None when it is missing or not a string (the `const char*` is
   * null); an integer field is None when it is missing, not an integer, or
   * an integer that does not fit in a 32-bit `int` (the `| default`
   * applies, so `"alert":4294967296` reads as 0).
   */
  datatype Doc = Doc(
    cmd: Option<string>,
    alert: Option<int>,
    zone: Option<int>,
    r: Option<int>, g: Option<int>, b: Option<int>,
    number: Option<string>,
    message: Option<string>)

  /** What `deserializeJson` yields for one line. */
  datatype Inbound = Unparseable | Document(doc: Doc)

  /** One write to the GSM UART: `println(text)`, `print(text)`, or the raw byte of `write`. */
  datatype GsmWrite = GsmLine(text: string) | GsmText(text: string) | GsmByte(value: int)

  /** Ctrl+Z, which ends an SMS body in text mode. */
  const CtrlZ := 26

  /** The conversion of an `int` argument to the `uint8_t` parameter of `CRGB(r, g, b)`. */
  function ToByte(x: int): (v: Byte)
    ensures 0 <= x < 256 ==> v == x
    ensures (v - x) % 256 == 0
  {
    x % 256
  }

  function Rgb(r: int, g: int, b: int): Color {
    Color(ToByte(r), ToByte(g), ToByte(b))
  }

  // The lines printed on the host serial port.

  const ParseFailedLine: string := "{\"event\":\"error\",\"message\":\"json_parse_failed\"}"
  const AlertSetPrefix: string := "{\"event\":\"alert_set\",\"alert\":"
  const ZoneSetPrefix: string := "{\"event\":\"zone_set\",\"zone\":"
  const HangupLine: string := "{\"event\":\"gsm_hangup\"}"

  function AlertSetLine(alert: int): string {
    AlertSetPrefix + IntToString(alert) + "}"
  }

  function ZoneSetLine(zone: int): string {
    ZoneSetPrefix + IntToString(zone) + "}"
  }

  function DialingLine(number: string): string {
    "{\"event\":\"gsm_dialing\",\"number\":\"" + number + "\"}"
  }

  function CallLine(number: string): string {
    "{\"event\":\"gsm_call\",\"number\":\"" + number + "\"}"
  }

  function SmsSentLine(number: string): string {
    "{\"event\":\"gsm_sms_sent\",\"to\":\"" + number + "\"}"
  }

  function SmsLine(number: string): string {
    "{\"event\":\"gsm_sms\",\"number\":\"" + number + "\"}"
  }

  function PongLine(uptime: U32): string {
    "{\"event\":\"pong\",\"uptime\":" + IntToString(uptime) + "}"
  }

  /** The dial directive `ATD<number>;`. */
  function DialCommand(number: string): string {
    "ATD" + number + ";"
  }

  /** The recipient directive `AT+CMGS="<number>"`. */
  function RecipientCommand(number: string): string {
    "AT+CMGS=\"" + number + "\""
  }

  /** What `gsmCall` writes to the GSM UART: dial, then hang up. */
  function CallSequence(number: string): seq<GsmWrite> {
    [GsmLine(DialCommand(number)), GsmLine("ATH")]
  }

  /** What `gsmSendSms` writes: text mode, recipient, the body without a line ending, Ctrl+Z. */
  function SmsSequence(number: string, message: string): seq<GsmWrite> {
    [GsmLine("AT+CMGF=1"), GsmLine(RecipientCommand(number)), GsmText(message), GsmByte(CtrlZ)]
  }

  /** The pixels `set_zone` paints. */
  datatype ZonePaint = ZonePaint(zone: int, color: Color)

  /** Everything one command does: the new alert level, a zone paint, host serial lines and GSM writes. */
  datatype Outcome = Outcome(alert: Option<AlertLevel>, paint: Option<ZonePaint>, serial: seq<string>, gsm: seq<GsmWrite>)

  const NoEffect := Outcome(None, None, [], [])

  /** The reference definition of `parseCommand`'s effect on one decoded line. */
  function Dispatch(msg: Inbound, uptime: U32): (r: Outcome)
    ensures msg.Unparseable? ==> r == Outcome(None, None, [ParseFailedLine], [])
    ensures msg.Document? && msg.doc.cmd.None? ==> r == NoEffect
    ensures r.alert.Some? <==>
      msg.Document? && msg.doc.cmd == Some("set_alert") && 0 <= msg.doc.alert.GetOr(0) <= 4
    ensures r.alert.Some? ==> r.alert.value.Code() == msg.doc.alert.GetOr(0)
    ensures r.paint.Some? <==>
      msg.Document? && msg.doc.cmd == Some("set_zone") && IsZone(msg.doc.zone.GetOr(-1))
    ensures r.paint.Some? ==> r.paint.value.zone == msg.doc.zone.GetOr(-1) && IsZone(r.paint.value.zone)
    ensures r.gsm != [] <==>
      msg.Document? &&
      ((msg.doc.cmd == Some("gsm_call") && msg.doc.number.Some?) ||
       (msg.doc.cmd == Some("gsm_sms") && msg.doc.number.Some? && msg.doc.message.Some?))
  {
    match msg
    case Unparseable => Outcome(None, None, [ParseFailedLine], [])
    case Document(d) =>
      if d.cmd.None? then NoEffect
      else if d.cmd.value == "set_alert" then
        var a := d.alert.GetOr(0);
        if 0 <= a <= 4 then Outcome(Some(LevelOf(a)), None, [AlertSetLine(a)], []) else NoEffect
      else if d.cmd.value == "set_zone" then
        var z := d.zone.GetOr(-1);
        if 0 <= z < NumZones then
          Outcome(None, Some(ZonePaint(z, Rgb(d.r.GetOr(0), d.g.GetOr(0), d.b.GetOr(0)))), [ZoneSetLine(z)], [])
        else NoEffect
      else if d.cmd.value == "gsm_call" then
        if d.number.Some? then
          var n := d.number.value;
          Outcome(None, None, [DialingLine(n), HangupLine, CallLine(n)], CallSequence(n))
        else NoEffect
      else if d.cmd.value == "gsm_sms" then
        if d.number.Some? && d.message.Some? then
          var n := d.number.value;
          Outcome(None, None, [SmsSentLine(n), SmsLine(n)], SmsSequence(n, d.message.value))
        else NoEffect
      else if d.cmd.value == "ping" then Outcome(None, None, [PongLine(uptime)], [])
      else NoEffect
  }

  /** A `set_alert` with a level in 0..4 installs exactly that level and acknowledges it. */
  lemma SetAlertInstalls(d: Doc, uptime: U32)
    requires d.cmd == Some("set_alert") && d.alert.Some? && 0 <= d.alert.value <= 4
    ensures Dispatch(Document(d), uptime) == Outcome(Some(LevelOf(d.alert.value)), None, [AlertSetLine(d.alert.value)], [])
  {
  }

  /** The acknowledgement names the level that was set: the number after the prefix parses back to it. */
  lemma {:induction false} AlertAckRoundTrip(alert: int)
    ensures var line := AlertSetLine(alert);
      |AlertSetPrefix| < |line| && line[..|AlertSetPrefix|] == AlertSetPrefix && line[|line| - 1] == '}' &&
      ParseInt(line[|AlertSetPrefix|..|line| - 1]) == Some(alert)
  {
    var line := AlertSetLine(alert);
    assert line[|AlertSetPrefix|..|line| - 1] == IntToString(alert);
    ParseIntToString(alert);
  }

  /** Distinct levels give distinct acknowledgements. */
  lemma AlertAckInjective(a: int, b: int)
    ensures AlertSetLine(a) == AlertSetLine(b) <==> a == b
  {
    if AlertSetLine(a) == AlertSetLine(b) {
      AlertAckRoundTrip(a);
      AlertAckRoundTrip(b);
    }
  }

  /** The dialled number is exactly what stands between `ATD` and `;`. */
  lemma DialNumberRecoverable(number: string)
    ensures var c := DialCommand(number);
      |c| == |number| + 4 && c[..3] == "ATD" && c[|c| - 1] == ';' && c[3..|c| - 1] == number
  {
  }

  /** The SMS body goes out unchanged and is closed by Ctrl+Z, after the recipient directive. */
  lemma SmsBodyFollowsRecipient(number: string, message: string)
    ensures var w := SmsSequence(number, message);
      |w| == 4 && w[1].text[|"AT+CMGS=\""|..|w[1].text| - 1] == number &&
      w[2] == GsmText(message) && w[3] == GsmByte(CtrlZ)
  {
  }

  /**
   * A `set_zone` for a valid zone paints that zone with the colour whose
   * components are the arguments cut to 8 bits, as the `uint8_t` parameters
   * of `CRGB` do: an argument in 0..255 is kept, any other is congruent to
   * it modulo 256, and a missing one is 0.
   */
  lemma ZoneColorWraps(d: Doc, uptime: U32)
    requires d.cmd == Some("set_zone") && IsZone(d.zone.GetOr(-1))
    ensures var p := Dispatch(Document(d), uptime).paint;
      && p.Some? && p.value.zone == d.zone.GetOr(-1)
      && (p.value.color.r - d.r.GetOr(0)) % 256 == 0
      && (p.value.color.g - d.g.GetOr(0)) % 256 == 0
      && (p.value.color.b - d.b.GetOr(0)) % 256 == 0
      && (0 <= d.r.GetOr(0) < 256 ==> p.value.color.r == d.r.GetOr(0))
      && (0 <= d.g.GetOr(0) < 256 ==> p.value.color.g == d.g.GetOr(0))
      && (0 <= d.b.GetOr(0) < 256 ==> p.value.color.b == d.b.GetOr(0))
      && (d.r.None? ==> p.value.color.r == 0)
      && (d.g.None? ==> p.value.color.g == 0)
      && (d.b.None? ==> p.value.color.b == 0)
  {
  }

  /** The global controller state `parseCommand` touches. */
  class Controller {
    /** `currentAlert`. */
    var currentAlert: AlertLevel
    const strip: Strip
    /** Lines printed on the host serial port. */
    var serialOut: seq<string>
    /** Writes to the GSM UART. */
    var gsmOut: seq<GsmWrite>

    ghost predicate Valid()
      reads this, strip
    {
      strip.Valid()
    }

    constructor (strip: Strip)
      requires strip.Valid()
      ensures Valid() && this.strip == strip
      ensures currentAlert == Safe && serialOut == [] && gsmOut == []
    {
      this.strip := strip;
      currentAlert := Safe;
      serialOut := [];
      gsmOut := [];
    }

    /** `gsmCall`. */
    method GsmCall(number: string)
      modifies this`serialOut, this`gsmOut
      ensures gsmOut == old(gsmOut) + CallSequence(number)
      ensures serialOut == old(serialOut) + [DialingLine(number), HangupLine]
    {
      gsmOut := gsmOut + [GsmLine(DialCommand(number))];
      serialOut := serialOut + [DialingLine(number)];
      gsmOut := gsmOut + [GsmLine("ATH")];
      serialOut := serialOut + [HangupLine];
    }

    /** `gsmSendSms`. */
    method GsmSendSms(number: string, message: string)
      modifies this`serialOut, this`gsmOut
      ensures gsmOut == old(gsmOut) + SmsSequence(number, message)
      ensures serialOut == old(serialOut) + [SmsSentLine(number)]
    {
      gsmOut := gsmOut + [GsmLine("AT+CMGF=1")];
      gsmOut := gsmOut + [GsmLine(RecipientCommand(number))];
      gsmOut := gsmOut + [GsmText(message)];
      gsmOut := gsmOut + [GsmByte(CtrlZ)];
      serialOut := serialOut + [SmsSentLine(number)];
    }

    /**
     * `parseCommand` on one decoded line, with `millis()` as `uptime`: the
     * alert level, the painted zone, the serial lines and the GSM writes are
     * those `Dispatch` gives, and nothing else changes.
     */
    method ParseCommand(msg: Inbound, uptime: U32)
      requires Valid()
      modifies this`currentAlert, this`serialOut, this`gsmOut, strip`shown, strip.leds
      ensures Valid()
      ensures var out := Dispatch(msg, uptime);
        && currentAlert == out.alert.GetOr(old(currentAlert))
        && serialOut == old(serialOut) + out.serial
        && gsmOut == old(gsmOut) + out.gsm
        && (forall i :: 0 <= i < LedCount ==>
              strip.leds[i] == if out.paint.Some? && InZone(out.paint.value.zone, i) then out.paint.value.color
                               else old(strip.leds[i]))
        && strip.shown == old(strip.shown) + (if out.paint.Some? then [strip.leds[..]] else [])
    {
      if msg.Unparseable? {
        serialOut := serialOut + [ParseFailedLine];
        return;
      }
      var d := msg.doc;
      if d.cmd.None? {
        return;
      }
      var cmd := d.cmd.value;
      if cmd == "set_alert" {
        var alert := d.alert.GetOr(0);
        if 0 <= alert <= 4 {
          currentAlert := LevelOf(alert);
          serialOut := serialOut + [AlertSetLine(alert)];
        }
      } else if cmd == "set_zone" {
        var zone := d.zone.GetOr(-1);
        var r := d.r.GetOr(0);
        var g := d.g.GetOr(0);
        var b := d.b.GetOr(0);
        if 0 <= zone < NumZones {
          strip.SetZoneColor(zone, Rgb(r, g, b));
          strip.Show();
          serialOut := serialOut + [ZoneSetLine(zone)];
        }
      } else if cmd == "gsm_call" {
        if d.number.Some? {
          GsmCall(d.number.value);
          serialOut := serialOut + [CallLine(d.number.value)];
        }
      } else if cmd == "gsm_sms" {
        if d.number.Some? && d.message.Some? {
          GsmSendSms(d.number.value, d.message.value);
          serialOut := serialOut + [SmsLine(d.number.value)];
        }
      } else if cmd == "ping" {
        serialOut := serialOut + [PongLine(uptime)];
      }
    }
  }

  /** The readings the telemetry record carries. Floating-point values are kept as reals. */
  datatype Readings = Readings(water: real, gyroX: real, gyroY: real, gyroZ: real, accelX: real, accelY: real, accelZ: real)

  /** The telemetry document: `type` is always "telemetry". */
  datatype Telemetry = Telemetry(readings: Readings, alert: int, ts: U32)

  /**
   * One telemetry step of `serialTask`: when the sensor lock is taken within
   * its timeout, the document carries the current readings, the alert level
   * as an integer and `millis()`; otherwise the document stays empty and is
   * serialised as `null`.
   */
  function TelemetryFrame(lockTaken: bool, readings: Readings, alert: AlertLevel, now: U32): (t: Option<Telemetry>)
    ensures t.None? <==> !lockTaken
    ensures t.Some? ==> t.value.readings == readings && 0 <= t.value.alert <= 4 && LevelOf(t.value.alert) == alert
  {
    if lockTaken then Some(Telemetry(readings, alert.Code(), now)) else None
  }
}
