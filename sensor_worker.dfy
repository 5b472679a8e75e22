/**
 * The backend's end of the serial link to the main controller
 * (`SensorWorker` in backend/sensor_worker.py): newline framing of the
 * incoming text, dispatch of each decoded telemetry record to the shared
 * state, and the JSON commands written back to the controller.
 *
 * `json.loads` is a parameter: each line arrives already decoded as a
 * `Decoded` value. The port itself is the flag `portOpen` and a log of the
 * text written to it.
 */
module SensorLink {
  import opened Wrappers
  import opened Alerts
  import opened PyJson
  import opened SharedState
  import SerialLink
  import CommandDispatch

  // ----- Newline framing -----

  predicate NewlineFree(s: string) {
    '\n' !in s
  }

  /** Where `buffer.split('\n', 1)` cuts: the first newline. */
  function FirstNewline(s: string): (i: nat)
    requires !NewlineFree(s)
    ensures i < |s| && s[i] == '\n' && NewlineFree(s[..i])
  {
    if s[0] == '\n' then 0
    else
      var j := FirstNewline(s[1..]);
      assert s[..j + 1] == [s[0]] + s[1..][..j];
      j + 1
  }

  /** The complete lines of a text and the unterminated text after the last newline. */
  datatype Split = Split(lines: seq<string>, rest: string)

  function SplitLines(s: string): Split
    decreases |s|
  {
    if NewlineFree(s) then Split([], s)
    else
      var i := FirstNewline(s);
      var tail := SplitLines(s[i + 1..]);
      Split([s[..i]] + tail.lines, tail.rest)
  }

  /** The lines and the rest of a split hold no newline. */
  lemma {:induction false} SplitLinesNewlineFree(s: string)
    ensures NewlineFree(SplitLines(s).rest)
    ensures forall k :: 0 <= k < |SplitLines(s).lines| ==> NewlineFree(SplitLines(s).lines[k])
    decreases |s|
  {
    if !NewlineFree(s) {
      var i := FirstNewline(s);
      SplitLinesNewlineFree(s[i + 1..]);
    }
  }

  /** Each line followed by its newline, concatenated. */
  function Joined(lines: seq<string>): string {
    if lines == [] then [] else lines[0] + "\n" + Joined(lines[1..])
  }

  lemma ConcatAssoc<T>(a: seq<T>, b: seq<T>, c: seq<T>)
    ensures (a + b) + c == a + (b + c)
  {
  }

  /** A text is the part before a newline, the newline, and the part after it. */
  lemma CutAt(s: string, i: nat)
    requires i < |s| && s[i] == '\n'
    ensures s == s[..i] + "\n" + s[i + 1..]
  {
    assert s == s[..i] + [s[i]] + s[i + 1..];
  }

  /** Splitting loses nothing: the lines, each with its newline, and the rest rebuild the text. */
  lemma {:induction false} SplitThenJoin(s: string)
    ensures Joined(SplitLines(s).lines) + SplitLines(s).rest == s
    decreases |s|
  {
    if !NewlineFree(s) {
      var i := FirstNewline(s);
      SplitThenJoin(s[i + 1..]);
      var tail := SplitLines(s[i + 1..]);
      var lines := [s[..i]] + tail.lines;
      assert SplitLines(s) == Split(lines, tail.rest);
      assert Joined(lines) == s[..i] + "\n" + Joined(tail.lines);
      ConcatAssoc(s[..i] + "\n", Joined(tail.lines), tail.rest);
      CutAt(s, i);
    }
  }

  /** And the other way: newline-free lines written out with their newlines split back into themselves. */
  lemma JoinThenSplit(lines: seq<string>, rest: string)
    requires forall k :: 0 <= k < |lines| ==> NewlineFree(lines[k])
    requires NewlineFree(rest)
    ensures SplitLines(Joined(lines) + rest) == Split(lines, rest)
  {
    SplitAfterLines(lines, rest);
    assert lines + [] == lines;
  }

  /** Text after newline-free lines written out with their newlines splits into those lines, then its own. */
  lemma {:induction false} SplitAfterLines(lines: seq<string>, text: string)
    requires forall k :: 0 <= k < |lines| ==> NewlineFree(lines[k])
    ensures SplitLines(Joined(lines) + text) == Split(lines + SplitLines(text).lines, SplitLines(text).rest)
    decreases |lines|
  {
    if lines == [] {
      assert Joined(lines) + text == text;
    } else {
      SplitAfterLines(lines[1..], text);
      SplitAfterOneMore(lines[0], lines[1..], text);
      assert [lines[0]] + lines[1..] == lines;
    }
  }

  /** The inductive step of SplitAfterLines: one more line in front. */
  lemma SplitAfterOneMore(first: string, more: seq<string>, text: string)
    requires NewlineFree(first)
    requires SplitLines(Joined(more) + text) == Split(more + SplitLines(text).lines, SplitLines(text).rest)
    ensures SplitLines(Joined([first] + more) + text)
      == Split([first] + more + SplitLines(text).lines, SplitLines(text).rest)
  {
    JoinedCons(first, more, text);
    SplitAfterLine(first, Joined(more) + text);
    ConcatAssoc([first], more, SplitLines(text).lines);
  }

  /** Joining one more line in front puts that line and its newline first. */
  lemma JoinedCons(first: string, more: seq<string>, text: string)
    ensures Joined([first] + more) + text == first + "\n" + (Joined(more) + text)
  {
    assert ([first] + more)[1..] == more;
    ConcatAssoc(first + "\n", Joined(more), text);
  }

  /** A line without a newline, then a newline: the split yields that line first. */
  lemma SplitAfterLine(first: string, after: string)
    requires NewlineFree(first)
    ensures SplitLines(first + "\n" + after) == Split([first] + SplitLines(after).lines, SplitLines(after).rest)
  {
    var s := first + "\n" + after;
    FirstNewlineAfter(first, after);
    assert s[..|first|] == first;
    assert s[|first| + 1..] == after;
  }

  /** Writing out one more line appends it and its newline. */
  lemma {:induction false} JoinedSnoc(lines: seq<string>, line: string)
    ensures Joined(lines + [line]) == Joined(lines) + (line + "\n")
    decreases |lines|
  {
    if lines == [] {
      assert Joined([line]) == line + "\n" + Joined([]);
    } else {
      assert (lines + [line])[1..] == lines[1..] + [line];
      JoinedSnoc(lines[1..], line);
      ConcatAssoc(lines[0] + "\n", Joined(lines[1..]), line + "\n");
    }
  }

  /** The first newline of `a + "\n" + b`, when `a` has none, is the one after `a`. */
  lemma {:induction false} FirstNewlineAfter(a: string, b: string)
    requires NewlineFree(a)
    ensures !NewlineFree(a + "\n" + b) && FirstNewline(a + "\n" + b) == |a|
  {
    var s := a + "\n" + b;
    assert s[|a|] == '\n';
    if a != [] {
      assert s[0] == a[0];
      assert s[1..] == a[1..] + "\n" + b;
      FirstNewlineAfter(a[1..], b);
    }
  }

  // ----- Decoded records -----

  /**
   * A value of a decoded JSON line. Nested objects are those the controller
   * sends: objects whose members are numbers.
   */
  datatype PyValue = PNull | PBool(b: bool) | PNum(x: real) | PStr(s: string) | PDict(m: map<string, real>)

  /** What `json.loads` made of a line: not JSON at all, a value that is not an object, or an object. */
  datatype Decoded = NotJson | Value(v: PyValue) | Object(fields: map<string, PyValue>)

  /** Python truthiness. */
  predicate Truthy(v: PyValue) {
    match v
    case PNull => false
    case PBool(b) => b
    case PNum(x) => x != 0.0
    case PStr(s) => s != []
    case PDict(m) => |m| > 0
  }

  /** `a or b`. */
  function Or(a: PyValue, b: PyValue): (v: PyValue)
    ensures Truthy(a) ==> v == a
    ensures !Truthy(a) ==> v == b
  {
    if Truthy(a) then a else b
  }

  /** A number argument of `update_sensor`: `None` leaves the reading alone. */
  function NumberArg(v: PyValue): (r: Option<real>)
    ensures v.PNum? ==> r == Some(v.x)
    ensures v.PNull? ==> r.None?
  {
    match v
    case PNum(x) => Some(x)
    case PBool(b) => Some(if b then 1.0 else 0.0)
    case _ => None
  }

  /** The `fire` argument: `None` leaves the flag alone, any other value is stored by its truth. */
  function FireArg(v: PyValue): (r: Option<bool>)
    ensures v.PBool? ==> r == Some(v.b)
    ensures v.PNull? <==> r.None?
  {
    if v.PNull? then None else Some(Truthy(v))
  }

  /** A dict argument: a false value means "no axes supplied". */
  function DictArg(v: PyValue): (r: map<string, real>)
    ensures v.PDict? ==> r == v.m
    ensures !Truthy(v) ==> r == map[]
  {
    if v.PDict? then v.m else map[]
  }

  /** What `_process_line` does with one decoded line. */
  datatype LineEffect = Ignored | Update(u: SensorUpdate) | Raises

  /** Whether `update_sensor` would call `.get` on something that is not a dict. */
  predicate BadAxes(v: PyValue) {
    Truthy(v) && !v.PDict?
  }

  /**
   * `_process_line`: only an object whose `type` is "telemetry" touches the
   * state; `raining` falls back to `water` when it is missing or false,
   * `earthquake` to `gyro`, and a missing `fire` counts as false. A line that
   * is not JSON, and any other event, only prints. A JSON value that is not an
   * object, or an axis value that is true but not an object, raises out of
   * the method, since only a decoding error is caught there.
   */
  function Effect(d: Decoded): (r: LineEffect)
    ensures d.NotJson? ==> r == Ignored
    ensures d.Value? ==> r == Raises
    ensures r.Update? <==>
      && d.Object?
      && DictGet(d.fields, "type", PNull) == PStr("telemetry")
      && !BadAxes(Or(DictGet(d.fields, "earthquake", PNull), DictGet(d.fields, "gyro", PNull)))
      && !BadAxes(DictGet(d.fields, "accel", PNull))
    ensures r.Update? ==>
      && r.u.raining == NumberArg(Or(DictGet(d.fields, "raining", PNull), DictGet(d.fields, "water", PNull)))
      && r.u.fire == FireArg(DictGet(d.fields, "fire", PBool(false)))
      && r.u.earthquake == DictArg(Or(DictGet(d.fields, "earthquake", PNull), DictGet(d.fields, "gyro", PNull)))
      && r.u.accel == DictArg(DictGet(d.fields, "accel", PNull))
  {
    match d
    case NotJson => Ignored
    case Value(_) => Raises
    case Object(f) =>
      if DictGet(f, "type", PNull) != PStr("telemetry") then Ignored
      else
        var quake := Or(DictGet(f, "earthquake", PNull), DictGet(f, "gyro", PNull));
        var accel := DictGet(f, "accel", PNull);
        if BadAxes(quake) || BadAxes(accel) then Raises
        else
          Update(SensorUpdate(
            NumberArg(Or(DictGet(f, "raining", PNull), DictGet(f, "water", PNull))),
            FireArg(DictGet(f, "fire", PBool(false))),
            DictArg(quake),
            DictArg(accel)))
  }

  /** The part of the shared state a line can change: the sensor record and the event queue. */
  datatype Snapshot = Snapshot(sensor: SensorData, events: seq<Event>)

  function AfterLine(snap: Snapshot, d: Decoded, now: real): (r: Snapshot)
    ensures !Effect(d).Update? ==> r == snap
  {
    match Effect(d)
    case Update(u) =>
      var s := ApplySensorUpdate(snap.sensor, u, now);
      Snapshot(s, Enqueue(snap.events, Event(SensorUpdated(s), now), EventQueueSize))
    case _ => snap
  }

  /** The state after handling the given lines in order. */
  function AfterLines(snap: Snapshot, lines: seq<string>, decode: string -> Decoded, now: real): (r: Snapshot)
    ensures lines == [] ==> r == snap
  {
    if lines == [] then snap
    else AfterLine(AfterLines(snap, lines[..|lines| - 1], decode, now), decode(lines[|lines| - 1]), now)
  }

  lemma AfterLinesSnoc(snap: Snapshot, lines: seq<string>, line: string, decode: string -> Decoded, now: real)
    ensures AfterLines(snap, lines + [line], decode, now) == AfterLine(AfterLines(snap, lines, decode, now), decode(line), now)
  {
    assert (lines + [line])[..|lines|] == lines;
  }

  // ----- The controller's records as the backend decodes them -----

  function Axes(x: real, y: real, z: real): map<string, real> {
    map["x" := x, "y" := y, "z" := z]
  }

  /**
   * The controller's telemetry line after `json.loads`: a lock timeout leaves
   * the document empty and it is written as `null`.
   */
  function TelemetryRecord(t: Option<CommandDispatch.Telemetry>): Decoded {
    match t
    case None => Value(PNull)
    case Some(t) =>
      var rd := t.readings;
      Object(map[
        "type" := PStr("telemetry"),
        "water" := PNum(rd.water),
        "gyro" := PDict(Axes(rd.gyroX, rd.gyroY, rd.gyroZ)),
        "accel" := PDict(Axes(rd.accelX, rd.accelY, rd.accelZ)),
        "alert" := PNum(t.alert as real),
        "ts" := PNum(t.ts as real)])
  }

  /**
   * A telemetry record from the controller stores the water level as
   * `raining`, the gyroscope as the earthquake axes, the accelerometer as
   * the acceleration axes, and clears `fire`, since the controller sends no
   * such member.
   */
  lemma TelemetryUpdatesSensor(s: SensorData, readings: CommandDispatch.Readings, alert: AlertLevel, ts: CommandDispatch.U32, now: real)
    ensures var t := CommandDispatch.TelemetryFrame(true, readings, alert, ts);
      var e := Effect(TelemetryRecord(t));
      && e.Update?
      && var r := ApplySensorUpdate(s, e.u, now);
      && r.raining == readings.water && !r.fire
      && r.earthquakeX == readings.gyroX && r.earthquakeY == readings.gyroY && r.earthquakeZ == readings.gyroZ
      && r.accelX == readings.accelX && r.accelY == readings.accelY && r.accelZ == readings.accelZ
      && r.timestamp == now
  {
    var t := CommandDispatch.TelemetryFrame(true, readings, alert, ts);
    var f := TelemetryRecord(t).fields;
    assert DictGet(f, "raining", PNull) == PNull;
    assert DictGet(f, "earthquake", PNull) == PNull;
    assert DictGet(f, "fire", PBool(false)) == PBool(false);
    assert "x" in Axes(readings.gyroX, readings.gyroY, readings.gyroZ);
    assert Or(DictGet(f, "earthquake", PNull), DictGet(f, "gyro", PNull)) == PDict(Axes(readings.gyroX, readings.gyroY, readings.gyroZ));
  }

  /** A telemetry line written after a lock timeout (`null`) raises in `_process_line`. */
  lemma LockTimeoutLineRaises(readings: CommandDispatch.Readings, alert: AlertLevel, ts: CommandDispatch.U32)
    ensures Effect(TelemetryRecord(CommandDispatch.TelemetryFrame(false, readings, alert, ts))) == Raises
  {
  }

  // ----- Commands to the controller -----

  /** `{"cmd": "set_alert", "alert": n}`. */
  function SetAlertCommand(level: AlertLevel): seq<Member> {
    [Member("cmd", JStr("set_alert")), Member("alert", JInt(level.Code()))]
  }

  /** The exact text `send_command` writes for a command. */
  function CommandText(cmd: seq<Member>): (r: string)
    ensures |r| >= 3 && r[|r| - 1] == '\n'
    ensures forall i :: 0 <= i < |r| - 1 ==> Printable(r[i])
  {
    Dumps(cmd) + "\n"
  }

  /** A string member whose key and value need no escaping. */
  lemma PlainMemberText(k: string, v: string)
    requires Plain(k) && Plain(v)
    ensures MemberText(Member(k, JStr(v))) == "\"" + k + "\": \"" + v + "\""
  {
    EscapePlainUnchanged(k);
    EscapePlainUnchanged(v);
  }

  /** A one-digit integer member whose key needs no escaping. */
  lemma DigitMemberText(k: string, n: int)
    requires Plain(k) && 0 <= n < 10
    ensures MemberText(Member(k, JInt(n))) == "\"" + k + "\": " + [Text.DigitChar(n)]
  {
    EscapePlainUnchanged(k);
    assert Text.IntToString(n) == [Text.DigitChar(n)];
  }

  /** The `set_alert` text the backend writes is exactly `{"cmd": "set_alert", "alert": n}`. */
  lemma SetAlertText(level: AlertLevel)
    ensures Dumps(SetAlertCommand(level)) ==
      "{" + (("\"" + "cmd" + "\": \"" + "set_alert" + "\"") + ", " + ("\"" + "alert" + "\": " + [Text.DigitChar(level.Code())])) + "}"
  {
    var first := Member("cmd", JStr("set_alert"));
    var second := Member("alert", JInt(level.Code()));
    KeysArePlain();
    PlainMemberText("cmd", "set_alert");
    DigitMemberText("alert", level.Code());
    TwoMembersText(first, second);
  }

  lemma KeysArePlain()
    ensures Plain("cmd") && Plain("set_alert") && Plain("alert")
  {
  }

  lemma TwoMembersText(a: Member, b: Member)
    ensures Dumps([a, b]) == "{" + (MemberText(a) + ", " + MemberText(b)) + "}"
  {
    assert [a, b][1..] == [b];
    assert MembersText([a, b]) == MemberText(a) + ", " + MemberText(b);
  }

  /**
   * Across the link: the controller's line assembler, starting empty, turns
   * the `set_alert` text into exactly one line, the whole JSON document.
   */
  lemma SetAlertArrivesWhole(level: AlertLevel)
    ensures SerialLink.FeedAll([], CommandText(SetAlertCommand(level))) ==
      SerialLink.Assembled([], [Dumps(SetAlertCommand(level))])
  {
    var body := Dumps(SetAlertCommand(level));
    SetAlertText(level);
    assert |body| <= SerialLink.MaxLine;
    assert SerialLink.NoTerminator(body) by {
      forall i | 0 <= i < |body| ensures !SerialLink.IsTerminator(body[i]) {
        assert Printable(body[i]);
      }
    }
    SerialLink.WholeLineArrives(body, false);
  }

  // ----- The worker -----

  class SensorWorker {
    /** The shared state telemetry goes to. */
    const state: StateManager
    /** `self.serial` is set and open. */
    var portOpen: bool
    /** The text received but not yet split into lines. */
    var buffer: string
    /** Every line handed to `_process_line`, in order. */
    var processed: seq<string>
    /** Every text written to the port, in order. */
    var written: seq<string>
    var lastPing: real

    constructor (state: StateManager, now: real)
      ensures this.state == state
      ensures !portOpen && buffer == [] && processed == [] && written == [] && lastPing == now
    {
      this.state := state;
      portOpen := false;
      buffer := [];
      processed := [];
      written := [];
      lastPing := now;
    }

    function Shared(): Snapshot
      reads state
    {
      Snapshot(state.sensor, state.eventQueue)
    }

    /**
     * The top of the read loop: with no open port it tries to connect, and a
     * successful connection starts from an empty buffer.
     */
    method Reconnect(connected: bool)
      modifies this`portOpen, this`buffer
      ensures portOpen == (old(portOpen) || connected)
      ensures buffer == if !old(portOpen) && connected then [] else old(buffer)
    {
      if !portOpen {
        if connected {
          portOpen := true;
          buffer := [];
        }
      }
    }

    /** A serial error: `disconnect` closes the port. */
    method Disconnect()
      modifies this`portOpen
      ensures !portOpen
    {
      portOpen := false;
    }

    /**
     * `send_command`: nothing is written and the result is false when the
     * port is missing or closed, or when the write raises; otherwise the
     * JSON text followed by one newline is written.
     */
    method SendCommand(cmd: seq<Member>, writeFails: bool) returns (ok: bool)
      modifies this`written
      ensures ok <==> portOpen && !writeFails
      ensures written == old(written) + if ok then [CommandText(cmd)] else []
    {
      if !portOpen {
        return false;
      }
      if writeFails {
        return false;
      }
      written := written + [CommandText(cmd)];
      return true;
    }

    /** `set_alert`. */
    method SetAlert(level: AlertLevel, writeFails: bool) returns (ok: bool)
      modifies this`written
      ensures ok <==> portOpen && !writeFails
      ensures written == old(written) + if ok then [CommandText(SetAlertCommand(level))] else []
    {
      ok := SendCommand(SetAlertCommand(level), writeFails);
    }

    /** The periodic ping: more than five seconds after the last one, a ping is sent. */
    method PingIfDue(now: real, writeFails: bool)
      modifies this`written, this`lastPing
      ensures now - old(lastPing) > 5.0 ==>
        && lastPing == now
        && written == old(written) + if portOpen && !writeFails then [CommandText([Member("cmd", JStr("ping"))])] else []
      ensures now - old(lastPing) <= 5.0 ==> lastPing == old(lastPing) && written == old(written)
    {
      if now - lastPing > 5.0 {
        var _ := SendCommand([Member("cmd", JStr("ping"))], writeFails);
        lastPing := now;
      }
    }

    /** `_process_line` on a decoded line. */
    method ProcessLine(d: Decoded, now: real) returns (raised: bool)
      requires state.Valid()
      modifies state`sensor, state`eventQueue
      ensures state.Valid()
      ensures raised <==> Effect(d) == Raises
      ensures Shared() == AfterLine(old(Shared()), d, now)
    {
      match Effect(d)
      case Update(u) =>
        state.UpdateSensor(u, now);
        raised := false;
      case Ignored =>
        raised := false;
      case Raises =>
        raised := true;
    }

    /**
     * One chunk of the read loop: the chunk is appended to the buffer and
     * complete lines are cut off the front and handled in order. When a line
     * raises, the loop is left with the remaining text still buffered.
     */
    method ReadChunk(chunk: string, decode: string -> Decoded, now: real) returns (raised: bool)
      requires state.Valid()
      modifies this`buffer, this`processed, state`sensor, state`eventQueue
      ensures state.Valid()
      ensures old(processed) <= processed
      ensures var arrived := processed[|old(processed)|..];
        && SplitLines(old(buffer) + chunk) == Split(arrived + SplitLines(buffer).lines, SplitLines(buffer).rest)
        && Shared() == AfterLines(old(Shared()), arrived, decode, now)
      ensures !raised ==> processed == old(processed) + SplitLines(old(buffer) + chunk).lines
      ensures !raised ==> buffer == SplitLines(old(buffer) + chunk).rest
    {
      var text := buffer + chunk;
      ghost var start := text;
      ghost var before := Shared();
      var taken: seq<string> := [];
      raised := false;
      while !NewlineFree(text) && !raised
        invariant state.Valid()
        invariant processed == old(processed) && buffer == old(buffer)
        invariant start == Joined(taken) + text
        invariant forall k :: 0 <= k < |taken| ==> NewlineFree(taken[k])
        invariant Shared() == AfterLines(before, taken, decode, now)
        decreases |text|
      {
        var i := FirstNewline(text);
        var line := text[..i];
        var rest := text[i + 1..];
        CutAt(text, i);
        JoinedSnoc(taken, line);
        ConcatAssoc(Joined(taken), line + "\n", rest);
        text := rest;
        raised := ProcessLine(decode(line), now);
        AfterLinesSnoc(before, taken, line, decode, now);
        taken := taken + [line];
      }
      buffer := text;
      processed := processed + taken;
      assert processed[|old(processed)|..] == taken;
      SplitAfterLines(taken, text);
      if !raised {
        assert SplitLines(text) == Split([], text);
        assert taken + [] == taken;
      }
    }
  }
}
