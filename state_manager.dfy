/**
 * The backend's shared state (`StateManager` in backend/state_manager.py):
 * the latest sensor readings, a bounded detection history, the current alert
 * level with a bounded change history, the pairing access code, the GSM
 * contact lists, and two bounded queues (manual triggers and events). Clock
 * readings are parameters; locks and the SQLite log are not part of this
 * model. The one subscriber, the control worker's `_on_state_event`, is
 * modelled with the control worker.
 */
module SharedState {
  import opened Wrappers
  import opened Text
  import opened Alerts

  /** Python's `s[-n:]` for any integer n. */
  function PyTail<T>(s: seq<T>, n: int): (r: seq<T>)
    ensures |r| <= |s| && r == s[|s| - |r|..]
    ensures n > 0 ==> |r| == if n < |s| then n else |s|
    ensures n == 0 ==> r == s
    ensures n < 0 ==> |r| == if -n < |s| then |s| + n else 0
  {
    if n > 0 then (if n >= |s| then s else s[|s| - n..])
    else if n == 0 then s
    else if -n >= |s| then []
    else s[-n..]
  }

  /** `if len(s) > cap: s = s[-cap:]`, the trimming step of both histories. */
  function Trim<T>(s: seq<T>, cap: int): (r: seq<T>)
    ensures |r| <= |s| && r == s[|s| - |r|..]
    ensures cap >= 1 ==> |r| == if |s| <= cap then |s| else cap
    ensures cap == 0 ==> r == s
  {
    if |s| > cap then PyTail(s, cap) else s
  }

  /** Appending one item and trimming keeps a history within its cap and loses only its oldest entry. */
  lemma {:induction false} AppendTrimmed<T>(s: seq<T>, x: T, cap: int)
    requires cap >= 1 && |s| <= cap
    ensures var r := Trim(s + [x], cap);
      |r| <= cap && r[|r| - 1] == x &&
      (|s| < cap ==> r == s + [x]) &&
      (|s| == cap ==> r == s[1..] + [x])
  {
    var r := Trim(s + [x], cap);
    if |s| == cap {
      assert r == (s + [x])[1..];
      assert (s + [x])[1..] == s[1..] + [x];
    }
  }

  /** `queue.put_nowait` on a bounded queue whose `queue.Full` is ignored: a full queue drops the new item. */
  function Enqueue<T>(q: seq<T>, x: T, cap: nat): (r: seq<T>)
    ensures |q| <= cap ==> |r| <= cap
    ensures q <= r && |r| <= |q| + 1
    ensures r != q <==> |q| < cap
    ensures r != q ==> r[|q|] == x
  {
    if |q| < cap then q + [x] else q
  }

  datatype SensorData = SensorData(
    fire: bool,
    raining: real,
    earthquakeX: real, earthquakeY: real, earthquakeZ: real,
    accelX: real, accelY: real, accelZ: real,
    timestamp: real)

  const InitialSensor := SensorData(false, 0.0, 0.0, 0.0, 0.0, 0.0, 0.0, 0.0, 0.0)

  /**
   * The arguments of `update_sensor`. A missing or empty axis dictionary is
   * the empty map; `None` for `raining` or `fire` is None.
   */
  datatype SensorUpdate = SensorUpdate(raining: Option<real>, fire: Option<bool>, earthquake: map<string, real>, accel: map<string, real>)

  /** The readings after `update_sensor` at time `now`. */
  function ApplySensorUpdate(s: SensorData, u: SensorUpdate, now: real): (r: SensorData)
    ensures r.timestamp == now
    ensures r.fire == u.fire.GetOr(s.fire) && r.raining == u.raining.GetOr(s.raining)
    ensures r.earthquakeX == DictGet(u.earthquake, "x", s.earthquakeX)
    ensures r.earthquakeY == DictGet(u.earthquake, "y", s.earthquakeY)
    ensures r.earthquakeZ == DictGet(u.earthquake, "z", s.earthquakeZ)
    ensures r.accelX == DictGet(u.accel, "x", s.accelX)
    ensures r.accelY == DictGet(u.accel, "y", s.accelY)
    ensures r.accelZ == DictGet(u.accel, "z", s.accelZ)
  {
    var eq := u.earthquake;
    var ac := u.accel;
    s.(fire := u.fire.GetOr(s.fire),
       raining := u.raining.GetOr(s.raining),
       earthquakeX := DictGet(eq, "x", s.earthquakeX),
       earthquakeY := DictGet(eq, "y", s.earthquakeY),
       earthquakeZ := DictGet(eq, "z", s.earthquakeZ),
       accelX := DictGet(ac, "x", s.accelX),
       accelY := DictGet(ac, "y", s.accelY),
       accelZ := DictGet(ac, "z", s.accelZ),
       timestamp := now)
  }

  /** An update that supplies nothing refreshes only the timestamp. */
  lemma EmptyUpdateRefreshesTimestamp(s: SensorData, now: real)
    ensures ApplySensorUpdate(s, SensorUpdate(None, None, map[], map[]), now) == s.(timestamp := now)
  {
  }

  /** Applying the same update twice is applying it once (at the later time). */
  lemma SensorUpdateIdempotent(s: SensorData, u: SensorUpdate, t1: real, t2: real)
    ensures ApplySensorUpdate(ApplySensorUpdate(s, u, t1), u, t2) == ApplySensorUpdate(s, u, t2)
  {
  }

  datatype Detection = Detection(className: string, confidence: real, bbox: seq<real>, frameId: int, timestamp: real)

  /** One entry of the alert history: `from`, `to` (as levels), `reason`, `timestamp`. */
  datatype AlertChange = AlertChange(from: AlertLevel, to: AlertLevel, reason: string, timestamp: real)

  /**
   * The alert history after `set_alert` moved the level from `from` to `to`:
   * unchanged when the level stays, otherwise one entry appended and the
   * oldest dropped beyond `cap`.
   */
  function RecordChange(history: seq<AlertChange>, from: AlertLevel, to: AlertLevel, reason: string, now: real, cap: int): (r: seq<AlertChange>)
    ensures from == to ==> r == history
    ensures from != to && cap >= 1 && |history| <= cap ==>
      && 1 <= |r| <= cap && r[|r| - 1] == AlertChange(from, to, reason, now)
      && |history| + 1 - |r| >= 0 && r[..|r| - 1] == history[|history| + 1 - |r|..]
      && |r| == if |history| < cap then |history| + 1 else cap
    ensures from != to && cap == 0 ==> r == history + [AlertChange(from, to, reason, now)]
  {
    if from == to then history
    else
      var r := Trim(history + [AlertChange(from, to, reason, now)], cap);
      if cap >= 1 && |history| <= cap then
        AppendTrimmed(history, AlertChange(from, to, reason, now), cap);
        r
      else r
  }

  /** One GSM contact; `category` defaults to "general". */
  datatype Contact = Contact(number: string, name: string, message: string, category: string)

  datatype ManualAction = ManualAction(kind: string, details: string, timestamp: real)

  /** The payload of an emitted event. */
  datatype EventData =
    | SensorUpdated(sensor: SensorData)
    | DetectionAdded(className: string, confidence: real, bbox: seq<real>, frameId: int)
    | AlertChanged(state: AlertLevel, reason: string)
    | GsmUpdated(sms: seq<Contact>, call: seq<Contact>)
    | ManualTriggered(action: ManualAction)
    | HazardDetected(level: AlertLevel, reason: string)
  {
    /** The event's `type`. */
    function Kind(): string {
      match this
      case SensorUpdated(_) => "sensor_update"
      case DetectionAdded(_, _, _, _) => "detection"
      case AlertChanged(_, _) => "alert_change"
      case GsmUpdated(_, _) => "gsm_update"
      case ManualTriggered(_) => "manual_trigger"
      case HazardDetected(_, _) => "hazard_detected"
    }
  }

  datatype Event = Event(data: EventData, timestamp: real)

  const EventQueueSize := 1000
  const ManualQueueSize := 10

  /** The contacts whose number differs from `number`, in their original order. */
  function WithoutNumber(contacts: seq<Contact>, number: string): (r: seq<Contact>)
    ensures |r| <= |contacts|
    ensures forall c <- r :: c.number != number && c in contacts
    ensures forall c <- contacts :: c.number != number ==> c in r
    ensures (forall c <- contacts :: c.number != number) ==> r == contacts
  {
    if contacts == [] then []
    else
      var rest := WithoutNumber(contacts[1..], number);
      if contacts[0].number != number then [contacts[0]] + rest else rest
  }

  /** Deletion commutes with concatenation, so the survivors keep their relative order. */
  lemma {:induction false} WithoutNumberAppend(a: seq<Contact>, b: seq<Contact>, number: string)
    ensures WithoutNumber(a + b, number) == WithoutNumber(a, number) + WithoutNumber(b, number)
  {
    if a == [] {
      assert a + b == b;
    } else {
      assert (a + b)[1..] == a[1..] + b;
      WithoutNumberAppend(a[1..], b, number);
    }
  }

  /** Deleting the same number twice is deleting it once. */
  lemma WithoutNumberIdempotent(contacts: seq<Contact>, number: string)
    ensures WithoutNumber(WithoutNumber(contacts, number), number) == WithoutNumber(contacts, number)
  {
  }

  /** The argument of `verify_access_code`: a string, or an integer that `str()` renders. */
  datatype CodeArg = StrArg(s: string) | IntArg(n: int) {
    /** `str(code)`. */
    function Str(): string {
      match this
      case StrArg(s) => s
      case IntArg(n) => IntToString(n)
    }
  }

  /** Against a numeric code, an integer argument matches iff it is that number. */
  lemma IntCodeMatches(code: int, n: int)
    ensures IntArg(n).Str() == IntToString(code) <==> n == code
  {
    IntToStringInjective(n, code);
  }

  class StateManager {
    var sensor: SensorData
    var detections: seq<Detection>
    var currentAlert: AlertLevel
    var alertHistory: seq<AlertChange>
    const maxDetections: int
    const maxAlerts: int
    /** The pairing code as the number `random.randint` drew. */
    ghost const codeValue: int
    const accessCode: string
    var smsContacts: seq<Contact>
    var callContacts: seq<Contact>
    var manualTriggers: seq<ManualAction>
    var eventQueue: seq<Event>

    ghost predicate Valid()
      reads this
    {
      && (maxDetections >= 1 ==> |detections| <= maxDetections)
      && (maxAlerts >= 1 ==> |alertHistory| <= maxAlerts)
      && |manualTriggers| <= ManualQueueSize
      && |eventQueue| <= EventQueueSize
      && 100000 <= codeValue <= 999999 && accessCode == IntToString(codeValue)
    }

    /** `StateManager(max_detections, max_alerts)`; the drawn six-digit code is a parameter. */
    constructor (maxDetections: int, maxAlerts: int, drawnCode: int)
      requires 100000 <= drawnCode <= 999999
      ensures Valid()
      ensures this.maxDetections == maxDetections && this.maxAlerts == maxAlerts
      ensures sensor == InitialSensor && detections == [] && currentAlert == Safe && alertHistory == []
      ensures codeValue == drawnCode && smsContacts == [] && callContacts == []
      ensures manualTriggers == [] && eventQueue == []
    {
      this.maxDetections := maxDetections;
      this.maxAlerts := maxAlerts;
      sensor := InitialSensor;
      detections := [];
      currentAlert := Safe;
      alertHistory := [];
      codeValue := drawnCode;
      accessCode := IntToString(drawnCode);
      smsContacts := [];
      callContacts := [];
      manualTriggers := [];
      eventQueue := [];
    }

    /**
     * `_emit` up to its subscriber loop: the event goes to the bounded queue,
     * or is dropped when the queue is full.
     */
    method Emit(data: EventData, now: real)
      requires Valid()
      modifies this`eventQueue
      ensures Valid()
      ensures eventQueue == Enqueue(old(eventQueue), Event(data, now), EventQueueSize)
    {
      if |eventQueue| < EventQueueSize {
        eventQueue := eventQueue + [Event(data, now)];
      }
    }

    /** `update_sensor`: only the supplied fields change; the timestamp is always refreshed. */
    method UpdateSensor(u: SensorUpdate, now: real)
      requires Valid()
      modifies this`sensor, this`eventQueue
      ensures Valid()
      ensures sensor == ApplySensorUpdate(old(sensor), u, now)
      ensures eventQueue == Enqueue(old(eventQueue), Event(SensorUpdated(sensor), now), EventQueueSize)
    {
      var s := sensor;
      if u.fire.Some? {
        s := s.(fire := u.fire.value);
      }
      if u.raining.Some? {
        s := s.(raining := u.raining.value);
      }
      if u.earthquake != map[] {
        s := s.(earthquakeX := DictGet(u.earthquake, "x", s.earthquakeX));
        s := s.(earthquakeY := DictGet(u.earthquake, "y", s.earthquakeY));
        s := s.(earthquakeZ := DictGet(u.earthquake, "z", s.earthquakeZ));
      }
      if u.accel != map[] {
        s := s.(accelX := DictGet(u.accel, "x", s.accelX));
        s := s.(accelY := DictGet(u.accel, "y", s.accelY));
        s := s.(accelZ := DictGet(u.accel, "z", s.accelZ));
      }
      s := s.(timestamp := now);
      sensor := s;
      Emit(SensorUpdated(sensor), now);
    }

    /** `add_detection`: appended at the end, oldest entries dropped beyond `max_detections`. */
    method AddDetection(className: string, confidence: real, bbox: seq<real>, frameId: int, now: real)
      requires Valid()
      modifies this`detections, this`eventQueue
      ensures Valid()
      ensures detections == Trim(old(detections) + [Detection(className, confidence, bbox, frameId, now)], maxDetections)
      ensures eventQueue == Enqueue(old(eventQueue), Event(DetectionAdded(className, confidence, bbox, frameId), now), EventQueueSize)
    {
      detections := detections + [Detection(className, confidence, bbox, frameId, now)];
      if |detections| > maxDetections {
        detections := PyTail(detections, maxDetections);
      }
      Emit(DetectionAdded(className, confidence, bbox, frameId), now);
    }

    /** `get_detections(limit)`: the last `limit` detections, oldest first. */
    method GetDetections(limit: int) returns (r: seq<Detection>)
      ensures r == PyTail(detections, limit)
    {
      r := PyTail(detections, limit);
    }

    /**
     * `set_alert`: the level is always installed; a history entry is
     * appended, and the history trimmed, only when the level changes. The
     * `alert_change` event is emitted either way.
     */
    method SetAlert(state: AlertLevel, reason: string, now: real)
      requires Valid()
      modifies this`currentAlert, this`alertHistory, this`eventQueue
      ensures Valid()
      ensures currentAlert == state
      ensures alertHistory == RecordChange(old(alertHistory), old(currentAlert), state, reason, now, maxAlerts)
      ensures eventQueue == Enqueue(old(eventQueue), Event(AlertChanged(state, reason), now), EventQueueSize)
    {
      var oldState := currentAlert;
      currentAlert := state;
      if oldState != state {
        alertHistory := alertHistory + [AlertChange(oldState, state, reason, now)];
        if |alertHistory| > maxAlerts {
          alertHistory := PyTail(alertHistory, maxAlerts);
        }
      }
      Emit(AlertChanged(state, reason), now);
    }

    /** `get_alert_history(limit)`. */
    method GetAlertHistory(limit: int) returns (r: seq<AlertChange>)
      ensures r == PyTail(alertHistory, limit)
    {
      r := PyTail(alertHistory, limit);
    }

    /** `verify_access_code`: true iff `str(code)` is the stored code. */
    method VerifyAccessCode(code: CodeArg) returns (ok: bool)
      requires Valid()
      ensures ok <==> code.Str() == accessCode
      ensures code.IntArg? ==> (ok <==> code.n == codeValue)
    {
      ok := code.Str() == accessCode;
      if code.IntArg? {
        IntCodeMatches(codeValue, code.n);
      }
    }

    /** `add_gsm_contact`: a mode other than "sms" or "call" is ignored without an event. */
    method AddGsmContact(mode: string, c: Contact, now: real)
      requires Valid()
      modifies this`smsContacts, this`callContacts, this`eventQueue
      ensures Valid()
      ensures smsContacts == if mode == "sms" then old(smsContacts) + [c] else old(smsContacts)
      ensures callContacts == if mode == "call" then old(callContacts) + [c] else old(callContacts)
      ensures eventQueue ==
        if mode == "sms" || mode == "call" then
          Enqueue(old(eventQueue), Event(GsmUpdated(smsContacts, callContacts), now), EventQueueSize)
        else old(eventQueue)
    {
      if mode != "sms" && mode != "call" {
        return;
      }
      if mode == "sms" {
        smsContacts := smsContacts + [c];
      } else {
        callContacts := callContacts + [c];
      }
      Emit(GsmUpdated(smsContacts, callContacts), now);
    }

    /** `delete_gsm_contact`: every contact with that number leaves both lists. */
    method DeleteGsmContact(number: string, now: real)
      requires Valid()
      modifies this`smsContacts, this`callContacts, this`eventQueue
      ensures Valid()
      ensures smsContacts == WithoutNumber(old(smsContacts), number)
      ensures callContacts == WithoutNumber(old(callContacts), number)
      ensures eventQueue == Enqueue(old(eventQueue), Event(GsmUpdated(smsContacts, callContacts), now), EventQueueSize)
    {
      smsContacts := WithoutNumber(smsContacts, number);
      callContacts := WithoutNumber(callContacts, number);
      Emit(GsmUpdated(smsContacts, callContacts), now);
    }

    /** `trigger_manual_action`: queued unless ten are waiting; the event is emitted either way. */
    method TriggerManualAction(kind: string, details: string, now: real)
      requires Valid()
      modifies this`manualTriggers, this`eventQueue
      ensures Valid()
      ensures manualTriggers == Enqueue(old(manualTriggers), ManualAction(kind, details, now), ManualQueueSize)
      ensures eventQueue == Enqueue(old(eventQueue), Event(ManualTriggered(ManualAction(kind, details, now)), now), EventQueueSize)
    {
      var action := ManualAction(kind, details, now);
      if |manualTriggers| < ManualQueueSize {
        manualTriggers := manualTriggers + [action];
      }
      Emit(ManualTriggered(action), now);
    }
  }
}
