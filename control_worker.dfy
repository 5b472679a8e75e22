/**
 * The backend's decision engine (`ControlWorker` in backend/control_worker.py):
 * detection and sensor events raise the alert level (never lower it), a 2 s
 * debounce limits changes, DANGER and above start a GSM emergency, and alerts
 * older than ten minutes fall back to SAFE. Commands for the main controller
 * are recorded as the JSON objects handed to the sensor worker's
 * `send_command`; the clock, the send results and the contact lists read
 * from the database are parameters.
 */
module Control {
  import opened Wrappers
  import opened Text
  import opened Alerts
  import opened SharedState
  import opened PyJson
  import SensorLink

  /** `GsmStatus`. */
  datatype GsmStatus = GsmIdle | GsmCalling | GsmMessaging | GsmError

  const ConfidenceThreshold := 0.5
  const WaterDangerThreshold := 70.0
  const WaterWarningThreshold := 40.0
  const TiltThreshold := 30.0
  const DebounceSeconds := 2.0
  const MaxRetries := 5
  const StaleSeconds := 600.0

  const CriticalHazards: seq<string> := ["Fire", "Explosion", "Flood", "Collapsed Structure"]
  const WarningHazards: seq<string> := ["Smoke", "Falling Debris", "Landslide"]

  function Abs(x: real): real {
    if x < 0.0 then -x else x
  }

  // ----- Commands for the main controller -----

  function CallCommand(number: string, robotTalk: bool, reason: string): seq<Member> {
    [Member("cmd", JStr("gsm_call")), Member("number", JStr(number)), Member("robot_talk", JBool(robotTalk)), Member("msg", JStr(reason))]
  }

  function SmsCommand(number: string, message: string): seq<Member> {
    [Member("cmd", JStr("gsm_sms")), Member("number", JStr(number)), Member("message", JStr(message))]
  }

  // ----- Hazard categories -----

  predicate MentionsFire(r: string) {
    Contains(r, "fire") || Contains(r, "explosion")
  }

  predicate MentionsSmoke(r: string) {
    Contains(r, "smoke")
  }

  predicate MentionsRain(r: string) {
    Contains(r, "flood") || Contains(r, "rain") || Contains(r, "precipitation")
  }

  predicate MentionsDebris(r: string) {
    Contains(r, "debris") || Contains(r, "landslide") || Contains(r, "structure") || Contains(r, "vibration")
  }

  /**
   * `_get_category_for_hazard`: the contact category for an alert reason,
   * matched case-insensitively with fire before smoke, then rain, then
   * debris, else "general".
   */
  function Category(reason: string): (c: string)
    ensures c == "fire" || c == "smoke" || c == "rain" || c == "debris" || c == "general"
    ensures c == "fire" <==> MentionsFire(Lower(reason))
    ensures c == "smoke" <==> MentionsSmoke(Lower(reason)) && !MentionsFire(Lower(reason))
    ensures c == "rain" <==> !MentionsFire(Lower(reason)) && !MentionsSmoke(Lower(reason)) && MentionsRain(Lower(reason))
    ensures c == "general" <==>
      !MentionsFire(Lower(reason)) && !MentionsSmoke(Lower(reason)) && !MentionsRain(Lower(reason)) && !MentionsDebris(Lower(reason))
  {
    var r := Lower(reason);
    if Contains(r, "fire") || Contains(r, "smoke") || Contains(r, "explosion") then
      (if Contains(r, "fire") || Contains(r, "explosion") then "fire" else "smoke")
    else if Contains(r, "flood") || Contains(r, "rain") || Contains(r, "precipitation") then "rain"
    else if Contains(r, "debris") || Contains(r, "landslide") || Contains(r, "structure") || Contains(r, "vibration") then "debris"
    else "general"
  }

  /** The category does not depend on letter case. */
  lemma CategoryIgnoresCase(reason: string)
    ensures Category(Lower(reason)) == Category(reason)
  {
    LowerIdempotent(reason);
  }

  /** A reason that names its hazard after a fixed prefix (`Detected: Fire`) is filed under fire. */
  lemma FireAfterPrefix(prefix: string, hazard: string)
    requires MentionsFire(Lower(hazard))
    ensures Category(prefix + hazard) == "fire"
  {
    LowerConcat(prefix, hazard);
    if Contains(Lower(hazard), "fire") {
      ContainsInSuffix(Lower(prefix), Lower(hazard), "fire");
    } else {
      ContainsInSuffix(Lower(prefix), Lower(hazard), "explosion");
    }
  }

  // ----- Contact dispatch lists -----

  /** A contact is called for `category` when its own category is "general" or that category. */
  predicate Reaches(c: Contact, category: string) {
    c.category == "general" || c.category == category
  }

  /** The `dispatch_list` comprehension. */
  function DispatchList(contacts: seq<Contact>, category: string): (r: seq<Contact>)
    ensures |r| <= |contacts|
    ensures forall c <- r :: c in contacts && Reaches(c, category)
    ensures forall c <- contacts :: Reaches(c, category) ==> c in r
    ensures (forall c <- contacts :: !Reaches(c, category)) ==> r == []
  {
    if contacts == [] then []
    else
      var rest := DispatchList(contacts[1..], category);
      if Reaches(contacts[0], category) then [contacts[0]] + rest else rest
  }

  /** Filtering keeps the contacts' relative order. */
  lemma {:induction false} DispatchListAppend(a: seq<Contact>, b: seq<Contact>, category: string)
    ensures DispatchList(a + b, category) == DispatchList(a, category) + DispatchList(b, category)
  {
    if a == [] {
      assert a + b == b;
    } else {
      assert (a + b)[1..] == a[1..] + b;
      DispatchListAppend(a[1..], b, category);
    }
  }

  /** `contact.get("message") or message`: the contact's own text unless it is empty. */
  function SmsText(c: Contact, message: string): (m: string)
    ensures c.message != "" ==> m == c.message
    ensures c.message == "" ==> m == message
  {
    if c.message != "" then c.message else message
  }

  /** The `gsm_sms` commands for every contact of the dispatch list, in order. */
  function SmsCommands(contacts: seq<Contact>, message: string): (r: seq<seq<Member>>)
    ensures |r| == |contacts|
  {
    if contacts == [] then [] else [SmsCommand(contacts[0].number, SmsText(contacts[0], message))] + SmsCommands(contacts[1..], message)
  }

  /** The i-th message goes to the i-th contact, with that contact's own text when it has one. */
  lemma {:induction false} SmsCommandsPointwise(contacts: seq<Contact>, message: string, i: int)
    requires 0 <= i < |contacts|
    ensures SmsCommands(contacts, message)[i] == SmsCommand(contacts[i].number, SmsText(contacts[i], message))
  {
    if i > 0 {
      SmsCommandsPointwise(contacts[1..], message, i - 1);
    }
  }

  // ----- Retries -----

  /**
   * The number of `gsm_call` sends the retry loop makes for one contact when
   * the i-th send reports `outcome[i]`: up to and including the first
   * success, at most five.
   */
  function Attempts(outcome: seq<bool>, tried: nat): (n: nat)
    requires |outcome| >= MaxRetries && tried <= MaxRetries
    requires forall j :: 0 <= j < tried ==> !outcome[j]
    ensures tried <= n <= MaxRetries && (tried < MaxRetries ==> 1 <= n)
    ensures forall j :: 0 <= j < n - 1 ==> !outcome[j]
    ensures n < MaxRetries ==> 1 <= n && outcome[n - 1]
    ensures n == MaxRetries && tried < MaxRetries ==> outcome[MaxRetries - 1] || forall j :: 0 <= j < MaxRetries ==> !outcome[j]
    decreases MaxRetries - tried
  {
    if tried == MaxRetries then MaxRetries
    else if outcome[tried] then tried + 1
    else Attempts(outcome, tried + 1)
  }

  /** Whether some send in the first five succeeded, i.e. the loop ends with `answered`. */
  predicate Answered(outcome: seq<bool>)
    requires |outcome| >= MaxRetries
  {
    exists j :: 0 <= j < MaxRetries && outcome[j]
  }

  /** The loop stops at the first success: the last send made is the successful one iff there was one. */
  lemma AttemptsStopAtSuccess(outcome: seq<bool>)
    requires |outcome| >= MaxRetries
    ensures var n := Attempts(outcome, 0); 1 <= n && (Answered(outcome) <==> outcome[n - 1])
  {
  }

  function Repeat<T>(x: T, n: nat): (r: seq<T>)
    ensures |r| == n && forall i :: 0 <= i < n ==> r[i] == x
  {
    if n == 0 then [] else Repeat(x, n - 1) + [x]
  }

  /** The `gsm_call` commands for every contact of the dispatch list, with its retries. */
  function CallCommands(contacts: seq<Contact>, voicePrompt: bool, reason: string, outcomes: seq<seq<bool>>): seq<seq<Member>>
    requires |outcomes| >= |contacts| && forall i :: 0 <= i < |outcomes| ==> |outcomes[i]| >= MaxRetries
  {
    if contacts == [] then []
    else Repeat(CallCommand(contacts[0].number, voicePrompt, reason), Attempts(outcomes[0], 0)) +
         CallCommands(contacts[1..], voicePrompt, reason, outcomes[1..])
  }

  /** Every contact of the dispatch list is called at least once and at most five times. */
  lemma {:induction false} CallCommandsBounds(contacts: seq<Contact>, voicePrompt: bool, reason: string, outcomes: seq<seq<bool>>)
    requires |outcomes| >= |contacts| && forall i :: 0 <= i < |outcomes| ==> |outcomes[i]| >= MaxRetries
    ensures |contacts| <= |CallCommands(contacts, voicePrompt, reason, outcomes)| <= MaxRetries * |contacts|
  {
    if contacts != [] {
      CallCommandsBounds(contacts[1..], voicePrompt, reason, outcomes[1..]);
    }
  }

  /**
   * Everything `_trigger_gsm_emergency` hands to `send_command` when GSM is
   * on and a sensor worker is attached: nothing when no call
   * contact is stored or none reaches the category (no SMS either), else the
   * calls with their retries followed by the `SOS:` messages.
   */
  function EmergencyCommands(reason: string, category: string, voicePrompt: bool,
                             calls: seq<Contact>, sms: seq<Contact>, outcomes: seq<seq<bool>>): seq<seq<Member>>
    requires |outcomes| >= |DispatchList(calls, category)| && forall i :: 0 <= i < |outcomes| ==> |outcomes[i]| >= MaxRetries
  {
    var dispatch := DispatchList(calls, category);
    if dispatch == [] then []
    else CallCommands(dispatch, voicePrompt, reason, outcomes) + SmsCommands(DispatchList(sms, category), "SOS: " + reason)
  }

  /** Without a call contact for the category, no SMS goes out either. */
  lemma NoCallContactsNoSms(reason: string, category: string, voicePrompt: bool,
                            calls: seq<Contact>, sms: seq<Contact>, outcomes: seq<seq<bool>>)
    requires forall i :: 0 <= i < |outcomes| ==> |outcomes[i]| >= MaxRetries
    requires forall c <- calls :: !Reaches(c, category)
    ensures EmergencyCommands(reason, category, voicePrompt, calls, sms, outcomes) == []
  {
  }

  // ----- Escalation rules -----

  /** The level `_handle_detection` asks for, if any; it is always above the current one. */
  function DetectionTarget(className: string, confidence: real, current: AlertLevel): (r: Option<AlertLevel>)
    ensures confidence < ConfidenceThreshold ==> r.None?
    ensures r.Some? ==> current.Code() < r.value.Code()
    ensures r == Some(Danger) <==>
      confidence >= ConfidenceThreshold && className in CriticalHazards && current.Code() < Danger.Code()
    ensures r == Some(Calling) <==>
      confidence >= ConfidenceThreshold && className !in CriticalHazards && className in WarningHazards && current.Code() < Calling.Code()
    ensures r.Some? ==> r.value == Danger || r.value == Calling
  {
    if confidence < ConfidenceThreshold then None
    else if className in CriticalHazards then
      (if current.Code() < Danger.Code() then Some(Danger) else None)
    else if className in WarningHazards then
      (if current.Code() < Calling.Code() then Some(Calling) else None)
    else None
  }

  /** The level the water rule of `_handle_sensor` asks for, if any. */
  function RainTarget(raining: real, current: AlertLevel): (r: Option<AlertLevel>)
    ensures r.Some? ==> current.Code() < r.value.Code()
    ensures r == Some(Danger) <==> raining >= WaterDangerThreshold && current.Code() < Danger.Code()
    ensures r == Some(Calling) <==> WaterWarningThreshold <= raining < WaterDangerThreshold && current.Code() < Calling.Code()
    ensures raining < WaterWarningThreshold ==> r.None?
  {
    if raining >= WaterDangerThreshold then (if current.Code() < Danger.Code() then Some(Danger) else None)
    else if raining >= WaterWarningThreshold then (if current.Code() < Calling.Code() then Some(Calling) else None)
    else None
  }

  /** The level the tilt rule of `_handle_sensor` asks for, if any. */
  function TiltTarget(x: real, y: real, current: AlertLevel): (r: Option<AlertLevel>)
    ensures r.Some? <==> Abs(x) + Abs(y) > TiltThreshold && current == Safe
    ensures r.Some? ==> r.value == Calling
  {
    if Abs(x) + Abs(y) > TiltThreshold && current.Code() < Calling.Code() then Some(Calling) else None
  }

  /** `_trigger_alert` accepts a change only two seconds or more after the last accepted one. */
  predicate Accepts(lastChange: real, now: real) {
    now - lastChange >= DebounceSeconds
  }

  /** The times at which a run of `_trigger_alert` calls is accepted, starting from the last change. */
  function AcceptedTimes(lastChange: real, calls: seq<real>): seq<real>
    decreases |calls|
  {
    if calls == [] then []
    else if Accepts(lastChange, calls[0]) then [calls[0]] + AcceptedTimes(calls[0], calls[1..])
    else AcceptedTimes(lastChange, calls[1..])
  }

  /** Accepted changes are at least two seconds apart, and the first is two seconds after the last change. */
  lemma {:induction false} AcceptedChangesSpaced(lastChange: real, calls: seq<real>)
    ensures var acc := AcceptedTimes(lastChange, calls);
      (|acc| > 0 ==> acc[0] - lastChange >= DebounceSeconds) &&
      forall i :: 0 < i < |acc| ==> acc[i] - acc[i - 1] >= DebounceSeconds
    decreases |calls|
  {
    if calls != [] {
      if Accepts(lastChange, calls[0]) {
        AcceptedChangesSpaced(calls[0], calls[1..]);
        var rest := AcceptedTimes(calls[0], calls[1..]);
        assert AcceptedTimes(lastChange, calls) == [calls[0]] + rest;
      } else {
        AcceptedChangesSpaced(lastChange, calls[1..]);
      }
    }
  }

  /** A GSM emergency handed to a background thread by `_trigger_alert`. */
  datatype Emergency = Emergency(reason: string, category: string)

  class ControlWorker {
    const state: StateManager
    /** Whether a sensor worker is attached. */
    const hasLink: bool
    const gsmEnabled: bool
    var lastAlertChange: real
    var gsmStatus: GsmStatus
    /** Every command handed to the sensor worker's `send_command`, in order. */
    var sent: seq<seq<Member>>
    /** Every emergency dispatch started, in order. */
    var emergencies: seq<Emergency>

    ghost predicate Valid()
      reads this, state
    {
      state.Valid()
    }

    constructor (state: StateManager, hasLink: bool)
      requires state.Valid()
      ensures Valid() && this.state == state && this.hasLink == hasLink && gsmEnabled
      ensures lastAlertChange == 0.0 && gsmStatus == GsmIdle && sent == [] && emergencies == []
    {
      this.state := state;
      this.hasLink := hasLink;
      gsmEnabled := true;
      lastAlertChange := 0.0;
      gsmStatus := GsmIdle;
      sent := [];
      emergencies := [];
    }

    /** `_send_led_command`: a `set_alert` command when a sensor worker is attached. */
    method SendLedCommand(level: AlertLevel)
      modifies this`sent
      ensures sent == old(sent) + if hasLink then [SensorLink.SetAlertCommand(level)] else []
    {
      if hasLink {
        sent := sent + [SensorLink.SetAlertCommand(level)];
      }
    }

    /**
     * What an accepted `_trigger_alert` leaves behind: the change time, the
     * level, its history entry, the `alert_change` and `hazard_detected`
     * events, the LED command, and for DANGER and above a GSM emergency.
     */
    twostate predicate Installed(level: AlertLevel, reason: string, now: real)
      reads this, state
    {
      && lastAlertChange == now
      && state.currentAlert == level
      && state.alertHistory == RecordChange(old(state.alertHistory), old(state.currentAlert), level, reason, now, state.maxAlerts)
      && state.eventQueue == Enqueue(Enqueue(old(state.eventQueue), Event(AlertChanged(level, reason), now), EventQueueSize),
                                     Event(HazardDetected(level, reason), now), EventQueueSize)
      && sent == old(sent) + (if hasLink then [SensorLink.SetAlertCommand(level)] else [])
      && emergencies == old(emergencies) + if level.Code() >= Danger.Code() then [Emergency(reason, Category(reason))] else []
    }

    /**
     * `_trigger_alert`: within two seconds of the last accepted change it does
     * nothing; otherwise it records the change time, installs the level,
     * sends the LED command, emits `hazard_detected`, and for DANGER and
     * above starts a GSM emergency for the reason's category.
     */
    method TriggerAlert(level: AlertLevel, reason: string, now: real)
      requires Valid()
      modifies this`lastAlertChange, this`sent, this`emergencies, state`currentAlert, state`alertHistory, state`eventQueue
      ensures Valid()
      ensures !Accepts(old(lastAlertChange), now) ==>
        && lastAlertChange == old(lastAlertChange) && sent == old(sent) && emergencies == old(emergencies)
        && state.currentAlert == old(state.currentAlert) && state.alertHistory == old(state.alertHistory)
        && state.eventQueue == old(state.eventQueue)
      ensures Accepts(old(lastAlertChange), now) ==> Installed(level, reason, now)
    {
      if now - lastAlertChange < DebounceSeconds {
        return;
      }
      lastAlertChange := now;
      state.SetAlert(level, reason, now);
      SendLedCommand(level);
      state.Emit(HazardDetected(level, reason), now);
      if level.Code() >= Danger.Code() {
        emergencies := emergencies + [Emergency(reason, Category(reason))];
      }
    }

    /**
     * `_handle_detection`: a critical hazard asks for DANGER, a warning
     * hazard for CALLING, and only when that is above the current level.
     */
    method HandleDetection(className: string, confidence: real, now: real)
      requires Valid()
      modifies this`lastAlertChange, this`sent, this`emergencies, state`currentAlert, state`alertHistory, state`eventQueue
      ensures Valid()
      ensures state.currentAlert.Code() >= old(state.currentAlert.Code())
      ensures var target := DetectionTarget(className, confidence, old(state.currentAlert));
        if target.Some? && Accepts(old(lastAlertChange), now) then
          Installed(target.value, (if target.value == Danger then "Detected: " else "Warning: ") + className, now)
        else
          && state.currentAlert == old(state.currentAlert) && lastAlertChange == old(lastAlertChange)
          && state.alertHistory == old(state.alertHistory) && state.eventQueue == old(state.eventQueue)
          && sent == old(sent) && emergencies == old(emergencies)
    {
      if confidence < ConfidenceThreshold {
        return;
      }
      var current := state.currentAlert;
      if className in CriticalHazards {
        if current.Code() < Danger.Code() {
          TriggerAlert(Danger, "Detected: " + className, now);
        }
      } else if className in WarningHazards {
        if current.Code() < Calling.Code() {
          TriggerAlert(Calling, "Warning: " + className, now);
        }
      }
    }

    /**
     * `_handle_sensor`, with the `{:.1f}` renderings of the water level and
     * the tilt magnitude as parameters. Both rules read the level once, before
     * either fires; the first request that passes the debounce wins, and the
     * second then falls inside the two seconds.
     */
    method HandleSensor(raining: real, x: real, y: real, rainingText: string, tiltText: string, now: real)
      requires Valid()
      modifies this`lastAlertChange, this`sent, this`emergencies, state`currentAlert, state`alertHistory, state`eventQueue
      ensures Valid()
      ensures state.currentAlert.Code() >= old(state.currentAlert.Code())
      ensures var rain := RainTarget(raining, old(state.currentAlert));
        var tilt := TiltTarget(x, y, old(state.currentAlert));
        if (rain.Some? || tilt.Some?) && Accepts(old(lastAlertChange), now) then
          if rain == Some(Danger) then Installed(Danger, "Precipitation level critical: " + rainingText + "%", now)
          else if rain.Some? then Installed(Calling, "Showers detected: " + rainingText + "%", now)
          else Installed(Calling, "Ground vibration detected: " + tiltText + "°", now)
        else
          && state.currentAlert == old(state.currentAlert) && lastAlertChange == old(lastAlertChange)
          && state.alertHistory == old(state.alertHistory) && state.eventQueue == old(state.eventQueue)
          && sent == old(sent) && emergencies == old(emergencies)
    {
      var current := state.currentAlert;
      if raining >= WaterDangerThreshold {
        if current.Code() < Danger.Code() {
          TriggerAlert(Danger, "Precipitation level critical: " + rainingText + "%", now);
        }
      } else if raining >= WaterWarningThreshold {
        if current.Code() < Calling.Code() {
          TriggerAlert(Calling, "Showers detected: " + rainingText + "%", now);
        }
      }
      var tiltMagnitude := Abs(x) + Abs(y);
      if tiltMagnitude > TiltThreshold {
        if current.Code() < Calling.Code() {
          TriggerAlert(Calling, "Ground vibration detected: " + tiltText + "°", now);
        }
      }
    }

    // ----- The handlers as they run: inside `_emit`, under `_subscriber_lock` -----

    /**
     * What an accepted `_trigger_alert` leaves behind when it runs as a
     * subscriber callback: `set_alert` installs the level, records the
     * change and queues `alert_change`, and then its own `_emit` waits for
     * `_subscriber_lock`, a plain `threading.Lock` that the enclosing `_emit`
     * on the same thread still holds. The thread never returns: no LED
     * command, no `hazard_detected`, no GSM emergency.
     */
    twostate predicate Blocked(level: AlertLevel, reason: string, now: real)
      reads this, state
    {
      && lastAlertChange == now
      && state.currentAlert == level
      && state.alertHistory == RecordChange(old(state.alertHistory), old(state.currentAlert), level, reason, now, state.maxAlerts)
      && state.eventQueue == Enqueue(old(state.eventQueue), Event(AlertChanged(level, reason), now), EventQueueSize)
      && sent == old(sent) && emergencies == old(emergencies)
    }

    /**
     * `_trigger_alert` as it runs on its only call path, from
     * `_on_state_event` inside `_emit`. `blocked` says the thread stops for
     * good at the second acquisition of the subscriber lock.
     */
    method TriggerAlertUnderEmit(level: AlertLevel, reason: string, now: real) returns (blocked: bool)
      requires Valid()
      modifies this`lastAlertChange, state`currentAlert, state`alertHistory, state`eventQueue
      ensures Valid()
      ensures blocked <==> Accepts(old(lastAlertChange), now)
      ensures blocked ==> Blocked(level, reason, now)
      ensures !blocked ==>
        && lastAlertChange == old(lastAlertChange)
        && state.currentAlert == old(state.currentAlert) && state.alertHistory == old(state.alertHistory)
        && state.eventQueue == old(state.eventQueue)
    {
      if now - lastAlertChange < DebounceSeconds {
        return false;
      }
      lastAlertChange := now;
      // `set_alert` up to its `_emit`: `put_nowait` runs, then the lock is taken again.
      state.SetAlert(level, reason, now);
      blocked := true;
    }

    /** `_handle_detection` called from `_emit("detection", ...)`, with `_trigger_alert` blocking as above. */
    method HandleDetectionUnderEmit(className: string, confidence: real, now: real) returns (blocked: bool)
      requires Valid()
      modifies this`lastAlertChange, state`currentAlert, state`alertHistory, state`eventQueue
      ensures Valid()
      ensures var target := DetectionTarget(className, confidence, old(state.currentAlert));
        && (blocked <==> target.Some? && Accepts(old(lastAlertChange), now))
        && (blocked ==> Blocked(target.value, (if target.value == Danger then "Detected: " else "Warning: ") + className, now))
        && (!blocked ==>
              && state.currentAlert == old(state.currentAlert) && lastAlertChange == old(lastAlertChange)
              && state.alertHistory == old(state.alertHistory) && state.eventQueue == old(state.eventQueue))
    {
      blocked := false;
      if confidence < ConfidenceThreshold {
        return;
      }
      var current := state.currentAlert;
      if className in CriticalHazards {
        if current.Code() < Danger.Code() {
          blocked := TriggerAlertUnderEmit(Danger, "Detected: " + className, now);
        }
      } else if className in WarningHazards {
        if current.Code() < Calling.Code() {
          blocked := TriggerAlertUnderEmit(Calling, "Warning: " + className, now);
        }
      }
    }

    /**
     * `_handle_sensor` called from `_emit("sensor_update", ...)`. A rain
     * rule that blocks ends the thread before the tilt rule is reached.
     */
    method HandleSensorUnderEmit(raining: real, x: real, y: real, rainingText: string, tiltText: string, now: real)
      returns (blocked: bool)
      requires Valid()
      modifies this`lastAlertChange, state`currentAlert, state`alertHistory, state`eventQueue
      ensures Valid()
      ensures var rain := RainTarget(raining, old(state.currentAlert));
        var tilt := TiltTarget(x, y, old(state.currentAlert));
        && (blocked <==> (rain.Some? || tilt.Some?) && Accepts(old(lastAlertChange), now))
        && (blocked ==>
              if rain == Some(Danger) then Blocked(Danger, "Precipitation level critical: " + rainingText + "%", now)
              else if rain.Some? then Blocked(Calling, "Showers detected: " + rainingText + "%", now)
              else Blocked(Calling, "Ground vibration detected: " + tiltText + "°", now))
        && (!blocked ==>
              && state.currentAlert == old(state.currentAlert) && lastAlertChange == old(lastAlertChange)
              && state.alertHistory == old(state.alertHistory) && state.eventQueue == old(state.eventQueue))
    {
      blocked := false;
      var current := state.currentAlert;
      if raining >= WaterDangerThreshold {
        if current.Code() < Danger.Code() {
          blocked := TriggerAlertUnderEmit(Danger, "Precipitation level critical: " + rainingText + "%", now);
        }
      } else if raining >= WaterWarningThreshold {
        if current.Code() < Calling.Code() {
          blocked := TriggerAlertUnderEmit(Calling, "Showers detected: " + rainingText + "%", now);
        }
      }
      if blocked {
        return;
      }
      var tiltMagnitude := Abs(x) + Abs(y);
      if tiltMagnitude > TiltThreshold {
        if current.Code() < Calling.Code() {
          blocked := TriggerAlertUnderEmit(Calling, "Ground vibration detected: " + tiltText + "°", now);
        }
      }
    }

    /** One call attempt loop of `_trigger_gsm_emergency` for one number. */
    method CallWithRetries(number: string, voicePrompt: bool, reason: string, outcome: seq<bool>) returns (answered: bool)
      requires |outcome| >= MaxRetries
      modifies this`sent
      ensures answered <==> Answered(outcome)
      ensures sent == old(sent) + Repeat(CallCommand(number, voicePrompt, reason), Attempts(outcome, 0))
    {
      var retries := 0;
      answered := false;
      var k := 0;
      while retries < MaxRetries && !answered
        invariant 0 <= retries <= MaxRetries
        invariant k == retries + (if answered then 1 else 0)
        invariant forall j :: 0 <= j < retries ==> !outcome[j]
        invariant answered ==> retries < MaxRetries && outcome[retries]
        invariant sent == old(sent) + Repeat(CallCommand(number, voicePrompt, reason), k)
        invariant Attempts(outcome, 0) == Attempts(outcome, retries)
        decreases MaxRetries - k
      {
        sent := sent + [CallCommand(number, voicePrompt, reason)];
        if outcome[k] {
          answered := true;
        } else {
          retries := retries + 1;
        }
        k := k + 1;
      }
      if answered {
        assert Attempts(outcome, retries) == retries + 1;
      }
    }

    /**
     * `_send_gsm_message`: one `gsm_sms` per contact reaching the category,
     * carrying the contact's own text when it has one; send results are not
     * looked at. The status is MESSAGING meanwhile and IDLE at the end.
     */
    method SendGsmMessage(message: string, category: string, smsContacts: seq<Contact>)
      modifies this`sent, this`gsmStatus
      ensures gsmEnabled && hasLink ==>
        sent == old(sent) + SmsCommands(DispatchList(smsContacts, category), message) && gsmStatus == GsmIdle
      ensures !(gsmEnabled && hasLink) ==> sent == old(sent) && gsmStatus == old(gsmStatus)
    {
      if !gsmEnabled || !hasLink {
        return;
      }
      gsmStatus := GsmMessaging;
      var dispatch := DispatchList(smsContacts, category);
      var i := 0;
      while i < |dispatch|
        invariant 0 <= i <= |dispatch|
        invariant sent == old(sent) + SmsCommands(dispatch[..i], message)
      {
        var c := dispatch[i];
        sent := sent + [SmsCommand(c.number, SmsText(c, message))];
        assert dispatch[..i + 1] == dispatch[..i] + [c];
        SmsCommandsAppend(dispatch[..i], [c], message);
        i := i + 1;
      }
      assert dispatch[..i] == dispatch;
      gsmStatus := GsmIdle;
    }

    /**
     * `_trigger_gsm_emergency`, with the stored call and SMS contacts and the
     * result of every call send as parameters. The status is IDLE at the
     * end on every path that set it to CALLING.
     */
    method TriggerGsmEmergency(reason: string, category: string, voicePrompt: bool,
                               calls: seq<Contact>, sms: seq<Contact>, outcomes: seq<seq<bool>>)
      requires |outcomes| >= |DispatchList(calls, category)| && forall i :: 0 <= i < |outcomes| ==> |outcomes[i]| >= MaxRetries
      modifies this`sent, this`gsmStatus
      ensures gsmEnabled && hasLink ==> sent == old(sent) + EmergencyCommands(reason, category, voicePrompt, calls, sms, outcomes)
      ensures !(gsmEnabled && hasLink) ==> sent == old(sent)
      ensures gsmStatus == if gsmEnabled && hasLink then GsmIdle else old(gsmStatus)
    {
      if !gsmEnabled || !hasLink {
        return;
      }
      gsmStatus := GsmCalling;
      if calls == [] {
        gsmStatus := GsmIdle;
        return;
      }
      var dispatch := DispatchList(calls, category);
      if dispatch == [] {
        gsmStatus := GsmIdle;
        return;
      }
      CallThenMessage(dispatch, reason, category, voicePrompt, sms, outcomes);
      assert EmergencyCommands(reason, category, voicePrompt, calls, sms, outcomes) ==
        CallCommands(dispatch, voicePrompt, reason, outcomes) + SmsCommands(DispatchList(sms, category), "SOS: " + reason);
      gsmStatus := GsmIdle;
    }

    /** The calls, then the `SOS:` messages, of `_trigger_gsm_emergency`. */
    method CallThenMessage(dispatch: seq<Contact>, reason: string, category: string, voicePrompt: bool,
                           sms: seq<Contact>, outcomes: seq<seq<bool>>)
      requires gsmEnabled && hasLink
      requires |outcomes| >= |dispatch| && forall i :: 0 <= i < |outcomes| ==> |outcomes[i]| >= MaxRetries
      modifies this`sent, this`gsmStatus
      ensures sent == old(sent) + (CallCommands(dispatch, voicePrompt, reason, outcomes) +
                                   SmsCommands(DispatchList(sms, category), "SOS: " + reason))
      ensures gsmStatus == GsmIdle
    {
      var message := "SOS: " + reason;
      ghost var start := sent;
      ghost var calls := CallCommands(dispatch, voicePrompt, reason, outcomes);
      ghost var texts := SmsCommands(DispatchList(sms, category), message);
      CallAll(dispatch, voicePrompt, reason, outcomes);
      ghost var middle := sent;
      assert middle == start + calls;
      SendGsmMessage(message, category, sms);
      assert sent == middle + texts;
      assert start + calls + texts == start + (calls + texts);
    }

    /** The `for contact in dispatch_list` loop of `_trigger_gsm_emergency`. */
    method CallAll(dispatch: seq<Contact>, voicePrompt: bool, reason: string, outcomes: seq<seq<bool>>)
      requires |outcomes| >= |dispatch| && forall i :: 0 <= i < |outcomes| ==> |outcomes[i]| >= MaxRetries
      modifies this`sent
      ensures sent == old(sent) + CallCommands(dispatch, voicePrompt, reason, outcomes)
    {
      var i := 0;
      while i < |dispatch|
        invariant 0 <= i <= |dispatch|
        invariant sent == old(sent) + CallCommands(dispatch[..i], voicePrompt, reason, outcomes)
      {
        var answered := CallWithRetries(dispatch[i].number, voicePrompt, reason, outcomes[i]);
        CallCommandsStep(dispatch, i, voicePrompt, reason, outcomes);
        i := i + 1;
      }
      assert dispatch[..i] == dispatch;
    }

    /**
     * What `set_safe_mode` leaves behind: SAFE, its history entry when the
     * level moved, the `alert_change` event, and the LED command.
     */
    twostate predicate Reset(now: real)
      reads this, state
    {
      && state.currentAlert == Safe
      && state.alertHistory == RecordChange(old(state.alertHistory), old(state.currentAlert), Safe, "Manual reset", now, state.maxAlerts)
      && state.eventQueue == Enqueue(old(state.eventQueue), Event(AlertChanged(Safe, "Manual reset"), now), EventQueueSize)
      && sent == old(sent) + if hasLink then [SensorLink.SetAlertCommand(Safe)] else []
    }

    /** `set_safe_mode`; the change time is not touched. */
    method SetSafeMode(now: real)
      requires Valid()
      modifies this`sent, state`currentAlert, state`alertHistory, state`eventQueue
      ensures Valid()
      ensures Reset(now)
    {
      state.SetAlert(Safe, "Manual reset", now);
      SendLedCommand(Safe);
    }

    /**
     * The stale-alert rule of `_control_loop`: a level above SAFE is reset
     * to SAFE when no `_trigger_alert` was accepted in the last ten minutes.
     * The timer is `last_alert_change`, which starts at 0 and which only an
     * accepted `_trigger_alert` moves; a level installed any other way
     * (`set_alert` on the state, `set_evacuate_mode`) does not restart it.
     * The reset does not touch the timer either.
     */
    method StaleAlertCheck(now: real)
      requires Valid()
      modifies this`sent, state`currentAlert, state`alertHistory, state`eventQueue
      ensures Valid()
      ensures lastAlertChange == old(lastAlertChange)
      ensures old(state.currentAlert) != Safe && now - lastAlertChange > StaleSeconds ==> Reset(now)
      ensures !(old(state.currentAlert) != Safe && now - lastAlertChange > StaleSeconds) ==>
        state.currentAlert == old(state.currentAlert) && state.alertHistory == old(state.alertHistory) &&
        state.eventQueue == old(state.eventQueue) && sent == old(sent)
    {
      if state.currentAlert.Code() > 0 {
        if now - lastAlertChange > StaleSeconds {
          SetSafeMode(now);
        }
      }
    }
  }

  /**
   * Before any `_trigger_alert` has been accepted the stale-alert timer is
   * still 0, so an EVACUATE installed directly on the state is reset to
   * SAFE by the first control-loop pass after ten minutes of uptime, at
   * whatever moment it was installed.
   */
  method UntriggeredEvacuateIsReset(state: StateManager, hasLink: bool, now: real)
    requires state.Valid() && state.currentAlert == Evacuate && now > StaleSeconds
    modifies state
    ensures state.currentAlert == Safe
    ensures state.eventQueue == Enqueue(old(state.eventQueue), Event(AlertChanged(Safe, "Manual reset"), now), EventQueueSize)
  {
    var worker := new ControlWorker(state, hasLink);
    worker.StaleAlertCheck(now);
  }

  /**
   * The deadlock on the sensor path, for one input: a controller reading of
   * 75 % reaches `update_sensor` on a SAFE system more than two seconds
   * after start. The subscriber escalates to DANGER and blocks, so the level
   * is DANGER while the main controller never receives the LED command and
   * no emergency starts; the intended `HandleSensor` sends both.
   */
  method SensorEscalationBlocks(state: StateManager, now: real) returns (worker: ControlWorker, blocked: bool)
    requires state.Valid() && state.currentAlert == Safe && now >= DebounceSeconds
    modifies state
    ensures fresh(worker) && worker.hasLink && worker.state == state
    ensures blocked && state.currentAlert == Danger
    ensures worker.sent == [] && worker.emergencies == []
  {
    worker := new ControlWorker(state, true);
    state.UpdateSensor(SensorUpdate(Some(75.0), None, map[], map[]), now);
    var s := state.sensor;
    blocked := worker.HandleSensorUnderEmit(s.raining, s.earthquakeX, s.earthquakeY, "75.0", "0.0", now);
  }

  lemma {:induction false} SmsCommandsAppend(a: seq<Contact>, b: seq<Contact>, message: string)
    ensures SmsCommands(a + b, message) == SmsCommands(a, message) + SmsCommands(b, message)
  {
    if a == [] {
      assert a + b == b;
    } else {
      assert (a + b)[1..] == a[1..] + b;
      SmsCommandsAppend(a[1..], b, message);
    }
  }

  /** Calling the contacts one more step extends the command list by that contact's attempts. */
  lemma {:induction false} CallCommandsStep(dispatch: seq<Contact>, i: nat, voicePrompt: bool, reason: string, outcomes: seq<seq<bool>>)
    requires i < |dispatch| && |outcomes| >= |dispatch| && forall j :: 0 <= j < |outcomes| ==> |outcomes[j]| >= MaxRetries
    ensures CallCommands(dispatch[..i + 1], voicePrompt, reason, outcomes) ==
      CallCommands(dispatch[..i], voicePrompt, reason, outcomes) +
      Repeat(CallCommand(dispatch[i].number, voicePrompt, reason), Attempts(outcomes[i], 0))
    decreases i
  {
    if i == 0 {
      assert dispatch[..1][1..] == [];
    } else {
      assert dispatch[..i + 1][1..] == dispatch[1..][..i];
      assert dispatch[..i][1..] == dispatch[1..][..i - 1];
      CallCommandsStep(dispatch[1..], i - 1, voicePrompt, reason, outcomes[1..]);
    }
  }
}
