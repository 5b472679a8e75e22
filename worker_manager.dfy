/**
 * The registry of remote inference workers (`WorkerManager` in
 * backend/worker_manager.py): the length-prefixed framing of its TCP
 * messages, registration, heartbeats and results arriving from workers,
 * the heartbeat-timeout cleanup, and the synchronous hand-off of one frame
 * to an eligible worker chosen round-robin.
 *
 * Sockets are a byte stream per connection and a log of the frames sent;
 * the clock, the wait for a result and a failing send are parameters.
 */
module Workers {
  import opened Wrappers
  import opened PyJson
  import opened SharedState

  type Byte = x: int | 0 <= x < 256

  const HeartbeatTimeout: real := 15.0
  const TwoTo32: int := 0x1_0000_0000

  // ----- Framing: a 4-byte big-endian length, then the payload -----

  /** `struct.unpack('>I', b)`. */
  function Unpack(b: seq<Byte>): (n: nat)
    requires |b| == 4
    ensures n < TwoTo32
  {
    var b0: int, b1: int, b2: int, b3: int := b[0], b[1], b[2], b[3];
    ((b0 * 256 + b1) * 256 + b2) * 256 + b3
  }

  /** `struct.pack('>I', n)`: the four base-256 digits of `n`, most significant first. */
  function Pack(n: nat): (b: seq<Byte>)
    requires n < TwoTo32
    ensures |b| == 4
  {
    var a := n / 256;
    var c := a / 256;
    var d := c / 256;
    [d, c % 256, a % 256, n % 256]
  }

  /** Division by 256 recovers the quotient and the remainder of `q * 256 + r`. */
  lemma ByteDigit(q: nat, r: nat)
    requires r < 256
    ensures (q * 256 + r) / 256 == q && (q * 256 + r) % 256 == r
  {
  }

  lemma {:induction false} UnpackPack(n: nat)
    requires n < TwoTo32
    ensures Unpack(Pack(n)) == n
  {
    var a := n / 256;
    var c := a / 256;
    var d := c / 256;
    assert n == a * 256 + n % 256;
    assert a == c * 256 + a % 256;
    assert c == d * 256 + c % 256;
  }

  lemma {:induction false} PackUnpack(b: seq<Byte>)
    requires |b| == 4
    ensures Pack(Unpack(b)) == b
  {
    var b0: nat, b1: nat, b2: nat, b3: nat := b[0], b[1], b[2], b[3];
    var n := Unpack(b);
    ByteDigit((b0 * 256 + b1) * 256 + b2, b3);
    ByteDigit(b0 * 256 + b1, b2);
    ByteDigit(b0, b1);
    assert b0 / 256 == 0;
  }

  /** A frame for a payload; `struct.pack` raises when the length does not fit in 32 bits. */
  function Encode(payload: seq<Byte>): (r: Option<seq<Byte>>)
    ensures r.Some? <==> |payload| < TwoTo32
    ensures r.Some? ==> |r.value| == 4 + |payload| && r.value[4..] == payload
  {
    if |payload| < TwoTo32 then Some(Pack(|payload|) + payload) else None
  }

  /** What `_handle_worker` makes of the bytes a connection still has to deliver. */
  datatype FrameRead =
    | Closed                                  // no header, or an empty body: the loop ends
    | ShortHeader                             // fewer than four header bytes: `struct.unpack` raises
    | Message(payload: seq<Byte>, rest: seq<Byte>)

  function ReadFrame(stream: seq<Byte>): (r: FrameRead)
    ensures r.Message? ==> |stream| >= 4 && 0 < |r.payload| <= Unpack(stream[..4])
    ensures r.Message? ==> stream == stream[..4] + r.payload + r.rest
  {
    if |stream| == 0 then Closed
    else if |stream| < 4 then ShortHeader
    else
      var n := Unpack(stream[..4]);
      var body := stream[4..];
      var data := if |body| < n then body else body[..n];
      if data == [] then Closed
      else
        assert stream == stream[..4] + data + body[|data|..];
        Message(data, body[|data|..])
  }

  /** Framing round trip: a non-empty payload comes back whole, followed by whatever was sent after it. */
  lemma FrameRoundTrip(payload: seq<Byte>, rest: seq<Byte>)
    requires 0 < |payload| < TwoTo32
    ensures ReadFrame(Encode(payload).value + rest) == Message(payload, rest)
  {
    var stream := Encode(payload).value + rest;
    assert stream[..4] == Pack(|payload|);
    UnpackPack(|payload|);
    assert stream[4..] == payload + rest;
    assert (payload + rest)[..|payload|] == payload;
    assert (payload + rest)[|payload|..] == rest;
  }

  /** A frame with an empty payload ends the connection. */
  lemma EmptyFrameCloses(rest: seq<Byte>)
    ensures ReadFrame(Encode([]).value + rest) == Closed
  {
    UnpackPack(0);
    assert (Encode([]).value + rest)[..4] == Pack(0);
  }

  /**
   * The receiving side of one worker connection: `incoming` is what the peer
   * has sent and not yet been read. `recv(4)` returns the whole header when
   * four bytes are there; each `recv` for the body returns at most `burst`
   * bytes, so the body may take several rounds of the inner loop.
   */
  class Connection {
    var incoming: seq<Byte>

    constructor (incoming: seq<Byte>)
      ensures this.incoming == incoming
    {
      this.incoming := incoming;
    }

    /** The header read and the body loop of `_handle_worker`. */
    method Receive(burst: nat) returns (r: FrameRead)
      requires burst > 0
      modifies this
      ensures r == ReadFrame(old(incoming))
      ensures r.Message? ==> incoming == r.rest
    {
      if |incoming| == 0 {
        return Closed;
      }
      if |incoming| < 4 {
        return ShortHeader;
      }
      var n := Unpack(incoming[..4]);
      incoming := incoming[4..];
      ghost var body := incoming;
      var data: seq<Byte> := [];
      while |data| < n
        invariant data + incoming == body
        invariant |data| <= n
        decreases n - |data|
      {
        var take := n - |data|;
        if burst < take {
          take := burst;
        }
        if |incoming| < take {
          take := |incoming|;
        }
        if take == 0 {
          break;
        }
        assert incoming == incoming[..take] + incoming[take..];
        data := data + incoming[..take];
        incoming := incoming[take..];
      }
      assert data == if |body| < n then body else body[..n];
      if data == [] {
        return Closed;
      }
      return Message(data, incoming);
    }
  }

  /** JSON text produced with `ensure_ascii` is ASCII, so `.encode()` keeps one byte per character. */
  function AsciiBytes(s: string): (b: seq<Byte>)
    requires AllPrintable(s)
    ensures |b| == |s| && forall i :: 0 <= i < |s| ==> b[i] == s[i] as int
  {
    if s == [] then [] else [s[0] as int] + AsciiBytes(s[1..])
  }

  // ----- Messages from workers -----

  /** One detection as a worker reports it. */
  datatype Reported = Reported(className: string, confidence: real, bbox: seq<real>)

  /** A decoded message, by its `type`; absent members are `None`. */
  datatype WorkerMsg =
    | RegisterMsg(workerId: string, name: Option<string>, model: Option<string>, specialty: Option<string>, role: Option<string>)
    | HeartbeatMsg(stats: Option<map<string, int>>)
    | ResultMsg(frameId: Option<int>, detections: Option<seq<Reported>>)
    | OtherMsg

  datatype WorkerInfo = WorkerInfo(
    conn: int, name: Option<string>, model: Option<string>, specialty: string, role: string,
    lastSeen: real, stats: map<string, int>)

  /** A frame waiting for its result: `result` is set and the event signalled when the result arrives. */
  datatype Pending = Pending(result: Option<seq<Reported>>, signalled: bool)

  /** A command object sent on a connection; `Wire` gives the bytes that carry it. */
  datatype Outgoing = Outgoing(conn: int, message: seq<Member>)

  function RegisteredAck(workerId: string): seq<Member> {
    [Member("type", JStr("registered")), Member("worker_id", JStr(workerId))]
  }

  function InferenceTask(frameId: int, frameData: string): seq<Member> {
    [Member("type", JStr("inference_task")), Member("frame_id", JInt(frameId)), Member("frame_data", JStr(frameData))]
  }

  /** `struct.pack('>I', len(data)) + data` with `data = json.dumps(obj).encode()`, when the length fits the header. */
  function Wire(obj: seq<Member>): Option<seq<Byte>> {
    Encode(AsciiBytes(Dumps(obj)))
  }

  /** The receiving end reads back exactly the JSON text of the command that was sent. */
  lemma WireRoundTrip(obj: seq<Member>, rest: seq<Byte>)
    requires Wire(obj).Some?
    ensures ReadFrame(Wire(obj).value + rest) == Message(AsciiBytes(Dumps(obj)), rest)
  {
    FrameRoundTrip(AsciiBytes(Dumps(obj)), rest);
  }

  // ----- Eligibility and round-robin -----

  /** A worker can take a task when no specialty is asked for, when it has that specialty, or when it is a generalist. */
  predicate Eligible(info: WorkerInfo, required: Option<string>) {
    required.None? || info.specialty == required.value || info.specialty == "Generalist"
  }

  /** The eligible workers, in registration order. */
  function EligibleIds(order: seq<string>, workers: map<string, WorkerInfo>, required: Option<string>): (r: seq<string>)
    ensures forall id :: id in r <==> id in order && id in workers && Eligible(workers[id], required)
    ensures forall k :: 0 <= k < |r| ==> r[k] in workers
    ensures |r| <= |order|
  {
    if order == [] then []
    else
      var tail := EligibleIds(order[1..], workers, required);
      if order[0] in workers && Eligible(workers[order[0]], required) then [order[0]] + tail else tail
  }

  lemma EligibleIdsSnoc(order: seq<string>, id: string, workers: map<string, WorkerInfo>, required: Option<string>)
    requires id in workers
    ensures EligibleIds(order + [id], workers, required) ==
      EligibleIds(order, workers, required) + if Eligible(workers[id], required) then [id] else []
  {
    if order != [] {
      assert (order + [id])[1..] == order[1..] + [id];
      EligibleIdsSnoc(order[1..], id, workers, required);
    }
  }

  /** The next round-robin position among `m` candidates. */
  function NextIndex(index: int, m: nat): (i: nat)
    requires m > 0
    ensures i < m
  {
    (index + 1) % m
  }

  /**
   * While the eligible list stays the same (so the index is already a
   * position in it), `m` successive tasks go to `m` different workers, so
   * every eligible worker gets one.
   */
  lemma RoundRobinVisitsAll(index: int, m: nat, a: nat, b: nat)
    requires 0 <= index < m && a < b < m
    ensures NextIndex(index + a, m) != NextIndex(index + b, m)
  {
    ModStep(index + a + 1, m);
    ModStep(index + b + 1, m);
  }

  lemma ModStep(x: int, m: int)
    requires 0 <= x < 2 * m
    ensures x % m == if x < m then x else x - m
  {
    if x < m {
      assert x == 0 * m + x;
    } else {
      assert x == 1 * m + (x - m);
    }
  }

  // ----- Detections reported to the shared state -----

  /** The detection list and event queue of the shared state. */
  datatype DetectionLog = DetectionLog(detections: seq<Detection>, events: seq<Event>)

  /** `add_detection` for each reported detection, in order. */
  function Recorded(log: DetectionLog, dets: seq<Reported>, frameId: int, now: real, cap: int): (r: DetectionLog)
    ensures dets == [] ==> r == log
    decreases |dets|
  {
    if dets == [] then log
    else
      var prior := Recorded(log, dets[..|dets| - 1], frameId, now, cap);
      var d := dets[|dets| - 1];
      DetectionLog(
        Trim(prior.detections + [Detection(d.className, d.confidence, d.bbox, frameId, now)], cap),
        Enqueue(prior.events, Event(DetectionAdded(d.className, d.confidence, d.bbox, frameId), now), EventQueueSize))
  }

  /** The entries `add_detection` makes for the reported detections. */
  function AsDetections(dets: seq<Reported>, frameId: int, now: real): (r: seq<Detection>)
    ensures |r| == |dets|
    ensures forall k :: 0 <= k < |dets| ==>
      r[k] == Detection(dets[k].className, dets[k].confidence, dets[k].bbox, frameId, now)
    decreases |dets|
  {
    if dets == [] then []
    else
      var d := dets[|dets| - 1];
      AsDetections(dets[..|dets| - 1], frameId, now) + [Detection(d.className, d.confidence, d.bbox, frameId, now)]
  }

  /** With room to spare, every reported detection is kept, in order, after the old ones. */
  lemma {:induction false} RecordedKeepsAll(log: DetectionLog, dets: seq<Reported>, frameId: int, now: real, cap: int)
    requires cap == 0 || |log.detections| + |dets| <= cap
    ensures Recorded(log, dets, frameId, now, cap).detections == log.detections + AsDetections(dets, frameId, now)
    decreases |dets|
  {
    if dets != [] {
      var front := dets[..|dets| - 1];
      RecordedKeepsAll(log, front, frameId, now, cap);
      var d := dets[|dets| - 1];
      var entry := Detection(d.className, d.confidence, d.bbox, frameId, now);
      var grown := log.detections + AsDetections(front, frameId, now) + [entry];
      assert Recorded(log, dets, frameId, now, cap).detections == Trim(grown, cap);
      assert |grown| == |log.detections| + |dets|;
      assert Trim(grown, cap) == grown;
      assert AsDetections(dets, frameId, now) == AsDetections(front, frameId, now) + [entry];
    }
  }

  // ----- The registry -----

  class WorkerManager {
    var workers: map<string, WorkerInfo>
    /** The keys of `workers` in insertion order, as the dict iterates them. */
    var order: seq<string>
    var pending: map<int, Pending>
    var index: int
    /** Every frame sent, with the connection it went to. */
    var outbox: seq<Outgoing>
    const state: StateManager

    ghost predicate Valid()
      reads this
    {
      && (forall k :: 0 <= k < |order| ==> order[k] in workers)
      && (forall id :: id in workers ==> id in order)
      && Distinct(order)
    }

    constructor (state: StateManager)
      ensures Valid()
      ensures this.state == state
      ensures workers == map[] && order == [] && pending == map[] && index == 0 && outbox == []
    {
      workers := map[];
      order := [];
      pending := map[];
      index := 0;
      outbox := [];
      this.state := state;
    }

    /**
     * A `register` message: the entry for the id is created or replaced (a
     * replaced entry keeps its place in the iteration order) and the
     * connection is acknowledged. The connection now speaks for that id.
     */
    method Register(conn: int, msg: WorkerMsg, now: real) returns (session: Option<string>)
      requires Valid() && msg.RegisterMsg?
      modifies this`workers, this`order, this`outbox
      ensures Valid()
      ensures session == Some(msg.workerId)
      ensures workers == old(workers)[msg.workerId := WorkerInfo(conn, msg.name, msg.model,
        msg.specialty.GetOr("Generalist"), msg.role.GetOr("sub-worker"), now, map[])]
      ensures order == if msg.workerId in old(workers) then old(order) else old(order) + [msg.workerId]
      ensures outbox == old(outbox) + [Outgoing(conn, RegisteredAck(msg.workerId))]
    {
      var id := msg.workerId;
      Put(id, WorkerInfo(conn, msg.name, msg.model, msg.specialty.GetOr("Generalist"), msg.role.GetOr("sub-worker"), now, map[]));
      outbox := outbox + [Outgoing(conn, RegisteredAck(id))];
      session := Some(id);
    }

    /** `self.workers[id] = info`. */
    method Put(id: string, info: WorkerInfo)
      requires Valid()
      modifies this`workers, this`order
      ensures Valid()
      ensures workers == old(workers)[id := info]
      ensures order == if id in old(workers) then old(order) else old(order) + [id]
    {
      if id !in workers {
        assert id !in order;
        order := order + [id];
      }
      workers := workers[id := info];
    }

    /** A `heartbeat`: only a registered id gets a new `last_seen` and its stats (empty when absent). */
    method Heartbeat(session: Option<string>, msg: WorkerMsg, now: real)
      requires Valid() && msg.HeartbeatMsg?
      modifies this`workers
      ensures Valid()
      ensures session.Some? && session.value in old(workers) ==>
        workers == old(workers)[session.value := old(workers)[session.value].(lastSeen := now, stats := msg.stats.GetOr(map[]))]
      ensures !(session.Some? && session.value in old(workers)) ==> workers == old(workers)
    {
      if session.Some? && session.value in workers {
        var id := session.value;
        workers := workers[id := workers[id].(lastSeen := now, stats := msg.stats.GetOr(map[]))];
      }
    }

    /**
     * An `inference_result`: a frame someone waits for gets its detections
     * and is signalled; the detections go to the shared state either way.
     */
    method InferenceResult(msg: WorkerMsg, now: real)
      requires msg.ResultMsg? && state.Valid()
      modifies this`pending, state`detections, state`eventQueue
      ensures state.Valid()
      ensures var frameId := msg.frameId.GetOr(0);
        && pending == (if frameId in old(pending) then old(pending)[frameId := Pending(Some(msg.detections.GetOr([])), true)] else old(pending))
        && DetectionLog(state.detections, state.eventQueue) ==
          Recorded(DetectionLog(old(state.detections), old(state.eventQueue)), msg.detections.GetOr([]), frameId, now, state.maxDetections)
    {
      var frameId := msg.frameId.GetOr(0);
      var dets := msg.detections.GetOr([]);
      if frameId in pending {
        pending := pending[frameId := Pending(Some(dets), true)];
      }
      RecordAll(dets, frameId, now);
    }

    /** The loop over the reported detections. */
    method RecordAll(dets: seq<Reported>, frameId: int, now: real)
      requires state.Valid()
      modifies state`detections, state`eventQueue
      ensures state.Valid()
      ensures DetectionLog(state.detections, state.eventQueue) ==
        Recorded(DetectionLog(old(state.detections), old(state.eventQueue)), dets, frameId, now, state.maxDetections)
    {
      ghost var start := DetectionLog(state.detections, state.eventQueue);
      for k := 0 to |dets|
        invariant state.Valid()
        invariant DetectionLog(state.detections, state.eventQueue) == Recorded(start, dets[..k], frameId, now, state.maxDetections)
      {
        var d := dets[k];
        state.AddDetection(d.className, d.confidence, d.bbox, frameId, now);
        assert dets[..k + 1][..k] == dets[..k];
      }
      assert dets[..|dets|] == dets;
    }

    /** `finally` of the connection handler: the id this connection registered is forgotten. */
    method Disconnect(session: Option<string>)
      requires Valid()
      modifies this`workers, this`order
      ensures Valid()
      ensures session.Some? ==> workers == old(workers) - {session.value} && order == Without(old(order), session.value)
      ensures session.None? ==> workers == old(workers) && order == old(order)
    {
      if session.Some? && session.value in workers {
        Remove(session.value);
      }
      if session.Some? {
        WithoutAbsent(order, session.value);
      }
    }

    /** `del self.workers[id]`. */
    method Remove(id: string)
      requires Valid() && id in workers
      modifies this`workers, this`order
      ensures Valid()
      ensures workers == old(workers) - {id} && order == Without(old(order), id)
    {
      WithoutDistinct(order, id);
      ghost var before := workers;
      ghost var oldOrder := order;
      workers := workers - {id};
      order := Without(order, id);
      forall x | x in workers ensures x in order {
        assert x in before && x != id;
        assert x in oldOrder;
      }
      forall k | 0 <= k < |order| ensures order[k] in workers {
        assert order[k] in order;
      }
    }

    /** `_cleanup_loop`, one pass: every worker silent for more than 15 seconds is removed. */
    method Cleanup(now: real)
      requires Valid()
      modifies this`workers, this`order
      ensures Valid()
      ensures forall id :: id in workers <==> id in old(workers) && !Expired(old(workers)[id], now)
      ensures forall id :: id in workers ==> workers[id] == old(workers)[id]
      ensures order == Fresh(old(order), old(workers), now)
    {
      var expired := ExpiredIds(now);
      ghost var w0 := workers;
      ghost var o0 := order;
      for k := 0 to |expired|
        invariant Valid()
        invariant forall id :: id in workers <==> id in w0 && id !in expired[..k]
        invariant forall id :: id in workers ==> workers[id] == w0[id]
        invariant order == Keep(o0, expired[..k])
      {
        var id := expired[k];
        assert expired[..k + 1] == expired[..k] + [id];
        KeepSnoc(o0, expired[..k], id);
        if id in workers {
          Remove(id);
        } else {
          WithoutAbsent(order, id);
        }
      }
      assert expired[..|expired|] == expired;
      KeepExpired(o0, w0, now, expired);
    }

    /** The first loop of the cleanup pass: the ids to remove, in iteration order. */
    method ExpiredIds(now: real) returns (expired: seq<string>)
      requires Valid()
      ensures forall id :: id in expired <==> id in workers && Expired(workers[id], now)
    {
      expired := [];
      for k := 0 to |order|
        invariant forall id :: id in expired <==> id in order[..k] && Expired(workers[id], now)
      {
        if Expired(workers[order[k]], now) {
          expired := expired + [order[k]];
        }
        assert order[..k + 1] == order[..k] + [order[k]];
      }
      assert order[..|order|] == order;
    }

    /** The eligibility loop of `distribute_task_sync`. */
    method EligibleWorkers(required: Option<string>) returns (eligible: seq<string>)
      requires Valid()
      ensures eligible == EligibleIds(order, workers, required)
    {
      eligible := FilterEligible(order, workers, required);
    }

    /**
     * `distribute_task_sync`: with no workers, or none eligible, nothing
     * changes and the result is `None`. Otherwise the round-robin index moves
     * on, the task is framed and sent to the chosen worker, and the result is
     * what arrived in time (`None` on a failed send or a timeout). The frame's
     * pending entry is gone afterwards on every path.
     */
    method DistributeTaskSync(frameData: string, frameId: int, required: Option<string>, sendFails: bool, arrived: Option<seq<Reported>>)
      returns (result: Option<seq<Reported>>, target: Option<string>)
      requires Valid()
      modifies this`index, this`pending, this`outbox
      ensures Valid()
      ensures EligibleIds(order, workers, required) == [] ==>
        result.None? && target.None? && index == old(index) && pending == old(pending) && outbox == old(outbox)
      ensures EligibleIds(order, workers, required) != [] ==>
        && index == NextIndex(old(index), |EligibleIds(order, workers, required)|)
        && target == Some(EligibleIds(order, workers, required)[index])
        && pending == old(pending) - {frameId}
        && outbox == old(outbox) + (if sendFails then [] else [Outgoing(workers[target.value].conn, InferenceTask(frameId, frameData))])
        && result == if sendFails then None else arrived
    {
      if workers == map[] {
        return None, None;
      }
      var eligible := EligibleWorkers(required);
      if eligible == [] {
        return None, None;
      }
      index := (index + 1) % |eligible|;
      var id := eligible[index];
      target := Some(id);
      result := HandOff(workers[id].conn, frameData, frameId, sendFails, arrived);
    }

    /** Steps 3 to 6 of `distribute_task_sync`, once the target is chosen. */
    method HandOff(conn: int, frameData: string, frameId: int, sendFails: bool, arrived: Option<seq<Reported>>)
      returns (result: Option<seq<Reported>>)
      modifies this`pending, this`outbox
      ensures pending == old(pending) - {frameId}
      ensures outbox == old(outbox) + (if sendFails then [] else [Outgoing(conn, InferenceTask(frameId, frameData))])
      ensures result == if sendFails then None else arrived
    {
      pending := pending[frameId := Pending(None, false)];
      if sendFails {
        pending := pending - {frameId};
        return None;
      }
      outbox := outbox + [Outgoing(conn, InferenceTask(frameId, frameData))];
      result := arrived;
      pending := pending - {frameId};
    }
  }

  /** The loop body of the eligibility scan, on the registry's order and entries. */
  method FilterEligible(ids: seq<string>, known: map<string, WorkerInfo>, required: Option<string>)
    returns (eligible: seq<string>)
    requires forall k :: 0 <= k < |ids| ==> ids[k] in known
    ensures eligible == EligibleIds(ids, known, required)
  {
    eligible := [];
    for k := 0 to |ids|
      invariant eligible == EligibleIds(ids[..k], known, required)
    {
      var id := ids[k];
      assert ids[..k + 1] == ids[..k] + [id];
      EligibleIdsSnoc(ids[..k], id, known, required);
      if Eligible(known[id], required) {
        eligible := eligible + [id];
      }
    }
    assert ids[..|ids|] == ids;
  }

  predicate Expired(info: WorkerInfo, now: real) {
    now - info.lastSeen > HeartbeatTimeout
  }

  /** A sequence with every occurrence of `id` removed. */
  function Without(s: seq<string>, id: string): (r: seq<string>)
    ensures forall x :: x in r <==> x in s && x != id
    ensures |r| <= |s|
  {
    if s == [] then []
    else if s[0] == id then Without(s[1..], id)
    else [s[0]] + Without(s[1..], id)
  }

  /** `s` without any of `gone`. */
  function Keep(s: seq<string>, gone: seq<string>): (r: seq<string>)
    ensures forall x :: x in r <==> x in s && x !in gone
  {
    if gone == [] then s else Without(Keep(s, gone[..|gone| - 1]), gone[|gone| - 1])
  }

  /** The iteration order after the cleanup pass. */
  function Fresh(order: seq<string>, workers: map<string, WorkerInfo>, now: real): (r: seq<string>)
    requires forall k :: 0 <= k < |order| ==> order[k] in workers
    ensures forall x :: x in r <==> x in order && !Expired(workers[x], now)
  {
    if order == [] then []
    else if Expired(workers[order[0]], now) then Fresh(order[1..], workers, now)
    else [order[0]] + Fresh(order[1..], workers, now)
  }

  lemma WithoutAbsent(s: seq<string>, id: string)
    requires id !in s
    ensures Without(s, id) == s
  {
    if s != [] {
      WithoutAbsent(s[1..], id);
    }
  }

  predicate Distinct(s: seq<string>) {
    forall j, k :: 0 <= j < k < |s| ==> s[j] != s[k]
  }

  lemma {:induction false} WithoutDistinct(s: seq<string>, id: string)
    requires Distinct(s)
    ensures Distinct(Without(s, id))
  {
    if s != [] {
      WithoutDistinct(s[1..], id);
      var tail := Without(s[1..], id);
      if s[0] != id {
        forall x | x in s[1..] ensures x != s[0] {
          var k :| 0 <= k < |s[1..]| && s[1..][k] == x;
          assert s[k + 1] == x;
        }
        assert s[0] !in tail;
        var r := [s[0]] + tail;
        assert Without(s, id) == r;
        forall j, k | 0 <= j < k < |r| ensures r[j] != r[k] {
          if j == 0 {
            assert r[k] == tail[k - 1] && tail[k - 1] in tail;
          } else {
            assert r[j] == tail[j - 1] && r[k] == tail[k - 1];
          }
        }
      }
    }
  }

  lemma KeepSnoc(s: seq<string>, gone: seq<string>, id: string)
    ensures Keep(s, gone + [id]) == Without(Keep(s, gone), id)
  {
    assert (gone + [id])[..|gone|] == gone;
  }

  /** Removing the expired ids one by one leaves the fresh ones in their order. */
  lemma {:induction false} KeepExpired(order: seq<string>, workers: map<string, WorkerInfo>, now: real, expired: seq<string>)
    requires forall k :: 0 <= k < |order| ==> order[k] in workers
    requires forall id :: id in expired <==> id in workers && Expired(workers[id], now)
    ensures Keep(order, expired) == Fresh(order, workers, now)
  {
    KeepFilters(order, expired);
    FreshFilters(order, workers, now, expired);
  }

  /** Dropping a set of ids from a sequence, element by element. */
  function DropAll(s: seq<string>, gone: seq<string>): (r: seq<string>) {
    if s == [] then []
    else if s[0] in gone then DropAll(s[1..], gone)
    else [s[0]] + DropAll(s[1..], gone)
  }

  lemma {:induction false} WithoutDropAll(s: seq<string>, gone: seq<string>, id: string)
    ensures Without(DropAll(s, gone), id) == DropAll(s, gone + [id])
  {
    if s != [] {
      WithoutDropAll(s[1..], gone, id);
      if s[0] !in gone && s[0] != id {
        assert s[0] !in gone + [id];
      }
    }
  }

  lemma {:induction false} DropNothing(s: seq<string>)
    ensures DropAll(s, []) == s
  {
    if s != [] {
      DropNothing(s[1..]);
    }
  }

  lemma {:induction false} KeepFilters(s: seq<string>, gone: seq<string>)
    ensures Keep(s, gone) == DropAll(s, gone)
    decreases |gone|
  {
    if gone == [] {
      DropNothing(s);
    } else {
      var front := gone[..|gone| - 1];
      KeepFilters(s, front);
      WithoutDropAll(s, front, gone[|gone| - 1]);
      assert front + [gone[|gone| - 1]] == gone;
    }
  }

  lemma {:induction false} FreshFilters(order: seq<string>, workers: map<string, WorkerInfo>, now: real, expired: seq<string>)
    requires forall k :: 0 <= k < |order| ==> order[k] in workers
    requires forall id :: id in expired <==> id in workers && Expired(workers[id], now)
    ensures DropAll(order, expired) == Fresh(order, workers, now)
  {
    if order != [] {
      FreshFilters(order[1..], workers, now, expired);
    }
  }
}
