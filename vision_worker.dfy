// The frame pipeline of the vision worker: which frames are handed to a
// remote worker, the fallback to local inference, and the two counters.
// The camera, the detector and the drawing library are outside the model:
// a frame is its base64 text, local inference is the list of boxes the
// detector would return, and a drawn frame is the list of marks put on it.

module Vision {
  import opened Wrappers
  import opened SharedState
  import opened Workers

  // ----- Class names -----

  const ClassNames: seq<string> := [
    "Fire", "Smoke", "Flood", "Falling Debris",
    "Landslide", "Explosion", "Collapsed Structure", "Industrial Accident"]

  /** The label for a detector class id; ids past the table are "Hazard". */
  function ClassName(id: nat): (r: string)
    ensures r in ClassNames <==> id < |ClassNames|
    ensures id >= |ClassNames| ==> r == "Hazard"
  {
    if id < |ClassNames| then ClassNames[id] else "Hazard"
  }

  // ----- The offload schedule -----

  /**
   * `should_offload`: with `workerCount` workers registered, frame number
   * `counter` goes to a worker unless it is a multiple of `workerCount + 1`.
   */
  predicate ShouldOffload(counter: nat, workerCount: nat) {
    workerCount > 0 && counter % (workerCount + 1) != 0
  }

  /** How many of the frame numbers `start`, ..., `start + len - 1` are processed locally by choice. */
  function LocalCount(start: nat, len: nat, workerCount: nat): (r: nat)
    ensures r <= len
    decreases len
  {
    if len == 0 then 0
    else (if ShouldOffload(start, workerCount) then 0 else 1) + LocalCount(start + 1, len - 1, workerCount)
  }

  /** With no workers, every frame is processed locally. */
  lemma {:induction false} NoWorkersAllLocal(start: nat, len: nat)
    ensures LocalCount(start, len, 0) == len
    decreases len
  {
    if len > 0 {
      NoWorkersAllLocal(start + 1, len - 1);
    }
  }

  lemma {:induction false} LocalCountSnoc(start: nat, len: nat, workerCount: nat)
    ensures LocalCount(start, len + 1, workerCount)
      == LocalCount(start, len, workerCount) + (if ShouldOffload(start + len, workerCount) then 0 else 1)
    decreases len
  {
    if len > 0 {
      LocalCountSnoc(start + 1, len - 1, workerCount);
    }
  }

  /** Frame numbers `start`, ..., `start + len - 1` below `d` other than 0 are not multiples of `d`. */
  lemma {:induction false} NoneLocalBelow(start: nat, len: nat, n: nat)
    requires n > 0 && 0 < start && start + len <= n + 1
    ensures LocalCount(start, len, n) == 0
    decreases len
  {
    if len > 0 {
      DivUnique(start, n + 1, 0, start);
      NoneLocalBelow(start + 1, len - 1, n);
    }
  }

  /**
   * With `n > 0` workers, any `n + 1` consecutive frame numbers hold exactly
   * one frame processed locally by choice: the multiple of `n + 1`.
   */
  lemma {:induction false} OneLocalPerWindow(start: nat, n: nat)
    requires n > 0
    ensures LocalCount(start, n + 1, n) == 1
    decreases start
  {
    if start == 0 {
      NoneLocalBelow(1, n, n);
    } else {
      OneLocalPerWindow(start - 1, n);
      LocalCountSnoc(start, n, n);
      ShiftByPeriod(start - 1, n + 1);
      assert ShouldOffload(start - 1, n) == ShouldOffload(start + n, n);
    }
  }

  lemma ShiftByPeriod(a: nat, d: nat)
    requires d > 0
    ensures (a + d) % d == a % d
  {
    var q, r := a / d, a % d;
    assert a == q * d + r;
    assert a + d == (q + 1) * d + r;
    DivUnique(a + d, d, q + 1, r);
  }

  /** Euclidean division has one quotient and one remainder. */
  lemma DivUnique(x: int, d: int, q: int, r: int)
    requires d > 0 && x == q * d + r && 0 <= r < d
    ensures x % d == r && x / d == q
  {
    var q', r' := x / d, x % d;
    assert x == q' * d + r';
    if q > q' {
      MulAtLeast(q - q', d);
    } else if q < q' {
      MulAtLeast(q' - q, d);
    }
  }

  lemma MulAtLeast(k: int, d: int)
    requires k >= 1 && d > 0
    ensures k * d >= d
  {
  }

  /** The result `_process_frame` draws from: what a worker sent back, or `None` for the local path. */
  function Delegated(offload: bool, sendFails: bool, arrived: Option<seq<Reported>>): (r: Option<seq<Reported>>)
    ensures r.Some? ==> offload && !sendFails && r == arrived
    ensures offload && !sendFails ==> r == arrived
  {
    if offload && !sendFails then arrived else None
  }

  // ----- Local inference and drawing -----

  /** One box from the local detector. */
  datatype Box = Box(x1: real, y1: real, x2: real, y2: real, confidence: real, classId: nat)

  /** A colour in the drawing library's blue-green-red order. */
  datatype Colour = Colour(blue: int, green: int, red: int)

  const LocalColour := Colour(0, 0, 255)
  const RemoteColour := Colour(255, 100, 0)

  /** A rectangle and caption drawn on the frame. */
  datatype Mark = Mark(className: string, confidence: real, bbox: seq<real>, colour: Colour)

  /** The detection the local path records for a box. */
  function Labelled(b: Box): (r: Reported)
    ensures r.className == "Hazard" || r.className in ClassNames
    ensures r.bbox == [b.x1, b.y1, b.x2, b.y2] && r.confidence == b.confidence
  {
    Reported(ClassName(b.classId), b.confidence, [b.x1, b.y1, b.x2, b.y2])
  }

  function AllLabelled(boxes: seq<Box>): (r: seq<Reported>)
    ensures |r| == |boxes|
    ensures forall k :: 0 <= k < |boxes| ==> r[k] == Labelled(boxes[k])
    decreases |boxes|
  {
    if boxes == [] then [] else AllLabelled(boxes[..|boxes| - 1]) + [Labelled(boxes[|boxes| - 1])]
  }

  function Marked(dets: seq<Reported>, colour: Colour): (r: seq<Mark>)
    ensures |r| == |dets|
    ensures forall k :: 0 <= k < |dets| ==>
      r[k] == Mark(dets[k].className, dets[k].confidence, dets[k].bbox, colour)
    decreases |dets|
  {
    if dets == [] then []
    else
      var d := dets[|dets| - 1];
      Marked(dets[..|dets| - 1], colour) + [Mark(d.className, d.confidence, d.bbox, colour)]
  }

  /**
   * With at least one worker registered, a task that asks for no specialty
   * finds an eligible worker, so `distribute_task_sync` has someone to pick.
   */
  lemma SomeEligible(m: WorkerManager)
    requires m.Valid() && |m.workers| > 0
    ensures EligibleIds(m.order, m.workers, None) != []
  {
    var id :| id in m.workers;
    assert id in EligibleIds(m.order, m.workers, None);
  }

  class VisionWorker {
    const manager: WorkerManager
    /** Frames seen so far; drives the offload schedule. */
    var frameCounter: nat
    /** Frames run through the local detector. */
    var inferenceCount: nat

    constructor (manager: WorkerManager)
      ensures this.manager == manager && frameCounter == 0 && inferenceCount == 0
    {
      this.manager := manager;
      frameCounter := 0;
      inferenceCount := 0;
    }

    /**
     * `_process_frame`. The counter moves on; with `N > 0` workers and a
     * counter that is not a multiple of `N + 1` the frame is handed to the
     * manager. If nothing comes back (no offload, a failed send, or a
     * timeout, when `arrived` is `None`) the local detector runs, its boxes
     * are recorded in the shared state and `inference_count` goes up; else
     * the remote detections are drawn and nothing is recorded here.
     */
    method ProcessFrame(frameId: int, frameData: string, boxes: seq<Box>, sendFails: bool, arrived: Option<seq<Reported>>, now: real)
      returns (marks: seq<Mark>)
      requires manager.Valid() && manager.state.Valid()
      modifies this`frameCounter, this`inferenceCount, manager`index, manager`pending, manager`outbox
      modifies manager.state`detections, manager.state`eventQueue
      ensures manager.Valid() && manager.state.Valid()
      ensures frameCounter == old(frameCounter) + 1
      ensures !ShouldOffload(frameCounter, |manager.workers|) ==>
        manager.index == old(manager.index) && manager.pending == old(manager.pending) && manager.outbox == old(manager.outbox)
      ensures ShouldOffload(frameCounter, |manager.workers|) ==>
        && manager.index == NextIndex(old(manager.index), |manager.order|)
        && manager.pending == old(manager.pending) - {frameId}
        && manager.outbox == old(manager.outbox) +
          (if sendFails then [] else [Outgoing(manager.workers[manager.order[manager.index]].conn, InferenceTask(frameId, frameData))])
      ensures var remote := Delegated(ShouldOffload(frameCounter, |manager.workers|), sendFails, arrived);
        if remote.Some? then
          && marks == Marked(remote.value, RemoteColour)
          && inferenceCount == old(inferenceCount)
          && manager.state.detections == old(manager.state.detections)
          && manager.state.eventQueue == old(manager.state.eventQueue)
        else
          && marks == Marked(AllLabelled(boxes), LocalColour)
          && inferenceCount == old(inferenceCount) + 1
          && DetectionLog(manager.state.detections, manager.state.eventQueue) ==
            Recorded(DetectionLog(old(manager.state.detections), old(manager.state.eventQueue)),
              AllLabelled(boxes), frameId, now, manager.state.maxDetections)
    {
      frameCounter := frameCounter + 1;
      var workerCount := |manager.workers|;
      var offload := workerCount > 0 && frameCounter % (workerCount + 1) != 0;
      assert offload == ShouldOffload(frameCounter, workerCount);
      var remote: Option<seq<Reported>> := None;
      if offload {
        remote := Delegate(frameId, frameData, sendFails, arrived);
      }
      assert remote == Delegated(offload, sendFails, arrived);
      marks := Finish(remote, boxes, frameId, now);
    }

    /** Steps after the hand-off: the local fallback when nothing came back, then the drawing. */
    method Finish(remote: Option<seq<Reported>>, boxes: seq<Box>, frameId: int, now: real) returns (marks: seq<Mark>)
      requires manager.state.Valid()
      modifies this`inferenceCount, manager.state`detections, manager.state`eventQueue
      ensures manager.state.Valid()
      ensures if remote.Some? then
          && marks == Marked(remote.value, RemoteColour)
          && inferenceCount == old(inferenceCount)
          && manager.state.detections == old(manager.state.detections)
          && manager.state.eventQueue == old(manager.state.eventQueue)
        else
          && marks == Marked(AllLabelled(boxes), LocalColour)
          && inferenceCount == old(inferenceCount) + 1
          && DetectionLog(manager.state.detections, manager.state.eventQueue) ==
            Recorded(DetectionLog(old(manager.state.detections), old(manager.state.eventQueue)),
              AllLabelled(boxes), frameId, now, manager.state.maxDetections)
    {
      var drawn: seq<Reported>;
      var colour: Colour;
      if remote.Some? {
        drawn := remote.value;
        colour := RemoteColour;
      } else {
        drawn := RunLocal(boxes, frameId, now);
        inferenceCount := inferenceCount + 1;
        colour := LocalColour;
      }
      marks := Draw(drawn, colour);
    }

    /** The hand-off to the manager when the schedule says so; some worker is always eligible then. */
    method Delegate(frameId: int, frameData: string, sendFails: bool, arrived: Option<seq<Reported>>)
      returns (remote: Option<seq<Reported>>)
      requires manager.Valid() && |manager.workers| > 0
      modifies manager`index, manager`pending, manager`outbox
      ensures manager.Valid()
      ensures remote == Delegated(true, sendFails, arrived)
      ensures manager.index == NextIndex(old(manager.index), |manager.order|)
      ensures manager.index < |manager.order|
      ensures manager.pending == old(manager.pending) - {frameId}
      ensures manager.outbox == old(manager.outbox) +
        (if sendFails then [] else [Outgoing(manager.workers[manager.order[manager.index]].conn, InferenceTask(frameId, frameData))])
    {
      SomeEligible(manager);
      EligibleAll(manager);
      var target;
      remote, target := manager.DistributeTaskSync(frameData, frameId, None, sendFails, arrived);
    }

    /** The local path: each box is labelled, kept for drawing and recorded in the shared state. */
    method RunLocal(boxes: seq<Box>, frameId: int, now: real) returns (drawn: seq<Reported>)
      requires manager.state.Valid()
      modifies manager.state`detections, manager.state`eventQueue
      ensures manager.state.Valid()
      ensures drawn == AllLabelled(boxes)
      ensures DetectionLog(manager.state.detections, manager.state.eventQueue) ==
        Recorded(DetectionLog(old(manager.state.detections), old(manager.state.eventQueue)), drawn, frameId, now, manager.state.maxDetections)
    {
      var state := manager.state;
      ghost var start := DetectionLog(state.detections, state.eventQueue);
      drawn := [];
      for k := 0 to |boxes|
        invariant state.Valid()
        invariant drawn == AllLabelled(boxes[..k])
        invariant DetectionLog(state.detections, state.eventQueue) == Recorded(start, drawn, frameId, now, state.maxDetections)
      {
        var b := boxes[k];
        var name := ClassName(b.classId);
        state.AddDetection(name, b.confidence, [b.x1, b.y1, b.x2, b.y2], frameId, now);
        drawn := drawn + [Reported(name, b.confidence, [b.x1, b.y1, b.x2, b.y2])];
        assert boxes[..k + 1][..k] == boxes[..k];
      }
      assert boxes[..|boxes|] == boxes;
    }

    /** The drawing loop: one mark per detection, in the path's colour. */
    method Draw(drawn: seq<Reported>, colour: Colour) returns (marks: seq<Mark>)
      ensures marks == Marked(drawn, colour)
    {
      marks := [];
      for k := 0 to |drawn|
        invariant marks == Marked(drawn[..k], colour)
      {
        var d := drawn[k];
        marks := marks + [Mark(d.className, d.confidence, d.bbox, colour)];
        assert drawn[..k + 1][..k] == drawn[..k];
      }
      assert drawn[..|drawn|] == drawn;
    }
  }

  /** Without a required specialty every registered worker is eligible, in registration order. */
  lemma EligibleAll(m: WorkerManager)
    requires m.Valid()
    ensures EligibleIds(m.order, m.workers, None) == m.order
  {
    EligibleAllOf(m.order, m.workers);
  }

  lemma {:induction false} EligibleAllOf(order: seq<string>, workers: map<string, WorkerInfo>)
    requires forall k :: 0 <= k < |order| ==> order[k] in workers
    ensures EligibleIds(order, workers, None) == order
    decreases |order|
  {
    if order != [] {
      EligibleAllOf(order[1..], workers);
    }
  }
}
