/**
 * The transport bridge of WonderPy/core/wwWSMgr.py (class `WWWSManager`):
 * the inbound sensor queue, the outbound frame queue, `sendJson`, one
 * iteration of the worker loop `robot_thread`, and one step each of the
 * websocket receive (`_consumer_task`) and send (`_producer_task`) tasks.
 *
 * The robot object (its `_parse_sensors` and `send_staged`) and the
 * delegate's callback are not part of this model: the worker loop records
 * what it asks of them as events, and the batch `send_staged` hands to
 * `sendJson` in an iteration is a parameter of that iteration.
 */
module WebSocketManager {
  import opened Values

  /** An outbound frame. JSON encoding is not modelled: the frame is the batch it encodes. */
  datatype Frame = Serialized(batch: Object)

  /** What the worker loop asks of the robot and the delegate, in order. */
  datatype Event =
    | ParseSensors(packet: Object)
    | OnSensors(inOnSensors: bool)   // the thread-local flag as the callback sees it
    | SendStaged

  /** The state the worker loop reads and writes. */
  datatype WorkerState = WorkerState(inbound: seq<Object>, outbound: seq<Frame>, inOnSensors: bool, trace: seq<Event>)

  /**
   * `sendJson`: an empty batch is dropped; any other batch is appended once,
   * at the tail, after everything already queued.
   */
  function Staged(outbound: seq<Frame>, batch: Object): (r: seq<Frame>)
    ensures |r| == |outbound| + (if |batch| == 0 then 0 else 1)
    ensures r[..|outbound|] == outbound
    ensures |batch| > 0 ==> r[|outbound|] == Serialized(batch)
  {
    if |batch| == 0 then outbound else outbound + [Serialized(batch)]
  }

  /** One iteration of `robot_thread`: take a packet if one is queued, then send what is staged. */
  function WorkerStep(s: WorkerState, hasOnSensors: bool, staged: Object): WorkerState
  {
    Collected(s, hasOnSensors).(outbound := Staged(s.outbound, staged))
  }

  /** An iteration up to the point where `send_staged` hands its batch to `sendJson`. */
  function Collected(s: WorkerState, hasOnSensors: bool): WorkerState
  {
    var t := if s.inbound == [] then s else Dispatch(s, hasOnSensors);
    t.(trace := t.trace + [SendStaged])
  }

  /**
   * The head of the queue is removed and parsed; a delegate with a callback
   * then sees it with the flag set, and the flag is cleared afterwards.
   */
  function Dispatch(s: WorkerState, hasOnSensors: bool): (r: WorkerState)
    requires s.inbound != []
    ensures hasOnSensors ==> !r.inOnSensors && |r.trace| > 0 && r.trace[|r.trace| - 1] == OnSensors(true)
  {
    var parsed := s.(inbound := s.inbound[1..], trace := s.trace + [ParseSensors(s.inbound[0])]);
    if hasOnSensors then parsed.(inOnSensors := false, trace := parsed.trace + [OnSensors(true)])
    else parsed
  }

  /** Successive iterations, one per staged batch. */
  function Run(s: WorkerState, hasOnSensors: bool, batches: seq<Object>): WorkerState
    decreases |batches|
  {
    if batches == [] then s
    else Run(WorkerStep(s, hasOnSensors, batches[0]), hasOnSensors, batches[1..])
  }

  /** The packets handed to `_parse_sensors`, in order. */
  function ParsedPackets(trace: seq<Event>): seq<Object>
  {
    if trace == [] then []
    else
      var e := trace[|trace| - 1];
      ParsedPackets(trace[..|trace| - 1]) + (if e.ParseSensors? then [e.packet] else [])
  }

  function CountCallbacks(trace: seq<Event>): nat
  {
    if trace == [] then 0
    else CountCallbacks(trace[..|trace| - 1]) + (if trace[|trace| - 1].OnSensors? then 1 else 0)
  }

  function CountSends(trace: seq<Event>): nat
  {
    if trace == [] then 0
    else CountSends(trace[..|trace| - 1]) + (if trace[|trace| - 1].SendStaged? then 1 else 0)
  }

  /** `sendJson` over several batches: the non-empty ones, in order. */
  function StagedAll(outbound: seq<Frame>, batches: seq<Object>): seq<Frame>
    decreases |batches|
  {
    if batches == [] then outbound else StagedAll(Staged(outbound, batches[0]), batches[1..])
  }

  /**
   * The callback only ever follows the parse of a packet, and it only ever
   * runs with the thread-local flag set.
   */
  ghost predicate CallbacksFollowParse(trace: seq<Event>)
  {
    forall i | 0 <= i < |trace| && trace[i].OnSensors? ::
      trace[i].inOnSensors && 0 < i && trace[i - 1].ParseSensors?
  }

  /** Appending one event extends the parsed packets and the counts by that event alone. */
  lemma ParsedSnoc(trace: seq<Event>, e: Event)
    ensures ParsedPackets(trace + [e]) == ParsedPackets(trace) + (if e.ParseSensors? then [e.packet] else [])
  {
    assert (trace + [e])[..|trace|] == trace;
  }

  lemma ParsedStep(s: WorkerState, hasOnSensors: bool, staged: Object)
    ensures ParsedPackets(WorkerStep(s, hasOnSensors, staged).trace) == ParsedPackets(s.trace) + (if s.inbound == [] then [] else [s.inbound[0]])
  {
    if s.inbound == [] {
      ParsedSnoc(s.trace, SendStaged);
    } else {
      var p := s.trace + [ParseSensors(s.inbound[0])];
      ParsedSnoc(s.trace, ParseSensors(s.inbound[0]));
      if hasOnSensors {
        ParsedSnoc(p, OnSensors(true));
        ParsedSnoc(p + [OnSensors(true)], SendStaged);
      } else {
        ParsedSnoc(p, SendStaged);
      }
    }
  }

  lemma CallbacksSnoc(trace: seq<Event>, e: Event)
    ensures CountCallbacks(trace + [e]) == CountCallbacks(trace) + (if e.OnSensors? then 1 else 0)
  {
    assert (trace + [e])[..|trace|] == trace;
  }

  lemma CallbacksStep(s: WorkerState, hasOnSensors: bool, staged: Object)
    ensures CountCallbacks(WorkerStep(s, hasOnSensors, staged).trace) == CountCallbacks(s.trace) + (if s.inbound != [] && hasOnSensors then 1 else 0)
  {
    if s.inbound == [] {
      CallbacksSnoc(s.trace, SendStaged);
    } else {
      var p := s.trace + [ParseSensors(s.inbound[0])];
      CallbacksSnoc(s.trace, ParseSensors(s.inbound[0]));
      if hasOnSensors {
        CallbacksSnoc(p, OnSensors(true));
        CallbacksSnoc(p + [OnSensors(true)], SendStaged);
      } else {
        CallbacksSnoc(p, SendStaged);
      }
    }
  }

  lemma SendsSnoc(trace: seq<Event>, e: Event)
    ensures CountSends(trace + [e]) == CountSends(trace) + (if e.SendStaged? then 1 else 0)
  {
    assert (trace + [e])[..|trace|] == trace;
  }

  lemma SendsStep(s: WorkerState, hasOnSensors: bool, staged: Object)
    ensures CountSends(WorkerStep(s, hasOnSensors, staged).trace) == CountSends(s.trace) + 1
  {
    if s.inbound == [] {
      SendsSnoc(s.trace, SendStaged);
    } else {
      var p := s.trace + [ParseSensors(s.inbound[0])];
      SendsSnoc(s.trace, ParseSensors(s.inbound[0]));
      if hasOnSensors {
        SendsSnoc(p, OnSensors(true));
        SendsSnoc(p + [OnSensors(true)], SendStaged);
      } else {
        SendsSnoc(p, SendStaged);
      }
    }
  }

  /** What one iteration adds to the parsed packets and to the two counts. */
  lemma StepCounts(s: WorkerState, hasOnSensors: bool, staged: Object)
    ensures var t := WorkerStep(s, hasOnSensors, staged).trace;
      && ParsedPackets(t) == ParsedPackets(s.trace) + (if s.inbound == [] then [] else [s.inbound[0]])
      && CountCallbacks(t) == CountCallbacks(s.trace) + (if s.inbound != [] && hasOnSensors then 1 else 0)
      && CountSends(t) == CountSends(s.trace) + 1
  {
    ParsedStep(s, hasOnSensors, staged);
    CallbacksStep(s, hasOnSensors, staged);
    SendsStep(s, hasOnSensors, staged);
  }

  /** On an empty queue an iteration parses nothing and calls no callback; it only sends what is staged. */
  lemma StepOnEmptyQueue(s: WorkerState, hasOnSensors: bool, staged: Object)
    requires s.inbound == []
    ensures WorkerStep(s, hasOnSensors, staged).trace == s.trace + [SendStaged]
    ensures WorkerStep(s, hasOnSensors, staged).inbound == []
    ensures WorkerStep(s, hasOnSensors, staged).inOnSensors == s.inOnSensors
  {
  }

  /**
   * On a non-empty queue an iteration removes exactly the head, parses it,
   * then calls the callback (when the delegate has one) with the flag set,
   * clears the flag, and sends what is staged.
   */
  lemma StepPopsHead(s: WorkerState, hasOnSensors: bool, staged: Object)
    requires s.inbound != []
    ensures WorkerStep(s, hasOnSensors, staged).inbound == s.inbound[1..]
    ensures WorkerStep(s, hasOnSensors, staged).trace ==
      s.trace + [ParseSensors(s.inbound[0])] + (if hasOnSensors then [OnSensors(true)] else []) + [SendStaged]
    ensures hasOnSensors ==> !WorkerStep(s, hasOnSensors, staged).inOnSensors
  {
  }

  /** Every iteration keeps the callback behind the parse. */
  lemma StepKeepsCallbacksFollowParse(s: WorkerState, hasOnSensors: bool, staged: Object)
    requires CallbacksFollowParse(s.trace)
    ensures CallbacksFollowParse(WorkerStep(s, hasOnSensors, staged).trace)
  {
  }

  /** The number of packets k iterations take from a queue of `queued` packets. */
  function Taken(iterations: nat, queued: nat): nat
  {
    if iterations < queued then iterations else queued
  }

  /** Iterations take packets from the head of the queue, one each, until it is empty. */
  lemma {:induction false} RunPopsHead(s: WorkerState, hasOnSensors: bool, batches: seq<Object>)
    ensures Run(s, hasOnSensors, batches).inbound == s.inbound[Taken(|batches|, |s.inbound|)..]
    decreases |batches|
  {
    if batches != [] {
      var t := WorkerStep(s, hasOnSensors, batches[0]);
      assert Run(s, hasOnSensors, batches) == Run(t, hasOnSensors, batches[1..]);
      RunPopsHead(t, hasOnSensors, batches[1..]);
      if s.inbound != [] {
        assert t.inbound == s.inbound[1..];
        assert s.inbound[1..][Taken(|batches| - 1, |t.inbound|)..] == s.inbound[Taken(|batches|, |s.inbound|)..];
      } else {
        assert t.inbound == [];
      }
    }
  }

  /** One iteration moves the head of the queue, if any, to the end of the parsed packets. */
  lemma StepParsesHead(s: WorkerState, hasOnSensors: bool, staged: Object, m: nat)
    ensures var t := WorkerStep(s, hasOnSensors, staged);
      ParsedPackets(t.trace) + t.inbound[..Taken(m, |t.inbound|)]
        == ParsedPackets(s.trace) + s.inbound[..Taken(m + 1, |s.inbound|)]
  {
    StepCounts(s, hasOnSensors, staged);
    if s.inbound != [] {
      var t := WorkerStep(s, hasOnSensors, staged);
      assert t.inbound == s.inbound[1..];
      assert [s.inbound[0]] + t.inbound[..Taken(m, |t.inbound|)] == s.inbound[..Taken(m + 1, |s.inbound|)];
    }
  }

  /** The packets taken are parsed in queue order. */
  lemma {:induction false} RunParsesInOrder(s: WorkerState, hasOnSensors: bool, batches: seq<Object>)
    ensures ParsedPackets(Run(s, hasOnSensors, batches).trace)
      == ParsedPackets(s.trace) + s.inbound[..Taken(|batches|, |s.inbound|)]
    decreases |batches|
  {
    if batches != [] {
      var t := WorkerStep(s, hasOnSensors, batches[0]);
      RunParsesInOrder(t, hasOnSensors, batches[1..]);
      StepParsesHead(s, hasOnSensors, batches[0], |batches| - 1);
    }
  }

  /** The callback runs once per packet taken (when the delegate has one); `send_staged` once per iteration. */
  lemma {:induction false} RunCounts(s: WorkerState, hasOnSensors: bool, batches: seq<Object>)
    ensures CountCallbacks(Run(s, hasOnSensors, batches).trace)
      == CountCallbacks(s.trace) + (if hasOnSensors then Taken(|batches|, |s.inbound|) else 0)
    ensures CountSends(Run(s, hasOnSensors, batches).trace) == CountSends(s.trace) + |batches|
    decreases |batches|
  {
    if batches != [] {
      var t := WorkerStep(s, hasOnSensors, batches[0]);
      assert Run(s, hasOnSensors, batches) == Run(t, hasOnSensors, batches[1..]);
      assert |t.inbound| == if s.inbound == [] then 0 else |s.inbound| - 1;
      StepCounts(s, hasOnSensors, batches[0]);
      RunCounts(t, hasOnSensors, batches[1..]);
    }
  }

  /** The non-empty batches are queued for sending in the order they were staged. */
  lemma {:induction false} RunStagesInOrder(s: WorkerState, hasOnSensors: bool, batches: seq<Object>)
    ensures Run(s, hasOnSensors, batches).outbound == StagedAll(s.outbound, batches)
    decreases |batches|
  {
    if batches != [] {
      RunStagesInOrder(WorkerStep(s, hasOnSensors, batches[0]), hasOnSensors, batches[1..]);
    }
  }

  /**
   * The packets received so far are the ones parsed followed by the ones
   * still queued, and every callback follows a parse.
   */
  ghost predicate Consistent(received: seq<Object>, s: WorkerState)
  {
    received == ParsedPackets(s.trace) + s.inbound && CallbacksFollowParse(s.trace)
  }

  /** The worker's side of an iteration neither loses nor reorders packets. */
  lemma CollectedKeepsConsistent(received: seq<Object>, s: WorkerState, hasOnSensors: bool)
    requires Consistent(received, s)
    ensures Consistent(received, Collected(s, hasOnSensors))
  {
    StepCounts(s, hasOnSensors, map[]);
    StepKeepsCallbacksFollowParse(s, hasOnSensors, map[]);
    if s.inbound != [] {
      assert [s.inbound[0]] + s.inbound[1..] == s.inbound;
    }
  }

  /** The websocket manager's queues and the worker thread's flag. */
  class Manager {
    var sensorQueue: seq<Object>
    var outQueue: seq<Frame>
    var inOnSensors: bool
    var trace: seq<Event>
    /** Frames written to the websocket, in order. */
    var sent: seq<Frame>
    /** Every packet the receive task has queued, and every frame `sendJson` has queued. */
    ghost var received: seq<Object>
    ghost var enqueued: seq<Frame>

    /**
     * Nothing is lost or reordered: the parsed packets then the queued ones
     * are what was received; the sent frames then the queued ones are what
     * was staged; no empty frame is ever queued; between iterations the
     * worker is never inside the callback.
     */
    ghost predicate Valid()
      reads this
    {
      && Consistent(received, State())
      && !inOnSensors
      && enqueued == sent + outQueue
      && (forall i | 0 <= i < |enqueued| :: |enqueued[i].batch| > 0)
    }

    function State(): WorkerState
      reads this
    {
      WorkerState(sensorQueue, outQueue, inOnSensors, trace)
    }

    constructor()
      ensures Valid()
      ensures State() == WorkerState([], [], false, []) && sent == []
    {
      sensorQueue := [];
      outQueue := [];
      inOnSensors := false;
      trace := [];
      sent := [];
      received := [];
      enqueued := [];
    }

    method SendJson(batch: Object)
      requires Valid()
      modifies this
      ensures Valid()
      ensures outQueue == Staged(old(outQueue), batch)
      ensures sensorQueue == old(sensorQueue) && inOnSensors == old(inOnSensors)
      ensures trace == old(trace) && sent == old(sent) && received == old(received)
    {
      if |batch| == 0 {
        return;
      }
      var frame := Serialized(batch);
      outQueue := outQueue + [frame];
      enqueued := enqueued + [frame];
    }

    /**
     * One iteration of `robot_thread`: a non-blocking pop of the inbound
     * queue, the parse and the optional callback, then `send_staged`, which
     * hands `staged` to `sendJson`.
     */
    method RobotThreadStep(hasOnSensors: bool, staged: Object)
      requires Valid()
      modifies this
      ensures Valid()
      ensures State() == WorkerStep(old(State()), hasOnSensors, staged)
      ensures sent == old(sent) && received == old(received)
    {
      ghost var before := State();
      if sensorQueue != [] {
        var jsonDict := sensorQueue[0];
        sensorQueue := sensorQueue[1..];
        trace := trace + [ParseSensors(jsonDict)];
        if hasOnSensors {
          inOnSensors := true;
          trace := trace + [OnSensors(inOnSensors)];
          inOnSensors := false;
        }
      }
      trace := trace + [SendStaged];
      assert State() == Collected(before, hasOnSensors);
      CollectedKeepsConsistent(received, before, hasOnSensors);
      SendJson(staged);
    }

    /** One step of the receive task: the decoded message joins the tail of the inbound queue. */
    method ConsumerReceive(packet: Object)
      requires Valid()
      modifies this
      ensures Valid()
      ensures sensorQueue == old(sensorQueue) + [packet] && received == old(received) + [packet]
      ensures outQueue == old(outQueue) && inOnSensors == old(inOnSensors)
      ensures trace == old(trace) && sent == old(sent)
    {
      sensorQueue := sensorQueue + [packet];
      received := received + [packet];
    }

    /**
     * One step of the send task: the head of the outbound queue is written
     * to the websocket. On an empty queue the task waits, which changes nothing.
     */
    method ProducerSend() returns (frame: Option<Frame>)
      requires Valid()
      modifies this
      ensures Valid()
      ensures old(outQueue) == [] ==> frame == None && sent == old(sent) && outQueue == []
      ensures old(outQueue) != [] ==>
        frame == Some(old(outQueue)[0]) && sent == old(sent) + [old(outQueue)[0]] && outQueue == old(outQueue)[1..]
      ensures sensorQueue == old(sensorQueue) && inOnSensors == old(inOnSensors) && trace == old(trace)
    {
      if outQueue == [] {
        return None;
      }
      var msg := outQueue[0];
      outQueue := outQueue[1..];
      sent := sent + [msg];
      return Some(msg);
    }
  }
}
