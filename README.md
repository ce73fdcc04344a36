# WonderPy runtime core, modelled in Dafny

WonderPy drives Wonder Workshop robots from Python. This project models the
sequential core of its runtime and proves properties of the model:

- **Sensor registry** (`WWSensors`, module `SensorDispatch`). It holds one
  component object per sensor slot and a fixed lookup table from component id
  to slot. A sensor packet maps component ids to payloads, and parsing it
  works in four steps:
  1. Each entry whose id is in the table is handed to its slot's `parse`.
  2. Entries with unknown ids are skipped.
  3. The beacon is backfilled with `{}` when the packet carries no beacon entry.
  4. The attitude estimator is updated once. It gets the time since the
     previous parse, the accelerometer with its X and Y axes swapped, and the
     gyroscope converted to radians.

  `description` lists the valid slots, one line each.
- **Attitude estimator** (`Attitude`, module `AttitudeFilter`). This is a
  complementary filter. It blends the gyro-integrated (roll, pitch) with the
  angles implied by the gravity vector. The gain is static near 1 g and
  dynamic otherwise. The accelerometer falls back to zero angles when its
  magnitude is degenerate. The asin argument is clamped at the top only.
  Values are reals, and `sqrt`, `sin`, `cos`, `tan`, `asin` and `atan2` are
  uninterpreted function values (`MathLib`).
- **Attitude sensor component** (`WWSensorAttitude`, module `SensorAttitude`).
  It validates and copies a payload all or nothing over six required keys.
- **Websocket manager** (`WWWSManager`, module `WebSocketManager`). It covers:
  - `sendJson`, which drops empty batches and otherwise queues one frame;
  - one iteration of the worker loop: a non-blocking pop of the sensor
    queue, the parse, the optional `on_sensors` callback with its thread-local
    flag, then `send_staged`;
  - one receive step and one send step of the websocket tasks.

  A ghost invariant (`Manager.Valid`) states that no packet or frame is lost
  or reordered.
- **HAL helper** (`string_into_c_byte_array`, module `Hal`). It fills a buffer
  in place with the character codes of a string.

Shared values (JSON, `Option`) are in module `Values`.

Stateful code is modelled as classes. Their methods are specified by pure functions of the old
state (`Attitude.Update` by `Step`, `AttitudeSensor.Parse` by `Parsed`,
`Sensors.Parse` by `PacketCalls`/`ApplyCalls`, `Manager.RobotThreadStep` by
`WorkerStep`). The properties are then proved as lemmas about those functions.

## Model

| member | source | states |
|---|---|---|
| AttitudeFilter.Magnitude | WonderPy/core/wwSensors.py:33 | the accelerometer magnitude: `sqrt` of the sum of the squared axes |
| AttitudeFilter.AccelAngles | WonderPy/core/wwSensors.py:35-40 | the accelerometer angles: (0, 0) below magnitude 0.01, otherwise roll `atan2(ay/mag, az/mag)` and pitch `asin` of the clamped argument |
| AttitudeFilter.Predicted | WonderPy/core/wwSensors.py:42-49 | the gyro prediction: old angle plus rate times `dt`, with the roll and pitch rates of lines 42-45 computed from the old state |
| AttitudeFilter.Step | WonderPy/core/wwSensors.py:30-58 | one filter update as a function: prediction blended towards the accelerometer angles with the gain the magnitude selects |
| AttitudeFilter.AsinArgument | WonderPy/core/wwSensors.py:39 | the asin argument is `ax/mag` when that is at most 0.99 and exactly 0.99 above it; it is never above 0.99 and never above `ax/mag` (clamped at the top only) |
| AttitudeFilter.Gain | WonderPy/core/wwSensors.py:22-24 | the gain is 0.5 if and only if the magnitude is strictly within 0.05 of 1 g, 0.05 if and only if not, and always strictly between 0 and 1 |
| AttitudeFilter.Blend | WonderPy/core/wwSensors.py:57-58 | the blended angle's distance to the accelerometer angle is the prediction's distance times `1 - gain`; for a gain in [0, 1] the result lies between prediction and accelerometer angle |
| AttitudeFilter.Degrees | WonderPy/core/wwSensors.py:81-87 | degrees times pi equals radians times 180 |
| AttitudeFilter.Radians | WonderPy/core/wwSensors.py:251-253 | radians times 180 equals degrees times pi |
| AttitudeFilter.DegreesOfRadians | WonderPy/core/wwSensors.py:251-253 | converting a gyroscope reading to radians and back to degrees gives the reading |
| AttitudeFilter.DegenerateIgnoresDirection | WonderPy/core/wwSensors.py:35-37 | a reading with magnitude below 0.01 yields accelerometer angles (0, 0), whatever its direction |
| AttitudeFilter.DegenerateStep | WonderPy/core/wwSensors.py:35-58 | on a degenerate reading the dynamic gain applies and the new roll and pitch are 0.95 times the gyro prediction |
| AttitudeFilter.GainThresholdEdges | WonderPy/core/wwSensors.py:53-55 | the threshold is strict: 0.95 g and 1.05 g get the dynamic gain, 1 g the static one |
| AttitudeFilter.AsinArgumentInDomain | WonderPy/core/wwSensors.py:33-39 | when `mag` is a true square root of the squared norm, the one-sided clamp still keeps the asin argument in [-1, 0.99] |
| AttitudeFilter.AccelAnglesInRange | WonderPy/core/wwSensors.py:33-40 | with a true square root, and asin and atan2 in their textbook ranges, the accelerometer roll lies in [-pi, pi] and the pitch in [-pi/2, pi/2] |
| AttitudeFilter.AtRestStaysLevel | WonderPy/core/wwSensors.py:30-58 | level, at rest, under exactly 1 g, the state (0, 0) stays (0, 0) |
| AttitudeFilter.Attitude.constructor | WonderPy/core/wwSensors.py:26-28 | a new estimator starts at roll 0 and pitch 0 |
| AttitudeFilter.Attitude.Update | WonderPy/core/wwSensors.py:30-58 | the new (roll, pitch) is `Step` of the old state and the sample: accelerometer angles, gyro prediction, gain and blend as above |
| AttitudeFilter.Attitude.RollDegrees | WonderPy/core/wwSensors.py:81-83 | the `roll` property is the stored roll in degrees |
| AttitudeFilter.Attitude.PitchDegrees | WonderPy/core/wwSensors.py:85-87 | the `pitch` property is the stored pitch in degrees |
| SensorAttitude.FieldsExist | WonderPy/components/wwSensorAttitude.py:61 | the base class's field check: every expected key is in the payload |
| SensorAttitude.Parsed | WonderPy/components/wwSensorAttitude.py:60-82 | the component's state after `parse`: either unchanged (the field check failed) or valid (the six payload values copied) |
| SensorAttitude.MissingKeyChangesNothing | WonderPy/components/wwSensorAttitude.py:61-62 | if any of the six expected keys is missing, every field and the valid flag keep their values |
| SensorAttitude.CompletePayloadCopied | WonderPy/components/wwSensorAttitude.py:64-82 | with all six keys present, each field equals the payload value under its key and the component becomes valid |
| SensorAttitude.OtherKeysIrrelevant | WonderPy/components/wwSensorAttitude.py:7-14 | two payloads that agree on the six expected keys give the same result |
| SensorAttitude.ParseIdempotent | WonderPy/components/wwSensorAttitude.py:60-82 | parsing a payload twice leaves the state of parsing it once |
| SensorAttitude.ValidIsSticky | WonderPy/components/wwSensorAttitude.py:60-82 | no payload makes a valid component invalid |
| SensorAttitude.AttitudeSensor.constructor | WonderPy/components/wwSensorAttitude.py:23-31 | a new component has all six fields 0 and is not valid |
| SensorAttitude.AttitudeSensor.Parse | WonderPy/components/wwSensorAttitude.py:60-82 | the new state is `Parsed` of the old state and the payload (all-or-nothing copy) |
| SensorDispatch.SlotOf | WonderPy/core/wwSensors.py:135-154 | the lookup table never yields the voice slot |
| SensorDispatch.SlotOfInjective | WonderPy/core/wwSensors.py:135-154 | distinct known ids map to distinct slots |
| SensorDispatch.TableAgreesWithSlotOf | WonderPy/core/wwSensors.py:135-154 | every pair of the ordered table used by `description` is an id-to-slot pair of the lookup |
| SensorDispatch.SlotOfInTable | WonderPy/core/wwSensors.py:135-154 | every id the lookup knows appears in the ordered table with its slot |
| SensorDispatch.TableIdsDistinct | WonderPy/core/wwSensors.py:135-154 | the ordered table lists each id once, so with the two lemmas above it holds exactly the lookup's pairs |
| SensorDispatch.WalkCalls | WonderPy/core/wwSensors.py:233-240 | the calls of the packet walk, one per entry whose id is in the table, in packet order; at most one per entry and never to the voice slot |
| SensorDispatch.BackfillCalls | WonderPy/core/wwSensors.py:256-262 | the backfill makes at most one call, exactly one when the packet has no beacon entry, and that call is the beacon's `parse({})` |
| SensorDispatch.PacketCalls | WonderPy/core/wwSensors.py:232-242 | every `parse` call one packet causes, the walk's then the backfill's: at most one per entry plus one |
| SensorDispatch.WalkCallsAppend | WonderPy/core/wwSensors.py:233-240 | the walk over a packet split in two is the walk over each half, in order |
| SensorDispatch.ApplyCallsKeys | WonderPy/core/wwSensors.py:238-240 | parsing never adds or removes a slot |
| SensorDispatch.ApplyCallsUntouched | WonderPy/core/wwSensors.py:238-240 | a slot that receives no call keeps its view |
| SensorDispatch.WalkCallsFromEntries | WonderPy/core/wwSensors.py:233-240 | every call of the walk is a known entry's slot with that entry's payload, and every known entry causes such a call |
| SensorDispatch.KnownIdParsedOnce | WonderPy/core/wwSensors.py:238-240 | with distinct ids, the slot of a known entry is parsed exactly once, with that entry's payload |
| SensorDispatch.UnknownEntrySkipped | WonderPy/core/wwSensors.py:233-236 | an entry with an id missing from the table, at any position in the packet, adds no call: the walk is the same without it |
| SensorDispatch.NoEntryNoCall | WonderPy/core/wwSensors.py:233-240 | a slot that no entry maps to is not parsed by the walk |
| SensorDispatch.VoiceNeverParsed | WonderPy/core/wwSensors.py:121 | the unset voice slot is never parsed, backfill included |
| SensorDispatch.BeaconParsedOnce | WonderPy/core/wwSensors.py:256-262 | the beacon is parsed exactly once per packet: with `{}` when the packet has no beacon entry, with the entry's payload otherwise |
| SensorDispatch.UnknownIdsNoWalkCalls | WonderPy/core/wwSensors.py:233-236 | a packet made only of unknown ids makes no call in the walk |
| SensorDispatch.UnknownIdsOnlyBackfill | WonderPy/core/wwSensors.py:233-262 | such a packet causes exactly the beacon backfill, as the empty packet does |
| SensorDispatch.PadRight | WonderPy/core/wwSensors.py:270 | `%-40s`: the name is kept, padded with spaces to width 40, never truncated |
| SensorDispatch.DescriptionLines | WonderPy/core/wwSensors.py:267-272 | the description's lines, one per table entry whose slot is valid (the padded name, `: `, the slot's description) in table order: never more lines than table entries |
| SensorDispatch.JoinLines | WonderPy/core/wwSensors.py:265-272 | lines joined with a single newline between consecutive lines |
| SensorDispatch.JoinLinesStartsWithFirst | WonderPy/core/wwSensors.py:264-273 | the description starts with its first line (no leading delimiter) |
| SensorDispatch.JoinLinesEndsWithLast | WonderPy/core/wwSensors.py:264-273 | the description ends with its last line (no trailing delimiter) |
| SensorDispatch.JoinLinesNewlineCount | WonderPy/core/wwSensors.py:264-273 | lines without newlines are joined by exactly one newline between consecutive lines |
| SensorDispatch.DescriptionHasOnlyValid | WonderPy/core/wwSensors.py:267-272 | a line is in the description if and only if it is the padded name and the description of a valid slot in the table |
| SensorDispatch.Sensors.constructor | WonderPy/core/wwSensors.py:91-96 | every slot except voice gets its initial view, no call has been made, the attitude is fresh at (0, 0) and the last parse time is now |
| SensorDispatch.Sensors.Parse | WonderPy/core/wwSensors.py:232-254 | the packet's calls (walk, then backfill) are made in order and applied to the slots; the attitude makes one `Step` with `now - last`, accelerometer (y, x, z) and gyroscope (y, x, z) in radians; the last parse time becomes now |
| SensorDispatch.Sensors.DispatchPacket | WonderPy/core/wwSensors.py:233-242 | the walk then the backfill: the recorded calls grow by `PacketCalls` and the views are those calls applied to the old views |
| SensorDispatch.Sensors.WalkPacket | WonderPy/core/wwSensors.py:233-240 | the loop makes exactly the walk's calls, in packet order |
| SensorDispatch.Sensors.BackfillBeacon | WonderPy/core/wwSensors.py:256-262 | the beacon is parsed with `{}` exactly when the packet has no beacon entry |
| SensorDispatch.Sensors.Description | WonderPy/core/wwSensors.py:264-273 | the accumulated `ret`/`delim` string is the valid slots' lines, in table order, joined by single newlines |
| WebSocketManager.Staged | WonderPy/core/wwWSMgr.py:51-56 | an empty batch leaves the outbound queue unchanged; any other adds exactly one frame of that batch at the tail, keeping everything before it |
| WebSocketManager.Dispatch | WonderPy/core/wwWSMgr.py:64-69 | the head of the inbound queue is removed and parsed; with a callback, the last event is the callback seeing the flag set, and the flag is clear afterwards |
| WebSocketManager.Collected | WonderPy/core/wwWSMgr.py:63-75 | an iteration up to `send_staged` handing its batch over: `Dispatch` when a packet is queued, nothing otherwise, then the `send_staged` event |
| WebSocketManager.WorkerStep | WonderPy/core/wwWSMgr.py:58-75 | one `robot_thread` iteration: `Collected`, then `sendJson` of the staged batch |
| WebSocketManager.StepOnEmptyQueue | WonderPy/core/wwWSMgr.py:63-75 | on an empty inbound queue an iteration parses nothing, calls no callback, keeps the flag and only calls `send_staged` |
| WebSocketManager.StepPopsHead | WonderPy/core/wwWSMgr.py:64-75 | on a non-empty queue an iteration removes exactly the head, parses it, then calls the callback with the flag set if the delegate has one, then sends; the flag is false afterwards |
| WebSocketManager.StepKeepsCallbacksFollowParse | WonderPy/core/wwWSMgr.py:64-69 | every callback immediately follows a parse and sees the flag set, and iterations keep this so |
| WebSocketManager.StepCounts | WonderPy/core/wwWSMgr.py:58-75 | an iteration parses the head (if any), runs the callback at most once and calls `send_staged` exactly once |
| WebSocketManager.StepParsesHead | WonderPy/core/wwWSMgr.py:64-65 | the head of the queue moves to the end of the parsed packets |
| WebSocketManager.RunPopsHead | WonderPy/core/wwWSMgr.py:58-72 | after k iterations the first min(k, queued) packets have left the queue |
| WebSocketManager.RunParsesInOrder | WonderPy/core/wwWSMgr.py:58-72 | those packets have been parsed in queue order (FIFO) |
| WebSocketManager.RunCounts | WonderPy/core/wwWSMgr.py:58-75 | the callback ran once per parsed packet (none without a callback) and `send_staged` exactly k times |
| WebSocketManager.RunStagesInOrder | WonderPy/core/wwWSMgr.py:51-75 | the staged batches are queued for sending in order, empty ones dropped |
| WebSocketManager.CollectedKeepsConsistent | WonderPy/core/wwWSMgr.py:63-72 | the worker's side of an iteration neither loses nor reorders received packets |
| WebSocketManager.Manager.constructor | WonderPy/core/wwWSMgr.py:17-25 | both queues, the trace and the wire start empty and the flag is false |
| WebSocketManager.Manager.SendJson | WonderPy/core/wwWSMgr.py:51-56 | the outbound queue becomes `Staged` of the old one; nothing else changes; no empty frame is ever queued |
| WebSocketManager.Manager.RobotThreadStep | WonderPy/core/wwWSMgr.py:58-75 | the new state is `WorkerStep` of the old one, and the invariant is kept: nothing lost or reordered, and the flag false between iterations with or without a callback |
| WebSocketManager.Manager.ConsumerReceive | WonderPy/core/wwWSMgr.py:100-103 | a received message joins the tail of the sensor queue; nothing else changes |
| WebSocketManager.Manager.ProducerSend | WonderPy/core/wwWSMgr.py:95-98 | the head of the outbound queue is sent and removed (FIFO); an empty queue sends nothing |
| Hal.Codes | WonderPy/core/wwHAL.py:11 | one code per character, each the `ord` of that character |
| Hal.StringIntoByteArray | WonderPy/core/wwHAL.py:8-12 | given a buffer at least as long as the string, its first `len(str)` elements become the codes of the string and every later element is unchanged (no terminator is written) |

## Left out

- The not-a-number check and its exception after an attitude update (wwSensors.py:61-64): reals have no NaN.
- The actual values of `math.sqrt`, `sin`, `cos`, `tan`, `asin` and `atan2`: they are uninterpreted `MathLib` members, and only lemmas that name their assumptions rely on textbook values.
- `Attitude.get_A` (wwSensors.py:66-76): it is a numpy call.
- `Attitude.__str__` and the logging calls: they produce only text for logs.
- `time.time()`: the clock is the `now` parameter of `Sensors.constructor` and `Sensors.Parse`.
- The component classes of the other sensor slots (accelerometer, beacon, gyroscope and the rest) are not part of this model:
  - their `parse` is the opaque `SlotParser` parameter;
  - their state is reduced to a `SlotView` (valid flag, x, y, z, description text);
  - their constructors are the `initial` parameter.
- The sensor property accessors of `WWSensors` and `WWSensorAttitude`: these are the fields of the model classes, read directly.
- The `is not None` guards (wwSensors.py:239, 261, 269): the guards at lines 239 and 269 always hold because `_voice`, the one slot left `None`, is not in `_component_look_up`; the guard at line 261 always holds because `_beacon` is always constructed (line 124).
- `WWRobotConstants` is not part of this model. Instead:
  - component ids are the `ComponentId` datatype;
  - the attitude keys are taken from `_important_field_names`;
  - the component names `description` prints are the `names` parameter.
- `WWRobot` (its `_parse_sensors` and `send_staged`) is not part of this model. The worker loop records what it asks of the robot as `Event`s, and the batch `send_staged` hands to `sendJson` is a parameter of each iteration.
- Delegate callback bodies and their exceptions: only whether the delegate has `on_sensors` is modelled (`hasOnSensors`).
- Threads, asyncio and websockets are not modelled:
  - `run`, `_ws_thread` and `_ws_client_task`, including the FIRST_COMPLETED wait and cancel (wwWSMgr.py:27-49, 77-93);
  - the `on_connect` callback;
  - blocking in the send task's `get`;
  - the endless `while True` loops;
  - interleaving between the threads.

  Each task step and each loop iteration is a separate method call.
- `json.dumps` and `json.loads`: a frame is the batch it serializes, and a received message is the decoded object.
- Thread-local storage: it is reduced to the single `inOnSensors` flag of the worker.
- `WWHAL.__init__`, `_load_HAL` and `WWHAL.sendJson` (wwHAL.py:14-36): they load a native library and name platform paths.
- `wwMain.py` and `setup.py`: process bootstrap and packaging.
- Hal.StringIntoByteArray: the buffer is an `array<int>`, so the element width and conversion of the ctypes buffer are not modelled. The write order and the final counter value are carried by the loop invariants, not by the contract.
