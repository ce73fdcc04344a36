/**
 * The sensor registry and dispatcher of WonderPy/core/wwSensors.py
 * (class `WWSensors`): a fixed table from component id to sensor slot,
 * the packet walk that hands each known component's payload to its slot,
 * the beacon backfill, the attitude update that follows every packet, and
 * the textual description of the valid slots.
 *
 * The per-kind sensor components (accelerometer, beacon, buttons, ...) are
 * not part of this model: what their `parse` does to a slot is the
 * `SlotParser` every dispatch is given, and a slot is seen only through its
 * `SlotView`. The dispatcher also records every `parse` call it makes.
 */
module SensorDispatch {
  import opened Values
  import opened AttitudeFilter

  /** The component ids the table knows, and every other id a packet may carry. */
  datatype ComponentId =
    | AccelerometerId | AnimationPlayingId | BeaconId | BodyPoseId
    | Button1Id | Button2Id | Button3Id | ButtonMainId
    | DistanceBackId | DistanceFrontLeftFacingId | DistanceFrontRightFacingId
    | EncoderLeftWheelId | EncoderRightWheelId
    | HeadPositionPanId | HeadPositionTiltId
    | GyroscopeId | PingResponseId | SoundPlayingId
    | OtherId(code: string)

  /** The sensor objects the registry holds; `Voice` is the one left unset (None). */
  datatype Slot =
    | Accelerometer | Animation | ButtonMain | Button1 | Button2 | Button3
    | Ping | Speaker | Voice
    | Beacon | DistanceFrontLeftFacing | DistanceFrontRightFacing | DistanceRear
    | Gyroscope | HeadPan | HeadTilt | Pose | WheelLeft | WheelRight

  /** The lookup table, in the order it is written (and iterated). */
  const TABLE: seq<(ComponentId, Slot)> := [
    (AccelerometerId, Accelerometer),
    (AnimationPlayingId, Animation),
    (BeaconId, Beacon),
    (BodyPoseId, Pose),
    (Button1Id, Button1),
    (Button2Id, Button2),
    (Button3Id, Button3),
    (ButtonMainId, ButtonMain),
    (DistanceBackId, DistanceRear),
    (DistanceFrontLeftFacingId, DistanceFrontLeftFacing),
    (DistanceFrontRightFacingId, DistanceFrontRightFacing),
    (EncoderLeftWheelId, WheelLeft),
    (EncoderRightWheelId, WheelRight),
    (HeadPositionPanId, HeadPan),
    (HeadPositionTiltId, HeadTilt),
    (GyroscopeId, Gyroscope),
    (PingResponseId, Ping),
    (SoundPlayingId, Speaker)
  ]

  /** The table as a lookup: the slot of a known id, None for an id the table lacks. */
  function SlotOf(id: ComponentId): (r: Option<Slot>)
    ensures r != Some(Voice)
  {
    match id
    case AccelerometerId => Some(Accelerometer)
    case AnimationPlayingId => Some(Animation)
    case BeaconId => Some(Beacon)
    case BodyPoseId => Some(Pose)
    case Button1Id => Some(Button1)
    case Button2Id => Some(Button2)
    case Button3Id => Some(Button3)
    case ButtonMainId => Some(ButtonMain)
    case DistanceBackId => Some(DistanceRear)
    case DistanceFrontLeftFacingId => Some(DistanceFrontLeftFacing)
    case DistanceFrontRightFacingId => Some(DistanceFrontRightFacing)
    case EncoderLeftWheelId => Some(WheelLeft)
    case EncoderRightWheelId => Some(WheelRight)
    case HeadPositionPanId => Some(HeadPan)
    case HeadPositionTiltId => Some(HeadTilt)
    case GyroscopeId => Some(Gyroscope)
    case PingResponseId => Some(Ping)
    case SoundPlayingId => Some(Speaker)
    case OtherId(_) => None
  }

  /** No two ids share a slot. */
  lemma SlotOfInjective(a: ComponentId, b: ComponentId)
    requires SlotOf(a).Some? && SlotOf(a) == SlotOf(b)
    ensures a == b
  {
  }

  /** Every pair the table holds is what the lookup gives. */
  lemma TableAgreesWithSlotOf(i: nat)
    requires i < |TABLE|
    ensures SlotOf(TABLE[i].0) == Some(TABLE[i].1)
  {
  }

  /** Every id the lookup knows is in the table, with its slot. */
  lemma SlotOfInTable(id: ComponentId)
    requires SlotOf(id).Some?
    ensures exists i | 0 <= i < |TABLE| :: TABLE[i] == (id, SlotOf(id).value)
  {
    match id
    case AccelerometerId => assert TABLE[0] == (id, Accelerometer);
    case AnimationPlayingId => assert TABLE[1] == (id, Animation);
    case BeaconId => assert TABLE[2] == (id, Beacon);
    case BodyPoseId => assert TABLE[3] == (id, Pose);
    case Button1Id => assert TABLE[4] == (id, Button1);
    case Button2Id => assert TABLE[5] == (id, Button2);
    case Button3Id => assert TABLE[6] == (id, Button3);
    case ButtonMainId => assert TABLE[7] == (id, ButtonMain);
    case DistanceBackId => assert TABLE[8] == (id, DistanceRear);
    case DistanceFrontLeftFacingId => assert TABLE[9] == (id, DistanceFrontLeftFacing);
    case DistanceFrontRightFacingId => assert TABLE[10] == (id, DistanceFrontRightFacing);
    case EncoderLeftWheelId => assert TABLE[11] == (id, WheelLeft);
    case EncoderRightWheelId => assert TABLE[12] == (id, WheelRight);
    case HeadPositionPanId => assert TABLE[13] == (id, HeadPan);
    case HeadPositionTiltId => assert TABLE[14] == (id, HeadTilt);
    case GyroscopeId => assert TABLE[15] == (id, Gyroscope);
    case PingResponseId => assert TABLE[16] == (id, Ping);
    case SoundPlayingId => assert TABLE[17] == (id, Speaker);
    case OtherId(_) => assert false;
  }

  /** The table lists each id once. */
  lemma TableIdsDistinct()
    ensures forall i, j | 0 <= i < j < |TABLE| :: TABLE[i].0 != TABLE[j].0
  {
  }

  /** What a sensor component exposes to the core: its valid flag, its x/y/z readings, its description. */
  datatype SlotView = SlotView(valid: bool, x: real, y: real, z: real, text: string)

  /** The unseen component code: the new view of a slot after `parse(payload)`. */
  type SlotParser = (Slot, SlotView, Object) -> SlotView

  /** One packet entry: a component id and its payload (dictionaries iterate in insertion order). */
  datatype Entry = Entry(id: ComponentId, payload: Object)

  /** One `parse` call the dispatcher made on a slot. */
  datatype Call = Call(slot: Slot, payload: Object)

  /** A dictionary's keys are distinct. */
  ghost predicate DistinctIds(packet: seq<Entry>)
  {
    forall i, j | 0 <= i < j < |packet| :: packet[i].id != packet[j].id
  }

  function Ids(packet: seq<Entry>): set<ComponentId>
  {
    set e | e in packet :: e.id
  }

  /** The calls the packet walk makes: one per entry whose id is in the table, in packet order. */
  function WalkCalls(packet: seq<Entry>): (r: seq<Call>)
    ensures |r| <= |packet|
    ensures forall i | 0 <= i < |r| :: r[i].slot != Voice
  {
    if packet == [] then []
    else
      var e := packet[|packet| - 1];
      WalkCalls(packet[..|packet| - 1]) +
        (match SlotOf(e.id) case None => [] case Some(s) => [Call(s, e.payload)])
  }

  /** The backfill: the beacon is parsed with `{}` when the packet has no beacon entry. */
  function BackfillCalls(packet: seq<Entry>): (r: seq<Call>)
    ensures |r| <= 1
    ensures |r| == 1 <==> BeaconId !in Ids(packet)
    ensures forall i | 0 <= i < |r| :: r[i] == Call(Beacon, map[])
  {
    if BeaconId in Ids(packet) then [] else [Call(Beacon, map[])]
  }

  /** Every `parse` call one packet causes, in order. */
  function PacketCalls(packet: seq<Entry>): (r: seq<Call>)
    ensures |r| <= |packet| + 1
  {
    WalkCalls(packet) + BackfillCalls(packet)
  }

  /** The payloads passed to one slot's `parse`, in order. */
  function CallsTo(calls: seq<Call>, s: Slot): seq<Object>
  {
    if calls == [] then []
    else
      var c := calls[|calls| - 1];
      CallsTo(calls[..|calls| - 1], s) + (if c.slot == s then [c.payload] else [])
  }

  /** The slot views after the given calls. */
  function ApplyCalls(slots: map<Slot, SlotView>, calls: seq<Call>, parser: SlotParser): map<Slot, SlotView>
  {
    if calls == [] then slots
    else
      var before := ApplyCalls(slots, calls[..|calls| - 1], parser);
      var c := calls[|calls| - 1];
      if c.slot in before then before[c.slot := parser(c.slot, before[c.slot], c.payload)] else before
  }

  lemma {:induction false} CallsToAppend(a: seq<Call>, b: seq<Call>, s: Slot)
    ensures CallsTo(a + b, s) == CallsTo(a, s) + CallsTo(b, s)
    decreases |b|
  {
    if b == [] {
      assert a + b == a;
    } else {
      assert (a + b)[..|a + b| - 1] == a + b[..|b| - 1];
      CallsToAppend(a, b[..|b| - 1], s);
    }
  }

  lemma {:induction false} ApplyCallsAppend(slots: map<Slot, SlotView>, a: seq<Call>, b: seq<Call>, parser: SlotParser)
    ensures ApplyCalls(slots, a + b, parser) == ApplyCalls(ApplyCalls(slots, a, parser), b, parser)
    decreases |b|
  {
    if b == [] {
      assert a + b == a;
    } else {
      assert (a + b)[..|a + b| - 1] == a + b[..|b| - 1];
      ApplyCallsAppend(slots, a, b[..|b| - 1], parser);
    }
  }

  /** Applying calls never adds or removes a slot. */
  lemma {:induction false} ApplyCallsKeys(slots: map<Slot, SlotView>, calls: seq<Call>, parser: SlotParser)
    ensures ApplyCalls(slots, calls, parser).Keys == slots.Keys
    decreases |calls|
  {
    if calls != [] {
      ApplyCallsKeys(slots, calls[..|calls| - 1], parser);
    }
  }

  /** A slot no call names keeps its view. */
  lemma {:induction false} ApplyCallsUntouched(slots: map<Slot, SlotView>, calls: seq<Call>, parser: SlotParser, s: Slot)
    requires CallsTo(calls, s) == [] && s in slots
    ensures s in ApplyCalls(slots, calls, parser) && ApplyCalls(slots, calls, parser)[s] == slots[s]
    decreases |calls|
  {
    if calls != [] {
      assert CallsTo(calls[..|calls| - 1], s) == [];
      ApplyCallsUntouched(slots, calls[..|calls| - 1], parser, s);
    }
  }

  /**
   * The walk calls exactly the mapped slot of each known entry, with that
   * entry's payload; entries with ids the table lacks cause no call.
   */
  lemma {:induction false} WalkCallsFromEntries(packet: seq<Entry>)
    ensures forall c | c in WalkCalls(packet) ::
      exists e | e in packet :: SlotOf(e.id) == Some(c.slot) && e.payload == c.payload
    ensures forall e | e in packet && SlotOf(e.id).Some? ::
      Call(SlotOf(e.id).value, e.payload) in WalkCalls(packet)
    decreases |packet|
  {
    if packet != [] {
      var init := packet[..|packet| - 1];
      WalkCallsFromEntries(init);
      assert packet == init + [packet[|packet| - 1]];
      forall e | e in packet && SlotOf(e.id).Some?
        ensures Call(SlotOf(e.id).value, e.payload) in WalkCalls(packet)
      {
        if e in init {
          assert Call(SlotOf(e.id).value, e.payload) in WalkCalls(init);
        }
      }
    }
  }

  /** The last entry of a packet adds its payload to the calls of slot `s` exactly when its id maps to `s`. */
  lemma WalkCallsToSnoc(packet: seq<Entry>, s: Slot)
    requires packet != []
    ensures var last := packet[|packet| - 1];
      CallsTo(WalkCalls(packet), s) ==
        CallsTo(WalkCalls(packet[..|packet| - 1]), s) + (if SlotOf(last.id) == Some(s) then [last.payload] else [])
  {
    var init := packet[..|packet| - 1];
    var last := packet[|packet| - 1];
    var lastCalls := match SlotOf(last.id) case None => [] case Some(t) => [Call(t, last.payload)];
    assert WalkCalls(packet) == WalkCalls(init) + lastCalls;
    CallsToAppend(WalkCalls(init), lastCalls, s);
    if SlotOf(last.id).Some? {
      assert lastCalls[..0] == [];
    }
  }

  /** With distinct ids, the slot of a known entry receives exactly one call, with that entry's payload. */
  lemma {:induction false} KnownIdParsedOnce(packet: seq<Entry>, i: nat)
    requires DistinctIds(packet) && i < |packet| && SlotOf(packet[i].id).Some?
    ensures CallsTo(WalkCalls(packet), SlotOf(packet[i].id).value) == [packet[i].payload]
    decreases |packet|
  {
    var s := SlotOf(packet[i].id).value;
    var init := packet[..|packet| - 1];
    var last := packet[|packet| - 1];
    WalkCallsToSnoc(packet, s);
    if i == |packet| - 1 {
      forall j | 0 <= j < |init| ensures SlotOf(init[j].id) != Some(s) {
        if SlotOf(init[j].id) == Some(s) {
          SlotOfInjective(init[j].id, last.id);
        }
      }
      NoEntryNoCall(init, s);
    } else {
      assert DistinctIds(init);
      KnownIdParsedOnce(init, i);
      if SlotOf(last.id) == Some(s) {
        SlotOfInjective(last.id, packet[i].id);
      }
    }
  }

  /** The walk over two halves of a packet is the walk over the first followed by the walk over the second. */
  lemma {:induction false} WalkCallsAppend(p: seq<Entry>, q: seq<Entry>)
    ensures WalkCalls(p + q) == WalkCalls(p) + WalkCalls(q)
    decreases |q|
  {
    if q == [] {
      assert p + q == p;
    } else {
      assert (p + q)[..|p + q| - 1] == p + q[..|q| - 1];
      WalkCallsAppend(p, q[..|q| - 1]);
    }
  }

  /** An entry whose id is not in the table is skipped, wherever it sits: the walk makes the same calls without it. */
  lemma UnknownEntrySkipped(p: seq<Entry>, e: Entry, q: seq<Entry>)
    requires SlotOf(e.id).None?
    ensures WalkCalls(p + [e] + q) == WalkCalls(p + q)
  {
    WalkCallsAppend(p + [e], q);
    WalkCallsAppend(p, [e]);
    WalkCallsAppend(p, q);
    assert WalkCalls([e]) == [] by {
      assert [e][..0] == [];
    }
  }

  /** A slot that no entry maps to receives no call from the walk. */
  lemma {:induction false} NoEntryNoCall(packet: seq<Entry>, s: Slot)
    requires forall j | 0 <= j < |packet| :: SlotOf(packet[j].id) != Some(s)
    ensures CallsTo(WalkCalls(packet), s) == []
    decreases |packet|
  {
    if packet != [] {
      var init := packet[..|packet| - 1];
      WalkCallsToSnoc(packet, s);
      assert forall j | 0 <= j < |init| :: init[j] == packet[j];
      NoEntryNoCall(init, s);
    }
  }

  /** The unset voice slot is never parsed. */
  lemma VoiceNeverParsed(packet: seq<Entry>)
    ensures CallsTo(PacketCalls(packet), Voice) == []
  {
    NoEntryNoCall(packet, Voice);
    CallsToAppend(WalkCalls(packet), BackfillCalls(packet), Voice);
  }

  /**
   * With distinct ids the beacon is parsed exactly once per packet: with
   * its own payload when the packet has a beacon entry, with `{}` otherwise.
   */
  lemma BeaconParsedOnce(packet: seq<Entry>)
    requires DistinctIds(packet)
    ensures BeaconId !in Ids(packet) ==> CallsTo(PacketCalls(packet), Beacon) == [map[]]
    ensures forall i | 0 <= i < |packet| && packet[i].id == BeaconId ::
      CallsTo(PacketCalls(packet), Beacon) == [packet[i].payload]
  {
    CallsToAppend(WalkCalls(packet), BackfillCalls(packet), Beacon);
    if BeaconId !in Ids(packet) {
      forall j | 0 <= j < |packet| ensures SlotOf(packet[j].id) != Some(Beacon) {
        assert packet[j] in packet;
      }
      NoEntryNoCall(packet, Beacon);
    } else {
      forall i | 0 <= i < |packet| && packet[i].id == BeaconId
        ensures CallsTo(PacketCalls(packet), Beacon) == [packet[i].payload]
      {
        KnownIdParsedOnce(packet, i);
      }
    }
  }

  /** Entries whose ids the table lacks cause no call from the walk. */
  lemma {:induction false} UnknownIdsNoWalkCalls(packet: seq<Entry>)
    requires forall j | 0 <= j < |packet| :: SlotOf(packet[j].id).None?
    ensures WalkCalls(packet) == []
    decreases |packet|
  {
    if packet != [] {
      var init := packet[..|packet| - 1];
      assert forall j | 0 <= j < |init| :: init[j] == packet[j];
      UnknownIdsNoWalkCalls(init);
    }
  }

  /** A packet whose ids are all unknown causes only the beacon backfill, as the empty packet does. */
  lemma UnknownIdsOnlyBackfill(packet: seq<Entry>)
    requires forall e | e in packet :: SlotOf(e.id).None?
    ensures PacketCalls(packet) == PacketCalls([]) == [Call(Beacon, map[])]
  {
    forall j | 0 <= j < |packet| ensures SlotOf(packet[j].id).None? {
      assert packet[j] in packet;
    }
    UnknownIdsNoWalkCalls(packet);
    assert BeaconId !in Ids(packet) by {
      assert SlotOf(BeaconId).Some?;
    }
  }

  /** The `%-40s` format: left-justified, padded with spaces to the width, never truncated. */
  function PadRight(s: string, width: nat): (r: string)
    ensures |r| == if |s| < width then width else |s|
    ensures r[..|s|] == s
    ensures forall i | |s| <= i < |r| :: r[i] == ' '
  {
    if width <= |s| then s else s + seq(width - |s|, _ => ' ')
  }

  /** One line of the description. */
  function Line(name: string, text: string): string
  {
    PadRight(name, 40) + ": " + text
  }

  /** The lines of the description: one per table entry whose slot is valid, in table order. */
  function DescriptionLines(table: seq<(ComponentId, Slot)>, slots: map<Slot, SlotView>,
                            names: ComponentId -> string): (r: seq<string>)
    ensures |r| <= |table|
  {
    if table == [] then []
    else
      var e := table[|table| - 1];
      DescriptionLines(table[..|table| - 1], slots, names) +
        (if e.1 in slots && slots[e.1].valid then [Line(names(e.0), slots[e.1].text)] else [])
  }

  /** Lines joined with single newlines, with no delimiter before the first or after the last. */
  function JoinLines(lines: seq<string>): string
  {
    if lines == [] then ""
    else if |lines| == 1 then lines[0]
    else lines[0] + "\n" + JoinLines(lines[1..])
  }

  lemma {:induction false} JoinLinesSnoc(lines: seq<string>, l: string)
    ensures JoinLines(lines + [l]) == if lines == [] then l else JoinLines(lines) + "\n" + l
    decreases |lines|
  {
    if |lines| > 1 {
      assert (lines + [l])[1..] == lines[1..] + [l];
      JoinLinesSnoc(lines[1..], l);
    } else if |lines| == 1 {
      assert (lines + [l])[1..] == [l];
    }
  }

  /** The joined text begins with the first line. */
  lemma {:induction false} JoinLinesStartsWithFirst(lines: seq<string>)
    requires lines != []
    ensures lines[0] <= JoinLines(lines)
  {
    if |lines| > 1 {
      assert (lines[0] + "\n" + JoinLines(lines[1..]))[..|lines[0]|] == lines[0];
    }
  }

  /** The joined text ends with the last line. */
  lemma {:induction false} JoinLinesEndsWithLast(lines: seq<string>)
    requires lines != []
    ensures |lines[|lines| - 1]| <= |JoinLines(lines)|
    ensures JoinLines(lines)[|JoinLines(lines)| - |lines[|lines| - 1]|..] == lines[|lines| - 1]
    decreases |lines|
  {
    if |lines| > 1 {
      var last := lines[|lines| - 1];
      var rest := JoinLines(lines[1..]);
      JoinLinesEndsWithLast(lines[1..]);
      assert lines[1..][|lines[1..]| - 1] == last;
      var joined := lines[0] + "\n" + rest;
      assert joined[|joined| - |last|..] == rest[|rest| - |last|..];
    }
  }

  /** When no line holds a newline, the joined text holds exactly one fewer newline than there are lines. */
  lemma {:induction false} JoinLinesNewlineCount(lines: seq<string>)
    requires lines != []
    requires forall i | 0 <= i < |lines| :: '\n' !in lines[i]
    ensures multiset(JoinLines(lines))['\n'] == |lines| - 1
    decreases |lines|
  {
    assert '\n' !in lines[0];
    assert multiset(lines[0])['\n'] == 0;
    if |lines| > 1 {
      assert forall i | 0 <= i < |lines[1..]| :: lines[1..][i] == lines[i + 1];
      JoinLinesNewlineCount(lines[1..]);
      var rest := JoinLines(lines[1..]);
      assert multiset(lines[0] + "\n" + rest) == multiset(lines[0]) + multiset("\n") + multiset(rest);
    }
  }

  /**
   * A line is in the description exactly when some table entry's slot is
   * valid and the line is that entry's name and description.
   */
  lemma {:induction false} DescriptionHasOnlyValid(table: seq<(ComponentId, Slot)>, slots: map<Slot, SlotView>,
                                                   names: ComponentId -> string, l: string)
    ensures l in DescriptionLines(table, slots, names) <==>
      exists e | e in table :: e.1 in slots && slots[e.1].valid && l == Line(names(e.0), slots[e.1].text)
    decreases |table|
  {
    if table != [] {
      var init := table[..|table| - 1];
      DescriptionHasOnlyValid(init, slots, names, l);
      assert table == init + [table[|table| - 1]];
    }
  }

  /** Extending the table by one entry adds that entry's line, if its slot is valid. */
  lemma DescriptionLinesStep(table: seq<(ComponentId, Slot)>, i: nat, slots: map<Slot, SlotView>,
                             names: ComponentId -> string)
    requires i < |table|
    ensures DescriptionLines(table[..i + 1], slots, names) ==
      DescriptionLines(table[..i], slots, names) +
        (var e := table[i]; if e.1 in slots && slots[e.1].valid then [Line(names(e.0), slots[e.1].text)] else [])
  {
    assert table[..i + 1][..i] == table[..i];
  }

  /** Extending the walk by one entry appends that entry's call, if any, and applies it. */
  lemma WalkCallsStep(slots: map<Slot, SlotView>, packet: seq<Entry>, i: nat, parser: SlotParser)
    requires i < |packet|
    ensures var e := packet[i];
      WalkCalls(packet[..i + 1]) ==
        WalkCalls(packet[..i]) + (match SlotOf(e.id) case None => [] case Some(t) => [Call(t, e.payload)])
    ensures var e, before := packet[i], ApplyCalls(slots, WalkCalls(packet[..i]), parser);
      ApplyCalls(slots, WalkCalls(packet[..i + 1]), parser) ==
        match SlotOf(e.id)
        case None => before
        case Some(t) => if t in before then before[t := parser(t, before[t], e.payload)] else before
  {
    var e := packet[i];
    assert packet[..i + 1][..i] == packet[..i];
    var step := match SlotOf(e.id) case None => [] case Some(t) => [Call(t, e.payload)];
    ApplyCallsAppend(slots, WalkCalls(packet[..i]), step, parser);
    if SlotOf(e.id).Some? {
      assert step[..0] == [];
    }
  }

  /** The joined description after one more table entry: its line, if its slot is valid, after a newline unless it is the first. */
  lemma JoinedDescriptionStep(table: seq<(ComponentId, Slot)>, i: nat, slots: map<Slot, SlotView>,
                              names: ComponentId -> string)
    requires i < |table|
    ensures var before, e := DescriptionLines(table[..i], slots, names), table[i];
      var after := DescriptionLines(table[..i + 1], slots, names);
      if e.1 in slots && slots[e.1].valid then
        after != [] &&
        JoinLines(after) == JoinLines(before) + (if before == [] then "" else "\n") + Line(names(e.0), slots[e.1].text)
      else
        after == before
  {
    var e := table[i];
    var before := DescriptionLines(table[..i], slots, names);
    DescriptionLinesStep(table, i, slots, names);
    if e.1 in slots && slots[e.1].valid {
      var line := Line(names(e.0), slots[e.1].text);
      JoinLinesSnoc(before, line);
      if before == [] {
        assert JoinLines(before) + "" + line == line;
      }
    }
  }

  /** The registry: one view per slot, the `parse` calls made so far, the attitude and the last parse time. */
  class Sensors {
    var slots: map<Slot, SlotView>
    var calls: seq<Call>
    var lastParseTime: real
    const attitude: Attitude

    /** Every slot except the unset voice slot has a view. */
    ghost predicate Valid()
      reads this
    {
      forall s: Slot :: s in slots <==> s != Voice
    }

    /** `now` stands for `time.time()` at construction; `initial` for the unseen components' constructors. */
    constructor(initial: Slot -> SlotView, now: real)
      ensures Valid() && fresh(attitude)
      ensures forall s | s in slots :: slots[s] == initial(s)
      ensures calls == [] && lastParseTime == now
      ensures attitude.State() == Angles(0.0, 0.0)
    {
      var present: set<Slot> := {
        Accelerometer, Animation, ButtonMain, Button1, Button2, Button3, Ping, Speaker,
        Beacon, DistanceFrontLeftFacing, DistanceFrontRightFacing, DistanceRear,
        Gyroscope, HeadPan, HeadTilt, Pose, WheelLeft, WheelRight
      };
      slots := map s | s in present :: initial(s);
      calls := [];
      attitude := new Attitude();
      lastParseTime := now;
    }

    /**
     * Dispatch one packet: each known entry's payload to its slot, the
     * beacon backfill, then one attitude update driven by the accelerometer
     * and gyroscope views with the X and Y axes swapped and the gyroscope
     * converted to radians. `now` stands for `time.time()`.
     */
    method Parse(packet: seq<Entry>, now: real, parser: SlotParser, m: MathLib)
      requires Valid()
      modifies this, attitude
      ensures Valid()
      ensures calls == old(calls) + PacketCalls(packet)
      ensures slots == ApplyCalls(old(slots), PacketCalls(packet), parser)
      ensures lastParseTime == now
      ensures attitude.State() == Step(m, old(attitude.State()),
        Sample(now - old(lastParseTime),
               slots[Accelerometer].y, slots[Accelerometer].x, slots[Accelerometer].z,
               Radians(slots[Gyroscope].y), Radians(slots[Gyroscope].x), Radians(slots[Gyroscope].z)))
    {
      DispatchPacket(packet, parser);
      var accel := slots[Accelerometer];
      var gyro := slots[Gyroscope];
      attitude.Update(m, now - lastParseTime, accel.y, accel.x, accel.z,
                      Radians(gyro.y), Radians(gyro.x), Radians(gyro.z));
      lastParseTime := now;
    }

    /** The walk followed by the backfill: every `parse` call the packet causes. */
    method DispatchPacket(packet: seq<Entry>, parser: SlotParser)
      requires Valid()
      modifies this
      ensures Valid()
      ensures calls == old(calls) + PacketCalls(packet)
      ensures slots == ApplyCalls(old(slots), PacketCalls(packet), parser)
      ensures lastParseTime == old(lastParseTime)
    {
      WalkPacket(packet, parser);
      BackfillBeacon(packet, parser);
      ApplyCallsAppend(old(slots), WalkCalls(packet), BackfillCalls(packet), parser);
    }

    /** The packet walk: each entry whose id is in the table is parsed by its slot; other ids are skipped. */
    method WalkPacket(packet: seq<Entry>, parser: SlotParser)
      requires Valid()
      modifies this
      ensures Valid()
      ensures calls == old(calls) + WalkCalls(packet)
      ensures slots == ApplyCalls(old(slots), WalkCalls(packet), parser)
      ensures lastParseTime == old(lastParseTime)
    {
      for i := 0 to |packet|
        invariant Valid()
        invariant calls == old(calls) + WalkCalls(packet[..i])
        invariant slots == ApplyCalls(old(slots), WalkCalls(packet[..i]), parser)
        invariant lastParseTime == old(lastParseTime)
      {
        var e := packet[i];
        WalkCallsStep(old(slots), packet, i, parser);
        match SlotOf(e.id)
        case None =>
        case Some(s) =>
          calls := calls + [Call(s, e.payload)];
          slots := slots[s := parser(s, slots[s], e.payload)];
      }
      assert packet[..|packet|] == packet;
    }

    /** Parse the beacon with `{}` unless the packet carried a beacon entry. */
    method BackfillBeacon(packet: seq<Entry>, parser: SlotParser)
      requires Valid()
      modifies this
      ensures Valid()
      ensures calls == old(calls) + BackfillCalls(packet)
      ensures slots == ApplyCalls(old(slots), BackfillCalls(packet), parser)
      ensures lastParseTime == old(lastParseTime)
    {
      if BeaconId in Ids(packet) {
        return;
      }
      calls := calls + [Call(Beacon, map[])];
      slots := slots[Beacon := parser(Beacon, slots[Beacon], map[])];
    }

    /** The description: a line per valid slot in table order, joined by single newlines. */
    method Description(names: ComponentId -> string) returns (r: string)
      ensures r == JoinLines(DescriptionLines(TABLE, slots, names))
    {
      r := "";
      var delim := "";
      for i := 0 to |TABLE|
        invariant r == JoinLines(DescriptionLines(TABLE[..i], slots, names))
        invariant delim == if DescriptionLines(TABLE[..i], slots, names) == [] then "" else "\n"
      {
        var e := TABLE[i];
        JoinedDescriptionStep(TABLE, i, slots, names);
        if e.1 in slots && slots[e.1].valid {
          r := r + delim + Line(names(e.0), slots[e.1].text);
          delim := "\n";
        }
      }
      assert TABLE[..|TABLE|] == TABLE;
    }
  }
}
