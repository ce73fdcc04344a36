/**
 * The attitude sensor component of WonderPy/components/wwSensorAttitude.py:
 * an all-or-nothing validator and copier over one component's payload.
 */
module SensorAttitude {
  import opened Values

  /** The six payload keys the component requires, named as `_important_field_names` lists them. */
  const ROLL_KEY: string := "roll"
  const PITCH_KEY: string := "pitch"
  const SLOPE_KEY: string := "slope"
  const ROLL_TYPE_KEY: string := "roll_type"
  const PITCH_TYPE_KEY: string := "pitch_type"
  const SLOPE_TYPE_KEY: string := "slope_type"

  const EXPECTED_FIELDS: seq<string> :=
    [ROLL_KEY, PITCH_KEY, SLOPE_KEY, ROLL_TYPE_KEY, PITCH_TYPE_KEY, SLOPE_TYPE_KEY]

  /** The base class's field check: every expected key is in the payload. */
  predicate FieldsExist(payload: Object, expected: seq<string>)
  {
    forall k | k in expected :: k in payload
  }

  /** The six keys in turn, for reading the payload once the check has passed. */
  lemma ExpectedKeysPresent(payload: Object)
    requires FieldsExist(payload, EXPECTED_FIELDS)
    ensures ROLL_KEY in payload && PITCH_KEY in payload && SLOPE_KEY in payload
    ensures ROLL_TYPE_KEY in payload && PITCH_TYPE_KEY in payload && SLOPE_TYPE_KEY in payload
  {
    assert ROLL_KEY == EXPECTED_FIELDS[0] && PITCH_KEY == EXPECTED_FIELDS[1];
    assert SLOPE_KEY == EXPECTED_FIELDS[2] && ROLL_TYPE_KEY == EXPECTED_FIELDS[3];
    assert PITCH_TYPE_KEY == EXPECTED_FIELDS[4] && SLOPE_TYPE_KEY == EXPECTED_FIELDS[5];
  }

  /** Everything the component holds, as a value. */
  datatype Reading = Reading(
    roll: Json, pitch: Json, slope: Json,
    rollType: Json, pitchType: Json, slopeType: Json,
    valid: bool)

  /** A freshly constructed component: every field is 0 and it is not valid. */
  const INITIAL: Reading :=
    Reading(JNumber(0.0), JNumber(0.0), JNumber(0.0), JNumber(0.0), JNumber(0.0), JNumber(0.0), false)

  /** What `parse` does to the component's state. */
  function Parsed(r: Reading, payload: Object): (p: Reading)
    ensures p == r || p.valid
  {
    if !FieldsExist(payload, EXPECTED_FIELDS) then r
    else
      ExpectedKeysPresent(payload);
      Reading(payload[ROLL_KEY], payload[PITCH_KEY], payload[SLOPE_KEY],
              payload[ROLL_TYPE_KEY], payload[PITCH_TYPE_KEY], payload[SLOPE_TYPE_KEY], true)
  }

  /** A payload missing any expected key leaves every field and the valid flag as they were. */
  lemma MissingKeyChangesNothing(r: Reading, payload: Object, k: string)
    requires k in EXPECTED_FIELDS && k !in payload
    ensures Parsed(r, payload) == r
  {
  }

  /** A payload holding all six keys is copied field by field and marks the component valid. */
  lemma CompletePayloadCopied(r: Reading, payload: Object)
    requires ROLL_KEY in payload && PITCH_KEY in payload && SLOPE_KEY in payload
    requires ROLL_TYPE_KEY in payload && PITCH_TYPE_KEY in payload && SLOPE_TYPE_KEY in payload
    ensures Parsed(r, payload).roll == payload[ROLL_KEY]
    ensures Parsed(r, payload).pitch == payload[PITCH_KEY]
    ensures Parsed(r, payload).slope == payload[SLOPE_KEY]
    ensures Parsed(r, payload).rollType == payload[ROLL_TYPE_KEY]
    ensures Parsed(r, payload).pitchType == payload[PITCH_TYPE_KEY]
    ensures Parsed(r, payload).slopeType == payload[SLOPE_TYPE_KEY]
    ensures Parsed(r, payload).valid
  {
  }

  /** How two payloads relate when they agree on the expected keys. */
  predicate AgreeOn(p: Object, q: Object, keys: seq<string>)
  {
    forall k | k in keys :: (k in p <==> k in q) && (k in p ==> p[k] == q[k])
  }

  /** Keys outside the six expected ones have no effect. */
  lemma OtherKeysIrrelevant(r: Reading, p: Object, q: Object)
    requires AgreeOn(p, q, EXPECTED_FIELDS)
    ensures Parsed(r, p) == Parsed(r, q)
  {
    assert FieldsExist(p, EXPECTED_FIELDS) <==> FieldsExist(q, EXPECTED_FIELDS);
    if FieldsExist(p, EXPECTED_FIELDS) {
      ExpectedKeysPresent(p);
      assert p[ROLL_KEY] == q[ROLL_KEY] by { assert EXPECTED_FIELDS[0] == ROLL_KEY; }
      assert p[PITCH_KEY] == q[PITCH_KEY] by { assert EXPECTED_FIELDS[1] == PITCH_KEY; }
      assert p[SLOPE_KEY] == q[SLOPE_KEY] by { assert EXPECTED_FIELDS[2] == SLOPE_KEY; }
      assert p[ROLL_TYPE_KEY] == q[ROLL_TYPE_KEY] by { assert EXPECTED_FIELDS[3] == ROLL_TYPE_KEY; }
      assert p[PITCH_TYPE_KEY] == q[PITCH_TYPE_KEY] by { assert EXPECTED_FIELDS[4] == PITCH_TYPE_KEY; }
      assert p[SLOPE_TYPE_KEY] == q[SLOPE_TYPE_KEY] by { assert EXPECTED_FIELDS[5] == SLOPE_TYPE_KEY; }
    }
  }

  /** Parsing the same payload twice leaves the state of parsing it once. */
  lemma ParseIdempotent(r: Reading, payload: Object)
    ensures Parsed(Parsed(r, payload), payload) == Parsed(r, payload)
  {
  }

  /** Once valid, a component stays valid: no payload clears the flag. */
  lemma ValidIsSticky(r: Reading, payload: Object)
    requires r.valid
    ensures Parsed(r, payload).valid
  {
  }

  /** The component object, with the fields `_roll` ... `_slope_type` and `_valid`. */
  class AttitudeSensor {
    var roll: Json
    var pitch: Json
    var slope: Json
    var rollType: Json
    var pitchType: Json
    var slopeType: Json
    var valid: bool

    function State(): Reading
      reads this
    {
      Reading(roll, pitch, slope, rollType, pitchType, slopeType, valid)
    }

    constructor()
      ensures State() == INITIAL
    {
      roll := JNumber(0.0);
      pitch := JNumber(0.0);
      slope := JNumber(0.0);
      rollType := JNumber(0.0);
      pitchType := JNumber(0.0);
      slopeType := JNumber(0.0);
      valid := false;
    }

    method Parse(payload: Object)
      modifies this
      ensures State() == Parsed(old(State()), payload)
    {
      if !FieldsExist(payload, EXPECTED_FIELDS) {
        return;
      }
      ExpectedKeysPresent(payload);
      roll := payload[ROLL_KEY];
      pitch := payload[PITCH_KEY];
      slope := payload[SLOPE_KEY];
      rollType := payload[ROLL_TYPE_KEY];
      pitchType := payload[PITCH_TYPE_KEY];
      slopeType := payload[SLOPE_TYPE_KEY];
      valid := true;
    }
  }
}
