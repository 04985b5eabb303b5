/** The complete-payload check on a Secret that was read back from the cluster. */
module SecretPayload {
  import opened Prelude
  import opened Base64

  /** A JSON value under a payload key: a string (its UTF-8 bytes) or anything else. */
  datatype Json = Text(bytes: Bytes) | Other

  type Payload = map<string, Json>

  /** The observed `data` holds exactly the expected keys, and every value decodes to the expected bytes. */
  ghost predicate PayloadMatches(observed: Option<Payload>, expected: Option<Payload>) {
    && observed.Some? && expected.Some?
    && observed.value.Keys == expected.value.Keys
    && forall name :: name in expected.value ==> EntryMatches(observed.value[name], expected.value[name])
  }

  predicate EntryMatches(observed: Json, expected: Json) {
    expected.Text? && observed.Text? && Decode(observed.bytes) == Some(expected.bytes)
  }

  method ValidateCompletePayload(observed: Option<Payload>, expected: Option<Payload>) returns (ok: bool)
    ensures ok <==> PayloadMatches(observed, expected)
  {
    if expected.None? || observed.None? { return false; }
    if |expected.value| != |observed.value| { return false; }
    var todo := expected.value.Keys;
    while todo != {}
      invariant todo <= expected.value.Keys
      invariant expected.value.Keys - todo <= observed.value.Keys
      invariant forall name :: name in expected.value.Keys - todo ==> EntryMatches(observed.value[name], expected.value[name])
      decreases todo
    {
      var name :| name in todo;
      todo := todo - {name};
      if expected.value[name].Other? || name !in observed.value || observed.value[name].Other? { return false; }
      var decoded := DecodeBase64(observed.value[name].bytes);
      if decoded != Some(expected.value[name].bytes) { return false; }
    }
    assert expected.value.Keys - {} == expected.value.Keys;
    // Equal size and inclusion leave no room for a further observed key.
    SameSizeSubset(expected.value.Keys, observed.value.Keys);
    return true;
  }

  /** What a faithful API server returns for a Secret created from `stringData`. */
  ghost function Stored(written: map<string, Bytes>): Payload {
    map name | name in written :: Text(Encode(written[name]))
  }

  ghost function Written(written: map<string, Bytes>): Payload {
    map name | name in written :: Text(written[name])
  }

  /** A faithful readback is accepted exactly when no value is empty: the decoder refuses empty text. */
  lemma FaithfulReadback(written: map<string, Bytes>)
    ensures PayloadMatches(Some(Stored(written)), Some(Written(written)))
            <==> forall name :: name in written ==> written[name] != []
  {
    forall name | name in written
      ensures EntryMatches(Stored(written)[name], Written(written)[name]) <==> written[name] != []
    {
      RoundTrip(written[name]);
    }
  }

  /** An accepted Secret determines every decoded value: two accepted expectations are equal. */
  lemma AcceptedPayloadIsUnique(observed: Option<Payload>, e1: Option<Payload>, e2: Option<Payload>)
    requires PayloadMatches(observed, e1) && PayloadMatches(observed, e2)
    ensures e1 == e2
  {
    forall name | name in e1.value ensures e1.value[name] == e2.value[name] {
      assert EntryMatches(observed.value[name], e1.value[name]);
      assert EntryMatches(observed.value[name], e2.value[name]);
    }
    assert e1.value == e2.value;
  }
}
