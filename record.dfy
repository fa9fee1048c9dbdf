/**
 * The decoded sensor reading and the record persisted for it
 * (index.php lines 26-29). JSON values are opaque here: only the value
 * stored under "instance" is ever inspected.
 */
module Record {
  import opened Options

  /**
   * A decoded JSON value: `null`, a string, or any other value
   * (number, boolean, nested array), identified only by an opaque token.
   */
  datatype Value = Null | Text(s: string) | Other(token: nat)

  /** What `json_decode($body, true)` yields for a JSON object. */
  type Payload = map<string, Value>

  const InstanceKey: string := "instance"

  /**
   * The test of line 26: decoding succeeded and gave a truthy array. `None`
   * stands for a body that is not JSON (or decodes to `null`); PHP treats an
   * empty array as false, so `{}` has no data either.
   */
  predicate HasData(decoded: Option<Payload>): (b: bool)
    ensures b <==> decoded.Some? && exists k :: k in decoded.value
  {
    if decoded.Some? && |decoded.value| > 0 then
      var k :| k in decoded.value;
      true
    else
      assert decoded.Some? ==> decoded.value == map[];
      false
  }

  /** The JSON value of `$instance`: its text, or `null` when it was never assigned. */
  function InstanceValue(instance: Option<string>): (v: Value)
    ensures v.Null? <==> instance.None?
    ensures instance.Some? ==> v == Text(instance.value)
  {
    match instance
    case Some(s) => Text(s)
    case None => Null
  }

  /**
   * `$data['instance'] = $instance`: the reading with the instance key added
   * or overwritten. Every other key keeps its value and no other key appears.
   */
  function WithInstance(data: Payload, instance: Option<string>): (r: Payload)
    ensures r.Keys == data.Keys + {InstanceKey}
    ensures r[InstanceKey] == InstanceValue(instance)
    ensures forall k :: k in data && k != InstanceKey ==> r[k] == data[k]
  {
    data[InstanceKey := InstanceValue(instance)]
  }

  /** The record's exact size: one key more than the reading, unless the reading already had an `instance` key. */
  lemma WithInstanceSize(data: Payload, instance: Option<string>)
    ensures |WithInstance(data, instance)| == if InstanceKey in data then |data| else |data| + 1
  {
    var r := WithInstance(data, instance);
    if InstanceKey !in data {
      assert r.Keys == data.Keys + {InstanceKey};
      assert |r.Keys| == |data.Keys| + 1;
    } else {
      assert r.Keys == data.Keys;
    }
  }

  /** Annotating twice keeps only the later instance: the key is overwritten, not merged. */
  lemma LastInstanceWins(data: Payload, first: Option<string>, second: Option<string>)
    ensures WithInstance(WithInstance(data, first), second) == WithInstance(data, second)
  {
  }

  /** The annotation can be undone: removing the key gives back the reading without it. */
  lemma WithInstanceOnlyAddsKey(data: Payload, instance: Option<string>)
    ensures WithInstance(data, instance) - {InstanceKey} == data - {InstanceKey}
  {
  }
}
