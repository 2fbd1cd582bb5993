/** The value `JSON.parse` yields, JavaScript truthiness on it, and reading a
    named property of it the way `parsedJson.captions` does. */
module Json {
  import opened Wrappers

  datatype Json =
    | JNull
    | JBool(b: bool)
    | JNumber(n: real)
    | JString(s: string)
    | JArray(items: seq<Json>)
    | JObject(members: seq<Member>)

  /** One `"key": value` pair of an object, in the order of the text. */
  datatype Member = Member(key: string, value: Json)

  /** A property read gives a JSON value or `undefined`. */
  datatype JsValue = Undefined | Defined(json: Json)

  /** Reading a property of `null` throws a TypeError. */
  datatype AccessError = PropertyOfNull

  /** JavaScript's ToBoolean: `null`, `false`, zero and the empty string are
      falsy; every array and every object, even an empty one, is truthy. */
  predicate Truthy(j: Json)
  {
    match j
    case JNull => false
    case JBool(b) => b
    case JNumber(n) => n != 0.0
    case JString(s) => s != ""
    case JArray(_) => true
    case JObject(_) => true
  }

  predicate TruthyValue(v: JsValue)
  {
    v.Defined? && Truthy(v.json)
  }

  /** Member `i` carries `key` and no later member does. */
  predicate IsLastWith(ms: seq<Member>, key: string, i: int)
  {
    0 <= i < |ms| && ms[i].key == key
    && forall k :: i < k < |ms| ==> ms[k].key != key
  }

  /** The position of the pair `JSON.parse` keeps for `key`, or -1 when the
      key is absent: when a key is repeated in the text, the later pair
      overwrites the earlier one. */
  function LastIndex(ms: seq<Member>, key: string): (r: int)
    ensures -1 <= r < |ms|
    ensures r == -1 <==> forall k :: 0 <= k < |ms| ==> ms[k].key != key
    ensures r != -1 ==> IsLastWith(ms, key, r)
  {
    if ms == [] then -1
    else if ms[|ms| - 1].key == key then |ms| - 1
    else
      var r := LastIndex(ms[..|ms| - 1], key);
      assert forall k :: 0 <= k < |ms| - 1 ==> ms[..|ms| - 1][k] == ms[k];
      r
  }

  /** Reading property `key` of a parsed value. Only the own data properties
      that `JSON.parse` creates are modelled; keys naming built-in properties
      of strings, arrays or `Object.prototype` are outside the model. */
  function GetProperty(j: Json, key: string): (r: Result<JsValue, AccessError>)
    ensures r.Failure? <==> j.JNull?
    ensures !j.JObject? && !j.JNull? ==> r == Success(Undefined)
    ensures j.JObject? ==>
      r.Success? && (r.value.Defined? <==> exists k :: 0 <= k < |j.members| && j.members[k].key == key)
  {
    match j
    case JNull => Failure(PropertyOfNull)
    case JObject(ms) =>
      var i := LastIndex(ms, key);
      if i == -1 then Success(Undefined) else Success(Defined(ms[i].value))
    case _ => Success(Undefined)
  }

  /** An object whose last `key` pair holds `v` gives `v` for that key,
      whatever earlier pairs with the same key held. */
  lemma GetPropertyOfObject(ms: seq<Member>, key: string, i: nat)
    requires IsLastWith(ms, key, i)
    ensures GetProperty(JObject(ms), key) == Success(Defined(ms[i].value))
  {
    assert LastIndex(ms, key) == i;
  }

  /** Only an object can have a truthy property. */
  lemma TruthyPropertyOnlyOnObjects(j: Json, key: string)
    requires GetProperty(j, key).Success? && TruthyValue(GetProperty(j, key).value)
    ensures j.JObject?
  {
  }
}
