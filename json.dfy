/** JSON values (RFC 8259) as JavaScript sees them once `JSON.parse` has produced them:
    their truthiness, their `String(...)` rendering and property reads. Parsing and
    serialising themselves are not reimplemented; they are passed around as functions. */
module Json {
  import opened Wrappers
  import JsText

  /** Numbers are integers in this model. */
  datatype Json =
    | JNull
    | JBool(b: bool)
    | JNumber(n: int)
    | JString(s: string)
    | JArray(items: seq<Json>)
    | JObject(fields: map<string, Json>)

  /** The outcome of `JSON.parse(text)`: a value, or the SyntaxError it throws. */
  datatype Parsed = Parsed(value: Json) | SyntaxError(message: string)

  /** JavaScript's ToBoolean on a JSON value. */
  predicate Truthy(j: Json) {
    match j
    case JNull => false
    case JBool(b) => b
    case JNumber(n) => n != 0
    case JString(s) => s != []
    case JArray(_) => true
    case JObject(_) => true
  }

  /** `typeof j === 'object'` for a value that is not null. */
  predicate IsObjectLike(j: Json) {
    j.JArray? || j.JObject?
  }

  /** `key in j` on a value that is an object or an array (for the non-index keys the
      application uses, arrays have none). */
  predicate HasKey(j: Json, key: string)
    requires IsObjectLike(j)
  {
    j.JObject? && key in j.fields
  }

  /** `j?.[key]`: `None` when the read yields `undefined` (missing key, scalar, array or
      absent value). */
  function Field(j: Option<Json>, key: string): (r: Option<Json>)
    ensures r.Some? <==> j.Some? && j.value.JObject? && key in j.value.fields
  {
    if j.Some? && j.value.JObject? && key in j.value.fields then Some(j.value.fields[key]) else None
  }

  /** `x == null` for a value that may be `undefined`: what `??` and `?.` test. */
  predicate IsNullish(j: Option<Json>) {
    j.None? || j.value == JNull
  }

  /** Truthiness of a value that may be `undefined`. */
  predicate TruthyOpt(j: Option<Json>) {
    j.Some? && Truthy(j.value)
  }

  /** `String(j)`: arrays join their elements with commas, rendering null elements as the
      empty string; every object renders as "[object Object]". */
  function ToJsString(j: Json): (r: string)
    ensures j.JString? ==> r == j.s
    ensures j.JBool? ==> r == (if j.b then "true" else "false")
    ensures j.JObject? ==> r == "[object Object]"
    ensures j.JArray? && j.items == [] ==> r == []
    // Only strings and arrays can render as the empty string.
    ensures !j.JString? && !j.JArray? ==> r != []
    decreases j
  {
    match j
    case JNull => "null"
    case JBool(b) => if b then "true" else "false"
    case JNumber(n) => JsText.IntToString(n)
    case JString(s) => s
    case JArray(items) =>
      JsText.Join(seq(|items|, i requires 0 <= i < |items| =>
        if items[i] == JNull then "" else ToJsString(items[i])), ",")
    case JObject(_) => "[object Object]"
  }

  /** A number renders as its decimal digits, which read back as the number. */
  lemma NumberStringReadsBack(n: nat)
    ensures JsText.AllDigits(ToJsString(JNumber(n))) && JsText.DecimalValue(ToJsString(JNumber(n))) == n
  {
    JsText.NatToStringRoundTrip(n);
  }

  /** A one-element array renders as its element, except that `null` becomes empty. */
  lemma SingletonArrayString(x: Json)
    ensures ToJsString(JArray([x])) == if x == JNull then "" else ToJsString(x)
  {
    var parts := seq(1, i requires 0 <= i < 1 => if [x][i] == JNull then "" else ToJsString([x][i]));
    assert parts == [if x == JNull then "" else ToJsString(x)];
  }

  /** RFC 8259 section 2: a JSON text is a value with optional whitespace around it, so text
      made only of whitespace never parses. */
  ghost predicate RejectsBlank(parse: string -> Parsed) {
    forall s :: JsText.IsBlank(s) ==> parse(s).SyntaxError?
  }
}
