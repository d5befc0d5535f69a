/**
  The JSON values the backends read out of model completions. Parsing itself
  (`json.loads`, pydantic's `model_validate_json`) is an oracle: a partial
  function from text to a value, whose failure carries the exception's text.
 */
module Json {
  import opened Wrappers

  datatype Json =
    | JNull
    | JBool(b: bool)
    | JInt(n: int)
    | JStr(s: string)
    | JArr(items: seq<Json>)
    | JObj(fields: map<string, Json>)

  /** `json.loads`: the decoded value, or the text of the `JSONDecodeError`. */
  type Parser = string -> Result<Json, string>

  /** A JSON object that has the given key. */
  predicate Has(j: Json, key: string) {
    j.JObj? && key in j.fields
  }

  /** A JSON array whose elements are all strings (what `list[str]` accepts). */
  predicate IsStringArray(j: Json) {
    j.JArr? && forall i :: 0 <= i < |j.items| ==> j.items[i].JStr?
  }

  function Strings(j: Json): (r: seq<string>)
    requires IsStringArray(j)
    ensures |r| == |j.items|
    ensures forall i :: 0 <= i < |r| ==> j.items[i] == JStr(r[i])
  {
    seq(|j.items|, i requires 0 <= i < |j.items| => j.items[i].s)
  }

  /** The JSON array of the given strings: the inverse of `Strings`. */
  function StringArray(xs: seq<string>): (j: Json)
    ensures IsStringArray(j) && Strings(j) == xs
  {
    JArr(seq(|xs|, i requires 0 <= i < |xs| => JStr(xs[i])))
  }

  /** Every array of strings is the array of its strings. */
  lemma StringArrayOfStrings(j: Json)
    requires IsStringArray(j)
    ensures StringArray(Strings(j)) == j
  {
    assert StringArray(Strings(j)).items == j.items;
  }

  /** The JSON value `null` or a string (what `str | None` accepts). */
  predicate IsNullableString(j: Json) {
    j.JNull? || j.JStr?
  }

  /** The JSON value `null` or an array of strings (what `list[str] | None` accepts). */
  predicate IsNullableStringArray(j: Json) {
    j.JNull? || IsStringArray(j)
  }
}
