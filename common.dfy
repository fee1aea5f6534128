/** Values shared by the client, the poll pass and the switch: the two kinds
    of exception the core distinguishes, a model of decoded JSON, and the
    substring test the source writes as `x in s` on strings. */
module Common {

  /** `ApiError` is EzvizCloudChinaApiError; `Unexpected` is any other
      exception (an AttributeError on a non-dict payload, a TypeError on a
      missing expiry time). Callers that catch only the API error let the
      other kind through. */
  datatype ErrorKind = ApiError | Unexpected

  /** The result of an operation that either returns or raises. */
  datatype Fallible<+T> = Ok(value: T) | Fail(error: ErrorKind)

  datatype Option<+T> = None | Some(value: T)

  /** Decoded JSON as Python's json module produces it. Floating-point
      numbers are not modelled: every number is an integer. */
  datatype Json =
    | JNull
    | JBool(b: bool)
    | JNum(n: int)
    | JStr(s: string)
    | JArr(items: seq<Json>)
    | JObj(fields: map<string, Json>)

  /** `obj.get(key)` on a dict: `None` when the key is absent. */
  function Get(fields: map<string, Json>, key: string): (v: Option<Json>)
    ensures v.Some? <==> key in fields
    ensures v.Some? ==> v.value == fields[key]
  {
    if key in fields then Some(fields[key]) else None
  }

  /** Python truthiness of an optional string: present and not empty. */
  predicate Truthy(s: Option<string>) {
    s.Some? && s.value != ""
  }

  /** `t` occurs in `s` starting at index `i`. */
  predicate OccursAt(s: string, t: string, i: nat) {
    i + |t| <= |s| && s[i..i + |t|] == t
  }

  /** Python's `t in s` for strings: `t` occurs in `s` as a contiguous block. */
  predicate Contains(s: string, t: string) {
    exists i: nat | i <= |s| :: OccursAt(s, t, i)
  }

  /** A string contains every one of its suffixes. */
  lemma ContainsSuffix(p: string, t: string)
    ensures Contains(p + t, t)
  {
    assert OccursAt(p + t, t, |p|);
  }

  /** A string lacking one of the characters of `t` does not contain `t`. */
  lemma MissingChar(s: string, t: string, c: char)
    requires c in t && c !in s
    ensures !Contains(s, t)
  {
  }
}
