/** How `run_scoring` turns the value returned by the user's `run` into the
    success response. */
module Shaping {
  import opened PyValues
  import opened Errors

  /** Key of a returned dictionary that overrides the response headers. */
  const HeadersKey: string := "aml_response_headers"
  /** Key of a returned dictionary that overrides the response body. */
  const BodyKey: string := "aml_response_body"
  /** The status of every success response. */
  const SuccessStatus: int := 200

  /** True when `v` is a dictionary holding `key`. */
  predicate HasKey(v: PyValue, key: string) {
    v.PyDict? && key in v.entries
  }

  /** The success response for the value `v` returned by `run`: the body
      starts as `v` and the headers as `{}`; a dictionary holding the headers
      key replaces the headers with that entry and drops the body; a
      dictionary holding the body key then replaces the body with that
      entry. The result is always JSON-encoded with status 200. */
  function ShapeResponse(v: PyValue): (r: AmlResponse)
    ensures r.status == SuccessStatus
    ensures r.jsonStr == Given(true) && r.runFunctionFailed == Default
    // a value that is not a dictionary is the body, with no headers
    ensures !v.PyDict? ==> r.body == v && r.headers == Given(EmptyDict)
    // the headers override, and only it, replaces the headers
    ensures HasKey(v, HeadersKey) ==> r.headers == Given(v.entries[HeadersKey])
    ensures !HasKey(v, HeadersKey) ==> r.headers == Given(EmptyDict)
    // the body override wins; otherwise a headers override clears the body
    ensures HasKey(v, BodyKey) ==> r.body == v.entries[BodyKey]
    ensures !HasKey(v, BodyKey) && HasKey(v, HeadersKey) ==> r.body == PyNone
    ensures !HasKey(v, BodyKey) && !HasKey(v, HeadersKey) ==> r.body == v
  {
    var (body0, headers0) := (v, EmptyDict);
    var (body1, headers1) :=
      if HasKey(v, HeadersKey) then (PyNone, v.entries[HeadersKey]) else (body0, headers0);
    var body2 := if HasKey(v, BodyKey) then v.entries[BodyKey] else body1;
    AmlResponse(body2, SuccessStatus, Given(headers1), Given(true), Default)
  }
}
