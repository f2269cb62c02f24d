/** The uniform response envelope `{code, success, message, response}` that
    every API-shaped answer of the service carries. */
module Response {
  import opened Wrappers

  /** The JSON-compatible values the service puts in its dictionaries. */
  datatype Json =
    | JNull
    | JBool(b: bool)
    | JInt(i: int)
    | JReal(r: real)
    | JString(s: string)
    | JArray(items: seq<Json>)
    | JObject(fields: map<string, Json>)

  /** `ResponseCommon(code, success, message, data)`: the constructor only
      stores its four arguments. A value type, so neither serialiser can
      change its fields. */
  datatype ResponseCommon = ResponseCommon(code: int, success: bool, message: string, data: Json)

  const EnvelopeKeys: set<string> := {"code", "success", "message", "response"}

  /** `to_json()`: exactly the four envelope keys; the constructor's `data`
      appears under "response", also when it is empty. */
  function ToJson(r: ResponseCommon): (m: map<string, Json>)
    ensures m.Keys == EnvelopeKeys
    ensures m["code"] == JInt(r.code) && m["success"] == JBool(r.success)
    ensures m["message"] == JString(r.message) && m["response"] == r.data
  {
    map["code" := JInt(r.code), "success" := JBool(r.success),
        "message" := JString(r.message), "response" := r.data]
  }

  /** `to_json_data()`: the two-key part of `to_json()`. */
  function ToJsonData(r: ResponseCommon): (m: map<string, Json>)
    ensures m.Keys == {"message", "response"}
    ensures m.Keys <= ToJson(r).Keys
    ensures forall k :: k in m ==> m[k] == ToJson(r)[k]
  {
    map["message" := JString(r.message), "response" := r.data]
  }

  /** How a client reads an envelope back. */
  function FromJson(m: map<string, Json>): (r: Option<ResponseCommon>)
    ensures r.Some? ==> EnvelopeKeys <= m.Keys
  {
    if EnvelopeKeys <= m.Keys && m["code"].JInt? && m["success"].JBool? && m["message"].JString?
    then Some(ResponseCommon(m["code"].i, m["success"].b, m["message"].s, m["response"]))
    else None
  }

  /** Nothing is lost in serialising: the envelope reads back as the object
      it came from, so distinct envelopes serialise differently. */
  lemma ToJsonRoundTrip(r: ResponseCommon)
    ensures FromJson(ToJson(r)) == Some(r)
  {
  }

  lemma ToJsonInjective(r1: ResponseCommon, r2: ResponseCommon)
    requires ToJson(r1) == ToJson(r2)
    ensures r1 == r2
  {
    ToJsonRoundTrip(r1);
    ToJsonRoundTrip(r2);
  }
}
