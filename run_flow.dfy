/** Request construction in `run_flow`: the target URL, the JSON payload and
    the optional authentication header of the one POST the client sends.
    The POST itself and the decoding of its response are not modelled. */
module RunFlow {
  import opened JsonValue
  import opened Config

  /** Everything `requests.post` is called with; `headers` is `None` or a dict. */
  datatype FlowRequest = FlowRequest(
    url: string,
    payload: map<string, Json>,
    headers: Option<map<string, string>>)

  /** The three payload keys that are always present. */
  const RequiredKeys: set<string> := {"input_value", "output_type", "input_type"}

  /** `f"{BASE_API_URL}/{endpoint}"`; the endpoint is not validated. */
  function TargetUrl(endpoint: string): (url: string)
    ensures |url| == |BaseApiUrl| + 1 + |endpoint|
    ensures url[..|BaseApiUrl|] == BaseApiUrl
    ensures url[|BaseApiUrl|] == '/'
    ensures url[|BaseApiUrl| + 1..] == endpoint
  {
    BaseApiUrl + "/" + endpoint
  }

  /** An empty endpoint is passed through, leaving a trailing slash. */
  lemma EmptyEndpointUrl()
    ensures TargetUrl("") == BaseApiUrl + "/"
  {
  }

  /** The JSON body: the message and the two type labels, plus the tweaks
      exactly when they are truthy. */
  function Payload(message: string, outputType: string, inputType: string, tweaks: Json): (p: map<string, Json>)
    ensures p.Keys == if Truthy(tweaks) then RequiredKeys + {"tweaks"} else RequiredKeys
    ensures "input_value" in p && p["input_value"] == Str(message)
    ensures "output_type" in p && p["output_type"] == Str(outputType)
    ensures "input_type" in p && p["input_type"] == Str(inputType)
    ensures "tweaks" in p <==> Truthy(tweaks)
    ensures "tweaks" in p ==> p["tweaks"] == tweaks
  {
    var base := map["input_value" := Str(message), "output_type" := Str(outputType), "input_type" := Str(inputType)];
    if Truthy(tweaks) then base["tweaks" := tweaks] else base
  }

  /** The headers: `None` unless the API key is truthy, and then the single
      entry `x-api-key`. */
  function Headers(apiKey: Option<string>): (h: Option<map<string, string>>)
    ensures h.Some? <==> StrTruthy(apiKey)
    ensures h.Some? ==> h.value.Keys == {"x-api-key"} && h.value["x-api-key"] == apiKey.value
  {
    if StrTruthy(apiKey) then Some(map["x-api-key" := apiKey.value]) else None
  }

  /** The request `run_flow` sends, with its keyword defaults: both type labels
      `"chat"`, no tweaks and no API key. */
  function Request(message: string, endpoint: string, outputType: string := "chat", inputType: string := "chat",
                   tweaks: Json := Null, apiKey: Option<string> := None): (r: FlowRequest)
    ensures r.url == TargetUrl(endpoint)
    ensures r.payload == Payload(message, outputType, inputType, tweaks)
    ensures r.headers == Headers(apiKey)
  {
    FlowRequest(TargetUrl(endpoint), Payload(message, outputType, inputType, tweaks), Headers(apiKey))
  }

  /** `run_flow` up to the POST: it builds the payload, then adds `tweaks` to it
      by a map update, in the source's order; it starts with no headers and
      replaces them when a key is given. */
  method BuildRequest(message: string, endpoint: string, outputType: string := "chat", inputType: string := "chat",
                      tweaks: Json := Null, apiKey: Option<string> := None)
    returns (r: FlowRequest)
    ensures r.url == TargetUrl(endpoint)
    ensures r.payload == Payload(message, outputType, inputType, tweaks)
    ensures r.headers == Headers(apiKey)
  {
    var url := BaseApiUrl + "/" + endpoint;
    var payload := map["input_value" := Str(message), "output_type" := Str(outputType), "input_type" := Str(inputType)];
    var headers: Option<map<string, string>> := None;
    if Truthy(tweaks) {
      payload := payload["tweaks" := tweaks];
    }
    if StrTruthy(apiKey) {
      headers := Some(map["x-api-key" := apiKey.value]);
    }
    r := FlowRequest(url, payload, headers);
  }

  /** Omitted type labels are both `"chat"`. */
  lemma TypeLabelsDefaultToChat(message: string, endpoint: string)
    ensures Request(message, endpoint).payload["output_type"] == Str("chat")
    ensures Request(message, endpoint).payload["input_type"] == Str("chat")
  {
  }

  /** Every falsy tweaks value, not only `None`, is left out of the payload,
      and the payload then has exactly the three required keys. */
  lemma FalsyTweaksOmitted(message: string, outputType: string, inputType: string, tweaks: Json)
    requires tweaks in {Null, Object(map[]), Array([]), Num(0), Str(""), Bool(false)}
    ensures Payload(message, outputType, inputType, tweaks).Keys == RequiredKeys
  {
  }

  /** An empty API key sends no header at all. */
  lemma EmptyApiKeyNoHeaders()
    ensures Headers(Some("")) == None
    ensures Headers(None) == None
  {
  }

  /** A request with every default: message "hello" to endpoint "abc123". */
  method ExampleRequest() returns (r: FlowRequest)
    ensures r.url == "http://127.0.0.1:7860/api/v1/run/abc123"
    ensures r.payload == map["input_value" := Str("hello"), "output_type" := Str("chat"), "input_type" := Str("chat")]
    ensures r.headers == None
  {
    r := BuildRequest("hello", "abc123");
  }
}
