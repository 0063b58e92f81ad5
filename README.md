# Run-flow client: request construction and pre-flight gate

This project models the decision logic of a small Streamlit client that sends
one message, with optional per-component overrides ("tweaks"), to a Langflow
workflow service, in `app.py`:

- `run_flow` builds the request. The URL is the base run URL, a `/` and the
  endpoint. The JSON payload always holds `input_value`, `output_type` and
  `input_type`, and holds `tweaks` only when the tweaks value is truthy in
  Python's sense. The headers are `None` unless the API key is truthy, and
  then they are the single entry `x-api-key`. Both type labels default to
  `"chat"`.
- The "Run Flow" handler in `main` runs its checks in a fixed order. Tweaks
  text that does not parse is rejected. An upload path without the
  `upload_file` capability is rejected, and an upload path with an empty
  components field is rejected. Otherwise the request goes out. With an
  upload, the tweaks are first replaced by what `upload_file` returns. That
  call is made with the configured `ENDPOINT`, not the endpoint typed into
  the form.

Modules:

- `JsonValue` (`json_value.dfy`) holds JSON values (`Null` is Python's `None`)
  and Python truthiness.
- `Config` (`config.dfy`) holds the configuration constants and the
  pre-filled endpoint `ENDPOINT or FLOW_ID`.
- `RunFlow` (`run_flow.dfy`) holds the request specification functions and
  `BuildRequest`. That method follows the source's steps: it builds the
  payload, then adds `tweaks` to it by a map update, and starts with no
  headers, replacing them when there is a key.
- `RunButton` (`run_button.dfy`) holds the gate `PreFlight` and the whole
  button handler `HandleRun`, up to the POST. `PreFlight` is also restated
  independently as "the first failing check in a list" (`Checks`,
  `FirstFailure`).

The result of parsing the tweaks text is an input (`Parsed(json)` or
`ParseError`). The import-time availability of `upload_file` is a boolean.
`upload_file` itself is an uninterpreted function parameter, and every call
to it is recorded as an `UploadCall` holding its keyword arguments.

## Model

| member | source | states |
|---|---|---|
| `JsonValue.Truthy` | app.py:51 | Python's `bool()` on a JSON value: true exactly when the value differs from the empty value of its kind |
| `JsonValue.StrTruthy` | app.py:53 | `if api_key:` on an optional string: true exactly when the key is present and `bool()` of it as a string holds |
| `JsonValue.FalsyValues` | app.py:51 | `if tweaks:` is false for exactly `None`, `False`, `0`, `""`, `[]` and `{}` |
| `JsonValue.FalsyStrings` | app.py:53 | an optional API key is falsy exactly when it is absent or empty |
| `Config.ConstantsAsConfigured` | app.py:15-17 | the base run URL, the flow identifier and the empty endpoint name have the configured values |
| `Config.OrElse` | app.py:62 | Python's `a or b` on strings yields `a` when `a` is non-empty, otherwise `b` |
| `Config.DefaultEndpoint` | app.py:62 | the pre-filled endpoint is `ENDPOINT` when it is set, otherwise `FLOW_ID` |
| `Config.DefaultEndpointIsFlowId` | app.py:62 | with `ENDPOINT` empty, the pre-filled endpoint is `FLOW_ID`, which is non-empty |
| `RunFlow.TargetUrl` | app.py:43 | the URL is the base URL, then `/`, then the endpoint, unvalidated |
| `RunFlow.EmptyEndpointUrl` | app.py:43 | an empty endpoint gives the base URL with a trailing `/` |
| `RunFlow.Payload` | app.py:45-52 | payload keys are the three required ones plus `tweaks` iff tweaks are truthy; values are the message, the labels and the tweaks unchanged |
| `RunFlow.Headers` | app.py:50-54 | headers are present iff the key is truthy, and then are exactly `{"x-api-key": key}` |
| `RunFlow.Request` | app.py:29-54 | `run_flow`'s request is made of the URL, payload and headers above, with defaults `"chat"`, `"chat"`, `None`, `None` |
| `RunFlow.BuildRequest` | app.py:43-54 | the step-by-step construction yields exactly the specified URL, payload and headers |
| `RunFlow.TypeLabelsDefaultToChat` | app.py:31-32 | omitted output and input types are sent as `"chat"` |
| `RunFlow.FalsyTweaksOmitted` | app.py:51-52 | every falsy tweaks value, not only `None`, leaves the payload with only the three required keys |
| `RunFlow.EmptyApiKeyNoHeaders` | app.py:53-54 | an empty or absent API key sends no headers |
| `RunFlow.ExampleRequest` | app.py:29-54 | a request with every default, "hello" to endpoint "abc123", posts to `.../run/abc123` the three-key payload with no headers |
| `RunButton.PreFlight` | app.py:72-84 | a parse error rejects; proceeding needs a parse; without upload the parsed tweaks pass unchanged; with upload the preprocessor gets `(path, BASE_API_URL, ENDPOINT, components, parsed)` and its result replaces the tweaks |
| `RunButton.CapabilityCheckedFirst` | app.py:77-80 | with an upload path and no capability the gate rejects as unavailable, whatever the components |
| `RunButton.EmptyComponentsRejected` | app.py:81-83 | with an upload path, the capability and empty components the gate rejects as missing components |
| `RunButton.RejectsExactly` | app.py:72-83 | the gate rejects iff parsing fails or an upload lacks the capability or components |
| `RunButton.PreprocessorCalledExactly` | app.py:77-84 | the preprocessor is called iff parsing succeeds and an upload passes both checks |
| `RunButton.PreFlightIsFirstFailure` | app.py:72-83 | the gate's rejection is the error of the first failing check in the order parse, capability, components, and it proceeds iff none fails |
| `RunButton.HandleRun` | app.py:70-93 | the handler rejects iff the gate does, with the same error; otherwise it posts `run_flow`'s request for the form fields and the gate's tweaks |
| `RunButton.PreprocessorNotReached` | app.py:72-84 | a rejected run or a run without upload has the same outcome whatever the preprocessor does |
| `RunButton.InvalidTweaksNotPosted` | app.py:72-75 | unparseable tweaks text rejects and posts nothing |
| `RunButton.ParsedTweaksPassThrough` | app.py:86-93 | without upload the parsed tweaks reach the payload unchanged iff truthy |
| `RunButton.UploadReplacesTweaks` | app.py:84-93 | an accepted upload passes the recorded arguments to the preprocessor and sends its result as the tweaks, iff truthy |
| `RunButton.PostedRequestFollowsForm` | app.py:86-93 | a posted request targets the entered endpoint, carries the entered message, and has a header iff a key was entered |
| `RunButton.UploadFlowIdIsConfigured` | app.py:84 | the preprocessor always gets flow id `ENDPOINT` (empty) and host `BASE_API_URL` |
| `RunButton.UploadFlowIdCanDifferFromEndpoint` | app.py:62-84 | there are runs whose upload names a different flow than the endpoint the request is posted to |
| `RunButton.NonObjectTweaksPosted` | app.py:72-93 | tweaks are not checked to be an object: a parsed array is posted as the payload's `tweaks` |

## Left out

- `requests.post` and `response.json()` (app.py:55-56) are network I/O in a foreign library. The model stops at the request that would be posted, so transport errors, response decoding and the unchecked status code are not modelled.
- `json.loads` (app.py:72) and `json.dumps` of the default tweaks (app.py:63) are not modelled. Parsing enters as its result, `Parsed(json)` or `ParseError`.
- The internals of `upload_file` (app.py:10, 84) are not visible. It is an opaque total function, so an exception it raises, which would propagate out of the handler, is not modelled.
- The import-time `try`/`except ImportError` and its warning (app.py:9-13) are reduced to the boolean `uploadAvailable`.
- All Streamlit calls (title, text inputs, button, `st.error`, `st.json`) are presentation. The form enters as a `Form` value, and the error shown is represented by its `RejectKind`.
- The values of the `TWEAKS` template (app.py:21-27) are left out, as are the unused `argparse` imports and the `__main__` entry point.
- JSON numbers are integers. Floating-point numbers (including `NaN`, which `json.loads` accepts) are not modelled; a float would be falsy exactly when it is zero.
- Dictionary key order is not modelled. Payloads and objects are maps, so the insertion order of `payload["tweaks"]` after the other three keys is not captured.
