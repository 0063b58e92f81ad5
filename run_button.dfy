/** What `main` does when "Run Flow" is pressed: parse the tweaks text,
    pass the pre-flight gate (upload capability, component targets), let the
    file-upload preprocessor replace the tweaks, then build the request. */
module RunButton {
  import opened JsonValue
  import opened Config
  import opened RunFlow

  /** The outcome of `json.loads` on the tweaks text; the parser is not modelled. */
  datatype ParseResult = Parsed(value: Json) | ParseError

  /** The three reasons the form is rejected before anything is called. */
  datatype RejectKind = InvalidTweaksFormat | CapabilityUnavailable | MissingComponentTarget

  /** The keyword arguments of one call of `upload_file`; `components` is the
      raw text of the form field. */
  datatype UploadCall = UploadCall(filePath: string, host: string, flowId: string, components: string, tweaks: Json)

  /** `upload_file` as an opaque function from its arguments to the new tweaks. */
  type Uploader = UploadCall -> Json

  /** The gate's verdict: rejected, or allowed with the tweaks to send and the
      preprocessor call made on the way, if any. */
  datatype GateResult = Reject(kind: RejectKind) | Proceed(tweaks: Json, call: Option<UploadCall>)

  /** The pre-flight checks in their fixed order: parse first, then, only for
      an upload, the capability and then the component targets. */
  function PreFlight(parsed: ParseResult, uploadPath: string, uploadAvailable: bool, components: string,
                     upload: Uploader): (g: GateResult)
    ensures parsed.ParseError? ==> g == Reject(InvalidTweaksFormat)
    ensures g.Proceed? ==> parsed.Parsed?
    ensures g.Proceed? && uploadPath == "" ==> g.tweaks == parsed.value && g.call == None
    ensures g.Proceed? && uploadPath != "" ==>
      g.call == Some(UploadCall(uploadPath, BaseApiUrl, ConfiguredEndpoint, components, parsed.value))
      && g.tweaks == upload(g.call.value)
  {
    match parsed
    case ParseError => Reject(InvalidTweaksFormat)
    case Parsed(tweaks) =>
      if uploadPath == "" then Proceed(tweaks, None)
      else if !uploadAvailable then Reject(CapabilityUnavailable)
      else if components == "" then Reject(MissingComponentTarget)
      else
        var call := UploadCall(uploadPath, BaseApiUrl, ConfiguredEndpoint, components, tweaks);
        Proceed(upload(call), Some(call))
  }

  /** With an upload path, a missing capability rejects whatever the components are. */
  lemma CapabilityCheckedFirst(json: Json, uploadPath: string, components: string, upload: Uploader)
    requires uploadPath != ""
    ensures PreFlight(Parsed(json), uploadPath, false, components, upload) == Reject(CapabilityUnavailable)
  {
  }

  /** With an upload path and the capability present, empty components reject. */
  lemma EmptyComponentsRejected(json: Json, uploadPath: string, upload: Uploader)
    requires uploadPath != ""
    ensures PreFlight(Parsed(json), uploadPath, true, "", upload) == Reject(MissingComponentTarget)
  {
  }

  /** The gate rejects exactly when parsing fails or an upload is asked for
      without the capability or without components. */
  lemma RejectsExactly(parsed: ParseResult, uploadPath: string, uploadAvailable: bool, components: string,
                       upload: Uploader)
    ensures PreFlight(parsed, uploadPath, uploadAvailable, components, upload).Reject? <==>
      parsed.ParseError? || (uploadPath != "" && (!uploadAvailable || components == ""))
  {
  }

  /** The preprocessor is called, exactly once, exactly when an upload passes
      both checks. */
  lemma PreprocessorCalledExactly(parsed: ParseResult, uploadPath: string, uploadAvailable: bool,
                                  components: string, upload: Uploader)
    ensures var g := PreFlight(parsed, uploadPath, uploadAvailable, components, upload);
      (g.Proceed? && g.call.Some?) <==> parsed.Parsed? && uploadPath != "" && uploadAvailable && components != ""
  {
  }

  // An independent statement of the order: the first failing check in a list.

  /** The checks in the order the source makes them, each with the error it raises. */
  function Checks(parsed: ParseResult, uploadPath: string, uploadAvailable: bool, components: string)
    : seq<(bool, RejectKind)>
  {
    [(parsed.Parsed?, InvalidTweaksFormat)]
    + if uploadPath != "" then [(uploadAvailable, CapabilityUnavailable), (components != "", MissingComponentTarget)]
      else []
  }

  /** The error of the first check in the list that does not pass. */
  function FirstFailure(checks: seq<(bool, RejectKind)>): Option<RejectKind> {
    if checks == [] then None
    else if !checks[0].0 then Some(checks[0].1)
    else FirstFailure(checks[1..])
  }

  /** The gate rejects with the error of the first failing check, and proceeds
      exactly when every check passes. */
  lemma {:induction false} PreFlightIsFirstFailure(parsed: ParseResult, uploadPath: string, uploadAvailable: bool,
                                                   components: string, upload: Uploader)
    ensures var g := PreFlight(parsed, uploadPath, uploadAvailable, components, upload);
      var f := FirstFailure(Checks(parsed, uploadPath, uploadAvailable, components));
      (g.Proceed? <==> f == None) && (g.Reject? ==> f == Some(g.kind))
  {
    var cs := Checks(parsed, uploadPath, uploadAvailable, components);
    if uploadPath != "" {
      var afterParse := [(uploadAvailable, CapabilityUnavailable), (components != "", MissingComponentTarget)];
      var afterCapability := [(components != "", MissingComponentTarget)];
      assert cs[1..] == afterParse && afterParse[1..] == afterCapability && afterCapability[1..] == [];
      assert FirstFailure(afterCapability) == if components != "" then None else Some(MissingComponentTarget);
      assert FirstFailure(afterParse) ==
        if !uploadAvailable then Some(CapabilityUnavailable) else FirstFailure(afterCapability);
    } else {
      assert cs[1..] == [];
    }
  }

  /** The form fields `main` reads, except the tweaks text, which enters as its
      parse result. */
  datatype Form = Form(
    message: string,
    endpoint: string,
    apiKey: string,
    outputType: string,
    inputType: string,
    uploadFilePath: string,
    components: string)

  /** What pressing the button leads to: an error shown and nothing called, or
      one POST (and the preprocessor call made before it, if any). */
  datatype Outcome = Rejected(kind: RejectKind) | Posted(request: FlowRequest, call: Option<UploadCall>)

  /** The button handler up to the POST: the gate, then `run_flow` with the
      form's fields and the gate's tweaks. */
  function HandleRun(form: Form, parsed: ParseResult, uploadAvailable: bool, upload: Uploader): (o: Outcome)
    ensures o.Rejected? <==> PreFlight(parsed, form.uploadFilePath, uploadAvailable, form.components, upload).Reject?
    ensures o.Rejected? ==> o.kind == PreFlight(parsed, form.uploadFilePath, uploadAvailable, form.components, upload).kind
    ensures o.Posted? ==>
      var g := PreFlight(parsed, form.uploadFilePath, uploadAvailable, form.components, upload);
      o.call == g.call
      && o.request == Request(message := form.message, endpoint := form.endpoint, outputType := form.outputType,
                              inputType := form.inputType, tweaks := g.tweaks, apiKey := Some(form.apiKey))
  {
    match PreFlight(parsed, form.uploadFilePath, uploadAvailable, form.components, upload)
    case Reject(kind) => Rejected(kind)
    case Proceed(tweaks, call) =>
      Posted(Request(message := form.message, endpoint := form.endpoint, outputType := form.outputType,
                     inputType := form.inputType, tweaks := tweaks, apiKey := Some(form.apiKey)), call)
  }

  /** A rejected run and a run without an upload never consult the
      preprocessor: their outcome is the same whatever it would return. */
  lemma PreprocessorNotReached(form: Form, parsed: ParseResult, uploadAvailable: bool, u1: Uploader, u2: Uploader)
    requires HandleRun(form, parsed, uploadAvailable, u1).Rejected? || form.uploadFilePath == ""
    ensures HandleRun(form, parsed, uploadAvailable, u1) == HandleRun(form, parsed, uploadAvailable, u2)
  {
  }

  /** Text that does not parse is rejected and nothing is posted. */
  lemma InvalidTweaksNotPosted(form: Form, uploadAvailable: bool, upload: Uploader)
    ensures HandleRun(form, ParseError, uploadAvailable, upload) == Rejected(InvalidTweaksFormat)
  {
  }

  /** Without an upload the parsed tweaks go to `run_flow` unchanged, and so
      reach the payload exactly when they are truthy. */
  lemma ParsedTweaksPassThrough(form: Form, json: Json, uploadAvailable: bool, upload: Uploader)
    requires form.uploadFilePath == ""
    ensures var o := HandleRun(form, Parsed(json), uploadAvailable, upload);
      o.Posted? && o.call == None
      && ("tweaks" in o.request.payload <==> Truthy(json))
      && ("tweaks" in o.request.payload ==> o.request.payload["tweaks"] == json)
  {
  }

  /** With an upload that passes the gate, the preprocessor gets the file path,
      the base URL, the configured endpoint (not the entered one), the raw
      components text and the parsed tweaks, and its result is what is sent. */
  lemma UploadReplacesTweaks(form: Form, json: Json, upload: Uploader)
    requires form.uploadFilePath != "" && form.components != ""
    ensures var o := HandleRun(form, Parsed(json), true, upload);
      var call := UploadCall(form.uploadFilePath, BaseApiUrl, ConfiguredEndpoint, form.components, json);
      o.Posted? && o.call == Some(call)
      && ("tweaks" in o.request.payload <==> Truthy(upload(call)))
      && ("tweaks" in o.request.payload ==> o.request.payload["tweaks"] == upload(call))
  {
  }

  /** Every posted request goes to the entered endpoint, carries the entered
      message, and has a header exactly when an API key was entered. */
  lemma PostedRequestFollowsForm(form: Form, parsed: ParseResult, uploadAvailable: bool, upload: Uploader)
    requires HandleRun(form, parsed, uploadAvailable, upload).Posted?
    ensures var r := HandleRun(form, parsed, uploadAvailable, upload).request;
      r.url == BaseApiUrl + "/" + form.endpoint
      && r.payload["input_value"] == Str(form.message)
      && (r.headers.Some? <==> form.apiKey != "")
  {
  }

  /** The preprocessor is told the flow `ConfiguredEndpoint`, which is empty,
      whatever endpoint was entered. */
  lemma UploadFlowIdIsConfigured(form: Form, parsed: ParseResult, uploadAvailable: bool, upload: Uploader)
    requires HandleRun(form, parsed, uploadAvailable, upload).Posted?
    requires HandleRun(form, parsed, uploadAvailable, upload).call.Some?
    ensures HandleRun(form, parsed, uploadAvailable, upload).call.value.flowId == ""
    ensures HandleRun(form, parsed, uploadAvailable, upload).call.value.host == BaseApiUrl
  {
  }

  /** The file can be uploaded for a different flow than the one the request
      runs: with the pre-filled endpoint the preprocessor still gets `""`. */
  lemma UploadFlowIdCanDifferFromEndpoint(upload: Uploader)
    ensures exists form: Form, json: Json ::
      var o := HandleRun(form, Parsed(json), true, upload);
      o.Posted? && o.call.Some? && o.call.value.flowId != form.endpoint
  {
    var form := Form("hi", DefaultEndpoint(), "", "chat", "chat", "notes.txt", "ChatInput-N5SyW");
    var o := HandleRun(form, Parsed(Null), true, upload);
    assert o.Posted? && o.call.Some? && o.call.value.flowId != form.endpoint;
  }

  /** Tweaks are not checked to be an object: a parsed array is sent as is. */
  lemma NonObjectTweaksPosted(upload: Uploader)
    ensures exists form: Form, json: Json ::
      var o := HandleRun(form, Parsed(json), false, upload);
      o.Posted? && "tweaks" in o.request.payload && !o.request.payload["tweaks"].Object?
  {
    var form := Form("hi", FlowId, "", "chat", "chat", "", "");
    var json := Array([Null]);
    var o := HandleRun(form, Parsed(json), false, upload);
    assert o.Posted? && "tweaks" in o.request.payload && !o.request.payload["tweaks"].Object?;
  }
}
