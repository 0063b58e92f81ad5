/** The module-level configuration of the client: fixed at start-up and
    never reassigned. */
module Config {

  /** `BASE_API_URL`: the run endpoint of the workflow service. */
  const BaseApiUrl: string := "http://127.0.0.1:7860/api/v1/run"

  /** `FLOW_ID`: the identifier of the one configured flow. */
  const FlowId: string := "4f7a88b3-2788-4e71-8906-635221d0e211"

  /** `ENDPOINT`: an optional endpoint name set in the flow settings; empty here. */
  const ConfiguredEndpoint: string := ""

  /** The configured values: a run URL on the local service, the flow's
      identifier, and no endpoint name. */
  lemma ConstantsAsConfigured()
    ensures BaseApiUrl == "http://127.0.0.1:7860/api/v1/run"
    ensures FlowId == "4f7a88b3-2788-4e71-8906-635221d0e211"
    ensures ConfiguredEndpoint == ""
  {
  }

  /** Python's `a or b` on strings: the first operand when it is non-empty,
      otherwise the second. */
  function OrElse(a: string, b: string): (r: string)
    ensures r == a || r == b
    ensures r != "" <==> a != "" || b != ""
    ensures a != "" ==> r == a
  {
    if a != "" then a else b
  }

  /** The endpoint pre-filled in the form, `ENDPOINT or FLOW_ID`. */
  function DefaultEndpoint(): (r: string)
    ensures ConfiguredEndpoint != "" ==> r == ConfiguredEndpoint
    ensures ConfiguredEndpoint == "" ==> r == FlowId
  {
    OrElse(ConfiguredEndpoint, FlowId)
  }

  /** With no endpoint name configured, the form targets the flow by its identifier. */
  lemma DefaultEndpointIsFlowId()
    ensures DefaultEndpoint() == FlowId
    ensures DefaultEndpoint() != ""
  {
  }
}
