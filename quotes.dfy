/**
 * The simulated rate-quote collaborator and the handler's read of its
 * response. A response is a dictionary; only its `quote_options` entry,
 * a dictionary from option label to price text, is of interest.
 */
module Quotes {
  import opened Requests

  type QuoteOptions = map<string, string>

  type ApiResponse = map<string, QuoteOptions>

  /** The three service tiers every response of the simulated collaborator carries. */
  const DemoQuotes: QuoteOptions := map["Standard" := "$300", "Express" := "$450", "Overnight" := "$600"]

  /** The response built on the path where no exception is raised. */
  function SimulatedResponse(): (r: ApiResponse)
    ensures r.Keys == {"quote_options"}
    ensures r["quote_options"] == DemoQuotes
  {
    map["quote_options" := DemoQuotes]
  }

  /** The dummy response returned when the call raises. */
  function FallbackResponse(): (r: ApiResponse)
    ensures r.Keys == {"quote_options"}
    ensures r["quote_options"] == DemoQuotes
  {
    map["quote_options" := DemoQuotes]
  }

  /**
   * `call_priority1_api`: the request is not consulted; `raised` says whether
   * the try block raised and the except branch ran.
   */
  function CallPriority1Api(request: RequestData, raised: bool): (r: ApiResponse)
    ensures r == SimulatedResponse()
    ensures r == FallbackResponse()
  {
    if raised then FallbackResponse() else SimulatedResponse()
  }

  /** `response.get("quote_options", {})`. */
  function QuoteOptionsOf(response: ApiResponse): (q: QuoteOptions)
    ensures "quote_options" in response ==> q == response["quote_options"]
    ensures "quote_options" !in response ==> q == map[]
  {
    if "quote_options" in response then response["quote_options"] else map[]
  }

  /** Whatever the request and whichever path is taken, the handler stores the same three options. */
  lemma GeneratedQuotes(request: RequestData, raised: bool)
    ensures QuoteOptionsOf(CallPriority1Api(request, raised)) == DemoQuotes
    ensures DemoQuotes.Keys == {"Standard", "Express", "Overnight"}
    ensures |QuoteOptionsOf(CallPriority1Api(request, raised))| == 3
  {
    assert DemoQuotes.Keys == {"Standard", "Express", "Overnight"};
  }
}
