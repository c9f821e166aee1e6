/** The handler of `create_design` (the `create_design` member built in `createToolkitLayer`,
    src/MagicPatterns.ts): it builds one form-encoded POST request carrying the credential
    in a header, decodes the JSON response body against the response schema and turns every
    failure into a single defect. The HTTP exchange itself is not modelled: its outcome is
    an argument. */
module RequestAdapter {
  import opened Wrappers
  import opened Json
  import opened Decoding
  import opened DesignSchema
  import opened ToolContract

  const Endpoint: string := "https://api.magicpatterns.com/api/v2/pattern"
  const ApiKeyHeader: string := "x-mp-api-key"
  const DefaultMode: string := "best"
  const DefaultPresetId: string := "html-tailwind"

  /** Image attachments are not supported: the `images` field is always an empty JSON list. */
  const NoImages: string := "[]"

  const FormKeys: set<string> := {"prompt", "mode", "presetId", "images"}

  datatype Verb = Post

  /** One outbound request: method, URL, headers and the form-data fields. */
  datatype Request = Request(verb: Verb, url: string, headers: map<string, string>, form: map<string, string>)

  /** JavaScript's `value || fallback` on an optional string: both an absent value and the
      empty string are falsy and give way to the fallback. */
  function OrElse(value: Option<string>, fallback: string): (r: string)
    ensures value.Some? && value.value != "" ==> r == value.value
    ensures value.None? || value.value == "" ==> r == fallback
  {
    if value.Some? && value.value != "" then value.value else fallback
  }

  /** The `mode` argument as the handler sees it: its literal, or nothing. */
  function ModeLiteral(mode: Option<Mode>): Option<string> {
    match mode
    case None => None
    case Some(m) => Some(m.Name())
  }

  /** The form fields of the request. An absent `mode` becomes `"best"` and a given one is
      passed on as written; an absent or empty `presetId` becomes `"html-tailwind"` and any
      other is passed on; the prompt is copied verbatim; `images` is always `"[]"`. */
  function FormData(params: Parameters): (form: map<string, string>)
    ensures form.Keys == FormKeys
    ensures form["prompt"] == params.prompt
    ensures params.mode.None? ==> form["mode"] == "best"
    ensures params.mode.Some? ==> form["mode"] == params.mode.value.Name()
    ensures form["mode"] in Modes
    ensures params.presetId.None? || params.presetId == Some("") ==> form["presetId"] == "html-tailwind"
    ensures params.presetId.Some? && params.presetId.value != "" ==> form["presetId"] == params.presetId.value
    ensures form["images"] == "[]"
  {
    map[
      "prompt" := params.prompt,
      "mode" := OrElse(ModeLiteral(params.mode), DefaultMode),
      "presetId" := OrElse(params.presetId, DefaultPresetId),
      "images" := NoImages]
  }

  /** The request sent for one invocation: a POST to the fixed endpoint whose only header is
      the credential. */
  function BuildRequest(apiKey: string, params: Parameters): (req: Request)
    ensures req.verb == Post && req.url == "https://api.magicpatterns.com/api/v2/pattern"
    ensures req.headers.Keys == {"x-mp-api-key"} && req.headers["x-mp-api-key"] == apiKey
    ensures req.form.Keys == FormKeys
    ensures req.form == FormData(params)
  {
    Request(Post, Endpoint, map[ApiKeyHeader := apiKey], FormData(params))
  }

  /** The credential reaches the request through its header alone: two credentials give the
      same verb, URL and form, and headers that differ only in the credential's value. */
  lemma CredentialOnlyInHeader(key1: string, key2: string, params: Parameters)
    ensures BuildRequest(key1, params).verb == BuildRequest(key2, params).verb
    ensures BuildRequest(key1, params).url == BuildRequest(key2, params).url
    ensures BuildRequest(key1, params).form == BuildRequest(key2, params).form
    ensures BuildRequest(key1, params).headers == BuildRequest(key2, params).headers[ApiKeyHeader := key1]
  {
  }

  // ---------------------------------------------------------------- the response

  /** The response body: JSON text that parses to a value, or text that does not. */
  datatype Body = JsonText(value: Json) | NotJson

  /** What the HTTP client reports for the one request: a transport failure, or a response
      with its status code and body. */
  datatype HttpOutcome = TransportFailure | Response(status: int, body: Body)

  /** The failures the handler's pipeline can carry before `Effect.orDie`. The client's
      errors keep the request they were raised for: a transport failure (`RequestError`) and a
      body that is not JSON (`ResponseError`, which also keeps the response status). A schema
      mismatch (`ParseError`) keeps only the mismatch. */
  datatype Failure =
    | Transport(request: Request)
    | BodyNotJson(request: Request, status: int)
    | Invalid(error: DecodeError)

  /** What the invocation yields: the decoded design, or a defect. `Effect.orDie` moves the
      failure into the defect channel unchanged, so the defect's cause is the failure itself. */
  datatype ToolResult = Completed(design: CreateDesignResponse) | Died(cause: Failure)

  /** `client.post(request)` followed by `schemaBodyJson(CreateDesignResponse)`. No status code
      is looked at: any response whose body parses and conforms is accepted. */
  function Exchange(request: Request, outcome: HttpOutcome): (r: Result<CreateDesignResponse, Failure>)
    ensures r.Ok? <==> outcome.Response? && outcome.body.JsonText? && IsCreateDesignResponse(outcome.body.value)
    ensures r.Ok? ==> Embeds(EncodeCreateDesignResponse(r.value), outcome.body.value)
    ensures outcome.TransportFailure? ==> r == Err(Transport(request))
    ensures outcome.Response? && outcome.body.NotJson? ==> r == Err(BodyNotJson(request, outcome.status))
    ensures outcome.Response? && outcome.body.JsonText? && r.Err? ==>
      r == Err(Invalid(DecodeCreateDesignResponse(outcome.body.value).error))
  {
    match outcome
    case TransportFailure => Err(Transport(request))
    case Response(status, NotJson) => Err(BodyNotJson(request, status))
    case Response(_, JsonText(j)) =>
      match DecodeCreateDesignResponse(j)
      case Ok(d) => CreateDesignResponseEmbeds(j); Ok(d)
      case Err(e) => Err(Invalid(e))
  }

  /** `Effect.orDie`: a success passes through; a failure becomes a defect that carries it. The
      three failure kinds end up in the one untyped defect channel. */
  function OrDie(r: Result<CreateDesignResponse, Failure>): (t: ToolResult)
    ensures t.Completed? <==> r.Ok?
    ensures r.Ok? ==> t.design == r.value
    ensures r.Err? ==> t.cause == r.error
  {
    match r
    case Ok(d) => Completed(d)
    case Err(e) => Died(e)
  }

  /** One invocation: the request that is sent, and what comes back. */
  datatype Invocation = Invocation(request: Request, result: ToolResult)

  /** The `create_design` handler, given the outcome of the one HTTP exchange it starts. It
      completes exactly when the response body is JSON that conforms to the response schema,
      and then returns the body's fields unchanged; otherwise it dies with the failure. */
  function CreateDesign(apiKey: string, params: Parameters, outcome: HttpOutcome): (call: Invocation)
    ensures call.request == BuildRequest(apiKey, params)
    ensures call.result.Completed? <==>
      outcome.Response? && outcome.body.JsonText? && IsCreateDesignResponse(outcome.body.value)
    ensures call.result.Completed? ==>
      Embeds(EncodeCreateDesignResponse(call.result.design), outcome.body.value)
    ensures call.result.Died? ==> call.result.cause == Exchange(call.request, outcome).error
  {
    var request := BuildRequest(apiKey, params);
    Invocation(request, OrDie(Exchange(request, outcome)))
  }

  /** Leaving out `mode` and `presetId` sends `"best"` and `"html-tailwind"`. */
  lemma DefaultsApplied(apiKey: string, prompt: string)
    ensures CreateDesign(apiKey, Parameters(prompt, None, None), TransportFailure).request.form ==
      map["prompt" := prompt, "mode" := "best", "presetId" := "html-tailwind", "images" := "[]"]
  {
    var form := CreateDesign(apiKey, Parameters(prompt, None, None), TransportFailure).request.form;
    var expected := map["prompt" := prompt, "mode" := "best", "presetId" := "html-tailwind", "images" := "[]"];
    assert form.Keys == expected.Keys;
  }

  /** The status code does not decide the outcome: a body that parses gives the same result
      whatever the status, and one that does not parses dies whatever the status. */
  lemma StatusIgnored(apiKey: string, params: Parameters, status1: int, status2: int, body: Body)
    ensures body.JsonText? ==>
      CreateDesign(apiKey, params, Response(status1, body)) == CreateDesign(apiKey, params, Response(status2, body))
    ensures body.NotJson? ==>
      CreateDesign(apiKey, params, Response(status1, body)).result.Died? &&
      CreateDesign(apiKey, params, Response(status2, body)).result.Died?
  {
  }

  /** A 500 response whose body is a conforming design completes with that design. */
  lemma {:induction false} ServerErrorWithDesignCompletes(apiKey: string, params: Parameters, d: CreateDesignResponse)
    ensures CreateDesign(apiKey, params, Response(500, JsonText(EncodeCreateDesignResponse(d)))).result == Completed(d)
  {
    CreateDesignResponseRoundTrip(d);
  }

  /** A body without `editorUrl` makes the invocation die with the schema mismatch as cause;
      there is no partial design. */
  lemma MissingEditorUrlDies(apiKey: string, params: Parameters, status: int, fields: map<string, Json>)
    requires "editorUrl" !in fields
    ensures CreateDesign(apiKey, params, Response(status, JsonText(JObject(fields)))).result.Died?
    ensures CreateDesign(apiKey, params, Response(status, JsonText(JObject(fields)))).result.cause.Invalid?
  {
  }

  /** Where the credential can reach the tool's result. When the body parses, the result (a
      design, or a schema mismatch) is the same for every credential. When the client fails
      (no response, or a body that is not JSON), the defect carries the request, and its
      `x-mp-api-key` header holds the credential. */
  lemma CredentialReachesOnlyClientDefects(key1: string, key2: string, params: Parameters, outcome: HttpOutcome)
    ensures outcome.Response? && outcome.body.JsonText? ==>
      CreateDesign(key1, params, outcome).result == CreateDesign(key2, params, outcome).result
    ensures !(outcome.Response? && outcome.body.JsonText?) ==>
      && CreateDesign(key1, params, outcome).result.Died?
      && !CreateDesign(key1, params, outcome).result.cause.Invalid?
      && CreateDesign(key1, params, outcome).result.cause.request.headers[ApiKeyHeader] == key1
  {
  }
}
