/** The callable surface of the tool as `createToolkit` declares it in src/MagicPatterns.ts:
    its name, its two capability flags and the schema of its parameters. The schema of its
    success value is `DesignSchema.DecodeCreateDesignResponse`. */
module ToolContract {
  import opened Wrappers
  import opened Json
  import opened Decoding

  /** The one tool the server offers. */
  const ToolName: string := "create_design"

  /** The tool creates a design, so it is not read-only ... */
  const Readonly: bool := false

  /** ... and it neither deletes nor irreversibly alters anything. */
  const Destructive: bool := false

  const Modes: seq<string> := ["fast", "best"]

  /** `mode`: `fast` for quick, simple fixes, `best` for higher quality. */
  datatype Mode = Fast | Best {
    function Name(): (s: string)
      ensures s in Modes
    {
      match this
      case Fast => "fast"
      case Best => "best"
    }
  }

  /** The arguments of one invocation; `mode` and `presetId` may be left out. */
  datatype Parameters = Parameters(prompt: string, mode: Option<Mode>, presetId: Option<string>)

  function DecodeMode(j: Json): (r: Decoded<Mode>)
    ensures r.Ok? <==> j.JString? && j.s in Modes
    ensures r.Ok? ==> j == JString(r.value.Name())
  {
    var s :- AsLiteral(j, Modes);
    Ok(if s == "fast" then Fast else Best)
  }

  /** Which argument objects the parameter schema admits: a string `prompt` (any string, the
      empty one included), and, when present, a `mode` among the two modes and a string
      `presetId`. Other keys are ignored. */
  predicate IsParameters(j: Json) {
    && j.JObject?
    && "prompt" in j.fields && j.fields["prompt"].JString?
    && ("mode" in j.fields ==> j.fields["mode"].JString? && j.fields["mode"].s in Modes)
    && ("presetId" in j.fields ==> j.fields["presetId"].JString?)
  }

  /** The parameter schema: `prompt` is a required `Schema.String`, `mode` an optional
      literal and `presetId` an optional string; an absent optional key becomes `None`. */
  function DecodeParameters(j: Json): (r: Decoded<Parameters>)
    ensures r.Ok? <==> IsParameters(j)
    ensures r.Ok? ==> j.fields["prompt"] == JString(r.value.prompt)
    ensures r.Ok? ==> (r.value.mode.None? <==> "mode" !in j.fields)
    ensures r.Ok? && r.value.mode.Some? ==> j.fields["mode"] == JString(r.value.mode.value.Name())
    ensures r.Ok? ==> (r.value.presetId.None? <==> "presetId" !in j.fields)
    ensures r.Ok? && r.value.presetId.Some? ==> j.fields["presetId"] == JString(r.value.presetId.value)
  {
    var obj :- AsObject(j);
    var prompt :- Required(obj, "prompt", AsString);
    var mode :- Optional(obj, "mode", DecodeMode);
    var presetId :- Optional(obj, "presetId", AsString);
    Ok(Parameters(prompt, mode, presetId))
  }

  /** The arguments as the caller writes them, leaving out the keys that are absent. */
  function EncodeParameters(p: Parameters): Json {
    var withPrompt := map["prompt" := JString(p.prompt)];
    var withMode := if p.mode.Some? then withPrompt["mode" := JString(p.mode.value.Name())] else withPrompt;
    JObject(if p.presetId.Some? then withMode["presetId" := JString(p.presetId.value)] else withMode)
  }

  /** Every parameter record, written as arguments, decodes to itself. */
  lemma ParametersRoundTrip(p: Parameters)
    ensures DecodeParameters(EncodeParameters(p)) == Ok(p)
  {
    var obj := EncodeParameters(p).fields;
    if p.mode.Some? {
      assert DecodeMode(obj["mode"]) == Ok(p.mode.value);
    }
  }

  /** The schema does not demand a non-empty prompt: an empty one is accepted. */
  lemma EmptyPromptAccepted()
    ensures DecodeParameters(JObject(map["prompt" := JString("")])) == Ok(Parameters("", None, None))
  {
  }

  /** Without a `prompt` the arguments are rejected, with the missing key as the reason. */
  lemma MissingPromptRejected(fields: map<string, Json>)
    requires "prompt" !in fields
    ensures DecodeParameters(JObject(fields)) == Err(DecodeError([Key("prompt")], Missing))
  {
  }
}
