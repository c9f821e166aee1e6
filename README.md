# create_design: a verified model of the Magic Patterns MCP tool

The server exposes one Model Context Protocol tool, `create_design`, which sends a text
prompt to the Magic Patterns REST API and returns the generated design bundle: source files,
compiled files, editor and preview URLs and the chat history. This project models the core of
that tool, `src/MagicPatterns.ts`, in Dafny:

- `json.dfy`: an already-parsed JSON value (`Json`), the `ArrayOf` encoder and the `Embeds`
  relation ("this value is that one with some object keys dropped").
- `decoding.dfy`: the building blocks the schemas are written with: strings, closed sets of
  string literals, required and optional struct keys, and arrays. Each reports the first
  mismatch and the path to it.
- `design_schema.dfy`: the five response shapes (`SourceFile`, `CompiledFile`,
  `ContentBlock`, `ChatMessage`, `CreateDesignResponse`). Each has a record, a decoder, an
  encoder and a reference predicate (`IsSourceFile`, ...) that says key by key what the
  schema admits. Proved here: each decoder succeeds exactly on what its predicate admits;
  encoding then decoding gives the record back; decoding then re-encoding reproduces every
  field of the input, arrays in their order.
- `tool_contract.dfy`: the tool's name, its two flags (not read-only, not destructive), the
  `fast`/`best` mode and the parameter schema.
- `request_adapter.dfy`: the handler. It builds the form fields with the source's `||`
  defaults and puts the credential in the `x-mp-api-key` header of a POST to
  `https://api.magicpatterns.com/api/v2/pattern`. It decodes the response body and applies
  `Effect.orDie`. The HTTP exchange is an argument (`HttpOutcome`).

Three behaviours of the code are worth stating plainly:

- No status check. The code never looks at the HTTP status before decoding the body. A 500
  response whose body conforms to the schema completes (`StatusIgnored`,
  `ServerErrorWithDesignCompletes`).
- One defect channel. `Effect.orDie` moves a transport failure, a body that is not JSON and a
  schema mismatch into the same untyped defect channel. The defect keeps the failure as its
  cause (`ToolResult.Died`); the client's failures keep the request, credential header included.
- Empty prompt accepted. `prompt` is a plain `Schema.String`, so the parameter schema accepts
  an empty prompt (`EmptyPromptAccepted`).

## Model

| member | source | states |
|---|---|---|
| `Decoding.AsString` | src/MagicPatterns.ts:12-14 | `Schema.String` accepts exactly the JSON strings, whatever they contain, and returns the string unchanged |
| `Decoding.AsLiteral` | src/MagicPatterns.ts:21-23 | `Schema.Literal` accepts exactly the listed strings |
| `Decoding.Required` | src/MagicPatterns.ts:11-24 | a required struct key succeeds iff the key is present and its value decodes; a missing key fails with `Missing` at that key, and a failure inside a present value is reported under the key |
| `Decoding.Optional` | src/MagicPatterns.ts:92-99 | an optional key is `None` iff absent; a present value must decode, and decodes to the wrapped value; its failure is reported under the key |
| `Decoding.Elements` | src/MagicPatterns.ts:64-66 | array elements are decoded left to right; success iff every element decodes, with results in input order; a failure is the first failing element's, under its index |
| `Decoding.AsArrayOf` | src/MagicPatterns.ts:64-66 | `Schema.Array` succeeds iff the value is an array whose every element decodes; same length, element i decodes to result i |
| `Decoding.ArrayRoundTrip` | src/MagicPatterns.ts:64-78 | when the element decoder undoes the element encoder, decoding an encoded array gives the sequence back |
| `DesignSchema.SourceFileType.Name` | src/MagicPatterns.ts:21 | every source-file type is written as one of `javascript`, `css`, `asset` |
| `DesignSchema.CompiledFileType.Name` | src/MagicPatterns.ts:36 | every compiled-file type is written as one of `javascript`, `css`, `font` |
| `DesignSchema.DecodeSourceFileType` | src/MagicPatterns.ts:21-23 | accepts exactly the strings `javascript`, `css`, `asset`, and the decoded type writes back as the input string |
| `DesignSchema.DecodeCompiledFileType` | src/MagicPatterns.ts:36-38 | accepts exactly `javascript`, `css`, `font`, and the decoded type writes back as the input string |
| `DesignSchema.FileTypeEnumsDiffer` | src/MagicPatterns.ts:21-38 | `"font"` is rejected as a source-file type and `"asset"` as a compiled-file type; `"css"` is accepted by both |
| `DesignSchema.FileTypeNamesRoundTrip` | src/MagicPatterns.ts:21-38 | each enum member's name decodes back to that member |
| `DesignSchema.DecodeSourceFile` | src/MagicPatterns.ts:11-24 | succeeds iff the value is an object with string `id`, `name`, `code` and a valid `type`; the re-encoded record embeds in the input |
| `DesignSchema.DecodeCompiledFile` | src/MagicPatterns.ts:26-39 | succeeds iff the value is an object with string `id`, `fileName`, `hostedUrl` (any string, no URL check) and a valid `type`; the re-encoded record embeds in the input |
| `DesignSchema.DecodeContentBlock` | src/MagicPatterns.ts:41-48 | succeeds iff `type` is exactly `"text"` and `text` is a string; the re-encoded block embeds in the input |
| `DesignSchema.DecodeContent` | src/MagicPatterns.ts:54-57 | the union succeeds iff the value is a string (giving `Plain`) or an array of valid blocks (giving `Blocks` of the same length and order) |
| `DesignSchema.DecodeChatMessage` | src/MagicPatterns.ts:50-58 | succeeds iff `role` is a string and `content` is a valid union value; role and content are those of the input |
| `DesignSchema.DecodeSourceFiles` | src/MagicPatterns.ts:64-66 | succeeds iff every element is a valid source file; same length, element-wise decoded in order |
| `DesignSchema.DecodeCompiledFiles` | src/MagicPatterns.ts:67-69 | succeeds iff every element is a valid compiled file; same length, element-wise decoded in order |
| `DesignSchema.DecodeChatMessages` | src/MagicPatterns.ts:76-78 | succeeds iff every element is a valid chat message; same length, element-wise decoded in order |
| `DesignSchema.DecodeCreateDesignResponse` | src/MagicPatterns.ts:60-79 | succeeds iff all six keys are present with the right types and every array element decodes; on success every field comes from its key |
| `DesignSchema.SourceFileRoundTrip` | src/MagicPatterns.ts:11-24 | an encoded source file decodes to itself |
| `DesignSchema.CompiledFileRoundTrip` | src/MagicPatterns.ts:26-39 | an encoded compiled file decodes to itself |
| `DesignSchema.ChatMessageRoundTrip` | src/MagicPatterns.ts:41-58 | an encoded chat message decodes to itself, for plain and for block content |
| `DesignSchema.SourceFilesRoundTrip` | src/MagicPatterns.ts:64-66 | an encoded list of source files decodes to the same list |
| `DesignSchema.CompiledFilesRoundTrip` | src/MagicPatterns.ts:67-69 | an encoded list of compiled files decodes to the same list |
| `DesignSchema.ChatMessagesRoundTrip` | src/MagicPatterns.ts:76-78 | an encoded list of chat messages decodes to the same list |
| `DesignSchema.CreateDesignResponseRoundTrip` | src/MagicPatterns.ts:60-79 | every design record, encoded as JSON, decodes to itself; in particular any string is accepted as a URL |
| `DesignSchema.ChatMessageEmbeds` | src/MagicPatterns.ts:50-58 | re-encoding a decoded chat message reproduces its role and content, blocks in order |
| `DesignSchema.SourceFilesEmbed` | src/MagicPatterns.ts:64-66 | re-encoding decoded source files reproduces the input array in length and order |
| `DesignSchema.CompiledFilesEmbed` | src/MagicPatterns.ts:67-69 | re-encoding decoded compiled files reproduces the input array in length and order |
| `DesignSchema.ChatMessagesEmbed` | src/MagicPatterns.ts:76-78 | re-encoding decoded chat messages reproduces the input array in length and order |
| `DesignSchema.CreateDesignResponseEmbeds` | src/MagicPatterns.ts:60-79 | decoding then re-encoding a response reproduces every schema field of the input, arrays in their order; only unknown keys are dropped |
| `DesignSchema.MissingKeyRejected` | src/MagicPatterns.ts:60-79 | a response lacking any of the six keys fails as a whole |
| `DesignSchema.BadBlockRejectsMessage` | src/MagicPatterns.ts:54 | one invalid content block rejects the whole chat message |
| `DesignSchema.ExtraKeyIgnored` | src/MagicPatterns.ts:60-79 | adding a key outside the schema does not change the decoding result |
| `ToolContract.Mode.Name` | src/MagicPatterns.ts:92 | every mode is written as `fast` or `best` |
| `ToolContract.DecodeMode` | src/MagicPatterns.ts:92 | accepts exactly `"fast"` and `"best"`, and the mode writes back as the input |
| `ToolContract.DecodeParameters` | src/MagicPatterns.ts:87-100 | succeeds iff `prompt` is a string and any present `mode` or `presetId` is valid; an optional argument is `None` exactly when its key is absent, and values come from their keys |
| `ToolContract.ParametersRoundTrip` | src/MagicPatterns.ts:87-100 | every parameter record, written as arguments, decodes to itself |
| `ToolContract.EmptyPromptAccepted` | src/MagicPatterns.ts:88 | an empty prompt passes the parameter schema |
| `ToolContract.MissingPromptRejected` | src/MagicPatterns.ts:88 | arguments without `prompt` are rejected with `Missing` at `prompt` |
| `RequestAdapter.OrElse` | src/MagicPatterns.ts:122-123 | JavaScript `||`: an absent or empty value gives the fallback, any other value is kept |
| `RequestAdapter.FormData` | src/MagicPatterns.ts:120-125 | the form has exactly `prompt`, `mode`, `presetId`, `images`; the prompt is verbatim; an absent mode is `best`, a given one passes through; an absent or empty preset is `html-tailwind`, any other passes through; `images` is `[]` |
| `RequestAdapter.BuildRequest` | src/MagicPatterns.ts:127-133 | a POST to the fixed endpoint whose only header is `x-mp-api-key` carrying the credential, with the form of `FormData` (four keys, defaults applied) |
| `RequestAdapter.CredentialOnlyInHeader` | src/MagicPatterns.ts:128-132 | changing the credential changes only the header value: verb, URL and form stay the same |
| `RequestAdapter.Exchange` | src/MagicPatterns.ts:127-136 | succeeds iff there is a response whose body parses and conforms to the schema, returning the body's fields; a transport failure keeps the request, an unparseable body keeps the request and status, a schema mismatch keeps the decode error |
| `RequestAdapter.OrDie` | src/MagicPatterns.ts:137 | a success passes through and every failure becomes a defect whose cause is that failure |
| `RequestAdapter.CreateDesign` | src/MagicPatterns.ts:118-141 | sends the built request; completes iff the body is conforming JSON, and the completed design reproduces the body's fields; otherwise dies with the exchange's failure as cause |
| `RequestAdapter.DefaultsApplied` | src/MagicPatterns.ts:120-125 | without `mode` and `presetId` the form is prompt, `best`, `html-tailwind`, `[]` |
| `RequestAdapter.StatusIgnored` | src/MagicPatterns.ts:134-136 | a body that parses gives the same invocation whatever the status; a body that does not parse dies whatever the status |
| `RequestAdapter.ServerErrorWithDesignCompletes` | src/MagicPatterns.ts:134-137 | a status-500 response carrying a conforming design completes with that design |
| `RequestAdapter.MissingEditorUrlDies` | src/MagicPatterns.ts:134-137 | a body without `editorUrl` makes the invocation die with a schema mismatch as cause, with no partial design |
| `RequestAdapter.CredentialReachesOnlyClientDefects` | src/MagicPatterns.ts:118-141 | when the body parses, the result is the same for every credential; otherwise the invocation dies with a client failure whose request carries the credential in its `x-mp-api-key` header |

## Left out

- The HTTP client (`FetchHttpClient`, `client.post`), the form-data encoding on the wire and JSON text parsing. These are library calls. The exchange's outcome is an argument: a transport failure, or a response with a status and a body that either parsed to a `Json` value or did not.
- `src/main.ts` (environment-variable credential, stdio transport, logging, process launch) and `scripts/copy-package-json.ts` (a build script). Both are I/O and bootstrap.
- The `Layer`/`pipe` wiring, the `McpServer.toolkit` registration and the toolkit's own dispatch: decoding the arguments with `DecodeParameters` before calling the handler, and encoding the result back. The model has the parameter schema and the handler, not the library code that connects them.
- Description annotations. They are documentation strings; only the tool name and its two flags are kept, as constants.
- The exact issue the schema library reports. The model keeps the path and the kind of the first mismatch. The library reports a missing key rather than a type error for an array where a struct is expected, and wraps union failures in a composite issue. The defect keeps whatever issue the library reports.
- Order of object keys and of form fields, and duplicate JSON keys. Objects are maps.
- JSON numbers. They are integers here, since no schema accepts a number.
- Concurrency and cancellation. The source implements neither.
- RequestAdapter.OrDie: the defect's cause is the failure value as the model has it (the request, the status, the decode error). The rest of what the library's error objects carry (the full response, the underlying exception, stack traces) is not modelled.
- RequestAdapter.CredentialReachesOnlyClientDefects: it says where the credential lies in the tool's result, not whether it is printed. Whether a logger or the protocol layer redacts the header when it renders a defect is library behaviour outside the model.
