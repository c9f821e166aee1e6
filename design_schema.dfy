/** The response shapes of the `create_design` tool (src/MagicPatterns.ts, the `SourceFile`,
    `CompiledFile`, `ContentBlock`, `ChatMessage` and `CreateDesignResponse` structs): one
    record per shape, a decoder that plays the part of the schema, an encoder that writes the
    record back as JSON, and a reference predicate saying, key by key, which JSON values the
    schema admits. Keys a schema does not mention are ignored, as by the schema library's
    default. */
module DesignSchema {
  import opened Wrappers
  import opened Json
  import opened Decoding

  // ---------------------------------------------------------------- closed string enums

  const SourceFileTypes: seq<string> := ["javascript", "css", "asset"]
  const CompiledFileTypes: seq<string> := ["javascript", "css", "font"]
  const ContentBlockTypes: seq<string> := ["text"]

  /** `SourceFile.type`: a generated source artifact is script, stylesheet or asset. */
  datatype SourceFileType = Javascript | Css | Asset {
    function Name(): (s: string)
      ensures s in SourceFileTypes
    {
      match this
      case Javascript => "javascript"
      case Css => "css"
      case Asset => "asset"
    }
  }

  /** `CompiledFile.type`: a build output is script, stylesheet or font (never an asset). */
  datatype CompiledFileType = Javascript | Css | Font {
    function Name(): (s: string)
      ensures s in CompiledFileTypes
    {
      match this
      case Javascript => "javascript"
      case Css => "css"
      case Font => "font"
    }
  }

  function DecodeSourceFileType(j: Json): (r: Decoded<SourceFileType>)
    ensures r.Ok? <==> j.JString? && j.s in SourceFileTypes
    ensures r.Ok? ==> j == JString(r.value.Name())
  {
    var s :- AsLiteral(j, SourceFileTypes);
    Ok(if s == "javascript" then SourceFileType.Javascript
       else if s == "css" then SourceFileType.Css
       else SourceFileType.Asset)
  }

  function DecodeCompiledFileType(j: Json): (r: Decoded<CompiledFileType>)
    ensures r.Ok? <==> j.JString? && j.s in CompiledFileTypes
    ensures r.Ok? ==> j == JString(r.value.Name())
  {
    var s :- AsLiteral(j, CompiledFileTypes);
    Ok(if s == "javascript" then CompiledFileType.Javascript
       else if s == "css" then CompiledFileType.Css
       else CompiledFileType.Font)
  }

  /** The two `type` enums differ: `"font"` is no source-file type and `"asset"` is no
      compiled-file type, while the shared names decode in both. */
  lemma FileTypeEnumsDiffer()
    ensures DecodeSourceFileType(JString("font")).Err?
    ensures DecodeCompiledFileType(JString("asset")).Err?
    ensures DecodeSourceFileType(JString("asset")) == Ok(SourceFileType.Asset)
    ensures DecodeCompiledFileType(JString("font")) == Ok(CompiledFileType.Font)
    ensures DecodeSourceFileType(JString("css")).Ok? && DecodeCompiledFileType(JString("css")).Ok?
  {
  }

  /** Each enum member is written as the name its decoder reads back. */
  lemma FileTypeNamesRoundTrip(s: SourceFileType, c: CompiledFileType)
    ensures DecodeSourceFileType(JString(s.Name())) == Ok(s)
    ensures DecodeCompiledFileType(JString(c.Name())) == Ok(c)
  {
  }

  // ---------------------------------------------------------------- records

  datatype SourceFile = SourceFile(id: string, name: string, code: string, fileType: SourceFileType)

  datatype CompiledFile = CompiledFile(id: string, fileName: string, hostedUrl: string, fileType: CompiledFileType)

  /** A content block; its `type` is always `"text"`, so the record keeps only the text. */
  datatype ContentBlock = ContentBlock(text: string)

  /** `ChatMessage.content`: either a plain string or an ordered list of content blocks. */
  datatype Content = Plain(text: string) | Blocks(blocks: seq<ContentBlock>)

  datatype ChatMessage = ChatMessage(role: string, content: Content)

  /** The tool's success value: one generated design bundle. */
  datatype CreateDesignResponse = CreateDesignResponse(
    id: string,
    sourceFiles: seq<SourceFile>,
    compiledFiles: seq<CompiledFile>,
    editorUrl: string,
    previewUrl: string,
    chatMessages: seq<ChatMessage>)

  const ResponseKeys: set<string> :=
    {"id", "sourceFiles", "compiledFiles", "editorUrl", "previewUrl", "chatMessages"}

  // ---------------------------------------------------------------- what each schema admits

  predicate HasString(obj: map<string, Json>, key: string) {
    key in obj && obj[key].JString?
  }

  predicate HasLiteral(obj: map<string, Json>, key: string, literals: seq<string>) {
    key in obj && obj[key].JString? && obj[key].s in literals
  }

  predicate AllItems(j: Json, valid: Json -> bool) {
    j.JArray? && forall i | 0 <= i < |j.items| :: valid(j.items[i])
  }

  predicate HasArrayOf(obj: map<string, Json>, key: string, valid: Json -> bool) {
    key in obj && AllItems(obj[key], valid)
  }

  predicate IsSourceFile(j: Json) {
    && j.JObject?
    && HasString(j.fields, "id")
    && HasString(j.fields, "name")
    && HasString(j.fields, "code")
    && HasLiteral(j.fields, "type", SourceFileTypes)
  }

  predicate IsCompiledFile(j: Json) {
    && j.JObject?
    && HasString(j.fields, "id")
    && HasString(j.fields, "fileName")
    && HasString(j.fields, "hostedUrl")
    && HasLiteral(j.fields, "type", CompiledFileTypes)
  }

  predicate IsContentBlock(j: Json) {
    && j.JObject?
    && HasLiteral(j.fields, "type", ContentBlockTypes)
    && HasString(j.fields, "text")
  }

  predicate IsContent(j: Json) {
    j.JString? || AllItems(j, IsContentBlock)
  }

  predicate IsChatMessage(j: Json) {
    && j.JObject?
    && HasString(j.fields, "role")
    && "content" in j.fields
    && IsContent(j.fields["content"])
  }

  predicate IsCreateDesignResponse(j: Json) {
    && j.JObject?
    && HasString(j.fields, "id")
    && HasArrayOf(j.fields, "sourceFiles", IsSourceFile)
    && HasArrayOf(j.fields, "compiledFiles", IsCompiledFile)
    && HasString(j.fields, "editorUrl")
    && HasString(j.fields, "previewUrl")
    && HasArrayOf(j.fields, "chatMessages", IsChatMessage)
  }

  // ---------------------------------------------------------------- encoders

  function EncodeSourceFile(f: SourceFile): Json {
    JObject(map[
      "id" := JString(f.id),
      "name" := JString(f.name),
      "code" := JString(f.code),
      "type" := JString(f.fileType.Name())])
  }

  function EncodeCompiledFile(f: CompiledFile): Json {
    JObject(map[
      "id" := JString(f.id),
      "fileName" := JString(f.fileName),
      "hostedUrl" := JString(f.hostedUrl),
      "type" := JString(f.fileType.Name())])
  }

  function EncodeContentBlock(b: ContentBlock): Json {
    JObject(map["type" := JString("text"), "text" := JString(b.text)])
  }

  function EncodeContent(c: Content): Json {
    match c
    case Plain(text) => JString(text)
    case Blocks(blocks) => ArrayOf(blocks, EncodeContentBlock)
  }

  function EncodeChatMessage(m: ChatMessage): Json {
    JObject(map["role" := JString(m.role), "content" := EncodeContent(m.content)])
  }

  function EncodeCreateDesignResponse(d: CreateDesignResponse): Json {
    JObject(map[
      "id" := JString(d.id),
      "sourceFiles" := ArrayOf(d.sourceFiles, EncodeSourceFile),
      "compiledFiles" := ArrayOf(d.compiledFiles, EncodeCompiledFile),
      "editorUrl" := JString(d.editorUrl),
      "previewUrl" := JString(d.previewUrl),
      "chatMessages" := ArrayOf(d.chatMessages, EncodeChatMessage)])
  }

  // ---------------------------------------------------------------- decoders

  function DecodeSourceFile(j: Json): (r: Decoded<SourceFile>)
    ensures r.Ok? <==> IsSourceFile(j)
    ensures r.Ok? ==> Embeds(EncodeSourceFile(r.value), j)
  {
    var obj :- AsObject(j);
    var id :- Required(obj, "id", AsString);
    var name :- Required(obj, "name", AsString);
    var code :- Required(obj, "code", AsString);
    var fileType :- Required(obj, "type", DecodeSourceFileType);
    Ok(SourceFile(id, name, code, fileType))
  }

  function DecodeCompiledFile(j: Json): (r: Decoded<CompiledFile>)
    ensures r.Ok? <==> IsCompiledFile(j)
    ensures r.Ok? ==> Embeds(EncodeCompiledFile(r.value), j)
  {
    var obj :- AsObject(j);
    var id :- Required(obj, "id", AsString);
    var fileName :- Required(obj, "fileName", AsString);
    var hostedUrl :- Required(obj, "hostedUrl", AsString);
    var fileType :- Required(obj, "type", DecodeCompiledFileType);
    Ok(CompiledFile(id, fileName, hostedUrl, fileType))
  }

  function DecodeContentBlock(j: Json): (r: Decoded<ContentBlock>)
    ensures r.Ok? <==> IsContentBlock(j)
    ensures r.Ok? ==> Embeds(EncodeContentBlock(r.value), j)
  {
    var obj :- AsObject(j);
    var _ :- Required(obj, "type", j => AsLiteral(j, ContentBlockTypes));
    var text :- Required(obj, "text", AsString);
    Ok(ContentBlock(text))
  }

  /** `Schema.Union(Schema.String, Schema.Array(ContentBlock))`: a string is plain content,
      an array must consist of valid blocks only, anything else is rejected. */
  function DecodeContent(j: Json): (r: Decoded<Content>)
    ensures r.Ok? <==> IsContent(j)
    ensures r.Ok? && j.JString? ==> r.value == Plain(j.s)
    ensures r.Ok? && j.JArray? ==>
      && r.value.Blocks?
      && |r.value.blocks| == |j.items|
      && forall i | 0 <= i < |j.items| :: DecodeContentBlock(j.items[i]) == Ok(r.value.blocks[i])
  {
    match j
    case JString(s) => Ok(Plain(s))
    case JArray(_) =>
      var blocks :- AsArrayOf(j, DecodeContentBlock);
      Ok(Blocks(blocks))
    case _ => Fail(StringOrArray)
  }

  function DecodeChatMessage(j: Json): (r: Decoded<ChatMessage>)
    ensures r.Ok? <==> IsChatMessage(j)
    ensures r.Ok? ==> j.fields["role"] == JString(r.value.role)
    ensures r.Ok? ==> DecodeContent(j.fields["content"]) == Ok(r.value.content)
  {
    var obj :- AsObject(j);
    var role :- Required(obj, "role", AsString);
    var content :- Required(obj, "content", DecodeContent);
    Ok(ChatMessage(role, content))
  }

  /** `Schema.Array(SourceFile)`. */
  function DecodeSourceFiles(j: Json): (r: Decoded<seq<SourceFile>>)
    ensures r.Ok? <==> AllItems(j, IsSourceFile)
    ensures r.Ok? ==> |r.value| == |j.items|
    ensures r.Ok? ==> forall i | 0 <= i < |j.items| :: DecodeSourceFile(j.items[i]) == Ok(r.value[i])
  {
    AsArrayOf(j, DecodeSourceFile)
  }

  /** `Schema.Array(CompiledFile)`. */
  function DecodeCompiledFiles(j: Json): (r: Decoded<seq<CompiledFile>>)
    ensures r.Ok? <==> AllItems(j, IsCompiledFile)
    ensures r.Ok? ==> |r.value| == |j.items|
    ensures r.Ok? ==> forall i | 0 <= i < |j.items| :: DecodeCompiledFile(j.items[i]) == Ok(r.value[i])
  {
    AsArrayOf(j, DecodeCompiledFile)
  }

  /** `Schema.Array(ChatMessage)`. */
  function DecodeChatMessages(j: Json): (r: Decoded<seq<ChatMessage>>)
    ensures r.Ok? <==> AllItems(j, IsChatMessage)
    ensures r.Ok? ==> |r.value| == |j.items|
    ensures r.Ok? ==> forall i | 0 <= i < |j.items| :: DecodeChatMessage(j.items[i]) == Ok(r.value[i])
  {
    AsArrayOf(j, DecodeChatMessage)
  }

  /** Each of the six keys is present and holds the JSON for the matching field of `d`: the
      strings verbatim, the arrays element by element. */
  predicate KeysDecodeTo(obj: map<string, Json>, d: CreateDesignResponse) {
    && "id" in obj && obj["id"] == JString(d.id)
    && "sourceFiles" in obj && DecodeSourceFiles(obj["sourceFiles"]) == Ok(d.sourceFiles)
    && "compiledFiles" in obj && DecodeCompiledFiles(obj["compiledFiles"]) == Ok(d.compiledFiles)
    && "editorUrl" in obj && obj["editorUrl"] == JString(d.editorUrl)
    && "previewUrl" in obj && obj["previewUrl"] == JString(d.previewUrl)
    && "chatMessages" in obj && DecodeChatMessages(obj["chatMessages"]) == Ok(d.chatMessages)
  }

  /** The decoder `schemaBodyJson(CreateDesignResponse)` applies to the parsed response body:
      each of the six keys is decoded with its field's schema. */
  function DecodeCreateDesignResponse(j: Json): (r: Decoded<CreateDesignResponse>)
    ensures r.Ok? <==> IsCreateDesignResponse(j)
    ensures r.Ok? ==> KeysDecodeTo(j.fields, r.value)
  {
    var obj :- AsObject(j);
    var id :- Required(obj, "id", AsString);
    var sourceFiles :- Required(obj, "sourceFiles", DecodeSourceFiles);
    var compiledFiles :- Required(obj, "compiledFiles", DecodeCompiledFiles);
    var editorUrl :- Required(obj, "editorUrl", AsString);
    var previewUrl :- Required(obj, "previewUrl", AsString);
    var chatMessages :- Required(obj, "chatMessages", DecodeChatMessages);
    Ok(CreateDesignResponse(id, sourceFiles, compiledFiles, editorUrl, previewUrl, chatMessages))
  }

  // ---------------------------------------------------------------- properties

  /** Decoding an encoded source file gives it back. */
  lemma SourceFileRoundTrip(f: SourceFile)
    ensures DecodeSourceFile(EncodeSourceFile(f)) == Ok(f)
  {
    var obj := EncodeSourceFile(f).fields;
    assert Required(obj, "type", DecodeSourceFileType) == Ok(f.fileType);
  }

  /** Decoding an encoded compiled file gives it back. */
  lemma CompiledFileRoundTrip(f: CompiledFile)
    ensures DecodeCompiledFile(EncodeCompiledFile(f)) == Ok(f)
  {
    var obj := EncodeCompiledFile(f).fields;
    assert Required(obj, "type", DecodeCompiledFileType) == Ok(f.fileType);
  }

  /** Decoding an encoded chat message gives it back, for either kind of content. */
  lemma {:induction false} ChatMessageRoundTrip(m: ChatMessage)
    ensures DecodeChatMessage(EncodeChatMessage(m)) == Ok(m)
  {
    match m.content
    case Plain(_) =>
    case Blocks(blocks) =>
      ArrayRoundTrip(blocks, EncodeContentBlock, DecodeContentBlock);
  }

  lemma {:induction false} SourceFilesRoundTrip(xs: seq<SourceFile>)
    ensures DecodeSourceFiles(ArrayOf(xs, EncodeSourceFile)) == Ok(xs)
  {
    forall f | f in xs
      ensures DecodeSourceFile(EncodeSourceFile(f)) == Ok(f)
    {
      SourceFileRoundTrip(f);
    }
    ArrayRoundTrip(xs, EncodeSourceFile, DecodeSourceFile);
  }

  lemma {:induction false} CompiledFilesRoundTrip(xs: seq<CompiledFile>)
    ensures DecodeCompiledFiles(ArrayOf(xs, EncodeCompiledFile)) == Ok(xs)
  {
    forall f | f in xs
      ensures DecodeCompiledFile(EncodeCompiledFile(f)) == Ok(f)
    {
      CompiledFileRoundTrip(f);
    }
    ArrayRoundTrip(xs, EncodeCompiledFile, DecodeCompiledFile);
  }

  lemma {:induction false} ChatMessagesRoundTrip(xs: seq<ChatMessage>)
    ensures DecodeChatMessages(ArrayOf(xs, EncodeChatMessage)) == Ok(xs)
  {
    forall m | m in xs
      ensures DecodeChatMessage(EncodeChatMessage(m)) == Ok(m)
    {
      ChatMessageRoundTrip(m);
    }
    ArrayRoundTrip(xs, EncodeChatMessage, DecodeChatMessage);
  }

  /** Where each field of a record lands in its encoding. */
  lemma ResponseEncodingKeys(d: CreateDesignResponse)
    ensures var obj := EncodeCreateDesignResponse(d).fields;
      && obj.Keys == ResponseKeys
      && obj["id"] == JString(d.id)
      && obj["sourceFiles"] == ArrayOf(d.sourceFiles, EncodeSourceFile)
      && obj["compiledFiles"] == ArrayOf(d.compiledFiles, EncodeCompiledFile)
      && obj["editorUrl"] == JString(d.editorUrl)
      && obj["previewUrl"] == JString(d.previewUrl)
      && obj["chatMessages"] == ArrayOf(d.chatMessages, EncodeChatMessage)
  {
  }

  /** A response decodes to the record assembled from its six keys once each key decodes. */
  lemma DecodeFromKeys(obj: map<string, Json>, d: CreateDesignResponse)
    requires KeysDecodeTo(obj, d)
    ensures DecodeCreateDesignResponse(JObject(obj)) == Ok(d)
  {
  }

  /** Round trip: every design record, encoded as JSON, decodes to itself. In particular the
      decoder accepts every string as a URL and never inspects URL syntax. */
  lemma {:induction false} CreateDesignResponseRoundTrip(d: CreateDesignResponse)
    ensures DecodeCreateDesignResponse(EncodeCreateDesignResponse(d)) == Ok(d)
  {
    ResponseEncodingKeys(d);
    SourceFilesRoundTrip(d.sourceFiles);
    CompiledFilesRoundTrip(d.compiledFiles);
    ChatMessagesRoundTrip(d.chatMessages);
    DecodeFromKeys(EncodeCreateDesignResponse(d).fields, d);
  }

  /** A decoded chat message, written back, is its input without the keys the schema ignores. */
  lemma {:induction false} ChatMessageEmbeds(j: Json)
    requires DecodeChatMessage(j).Ok?
    ensures Embeds(EncodeChatMessage(DecodeChatMessage(j).value), j)
  {
    var m := DecodeChatMessage(j).value;
    var c := j.fields["content"];
    var e := EncodeChatMessage(m);
    assert Embeds(e.fields["role"], j.fields["role"]);
    match m.content
    case Plain(_) =>
      assert Embeds(e.fields["content"], c);
    case Blocks(blocks) =>
      forall i | 0 <= i < |blocks|
        ensures Embeds(EncodeContentBlock(blocks[i]), c.items[i])
      {
        assert DecodeContentBlock(c.items[i]) == Ok(blocks[i]);
      }
      assert Embeds(e.fields["content"], c);
  }

  /** Re-encoding a decoded element array reproduces the input array: same length, same
      order, and each element is its input less the ignored keys. */
  lemma {:induction false} ArrayEmbeds<T>(xs: seq<T>, items: seq<Json>, encode: T -> Json)
    requires |xs| == |items|
    requires forall i | 0 <= i < |xs| :: Embeds(encode(xs[i]), items[i])
    ensures Embeds(ArrayOf(xs, encode), JArray(items))
  {
  }

  lemma {:induction false} SourceFilesEmbed(j: Json)
    requires DecodeSourceFiles(j).Ok?
    ensures Embeds(ArrayOf(DecodeSourceFiles(j).value, EncodeSourceFile), j)
  {
    ArrayEmbeds(DecodeSourceFiles(j).value, j.items, EncodeSourceFile);
  }

  lemma {:induction false} CompiledFilesEmbed(j: Json)
    requires DecodeCompiledFiles(j).Ok?
    ensures Embeds(ArrayOf(DecodeCompiledFiles(j).value, EncodeCompiledFile), j)
  {
    ArrayEmbeds(DecodeCompiledFiles(j).value, j.items, EncodeCompiledFile);
  }

  lemma {:induction false} ChatMessagesEmbed(j: Json)
    requires DecodeChatMessages(j).Ok?
    ensures Embeds(ArrayOf(DecodeChatMessages(j).value, EncodeChatMessage), j)
  {
    var xs := DecodeChatMessages(j).value;
    forall i | 0 <= i < |xs|
      ensures Embeds(EncodeChatMessage(xs[i]), j.items[i])
    {
      ChatMessageEmbeds(j.items[i]);
    }
    ArrayEmbeds(xs, j.items, EncodeChatMessage);
  }

  /** Decoding and then re-encoding a response reproduces every field of the input: the three
      URLs and the id verbatim, and the three arrays element by element in their input order.
      Only keys the schema does not mention are lost. */
  lemma {:induction false} CreateDesignResponseEmbeds(j: Json)
    requires DecodeCreateDesignResponse(j).Ok?
    ensures Embeds(EncodeCreateDesignResponse(DecodeCreateDesignResponse(j).value), j)
  {
    EmbedsFromKeys(j.fields, DecodeCreateDesignResponse(j).value);
  }

  lemma {:induction false} EmbedsFromKeys(obj: map<string, Json>, d: CreateDesignResponse)
    requires KeysDecodeTo(obj, d)
    ensures Embeds(EncodeCreateDesignResponse(d), JObject(obj))
  {
    ResponseEncodingKeys(d);
    SourceFilesEmbed(obj["sourceFiles"]);
    CompiledFilesEmbed(obj["compiledFiles"]);
    ChatMessagesEmbed(obj["chatMessages"]);
    EmbedsByKeys(EncodeCreateDesignResponse(d).fields, obj);
  }

  /** An object embeds in another when each of its keys holds a value that embeds in the
      other's value for that key. */
  lemma EmbedsByKeys(small: map<string, Json>, big: map<string, Json>)
    requires small.Keys == ResponseKeys
    requires "id" in big && Embeds(small["id"], big["id"])
    requires "sourceFiles" in big && Embeds(small["sourceFiles"], big["sourceFiles"])
    requires "compiledFiles" in big && Embeds(small["compiledFiles"], big["compiledFiles"])
    requires "editorUrl" in big && Embeds(small["editorUrl"], big["editorUrl"])
    requires "previewUrl" in big && Embeds(small["previewUrl"], big["previewUrl"])
    requires "chatMessages" in big && Embeds(small["chatMessages"], big["chatMessages"])
    ensures Embeds(JObject(small), JObject(big))
  {
  }

  /** A response that lacks any of the six keys is rejected as a whole; no partial record
      is produced. */
  lemma MissingKeyRejected(j: Json, key: string)
    requires j.JObject? && key in ResponseKeys && key !in j.fields
    ensures DecodeCreateDesignResponse(j).Err?
  {
  }

  /** One block that is not a valid content block rejects the whole chat message. */
  lemma BadBlockRejectsMessage(j: Json, i: nat)
    requires j.JObject? && "content" in j.fields
    requires j.fields["content"].JArray? && i < |j.fields["content"].items|
    requires DecodeContentBlock(j.fields["content"].items[i]).Err?
    ensures DecodeChatMessage(j).Err?
  {
  }

  /** Keys outside the schema do not change the outcome of decoding a response. */
  lemma {:induction false} ExtraKeyIgnored(fields: map<string, Json>, key: string, v: Json)
    requires key !in ResponseKeys
    ensures DecodeCreateDesignResponse(JObject(fields[key := v])) == DecodeCreateDesignResponse(JObject(fields))
  {
    var fields' := fields[key := v];
    forall k | k in ResponseKeys
      ensures (k in fields' <==> k in fields) && (k in fields ==> fields'[k] == fields[k])
    {
    }
  }
}
