/** `public/app.js`: the browser client. It builds the Messages API request
    (system prompt by mode, image blocks, the text block), sends it through
    the backend proxy or, in direct mode, straight to the public endpoint,
    and reads the text out of the answer. The page, the stored settings and
    the network are inputs. */
module Client {
  import opened Json
  import opened JsString
  import opened Http
  import Resolve
  import Security

  // ---------------------------------------------------------------------
  // System prompts
  // ---------------------------------------------------------------------

  const BasePrompt := "You are rePROMPT, an advanced AI prompt engineer created by VASEY/AI. Your sole purpose is to take user-submitted prompts and dramatically improve them for better results with large language models."

  const EnhanceTask := "\n\nTASK: Enhance the provided prompt. Make it:\n"
    + "- More specific and detailed with clear instructions\n"
    + "- Better structured with logical organization\n"
    + "- More effective at eliciting high-quality responses from any LLM\n"
    + "- Include relevant context, constraints, and desired output format\n"
    + "- Preserve the original intent while amplifying clarity and precision\n\n"
    + "If images are provided, incorporate visual context into the enhanced prompt. Describe what you see in the images and weave relevant details into the prompt.\n\n"
    + "Return ONLY the enhanced prompt text. Do not add explanations, notes, or meta-commentary. The user should be able to copy your entire response and paste it directly as a prompt."

  const RewriteTask := "\n\nTASK: Completely rewrite the provided prompt from scratch.\n"
    + "- Reimagine the prompt with professional prompt-engineering best practices\n"
    + "- Use structured formatting (numbered steps, clear sections) where appropriate\n"
    + "- Add role assignments, constraints, and output formatting guidance\n"
    + "- Make the prompt comprehensive enough to produce excellent results on the first try\n\n"
    + "If images are provided, analyze them and incorporate visual details into the rewritten prompt.\n\n"
    + "Return ONLY the rewritten prompt text. No explanations or commentary."

  const AnalyzeTask := "\n\nTASK: Analyze the provided prompt and give actionable feedback.\n"
    + "- Rate the current prompt quality (1-10)\n"
    + "- Identify weaknesses: vagueness, missing context, poor structure, ambiguity\n"
    + "- List specific improvements with examples\n"
    + "- Provide a final \"improved version\" at the end\n\n"
    + "If images are provided, consider whether the prompt adequately references or leverages the visual content.\n\n"
    + "Format your analysis clearly with sections and the improved prompt at the end."

  /** `getSystemPrompt(mode)`: `modes[mode] || modes.enhance`. */
  function SystemPrompt(mode: string): string
  {
    if mode == "rewrite" then BasePrompt + RewriteTask
    else if mode == "analyze" then BasePrompt + AnalyzeTask
    else BasePrompt + EnhanceTask
  }

  /** Every mode's prompt starts with the shared base text. */
  lemma PromptsShareBase(mode: string)
    ensures |BasePrompt| < |SystemPrompt(mode)|
    ensures SystemPrompt(mode)[..|BasePrompt|] == BasePrompt
  {
    var t := if mode == "rewrite" then RewriteTask else if mode == "analyze" then AnalyzeTask else EnhanceTask;
    assert SystemPrompt(mode) == BasePrompt + t;
    assert (BasePrompt + t)[..|BasePrompt|] == BasePrompt;
  }

  /** An unknown mode gets the enhance prompt, and the three known modes
      get three different prompts. */
  lemma UnknownModeFallsBack(mode: string)
    ensures mode != "enhance" && mode != "rewrite" && mode != "analyze"
            ==> SystemPrompt(mode) == SystemPrompt("enhance")
    ensures SystemPrompt("enhance") != SystemPrompt("rewrite")
    ensures SystemPrompt("enhance") != SystemPrompt("analyze")
    ensures SystemPrompt("rewrite") != SystemPrompt("analyze")
  {
    assert |EnhanceTask| == 684 && |RewriteTask| == 534 && |AnalyzeTask| == 462;
  }

  // ---------------------------------------------------------------------
  // The request body
  // ---------------------------------------------------------------------

  const DefaultModel := "claude-sonnet-4-5-20250929"
  const ClientMaxTokens := 4096
  const ContextLabel := "\n\nAdditional context: "

  /** One entry of `state.images`, as far as the request uses it. */
  datatype Image = Image(mediaType: string, base64: string)

  /** The block pushed for one image. */
  function ImageBlock(img: Image): Json
  {
    Obj(map["type" := Str("image"),
            "source" := Obj(map["type" := Str("base64"),
                                "media_type" := Str(img.mediaType),
                                "data" := Str(img.base64)])])
  }

  function TextBlock(text: string): Json
  {
    Obj(map["type" := Str("text"), "text" := Str(text)])
  }

  /** `userText`: the prompt, followed by the trimmed context under its
      label when the context is not blank. */
  function UserText(prompt: string, context: string): string
  {
    if Trim(context) != "" then prompt + ContextLabel + Trim(context) else prompt
  }

  /** `content`: one image block per image, in upload order, then the text
      block. */
  function Content(prompt: string, context: string, images: seq<Image>): seq<Json>
  {
    ImageBlocks(images) + [TextBlock(UserText(prompt, context))]
  }

  function ImageBlocks(images: seq<Image>): (r: seq<Json>)
    ensures |r| == |images|
  {
    if images == [] then [] else ImageBlocks(images[..|images| - 1]) + [ImageBlock(images[|images| - 1])]
  }

  lemma {:induction false} ImageBlocksAt(images: seq<Image>, i: nat)
    requires i < |images|
    ensures ImageBlocks(images)[i] == ImageBlock(images[i])
  {
    if i < |images| - 1 {
      ImageBlocksAt(images[..|images| - 1], i);
    }
  }

  /** `callClaude`'s construction of `content`: the `forEach` that pushes
      the image blocks, then `userText` with `+=`, then the text block. */
  method BuildContent(prompt: string, context: string, images: seq<Image>) returns (content: seq<Json>)
    ensures content == Content(prompt, context, images)
  {
    content := [];
    var i := 0;
    while i < |images|
      invariant 0 <= i <= |images|
      invariant content == ImageBlocks(images[..i])
    {
      assert images[..i + 1][..i] == images[..i];
      content := content + [ImageBlock(images[i])];
      i := i + 1;
    }
    assert images[..i] == images;
    var userText := prompt;
    var trimmed := Trim(context);
    if context != "" && trimmed != "" {
      userText := userText + ContextLabel + trimmed;
    }
    content := content + [TextBlock(userText)];
  }

  /** The content has one block per image and one more: image `i` is block
      `i`, built from that image's type and data, and the text block is
      last. The text is the prompt alone when the context is blank, and the
      prompt, the label and the trimmed context otherwise. */
  lemma ContentShape(prompt: string, context: string, images: seq<Image>)
    ensures var c := Content(prompt, context, images);
      && |c| == |images| + 1
      && (forall i :: 0 <= i < |images| ==> c[i] == ImageBlock(images[i]))
      && c[|images|] == TextBlock(UserText(prompt, context))
    ensures (forall i :: 0 <= i < |context| ==> IsJsWhitespace(context[i])) ==> UserText(prompt, context) == prompt
    ensures (exists i :: 0 <= i < |context| && !IsJsWhitespace(context[i]))
            ==> UserText(prompt, context) == prompt + ContextLabel + Trim(context)
  {
    var c := Content(prompt, context, images);
    forall i | 0 <= i < |images| ensures c[i] == ImageBlock(images[i]) {
      ImageBlocksAt(images, i);
    }
  }

  /** `localStorage.getItem('reprompt_model') || DefaultModel`, with `""`
      standing for a missing entry. */
  function ModelSetting(stored: string): string
  {
    if stored != "" then stored else DefaultModel
  }

  /** `{ model, max_tokens: 4096, system, messages: [{ role: 'user', content }] }`. */
  function RequestBody(model: string, system: string, content: seq<Json>): Json
  {
    Obj(map["model" := Str(model),
            "max_tokens" := Num(ClientMaxTokens as real),
            "system" := Str(system),
            "messages" := Arr([Obj(map["role" := Str("user"), "content" := Arr(content)])])])
  }

  /** The body has four keys, `max_tokens` 4096, and exactly one message,
      from the user, holding the content. */
  lemma RequestBodyShape(model: string, system: string, content: seq<Json>)
    ensures var b := RequestBody(model, system, content);
      && b.Obj? && b.fields.Keys == {"model", "max_tokens", "system", "messages"}
      && b.fields["max_tokens"] == Num(4096.0)
      && b.fields["messages"].Arr? && |b.fields["messages"].items| == 1
      && Prop(b.fields["messages"].items[0], "role") == Some(Str("user"))
      && Prop(b.fields["messages"].items[0], "content") == Some(Arr(content))
  {
  }

  // ---------------------------------------------------------------------
  // Where the request goes
  // ---------------------------------------------------------------------

  const NoKeyMsg := "No API key configured. Open Settings and enter your Anthropic API key."

  /** The stored settings `callClaude` reads; `""` stands for a missing
      entry. `apiBaseUrl` is the page's configured API base. */
  datatype Settings = Settings(directMode: bool, storedKey: string, storedModel: string, apiBaseUrl: string)

  /** What `callClaude` does before awaiting anything: the request it
      passes to `fetch`, or the error it throws first. */
  datatype Call = Fetch(request: Outbound) | ThrowsFirst(message: string)

  /** `apiBaseUrl.replace(/\/$/, '')`: at most one trailing `/` removed. */
  function ApiBase(raw: string): string
  {
    if raw != "" && raw[|raw| - 1] == '/' then raw[..|raw| - 1] else raw
  }

  /** The proxy URL keeps every slash but the last one, and a base without
      a trailing slash is used as it is. */
  lemma ApiBaseStripsOneSlash(raw: string)
    ensures ApiBase(raw + "/") == raw
    ensures raw == "" || raw[|raw| - 1] != '/' ==> ApiBase(raw) == raw
    ensures ApiBase(raw + "//") == raw + "/"
  {
    assert (raw + "/")[..|raw|] == raw;
    assert (raw + "//")[..|raw| + 1] == raw + "/";
  }

  function DirectHeaders(apiKey: string): Headers
  {
    map["Content-Type" := "application/json", "x-api-key" := apiKey,
        "anthropic-version" := "2023-06-01",
        "anthropic-dangerous-direct-browser-access" := "true"]
  }

  /** `callAnthropicDirect(body)` up to its `fetch`. */
  function DirectCall(storedKey: string, body: Json): Call
  {
    if storedKey == "" then ThrowsFirst(NoKeyMsg)
    else Fetch(Outbound(Resolve.DirectUrl, DirectHeaders(storedKey), body))
  }

  /** Where `callClaude` sends a body: to `callAnthropicDirect` in direct
      mode, and otherwise to the proxy. */
  function Route(settings: Settings, body: Json): Call
  {
    if settings.directMode then DirectCall(settings.storedKey, body)
    else Fetch(Outbound(ApiBase(settings.apiBaseUrl) + "/api/messages",
                        map["Content-Type" := "application/json"], body))
  }

  /** `callClaude(prompt, context, images, mode)` up to its `fetch`. */
  function CallClaude(prompt: string, context: string, images: seq<Image>, mode: string, settings: Settings): Call
  {
    Route(settings, RequestBody(ModelSetting(settings.storedModel), SystemPrompt(mode), Content(prompt, context, images)))
  }

  /** Through the proxy no credential leaves the browser and nothing is
      thrown first; in direct mode a missing key is an error before any
      request, and otherwise the key goes in `x-api-key` with the
      browser-access header. The body is sent as it is. */
  lemma RouteShape(settings: Settings, body: Json)
    ensures var c := Route(settings, body);
      && (!settings.directMode ==>
            && c.Fetch? && c.request.headers.Keys == {"Content-Type"}
            && c.request.url == ApiBase(settings.apiBaseUrl) + "/api/messages")
      && (settings.directMode && settings.storedKey == "" ==> c == ThrowsFirst(NoKeyMsg))
      && (settings.directMode && settings.storedKey != "" ==>
            && c.Fetch? && c.request.url == Resolve.DirectUrl
            && c.request.headers["x-api-key"] == settings.storedKey
            && c.request.headers["anthropic-dangerous-direct-browser-access"] == "true")
      && (c.Fetch? ==> c.request.body == body)
  {
  }

  /** `callClaude` sends the request body built from the settings' model,
      the mode's prompt and the content, along the route of `RouteShape`. */
  lemma CallRouting(prompt: string, context: string, images: seq<Image>, mode: string, settings: Settings)
    ensures var c := CallClaude(prompt, context, images, mode, settings);
      && (!settings.directMode ==>
            && c.Fetch? && c.request.headers.Keys == {"Content-Type"}
            && c.request.url == ApiBase(settings.apiBaseUrl) + "/api/messages")
      && (settings.directMode && settings.storedKey == "" ==> c == ThrowsFirst(NoKeyMsg))
      && (settings.directMode && settings.storedKey != "" ==>
            && c.Fetch? && c.request.url == Resolve.DirectUrl
            && c.request.headers["x-api-key"] == settings.storedKey
            && c.request.headers["anthropic-dangerous-direct-browser-access"] == "true")
      && (c.Fetch? ==> c.request.body
                       == RequestBody(ModelSetting(settings.storedModel), SystemPrompt(mode),
                                      Content(prompt, context, images)))
  {
    RouteShape(settings, RequestBody(ModelSetting(settings.storedModel), SystemPrompt(mode),
                                     Content(prompt, context, images)));
  }

  // ---------------------------------------------------------------------
  // Reading the answer
  // ---------------------------------------------------------------------

  /** What came back from `fetch`: a status and the body `response.json()`
      parsed (`None` when it did not parse), or a network error. */
  datatype Answer = Answer(status: int, body: Option<Json>) | NetworkError

  /** How `callClaude` settles: the value it returns, or the value its
      `Error` is built from (`None` for a runtime error whose message the
      model does not fix: a network failure, an unparsable ok body, a null
      one). */
  datatype Outcome = Returned(value: Json) | Threw(message: Option<Json>)

  /** `v?.[0]`: the first element of an array, the first character of a
      string, the property `"0"` of an object, and undefined otherwise. */
  function First(v: Option<Json>): Option<Json>
  {
    if v.None? then None
    else match v.value
      case Arr(items) => if items != [] then Some(items[0]) else None
      case Str(s) => if s != "" then Some(Str([s[0]])) else None
      case Obj(fields) => Prop(v.value, "0")
      case _ => None
  }

  /** `data.content?.[0]?.text || ''`; reading `content` of `null` throws. */
  function ExtractText(data: Json): Outcome
  {
    if data.Null? then Threw(None)
    else
      var text := OptProp(First(Prop(data, "content")), "text");
      Returned(if Truthy(text) then text.value else Str(""))
  }

  /** `err?.error?.message || `${prefix}${status}``, where `err` is the
      parsed error body or `{}` when it did not parse. */
  function ErrorMessage(err: Option<Json>, status: int, prefix: string): Json
  {
    var m := OptProp(OptProp(err, "error"), "message");
    if Truthy(m) then m.value else Str(prefix + IntString(status))
  }

  /** The rest of `callClaude` once `fetch` settled. */
  function Settle(answer: Answer, prefix: string): Outcome
  {
    match answer
    case NetworkError => Threw(None)
    case Answer(status, body) =>
      if !StatusOk(status) then Threw(Some(ErrorMessage(body, status, prefix)))
      else if body.None? then Threw(None)
      else ExtractText(body.value)
  }

  const ProxyErrorPrefix := "Server error "
  const DirectErrorPrefix := "Anthropic API error "

  /** The fallback prefix of the path `callClaude` takes: the proxy's own
      error text, or that of `callAnthropicDirect`. */
  function ErrorPrefixFor(settings: Settings): string
  {
    if settings.directMode then DirectErrorPrefix else ProxyErrorPrefix
  }

  /** The rest of `callClaude` once `fetch` settled, on the path the
      settings select. */
  function SettleCall(answer: Answer, settings: Settings): Outcome
  {
    Settle(answer, ErrorPrefixFor(settings))
  }

  /** The answer's text is the first content block's `text` when that is
      truthy, whatever else the block or the later blocks hold, and `""`
      when it is not or when there is no first block; only a null body
      makes reading it throw. */
  lemma TextOfAnswer(data: Json, first: Json, rest: seq<Json>, s: string)
    ensures (Prop(data, "content") == Some(Arr([first] + rest))
             && first.Obj? && Prop(first, "text") == Some(Str(s)) && s != "")
            ==> ExtractText(data) == Returned(Str(s))
    ensures (Prop(data, "content") == Some(Arr([first] + rest)) && Truthy(Prop(first, "text")))
            ==> ExtractText(data) == Returned(Prop(first, "text").value)
    ensures (Prop(data, "content") == Some(Arr([first] + rest)) && !Truthy(Prop(first, "text")))
            ==> ExtractText(data) == Returned(Str(""))
    ensures (data.Obj? && (Prop(data, "content").None? || Prop(data, "content") == Some(Arr([]))))
            ==> ExtractText(data) == Returned(Str(""))
    ensures ExtractText(data).Threw? <==> data.Null?
  {
    if Prop(data, "content") == Some(Arr([first] + rest)) {
      assert First(Prop(data, "content")) == Some(first);
    }
  }

  /** A non-ok answer throws the truthy `error.message` of its body, as the
      relayed upstream error `{type, error: {type, message}}` has it, and
      otherwise (no body, `{}`, `{error: {}}`, an empty message) the prefix
      followed by the status; an ok answer never throws a message of its
      own. */
  lemma ErrorOfAnswer(status: int, body: Option<Json>, prefix: string, m: string)
    ensures (!StatusOk(status) && OptProp(OptProp(body, "error"), "message") == Some(Str(m)) && m != "")
            ==> Settle(Answer(status, body), prefix) == Threw(Some(Str(m)))
    ensures (!StatusOk(status) && Truthy(OptProp(OptProp(body, "error"), "message")))
            ==> Settle(Answer(status, body), prefix) == Threw(OptProp(OptProp(body, "error"), "message"))
    ensures (!StatusOk(status) && !Truthy(OptProp(OptProp(body, "error"), "message")))
            ==> Settle(Answer(status, body), prefix) == Threw(Some(Str(prefix + IntString(status))))
    ensures StatusOk(status) ==> !(Settle(Answer(status, body), prefix).Threw?
                                   && Settle(Answer(status, body), prefix).message.Some?)
  {
  }

  /** A non-ok answer without a truthy `error.message` reads
      `Server error <status>` through the proxy and
      `Anthropic API error <status>` in direct mode. */
  lemma ModeErrorFallback(status: int, body: Option<Json>, settings: Settings)
    requires !StatusOk(status) && !Truthy(OptProp(OptProp(body, "error"), "message"))
    ensures SettleCall(Answer(status, body), settings)
            == Threw(Some(Str(ErrorPrefixFor(settings) + IntString(status))))
    ensures settings.directMode ==>
              SettleCall(Answer(status, body), settings) == Threw(Some(Str("Anthropic API error " + IntString(status))))
    ensures !settings.directMode ==>
              SettleCall(Answer(status, body), settings) == Threw(Some(Str("Server error " + IntString(status))))
  {
  }

  /** A string `content` has a first character but no `text` on it. */
  lemma StringContentReadsEmpty(data: Json, s: string)
    requires data.Obj? && Prop(data, "content") == Some(Str(s))
    ensures ExtractText(data) == Returned(Str(""))
  {
  }

  // ---------------------------------------------------------------------
  // handleEnhance
  // ---------------------------------------------------------------------

  /** What `handleEnhance` does with the page as it is: focus the empty
      prompt, open the settings (checking the backend again unless in
      direct mode), or call `callClaude` with the trimmed prompt. */
  datatype Step = FocusPrompt | OpenSettings(recheckBackend: bool) | Send(prompt: string)

  function EnhanceStep(promptInput: string, imageCount: nat, backendReady: bool, directMode: bool): Step
  {
    var prompt := Trim(promptInput);
    if prompt == "" && imageCount == 0 then FocusPrompt
    else if !backendReady then OpenSettings(!directMode)
    else Send(prompt)
  }

  /** A request is made only with something to send and a ready backend,
      and then with the trimmed prompt. */
  lemma EnhanceGuards(promptInput: string, imageCount: nat, backendReady: bool, directMode: bool)
    ensures var s := EnhanceStep(promptInput, imageCount, backendReady, directMode);
      && (s.Send? <==> backendReady && (imageCount > 0 || exists i :: 0 <= i < |promptInput| && !IsJsWhitespace(promptInput[i])))
      && (s.Send? ==> s.prompt == Trim(promptInput))
      && (s == FocusPrompt <==> imageCount == 0 && forall i :: 0 <= i < |promptInput| ==> IsJsWhitespace(promptInput[i]))
      && (s.OpenSettings? ==> s.recheckBackend == !directMode)
  {
  }

  // ---------------------------------------------------------------------
  // The client and the shared validator
  // ---------------------------------------------------------------------

  predicate ImageAccepted(img: Image)
  {
    img.mediaType in Security.AllowedImageTypes && img.base64 != ""
  }

  /** The image blocks of accepted images pass the validator's block rules. */
  lemma ImageBlockWellFormed(img: Image)
    requires ImageAccepted(img)
    ensures Security.WellFormedBlock(ImageBlock(img))
  {
    var src := Obj(map["type" := Str("base64"), "media_type" := Str(img.mediaType), "data" := Str(img.base64)]);
    assert Prop(ImageBlock(img), "source") == Some(src);
  }

  /** For the client's one-message body with a valid model, the validator's
      verdict is that of the content blocks, in order. */
  lemma ValidateClientBody(model: string, system: string, content: seq<Json>)
    requires Security.MatchesModelPattern(model) && content != []
    ensures Security.Validate(Some(RequestBody(model, system, content)))
            == match Security.FirstFailure(content, Security.BlockError)
               case None => Security.Ok
               case Some(m) => Security.Err(m)
  {
    var message := Obj(map["role" := Str("user"), "content" := Arr(content)]);
    var body := RequestBody(model, system, content);
    assert Prop(body, "messages") == Some(Arr([message]));
    assert Prop(body, "model") == Some(Str(model));
    assert Prop(message, "content") == Some(Arr(content));
    assert Security.MessageError(message) == Security.FirstFailure(content, Security.BlockError);
    var single := [message];
    if Security.MessageError(message).Some? {
      Security.FirstFailureAt(single, Security.MessageError, 0);
    } else {
      Security.FirstFailureNone(single, Security.MessageError);
    }
  }

  /** Sending images with an empty prompt and no context produces an empty
      text block, which the validator rejects once the images pass. */
  lemma ImageOnlyRequestFailsValidator(model: string, system: string, context: string, images: seq<Image>)
    requires Security.MatchesModelPattern(model)
    requires forall i :: 0 <= i < |images| ==> ImageAccepted(images[i])
    requires forall i :: 0 <= i < |context| ==> IsJsWhitespace(context[i])
    ensures Security.Validate(Some(RequestBody(model, system, Content("", context, images))))
            == Security.Err(Security.TextBlockMsg)
  {
    var content := Content("", context, images);
    ContentShape("", context, images);
    forall k | 0 <= k < |images| ensures Security.BlockError(content[k]).None? {
      ImageBlockWellFormed(images[k]);
      Security.BlockErrorNoneIff(content[k]);
    }
    var text := content[|images|];
    assert Prop(text, "text") == Some(Str(""));
    assert Security.BlockError(text) == Some(Security.TextBlockMsg);
    Security.FirstFailureAt(content, Security.BlockError, |images|);
    ValidateClientBody(model, system, content);
  }

  /** With a valid model, accepted images and a text of 1 to 50000
      characters, the client's body is one the validator accepts. */
  lemma ClientBodyPassesValidator(model: string, system: string, prompt: string, context: string, images: seq<Image>)
    requires Security.MatchesModelPattern(model)
    requires forall i :: 0 <= i < |images| ==> ImageAccepted(images[i])
    requires 1 <= |UserText(prompt, context)| <= Security.MaxTextLength
    ensures Security.Validate(Some(RequestBody(model, system, Content(prompt, context, images)))) == Security.Ok
  {
    var content := Content(prompt, context, images);
    ContentShape(prompt, context, images);
    forall k | 0 <= k < |content| ensures Security.BlockError(content[k]).None? {
      if k < |images| {
        ImageBlockWellFormed(images[k]);
      } else {
        assert Prop(content[k], "text") == Some(Str(UserText(prompt, context)));
        assert Security.WellFormedBlock(content[k]);
      }
      Security.BlockErrorNoneIff(content[k]);
    }
    Security.FirstFailureNone(content, Security.BlockError);
    ValidateClientBody(model, system, content);
  }
}
