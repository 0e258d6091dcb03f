/** `app.js`: the older browser client, which always calls the public
    endpoint with a key stored in the browser. It shares the system prompts
    and the body construction with the current client. */
module LegacyClient {
  import opened Json
  import opened JsString
  import opened Http
  import Resolve
  import Client

  const KeyMissingMsg := "API_KEY_MISSING"
  const ErrorPrefix := "API error "

  /** `callClaude(prompt, context, images, mode)` up to its `fetch`: with no
      stored key it throws before building anything. */
  function CallClaude(prompt: string, context: string, images: seq<Client.Image>, mode: string,
                      storedKey: string, storedModel: string): Client.Call
  {
    if storedKey == "" then Client.ThrowsFirst(KeyMissingMsg)
    else
      var body := Client.RequestBody(Client.ModelSetting(storedModel), Client.SystemPrompt(mode),
                                     Client.Content(prompt, context, images));
      Client.Fetch(Outbound(Resolve.DirectUrl, Client.DirectHeaders(storedKey), body))
  }

  /** With no key nothing is sent; with one, the request is exactly the
      current client's direct-mode request. */
  lemma SameRequestAsDirectMode(prompt: string, context: string, images: seq<Client.Image>, mode: string,
                                storedKey: string, storedModel: string, apiBaseUrl: string)
    ensures storedKey == "" ==> CallClaude(prompt, context, images, mode, storedKey, storedModel)
                                == Client.ThrowsFirst(KeyMissingMsg)
    ensures storedKey != "" ==>
              CallClaude(prompt, context, images, mode, storedKey, storedModel)
              == Client.CallClaude(prompt, context, images, mode,
                                   Client.Settings(true, storedKey, storedModel, apiBaseUrl))
  {
  }

  /** The rest of `callClaude` once `fetch` settled; only the fallback
      prefix differs from the current client. */
  function Settle(answer: Client.Answer): Client.Outcome
  {
    Client.Settle(answer, ErrorPrefix)
  }

  /** `handleEnhance`'s guards: the empty prompt without images, then the
      missing key, which opens the settings with the key field focused. */
  function EnhanceStep(promptInput: string, imageCount: nat, storedKey: string): Client.Step
  {
    var prompt := Trim(promptInput);
    if prompt == "" && imageCount == 0 then Client.FocusPrompt
    else if storedKey == "" then Client.OpenSettings(false)
    else Client.Send(prompt)
  }

  /** A request is made exactly when there is something to send and a key,
      so the key check inside `callClaude` never fires from the button. */
  lemma SendNeverMissesKey(promptInput: string, imageCount: nat, storedKey: string,
                           context: string, images: seq<Client.Image>, mode: string, storedModel: string)
    ensures var s := EnhanceStep(promptInput, imageCount, storedKey);
      && (s.Send? <==> storedKey != "" && (imageCount > 0 || Trim(promptInput) != ""))
      && (s.Send? ==> s.prompt == Trim(promptInput)
                      && CallClaude(s.prompt, context, images, mode, storedKey, storedModel).Fetch?)
  {
  }

  /** A non-ok answer throws its own truthy `error.message`, and, when it
      has none (no body, `{}`, `{error: {}}`), `API error` and the status. */
  lemma ErrorFallback(status: int, body: Option<Json>, m: string)
    requires !StatusOk(status)
    ensures OptProp(OptProp(body, "error"), "message") == Some(Str(m)) && m != ""
            ==> Settle(Client.Answer(status, body)) == Client.Threw(Some(Str(m)))
    ensures !Truthy(OptProp(OptProp(body, "error"), "message"))
            ==> Settle(Client.Answer(status, body)) == Client.Threw(Some(Str(ErrorPrefix + IntString(status))))
  {
  }
}
