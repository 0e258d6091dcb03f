/** `api/_resolve.js`: which upstream URL, credential and authentication
    scheme the serverless handlers use, computed from five environment
    variables. */
module Resolve {
  import opened Json
  import opened JsString

  /** The environment the resolver reads; an unset variable is `""`, which
      the source treats exactly like an empty one (`process.env.X || …`). */
  datatype Env = Env(
    gatewayUrl: string,          // AI_GATEWAY_URL
    gatewayMessagesPath: string, // AI_GATEWAY_MESSAGES_PATH
    gatewayApiKey: string,       // AI_GATEWAY_API_KEY
    anthropicApiKey: string,     // ANTHROPIC_API_KEY
    gatewayAuthMode: string)     // AI_GATEWAY_AUTH_MODE

  datatype Mode = Gateway | Direct | Unconfigured

  datatype AuthMode = XApiKey | Bearer

  /** `{ url, apiKey, mode, authMode }`; `None` is `null`. */
  datatype Endpoint = Endpoint(url: Option<string>, apiKey: Option<string>, mode: Mode, authMode: AuthMode)

  const DirectUrl := "https://api.anthropic.com/v1/messages"
  const DefaultMessagesPath := "/messages"
  const MessagesSegment := "/messages"

  /** `s.replace(/\/+$/, '')`: every trailing `/` removed. */
  function StripTrailingSlashes(s: string): (r: string)
    ensures |r| <= |s| && r == s[..|r|]
    ensures r != [] ==> r[|r| - 1] != '/'
    ensures forall i :: |r| <= i < |s| ==> s[i] == '/'
  {
    if |s| > 0 && s[|s| - 1] == '/' then StripTrailingSlashes(s[..|s| - 1]) else s
  }

  function Slashes(k: nat): (r: string)
    ensures |r| == k && forall i :: 0 <= i < k ==> r[i] == '/'
  {
    if k == 0 then [] else Slashes(k - 1) + ['/']
  }

  /** `/messages` occurs at `i` and is followed by `?` or the end. */
  predicate MessagesAt(s: string, i: nat)
  {
    && i + |MessagesSegment| <= |s|
    && s[i..i + |MessagesSegment|] == MessagesSegment
    && (i + |MessagesSegment| == |s| || s[i + |MessagesSegment|] == '?')
  }

  /** `/\/messages(?:\?|$)/.test(s)`. */
  predicate HasMessagesLikePath(s: string)
  {
    MessagesAtOrAfter(s, 0)
  }

  /** The regular expression's scan, from position `i` on. */
  predicate MessagesAtOrAfter(s: string, i: nat)
    decreases |s| - i
  {
    if i + |MessagesSegment| > |s| then false
    else MessagesAt(s, i) || MessagesAtOrAfter(s, i + 1)
  }

  /** The scan finds `/messages` exactly where it occurs. */
  lemma {:induction false} MessagesAtOrAfterIff(s: string, i: nat)
    decreases |s| - i
    ensures MessagesAtOrAfter(s, i) <==> exists j :: i <= j <= |s| && MessagesAt(s, j)
  {
    if i + |MessagesSegment| <= |s| {
      MessagesAtOrAfterIff(s, i + 1);
      if !MessagesAt(s, i) && exists j :: i <= j <= |s| && MessagesAt(s, j) {
        var j :| i <= j <= |s| && MessagesAt(s, j);
        assert i + 1 <= j;
      }
    }
  }

  /** `gatewayUrlRaw.trim().replace(/\/+$/, '')`. */
  function GatewayBase(env: Env): string
  {
    StripTrailingSlashes(Trim(env.gatewayUrl))
  }

  /** `(AI_GATEWAY_MESSAGES_PATH || '/messages').trim() || '/messages'`; the
      default is written untrimmed, since trimming it changes nothing
      (`GatewayPathDefault`). */
  function GatewayPath(env: Env): string
  {
    if env.gatewayMessagesPath == "" then DefaultMessagesPath
    else
      var trimmed := Trim(env.gatewayMessagesPath);
      if trimmed == "" then DefaultMessagesPath else trimmed
  }

  /** The path with exactly one `/` put in front when it has none. */
  function NormalizePath(path: string): (r: string)
    ensures |r| > 0 && r[0] == '/'
    ensures path != [] && path[0] == '/' ==> r == path
    ensures !(path != [] && path[0] == '/') ==> r[1..] == path
  {
    if |path| > 0 && path[0] == '/' then path else "/" + path
  }

  /** `(AI_GATEWAY_AUTH_MODE || 'x-api-key').toLowerCase().trim() === 'bearer'`;
      the unset case is written as x-api-key directly, since the default
      does not spell `bearer` (`BearerIff`). */
  function AuthModeOf(raw: string): AuthMode
  {
    if raw != "" && Trim(ToLower(raw)) == "bearer" then Bearer else XApiKey
  }

  /** `resolveEndpoint()`; total, it never fails. */
  function ResolveEndpoint(env: Env): (r: Endpoint)
    ensures r.mode == Unconfigured <==> r.url.None?
    ensures r.mode == Unconfigured <==> r.apiKey.None?
    ensures r.mode != Gateway ==> r.authMode == XApiKey
  {
    var base := GatewayBase(env);
    if base != "" then
      var url := if HasMessagesLikePath(base) then base else base + NormalizePath(GatewayPath(env));
      var apiKey := if env.gatewayApiKey != "" then env.gatewayApiKey else env.anthropicApiKey;
      Endpoint(Some(url), Some(apiKey), Gateway, AuthModeOf(env.gatewayAuthMode))
    else if env.anthropicApiKey != "" then
      Endpoint(Some(DirectUrl), Some(env.anthropicApiKey), Direct, XApiKey)
    else
      Endpoint(None, None, Unconfigured, XApiKey)
  }

  // ---------------------------------------------------------------------
  // Mode selection
  // ---------------------------------------------------------------------

  /** The three modes, each by the configuration that selects it; a gateway
      URL takes priority over the Anthropic key. */
  lemma ModeSelection(env: Env)
    ensures ResolveEndpoint(env).mode == Gateway <==> GatewayBase(env) != ""
    ensures ResolveEndpoint(env).mode == Direct <==> GatewayBase(env) == "" && env.anthropicApiKey != ""
    ensures ResolveEndpoint(env).mode == Unconfigured <==> GatewayBase(env) == "" && env.anthropicApiKey == ""
  {
  }

  /** The gateway URL is blank exactly when, after trimming, it holds
      nothing but slashes. */
  lemma GatewayBaseEmptyIff(env: Env)
    ensures GatewayBase(env) == "" <==> forall i :: 0 <= i < |Trim(env.gatewayUrl)| ==> Trim(env.gatewayUrl)[i] == '/'
  {
  }

  // ---------------------------------------------------------------------
  // The gateway URL
  // ---------------------------------------------------------------------

  /** In gateway mode the URL is the stripped base when that already names a
      messages endpoint, and otherwise the base followed by the normalised
      path, so the path is never appended to such a URL. */
  lemma GatewayUrlShape(env: Env)
    requires ResolveEndpoint(env).mode == Gateway
    ensures HasMessagesLikePath(GatewayBase(env)) ==> ResolveEndpoint(env).url == Some(GatewayBase(env))
    ensures !HasMessagesLikePath(GatewayBase(env)) ==>
              ResolveEndpoint(env).url == Some(GatewayBase(env) + NormalizePath(GatewayPath(env)))
    ensures GatewayBase(env) <= ResolveEndpoint(env).url.value
  {
  }

  /** An unset, empty or whitespace-only messages path means `/messages`;
      any other path is used trimmed. */
  lemma GatewayPathDefault(env: Env)
    ensures (forall i :: 0 <= i < |env.gatewayMessagesPath| ==> IsJsWhitespace(env.gatewayMessagesPath[i]))
            ==> GatewayPath(env) == DefaultMessagesPath
    ensures !(forall i :: 0 <= i < |env.gatewayMessagesPath| ==> IsJsWhitespace(env.gatewayMessagesPath[i]))
            ==> GatewayPath(env) == Trim(env.gatewayMessagesPath)
    ensures GatewayPath(env)
            == var t := Trim(if env.gatewayMessagesPath == "" then DefaultMessagesPath else env.gatewayMessagesPath);
               if t == "" then DefaultMessagesPath else t
  {
    if env.gatewayMessagesPath == "" {
      assert Trim(DefaultMessagesPath) == DefaultMessagesPath by {
        TrimOfTrimmed(DefaultMessagesPath);
      }
    }
  }

  lemma {:induction false} StripAppendSlashes(s: string, k: nat)
    ensures StripTrailingSlashes(s + Slashes(k)) == StripTrailingSlashes(s)
  {
    if k > 0 {
      var w := s + Slashes(k);
      assert w[..|w| - 1] == s + Slashes(k - 1);
      StripAppendSlashes(s, k - 1);
    } else {
      assert s + Slashes(0) == s;
    }
  }

  lemma TrimStripSlashes(u: string, k: nat)
    requires u == [] || !IsJsWhitespace(u[|u| - 1])
    ensures StripTrailingSlashes(Trim(u + Slashes(k))) == StripTrailingSlashes(Trim(u))
  {
    if k == 0 {
      assert u + Slashes(0) == u;
    } else if u == [] {
      assert u + Slashes(k) == [] + Slashes(k);
      TrimOfTrimmed(Slashes(k));
      StripAppendSlashes([], k);
    } else {
      TrimAppend(u, Slashes(k));
      StripAppendSlashes(Trim(u), k);
    }
  }

  /** The resolver reads the gateway URL only through its stripped form. */
  lemma ResolveReadsBase(env: Env, env': Env)
    requires GatewayBase(env) == GatewayBase(env')
    requires env.(gatewayUrl := env'.gatewayUrl) == env'
    ensures ResolveEndpoint(env) == ResolveEndpoint(env')
  {
    assert GatewayPath(env) == GatewayPath(env');
  }

  /** Gateway base URLs that differ only in trailing slashes resolve
      identically (the raw URL must not end in whitespace, which `trim`
      would otherwise remove only from the shorter one). */
  lemma TrailingSlashesIrrelevant(env: Env, k: nat)
    requires env.gatewayUrl == [] || !IsJsWhitespace(env.gatewayUrl[|env.gatewayUrl| - 1])
    ensures ResolveEndpoint(env.(gatewayUrl := env.gatewayUrl + Slashes(k))) == ResolveEndpoint(env)
  {
    TrimStripSlashes(env.gatewayUrl, k);
    ResolveReadsBase(env, env.(gatewayUrl := env.gatewayUrl + Slashes(k)));
  }

  lemma MessagesSuffixFound(s: string)
    requires |s| >= |MessagesSegment| && s[|s| - |MessagesSegment|..] == MessagesSegment
    ensures HasMessagesLikePath(s)
  {
    assert MessagesAt(s, |s| - |MessagesSegment|);
    MessagesAtOrAfterIff(s, 0);
  }

  lemma DefaultPathAppended(env: Env)
    requires GatewayBase(env) != "" && !HasMessagesLikePath(GatewayBase(env))
    requires forall i :: 0 <= i < |env.gatewayMessagesPath| ==> IsJsWhitespace(env.gatewayMessagesPath[i])
    ensures ResolveEndpoint(env).url == Some(GatewayBase(env) + MessagesSegment)
  {
    GatewayPathDefault(env);
    assert NormalizePath(GatewayPath(env)) == MessagesSegment;
  }

  /** A base that already names a messages endpoint is the URL as it is. */
  lemma MessagesLikeBaseKept(env: Env)
    requires GatewayBase(env) != "" && HasMessagesLikePath(GatewayBase(env))
    ensures ResolveEndpoint(env) == Endpoint(
      Some(GatewayBase(env)),
      Some(if env.gatewayApiKey != "" then env.gatewayApiKey else env.anthropicApiKey),
      Gateway, AuthModeOf(env.gatewayAuthMode))
  {
  }

  /** A gateway URL that neither starts with whitespace nor ends with `/`
      or whitespace and already names a messages endpoint is used as it is. */
  lemma ResolveFromMessagesUrl(env: Env, url: string)
    requires url != [] && !IsJsWhitespace(url[0])
    requires url[|url| - 1] != '/' && !IsJsWhitespace(url[|url| - 1])
    requires HasMessagesLikePath(url)
    ensures ResolveEndpoint(env.(gatewayUrl := url)) == Endpoint(
      Some(url),
      Some(if env.gatewayApiKey != "" then env.gatewayApiKey else env.anthropicApiKey),
      Gateway, AuthModeOf(env.gatewayAuthMode))
  {
    TrimOfTrimmed(url);
    assert StripTrailingSlashes(url) == url;
    MessagesLikeBaseKept(env.(gatewayUrl := url));
  }

  /** The endpoint a gateway base resolves to once `/messages` is appended. */
  lemma AppendedEndpoint(env: Env)
    requires GatewayBase(env) != "" && !HasMessagesLikePath(GatewayBase(env))
    requires forall i :: 0 <= i < |env.gatewayMessagesPath| ==> IsJsWhitespace(env.gatewayMessagesPath[i])
    ensures ResolveEndpoint(env) == Endpoint(
      Some(GatewayBase(env) + MessagesSegment),
      Some(if env.gatewayApiKey != "" then env.gatewayApiKey else env.anthropicApiKey),
      Gateway, AuthModeOf(env.gatewayAuthMode))
  {
    DefaultPathAppended(env);
    GatewayFields(env);
  }

  /** The same endpoint, resolved from the appended URL itself. */
  lemma AppendedUrlEndpoint(env: Env, url: string)
    requires GatewayBase(env) != "" && url == GatewayBase(env) + MessagesSegment
    ensures ResolveEndpoint(env.(gatewayUrl := url)) == Endpoint(
      Some(url),
      Some(if env.gatewayApiKey != "" then env.gatewayApiKey else env.anthropicApiKey),
      Gateway, AuthModeOf(env.gatewayAuthMode))
  {
    var base := GatewayBase(env);
    assert base[0] == Trim(env.gatewayUrl)[0];
    assert url[0] == base[0] && url[|url| - 1] == 's';
    MessagesSuffixFound(url);
    ResolveFromMessagesUrl(env, url);
  }

  /** Resolving from the URL that appending produced gives the same
      endpoint again. */
  lemma ResolveAppendedAgain(env: Env)
    requires GatewayBase(env) != "" && !HasMessagesLikePath(GatewayBase(env))
    requires forall i :: 0 <= i < |env.gatewayMessagesPath| ==> IsJsWhitespace(env.gatewayMessagesPath[i])
    ensures ResolveEndpoint(env.(gatewayUrl := GatewayBase(env) + MessagesSegment)) == ResolveEndpoint(env)
  {
    AppendedEndpoint(env);
    AppendedUrlEndpoint(env, GatewayBase(env) + MessagesSegment);
  }

  /** With the default path, a base that names no messages endpoint gets
      `/messages` appended; the result names one, and resolving again from
      it gives the same endpoint: the path is never appended twice. */
  lemma DefaultPathIsFixpoint(env: Env)
    requires ResolveEndpoint(env).mode == Gateway && !HasMessagesLikePath(GatewayBase(env))
    requires forall i :: 0 <= i < |env.gatewayMessagesPath| ==> IsJsWhitespace(env.gatewayMessagesPath[i])
    ensures ResolveEndpoint(env).url == Some(GatewayBase(env) + MessagesSegment)
    ensures HasMessagesLikePath(GatewayBase(env) + MessagesSegment)
    ensures ResolveEndpoint(env.(gatewayUrl := GatewayBase(env) + MessagesSegment)) == ResolveEndpoint(env)
  {
    ModeSelection(env);
    DefaultPathAppended(env);
    MessagesSuffixFound(GatewayBase(env) + MessagesSegment);
    ResolveAppendedAgain(env);
  }

  /** Everything a gateway endpoint carries, field by field. */
  lemma GatewayFields(env: Env)
    requires GatewayBase(env) != ""
    ensures ResolveEndpoint(env) == Endpoint(
      Some(if HasMessagesLikePath(GatewayBase(env)) then GatewayBase(env)
           else GatewayBase(env) + NormalizePath(GatewayPath(env))),
      Some(if env.gatewayApiKey != "" then env.gatewayApiKey else env.anthropicApiKey),
      Gateway, AuthModeOf(env.gatewayAuthMode))
  {
  }

  // ---------------------------------------------------------------------
  // Credentials and the authentication scheme
  // ---------------------------------------------------------------------

  /** The scheme is bearer exactly when the setting, lower-cased and
      trimmed, is `bearer`; any other value, unset included, is x-api-key. */
  lemma BearerIff(raw: string)
    ensures AuthModeOf(raw) == Bearer <==> Trim(ToLower(raw)) == "bearer"
  {
    if raw == "" {
      assert Trim(ToLower("")) == "";
    }
  }

  /** The unset setting falls back to `x-api-key`, which does not select
      bearer, so the scheme is the one the source's expression computes. */
  lemma AuthModeAsWritten(raw: string)
    ensures AuthModeOf(raw)
            == if Trim(ToLower(if raw == "" then "x-api-key" else raw)) == "bearer" then Bearer else XApiKey
  {
    if raw == "" {
      var x := ToLower("x-api-key");
      assert x[0] == 'x' && x[|x| - 1] == 'y';
      TrimOfTrimmed(x);
      assert |Trim(x)| == 9;
    }
  }

  /** The setting is read without regard to case or surrounding blanks:
      any spelling of `bearer`, padded with whitespace, selects bearer. */
  lemma BearerSpelled(pre: string, raw: string, post: string)
    requires ToLower(raw) == "bearer"
    requires forall i :: 0 <= i < |pre| ==> IsJsWhitespace(pre[i])
    requires forall i :: 0 <= i < |post| ==> IsJsWhitespace(post[i])
    ensures AuthModeOf(pre + raw + post) == Bearer
  {
    var s := pre + raw + post;
    assert |raw| == 6 && s != "";
    ToLowerAppend(pre, raw);
    ToLowerAppend(pre + raw, post);
    ToLowerWhitespace(pre);
    ToLowerWhitespace(post);
    var m := "bearer";
    assert m[0] == 'b' && m[|m| - 1] == 'r';
    TrimPadded(ToLower(pre), m, ToLower(post));
  }

  /** Direct mode always targets the public endpoint with the x-api-key
      scheme and the Anthropic key. */
  lemma DirectEndpoint(env: Env)
    requires ResolveEndpoint(env).mode == Direct
    ensures ResolveEndpoint(env) == Endpoint(Some(DirectUrl), Some(env.anthropicApiKey), Direct, XApiKey)
    ensures env.anthropicApiKey != ""
  {
  }
}
