/** `api/_security.js`: the structural validator for a messages payload and
    the helper that sets the security headers. */
module Security {
  import opened Json
  import opened Http

  const MaxTextLength := 50000
  const MaxMessages := 24
  const MaxModelLength := 120
  const AllowedRoles: set<string> := {"user", "assistant"}
  const AllowedImageTypes: set<string> := {"image/jpeg", "image/png", "image/webp", "image/gif"}

  const BodyMsg := "Request body must be a JSON object."
  const ModelMsg := "Invalid model value."
  const MessagesMsg := "messages[] is required and must have 1-24 items."
  const MessageObjectMsg := "Each message must be an object."
  const RoleMsg := "Each message role must be user or assistant."
  const MessageTextMsg := "Message text must be between 1 and 50000 characters."
  const ContentMsg := "Message content must be a non-empty string or array."
  const BlockMsg := "Each content block must be an object with a type."
  const TextBlockMsg := "Text blocks must include 1-50000 characters of text."
  const ImageBlockMsg := "Image blocks must include valid base64 image data."
  const UnsupportedBlockMsg := "Unsupported content block type."

  /** Every message the validator can report about one message or block. */
  const MessageLevelMsgs: set<string> :=
    {MessageObjectMsg, RoleMsg, MessageTextMsg, ContentMsg, BlockMsg, TextBlockMsg,
     ImageBlockMsg, UnsupportedBlockMsg}

  /** `{ ok: true }` or `{ ok: false, message }`. */
  datatype Verdict = Ok | Err(message: string)

  // ---------------------------------------------------------------------
  // The individual rules
  // ---------------------------------------------------------------------

  /** One character of the class `[A-Za-z0-9._:-]`. */
  predicate ModelChar(c: char)
  {
    ('A' <= c <= 'Z') || ('a' <= c <= 'z') || ('0' <= c <= '9')
    || c == '.' || c == '_' || c == ':' || c == '-'
  }

  /** `/^[A-Za-z0-9._:-]{1,120}$/.test(s)`. */
  predicate MatchesModelPattern(s: string)
  {
    1 <= |s| <= MaxModelLength && forall i :: 0 <= i < |s| ==> ModelChar(s[i])
  }

  /** A string of 1 to 50000 characters. */
  predicate TextInBounds(v: Option<Json>)
  {
    IsString(v) && 1 <= |v.value.s| <= MaxTextLength
  }

  /** `ALLOWED_ROLES.has(v)`. */
  predicate AllowedRole(v: Option<Json>)
  {
    IsString(v) && v.value.s in AllowedRoles
  }

  /** `ALLOWED_IMAGE_TYPES.has(v)`. */
  predicate AllowedImageType(v: Option<Json>)
  {
    IsString(v) && v.value.s in AllowedImageTypes
  }

  /** `block.source || {}`. */
  function ImageSource(block: Json): Json
  {
    var source := Prop(block, "source");
    if Truthy(source) then source.value else Obj(map[])
  }

  /** The image rule: base64 encoding, an allowed media type, non-empty data. */
  predicate ValidImageSource(source: Json)
  {
    && IsStr(Prop(source, "type"), "base64")
    && AllowedImageType(Prop(source, "media_type"))
    && IsString(Prop(source, "data")) && |Prop(source, "data").value.s| != 0
  }

  /** The first failure of `check` along `xs`, in order. */
  function FirstFailure<T>(xs: seq<T>, check: T -> Option<string>): Option<string>
  {
    if xs == [] then None
    else if check(xs[0]).Some? then check(xs[0])
    else FirstFailure(xs[1..], check)
  }

  /** The checks of one content block, in source order. */
  function BlockError(block: Json): Option<string>
  {
    var ty := Prop(block, "type");
    if !Truthy(Some(block)) || !TypeofObject(block) || !IsString(ty) then Some(BlockMsg)
    else if ty.value.s == "text" then
      if TextInBounds(Prop(block, "text")) then None else Some(TextBlockMsg)
    else if ty.value.s == "image" then
      if ValidImageSource(ImageSource(block)) then None else Some(ImageBlockMsg)
    else Some(UnsupportedBlockMsg)
  }

  /** The checks of one message, in source order; string content is taken
      as it is, array content is checked block by block. */
  function MessageError(message: Json): Option<string>
  {
    if !Truthy(Some(message)) || !TypeofObject(message) then Some(MessageObjectMsg)
    else if !AllowedRole(Prop(message, "role")) then Some(RoleMsg)
    else
      var content := Prop(message, "content");
      if IsString(content) then
        if |content.value.s| == 0 || |content.value.s| > MaxTextLength then Some(MessageTextMsg)
        else None
      else if !(content.Some? && content.value.Arr?) || |content.value.items| == 0 then
        Some(ContentMsg)
      else FirstFailure(content.value.items, BlockError)
  }

  /** `validateMessagesPayload(body)`; `None` is an absent body. */
  function Validate(body: Option<Json>): Verdict
  {
    if !Truthy(body) || !TypeofObject(body.value) || body.value.Arr? then Err(BodyMsg)
    else
      var model := Prop(body.value, "model");
      if !IsString(model) || !MatchesModelPattern(model.value.s) then Err(ModelMsg)
      else
        var messages := Prop(body.value, "messages");
        if !(messages.Some? && messages.value.Arr?)
           || |messages.value.items| == 0 || |messages.value.items| > MaxMessages
        then Err(MessagesMsg)
        else
          match FirstFailure(messages.value.items, MessageError)
          case None => Ok
          case Some(m) => Err(m)
  }

  // ---------------------------------------------------------------------
  // The validator as the source runs it: two nested loops, early returns
  // ---------------------------------------------------------------------

  method ValidateMessagesPayload(body: Option<Json>) returns (v: Verdict)
    ensures v == Validate(body)
  {
    if !Truthy(body) || !TypeofObject(body.value) || body.value.Arr? {
      return Err(BodyMsg);
    }
    var model := Prop(body.value, "model");
    if !IsString(model) || !MatchesModelPattern(model.value.s) {
      return Err(ModelMsg);
    }
    var messages := Prop(body.value, "messages");
    if !(messages.Some? && messages.value.Arr?)
       || |messages.value.items| == 0 || |messages.value.items| > MaxMessages
    {
      return Err(MessagesMsg);
    }
    var items := messages.value.items;
    var i := 0;
    while i < |items|
      invariant 0 <= i <= |items|
      invariant forall j :: 0 <= j < i ==> MessageError(items[j]).None?
    {
      var message := items[i];
      var failure: Option<string> := None;
      if !Truthy(Some(message)) || !TypeofObject(message) {
        failure := Some(MessageObjectMsg);
      } else if !AllowedRole(Prop(message, "role")) {
        failure := Some(RoleMsg);
      } else {
        var content := Prop(message, "content");
        if IsString(content) {
          if |content.value.s| == 0 || |content.value.s| > MaxTextLength {
            failure := Some(MessageTextMsg);
          }
        } else if !(content.Some? && content.value.Arr?) || |content.value.items| == 0 {
          failure := Some(ContentMsg);
        } else {
          var blocks := content.value.items;
          var k := 0;
          while k < |blocks| && failure.None?
            invariant 0 <= k <= |blocks|
            invariant failure.None? ==> forall j :: 0 <= j < k ==> BlockError(blocks[j]).None?
            invariant failure.Some? ==> 0 < k && failure == BlockError(blocks[k - 1])
                                        && forall j :: 0 <= j < k - 1 ==> BlockError(blocks[j]).None?
          {
            var block := blocks[k];
            var ty := Prop(block, "type");
            if !Truthy(Some(block)) || !TypeofObject(block) || !IsString(ty) {
              failure := Some(BlockMsg);
            } else if ty.value.s == "text" {
              if !TextInBounds(Prop(block, "text")) {
                failure := Some(TextBlockMsg);
              }
            } else if ty.value.s == "image" {
              var source := ImageSource(block);
              if !ValidImageSource(source) {
                failure := Some(ImageBlockMsg);
              }
            } else {
              failure := Some(UnsupportedBlockMsg);
            }
            k := k + 1;
          }
          if failure.Some? {
            FirstFailureAt(blocks, BlockError, k - 1);
          } else {
            FirstFailureNone(blocks, BlockError);
          }
        }
      }
      if failure.Some? {
        FirstFailureAt(items, MessageError, i);
        return Err(failure.value);
      }
      i := i + 1;
    }
    FirstFailureNone(items, MessageError);
    return Ok;
  }

  // ---------------------------------------------------------------------
  // Properties of the first-failure order
  // ---------------------------------------------------------------------

  /** The reported failure is that of the first element that fails. */
  lemma {:induction false} FirstFailureAt<T>(xs: seq<T>, check: T -> Option<string>, i: nat)
    requires i < |xs| && check(xs[i]).Some?
    requires forall j :: 0 <= j < i ==> check(xs[j]).None?
    ensures FirstFailure(xs, check) == check(xs[i])
  {
    if i > 0 {
      FirstFailureAt(xs[1..], check, i - 1);
    }
  }

  /** Nothing is reported exactly when every element passes. */
  lemma {:induction false} FirstFailureNone<T>(xs: seq<T>, check: T -> Option<string>)
    ensures FirstFailure(xs, check).None? <==> forall j :: 0 <= j < |xs| ==> check(xs[j]).None?
  {
    if xs != [] {
      FirstFailureNone(xs[1..], check);
      if check(xs[0]).None? {
        assert forall j :: 1 <= j < |xs| ==> xs[j] == xs[1..][j - 1];
      }
    }
  }

  /** A reported failure is the failure of some element, all of whose
      predecessors pass. */
  lemma {:induction false} FirstFailureWitness<T>(xs: seq<T>, check: T -> Option<string>)
    requires FirstFailure(xs, check).Some?
    ensures exists i :: 0 <= i < |xs| && check(xs[i]) == FirstFailure(xs, check)
                        && forall j :: 0 <= j < i ==> check(xs[j]).None?
  {
    if check(xs[0]).None? {
      FirstFailureWitness(xs[1..], check);
      var i :| 0 <= i < |xs[1..]| && check(xs[1..][i]) == FirstFailure(xs[1..], check)
               && forall j :: 0 <= j < i ==> check(xs[1..][j]).None?;
      assert check(xs[i + 1]) == FirstFailure(xs, check);
      assert forall j :: 1 <= j < i + 1 ==> xs[j] == xs[1..][j - 1];
    }
  }

  // ---------------------------------------------------------------------
  // What the validator accepts, stated without the order of the checks
  // ---------------------------------------------------------------------

  predicate WellFormedBlock(block: Json)
  {
    && block.Obj?
    && (|| (IsStr(Prop(block, "type"), "text") && TextInBounds(Prop(block, "text")))
        || (&& IsStr(Prop(block, "type"), "image")
            && Prop(block, "source").Some?
            && ValidImageSource(Prop(block, "source").value)))
  }

  predicate WellFormedMessage(message: Json)
  {
    var content := Prop(message, "content");
    && message.Obj?
    && AllowedRole(Prop(message, "role"))
    && (|| TextInBounds(content)
        || (&& content.Some? && content.value.Arr? && |content.value.items| > 0
            && forall k :: 0 <= k < |content.value.items| ==> WellFormedBlock(content.value.items[k])))
  }

  predicate WellFormedPayload(body: Option<Json>)
  {
    && body.Some? && body.value.Obj?
    && var model := Prop(body.value, "model");
    && IsString(model) && MatchesModelPattern(model.value.s)
    && var messages := Prop(body.value, "messages");
    && messages.Some? && messages.value.Arr?
    && 1 <= |messages.value.items| <= MaxMessages
    && forall i :: 0 <= i < |messages.value.items| ==> WellFormedMessage(messages.value.items[i])
  }

  lemma BlockErrorNoneIff(block: Json)
    ensures BlockError(block).None? <==> WellFormedBlock(block)
  {
  }

  lemma MessageErrorNoneIff(message: Json)
    ensures MessageError(message).None? <==> WellFormedMessage(message)
  {
    var content := Prop(message, "content");
    if message.Obj? && AllowedRole(Prop(message, "role")) && content.Some? && content.value.Arr? {
      var blocks := content.value.items;
      FirstFailureNone(blocks, BlockError);
      forall k | 0 <= k < |blocks| ensures BlockError(blocks[k]).None? <==> WellFormedBlock(blocks[k]) {
        BlockErrorNoneIff(blocks[k]);
      }
    }
  }

  /** The validator accepts exactly the well-formed payloads, whatever the
      order in which it checks them. */
  lemma ValidateAcceptsExactlyWellFormed(body: Option<Json>)
    ensures Validate(body) == Ok <==> WellFormedPayload(body)
  {
    if body.Some? && body.value.Obj? {
      var messages := Prop(body.value, "messages");
      if messages.Some? && messages.value.Arr? {
        var items := messages.value.items;
        FirstFailureNone(items, MessageError);
        forall i | 0 <= i < |items| ensures MessageError(items[i]).None? <==> WellFormedMessage(items[i]) {
          MessageErrorNoneIff(items[i]);
        }
      }
    }
  }

  lemma BlockErrorMessages(block: Json)
    ensures BlockError(block).Some? ==> BlockError(block).value in MessageLevelMsgs
  {
  }

  lemma MessageErrorMessages(message: Json)
    ensures MessageError(message).Some? ==> MessageError(message).value in MessageLevelMsgs
  {
    var content := Prop(message, "content");
    if MessageError(message).Some? && content.Some? && content.value.Arr? {
      var blocks := content.value.items;
      if FirstFailure(blocks, BlockError).Some? {
        FirstFailureWitness(blocks, BlockError);
        var i :| 0 <= i < |blocks| && BlockError(blocks[i]) == FirstFailure(blocks, BlockError);
        BlockErrorMessages(blocks[i]);
      }
    }
  }

  /** A body that is missing, null, not an object, or an array is refused
      with the body message, and only such a body is. */
  lemma BodyMessageIffNotObject(body: Option<Json>)
    ensures Validate(body) == Err(BodyMsg) <==> !(body.Some? && body.value.Obj?)
  {
    if body.Some? && body.value.Obj? {
      var messages := Prop(body.value, "messages");
      if messages.Some? && messages.value.Arr? {
        var items := messages.value.items;
        if FirstFailure(items, MessageError).Some? {
          FirstFailureWitness(items, MessageError);
          var i :| 0 <= i < |items| && MessageError(items[i]) == FirstFailure(items, MessageError);
          MessageErrorMessages(items[i]);
        }
      }
    }
  }

  /** Past the body, model and count checks, the verdict is the failure of
      the first failing message, and later messages are never looked at. */
  lemma FirstBadMessageIsReported(body: Option<Json>, i: nat)
    requires body.Some? && body.value.Obj?
    requires IsString(Prop(body.value, "model")) && MatchesModelPattern(Prop(body.value, "model").value.s)
    requires Prop(body.value, "messages").Some? && Prop(body.value, "messages").value.Arr?
    requires 1 <= |Prop(body.value, "messages").value.items| <= MaxMessages
    requires i < |Prop(body.value, "messages").value.items|
    requires var items := Prop(body.value, "messages").value.items;
             MessageError(items[i]).Some? && forall j :: 0 <= j < i ==> MessageError(items[j]).None?
    ensures Validate(body) == Err(MessageError(Prop(body.value, "messages").value.items[i]).value)
  {
    FirstFailureAt(Prop(body.value, "messages").value.items, MessageError, i);
  }

  /** An image block whose `source` is missing or falsy is checked as `{}`
      and refused. */
  lemma ImageWithoutSourceRejected(block: Json)
    requires block.Obj? && IsStr(Prop(block, "type"), "image") && !Truthy(Prop(block, "source"))
    ensures BlockError(block) == Some(ImageBlockMsg)
  {
  }

  /** A minimal valid payload is accepted. */
  lemma AcceptsMinimalPayload()
    ensures Validate(Some(Obj(map["model" := Str("claude-x"),
                                  "messages" := Arr([Obj(map["role" := Str("user"), "content" := Str("hi")])])])))
            == Ok
  {
    var message := Obj(map["role" := Str("user"), "content" := Str("hi")]);
    assert MessageError(message) == None;
    assert FirstFailure([message], MessageError) == None;
    assert MatchesModelPattern("claude-x");
  }

  /** An empty message list and a model name with a space are refused. */
  lemma RejectsEmptyMessagesAndBadModel()
    ensures Validate(Some(Obj(map["model" := Str("claude-x"), "messages" := Arr([])]))) == Err(MessagesMsg)
    ensures Validate(Some(Obj(map["model" := Str("bad model!"),
                                  "messages" := Arr([Obj(map["role" := Str("user"), "content" := Str("hi")])])])))
            == Err(ModelMsg)
  {
    assert MatchesModelPattern("claude-x");
    assert !MatchesModelPattern("bad model!") by {
      assert !ModelChar("bad model!"[3]);
    }
  }

  /** The media type decides an otherwise valid image block. */
  lemma ImageMediaTypeExamples()
    ensures BlockError(Obj(map["type" := Str("image"),
                               "source" := Obj(map["type" := Str("base64"), "media_type" := Str("image/bmp"),
                                                   "data" := Str("abc")])]))
            == Some(ImageBlockMsg)
    ensures BlockError(Obj(map["type" := Str("image"),
                               "source" := Obj(map["type" := Str("base64"), "media_type" := Str("image/png"),
                                                   "data" := Str("abc")])]))
            == None
  {
  }

  // ---------------------------------------------------------------------
  // setSecurityHeaders
  // ---------------------------------------------------------------------

  const SecurityHeaders: Headers := map[
    "X-Content-Type-Options" := "nosniff",
    "Referrer-Policy" := "no-referrer",
    "X-Frame-Options" := "DENY",
    "Permissions-Policy" := "geolocation=(), microphone=(), camera=()"]

  /** `setSecurityHeaders(res)`: four headers, nothing else touched. */
  method SetSecurityHeaders(res: ServerResponse)
    modifies res
    ensures res.headers == old(res.headers) + SecurityHeaders
    ensures res.statusCode == old(res.statusCode) && res.body == old(res.body)
  {
    res.SetHeader("X-Content-Type-Options", "nosniff");
    res.SetHeader("Referrer-Policy", "no-referrer");
    res.SetHeader("X-Frame-Options", "DENY");
    res.SetHeader("Permissions-Policy", "geolocation=(), microphone=(), camera=()");
  }
}
