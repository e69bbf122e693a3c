/** app/api/enhance-prompt/route.ts: rewrites a thumbnail prompt with a chat
    model. The handler checks sign-in, the rate limit and the prompt, builds
    a user message from the prompt and the optional style and type, and
    passes on the model's JSON answer after checking its shape. */
module EnhancePromptRoute {
  import opened Values
  import opened Text

  const MAX_PROMPT_LENGTH: nat := 500
  const DEFAULT_ESTIMATED_CREDITS: int := 2
  const INSUFFICIENT_QUOTA: string := "insufficient_quota"

  const PROMPT_REQUIRED: string := "Prompt is required and must be a non-empty string"
  const PROMPT_TOO_LONG: string := "Prompt must be less than 500 characters"

  // ---- the user message --------------------------------------------------

  const ORIGINAL_LABEL: string := "Original prompt: \""
  const STYLE_LABEL: string := "Style preference: "
  const TYPE_LABEL: string := "Thumbnail type: "

  /** The lines of the user message: the quoted prompt, then a style line
      when `context.style` is truthy, then a type line when `context.type` is. */
  function MessageLines(prompt: string, context: Json): (r: seq<string>)
    ensures |r| >= 1 && r[0] == ORIGINAL_LABEL + prompt + "\""
    ensures |r| == 1 + (if Truthy(Member(context, "style")) then 1 else 0)
                     + (if Truthy(Member(context, "type")) then 1 else 0)
    ensures Truthy(Member(context, "style")) ==> r[1] == STYLE_LABEL + JsString(Member(context, "style"))
    ensures Truthy(Member(context, "type")) ==> r[|r| - 1] == TYPE_LABEL + JsString(Member(context, "type"))
  {
    var style := Member(context, "style");
    var kind := Member(context, "type");
    [ORIGINAL_LABEL + prompt + "\""]
    + (if Truthy(style) then [STYLE_LABEL + JsString(style)] else [])
    + (if Truthy(kind) then [TYPE_LABEL + JsString(kind)] else [])
  }

  /** The user message: its lines, newline-separated. */
  function UserMessage(prompt: string, context: Json): string {
    Join(MessageLines(prompt, context), '\n')
  }

  /** The message as the handler builds it, by appending to a string. */
  method BuildUserMessage(prompt: string, context: Json) returns (m: string)
    ensures m == UserMessage(prompt, context)
  {
    ghost var lines := [ORIGINAL_LABEL + prompt + "\""];
    m := ORIGINAL_LABEL + prompt + "\"";
    var style := Member(context, "style");
    if Truthy(style) {
      JoinSnoc(lines, STYLE_LABEL + JsString(style), '\n');
      lines := lines + [STYLE_LABEL + JsString(style)];
      m := m + "\n" + STYLE_LABEL + JsString(style);
    }
    assert m == Join(lines, '\n');
    var kind := Member(context, "type");
    if Truthy(kind) {
      JoinSnoc(lines, TYPE_LABEL + JsString(kind), '\n');
      lines := lines + [TYPE_LABEL + JsString(kind)];
      m := m + "\n" + TYPE_LABEL + JsString(kind);
    }
    assert lines == [ORIGINAL_LABEL + prompt + "\""]
                    + (if Truthy(style) then [STYLE_LABEL + JsString(style)] else [])
                    + (if Truthy(kind) then [TYPE_LABEL + JsString(kind)] else []);
  }

  /** When neither the prompt nor the context values hold a newline, the
      message splits back into exactly its lines: the prompt first, the style
      line (if any) before the type line (if any). */
  lemma MessageSplitsIntoLines(prompt: string, context: Json)
    requires NoSeparator(MessageLines(prompt, context), '\n')
    ensures Split(UserMessage(prompt, context), '\n') == MessageLines(prompt, context)
  {
    SplitJoin(MessageLines(prompt, context), '\n');
  }

  /** Without a context, the message is the quoted prompt alone. */
  lemma NoContextMessage(prompt: string, context: Json)
    requires !context.JObject?
    ensures UserMessage(prompt, context) == ORIGINAL_LABEL + prompt + "\""
  {
  }

  // ---- the handler -------------------------------------------------------

  /** What the chat completion call produced: the first choice's message
      content, if any, or an error carrying an optional `code`. */
  datatype Completion = Replied(content: Option<string>) | Threw(code: Option<string>)

  datatype EnhanceResponse =
    | Unauthorized
    /** 429: the rate limiter refused the caller. */
    | TooManyRequests
    | BadRequest(error: string)
    /** 200: the trimmed prompt and the model's answer as it was returned. */
    | Enhanced(original: string, enhanced: Json, improvements: seq<Json>, estimatedCredits: Json)
    /** 503: the AI provider reported an exhausted quota. */
    | ServiceUnavailable
    /** 500 "Failed to enhance prompt". */
    | InternalError

  function StatusCode(r: EnhanceResponse): nat {
    match r
    case Unauthorized => 401
    case TooManyRequests => 429
    case BadRequest(_) => 400
    case Enhanced(_, _, _, _) => 200
    case ServiceUnavailable => 503
    case InternalError => 500
  }

  /** `!prompt || typeof prompt !== "string" || prompt.trim().length === 0`, negated. */
  predicate ValidPrompt(prompt: Json) {
    prompt.JString? && Trim(prompt.s) != ""
  }

  /** The checks on the model's parsed answer (`null` has no properties, so
      reading one of it throws), and the result built from it. */
  function Answer(prompt: string, data: Json): (r: EnhanceResponse)
    ensures r.Enhanced? <==>
      data.JObject? && Truthy(Member(data, "enhanced")) && Member(data, "improvements").JArray?
    ensures !r.Enhanced? ==> r == InternalError
    ensures r.Enhanced? ==>
      r.original == Trim(prompt) && r.enhanced == Member(data, "enhanced") &&
      r.improvements == Member(data, "improvements").items
    ensures r.Enhanced? && Truthy(Member(data, "estimatedCredits")) ==>
      r.estimatedCredits == Member(data, "estimatedCredits")
    ensures r.Enhanced? && !Truthy(Member(data, "estimatedCredits")) ==>
      r.estimatedCredits == JNumber(DEFAULT_ESTIMATED_CREDITS)
  {
    if data.JNull? then InternalError
    else
      var enhanced := Member(data, "enhanced");
      var improvements := Member(data, "improvements");
      if !Truthy(enhanced) || !improvements.JArray? then InternalError
      else
        var credits := Member(data, "estimatedCredits");
        Enhanced(Trim(prompt), enhanced, improvements.items,
                 if Truthy(credits) then credits else JNumber(DEFAULT_ESTIMATED_CREDITS))
  }

  /** POST /api/enhance-prompt. `admitted` is the rate limiter's verdict
      for the caller, `complete` the chat completion call for a user message,
      and `parse` is `JSON.parse` (None when the text is not JSON). */
  function Post(userId: Option<string>, admitted: bool, body: RequestBody,
                complete: string -> Completion, parse: string -> Option<Json>): (r: EnhanceResponse)
    ensures (userId.None? || userId.value == "") <==> r == Unauthorized
    ensures r == TooManyRequests <==> userId.Some? && userId.value != "" && !admitted
    ensures r == BadRequest(PROMPT_REQUIRED) <==>
      userId.Some? && userId.value != "" && admitted && body.Fields? &&
      !ValidPrompt(Field(body.fields, "prompt"))
    ensures r == BadRequest(PROMPT_TOO_LONG) <==>
      userId.Some? && userId.value != "" && admitted && body.Fields? &&
      ValidPrompt(Field(body.fields, "prompt")) && |Field(body.fields, "prompt").s| > MAX_PROMPT_LENGTH
    ensures r.Enhanced? || r == ServiceUnavailable ==>
      userId.Some? && userId.value != "" && admitted && body.Fields? &&
      ValidPrompt(Field(body.fields, "prompt")) && |Field(body.fields, "prompt").s| <= MAX_PROMPT_LENGTH
    ensures r == ServiceUnavailable <==>
      userId.Some? && userId.value != "" && admitted && body.Fields? &&
      ValidPrompt(Field(body.fields, "prompt")) && |Field(body.fields, "prompt").s| <= MAX_PROMPT_LENGTH &&
      complete(UserMessage(Field(body.fields, "prompt").s, Field(body.fields, "context"))) ==
        Threw(Some(INSUFFICIENT_QUOTA))
    ensures r.Enhanced? ==>
      var prompt := Field(body.fields, "prompt").s;
      var answer := complete(UserMessage(prompt, Field(body.fields, "context")));
      answer.Replied? && answer.content.Some? && answer.content.value != "" &&
      parse(answer.content.value).Some? &&
      r == Answer(prompt, parse(answer.content.value).value) &&
      r.original == Trim(prompt)
    // An admitted, valid prompt with a non-empty reply that parses is answered from that reply.
    ensures (&& userId.Some? && userId.value != "" && admitted && body.Fields?
             && ValidPrompt(Field(body.fields, "prompt")) && |Field(body.fields, "prompt").s| <= MAX_PROMPT_LENGTH) ==>
      var prompt := Field(body.fields, "prompt").s;
      var answer := complete(UserMessage(prompt, Field(body.fields, "context")));
      (answer.Replied? && answer.content.Some? && answer.content.value != "" && parse(answer.content.value).Some?) ==>
        r == Answer(prompt, parse(answer.content.value).value)
  {
    if userId.None? || userId.value == "" then Unauthorized
    else if !admitted then TooManyRequests
    else match body
      case Unparsable => InternalError
      case NullBody => InternalError
      case Fields(fields) =>
        var prompt := Field(fields, "prompt");
        if !ValidPrompt(prompt) then BadRequest(PROMPT_REQUIRED)
        else if |prompt.s| > MAX_PROMPT_LENGTH then BadRequest(PROMPT_TOO_LONG)
        else match complete(UserMessage(prompt.s, Field(fields, "context")))
          case Threw(code) => if code == Some(INSUFFICIENT_QUOTA) then ServiceUnavailable else InternalError
          case Replied(content) =>
            if content.None? || content.value == "" then InternalError
            else match parse(content.value)
              case None => InternalError
              case Some(data) => Answer(prompt.s, data)
  }

  /** The handler as written, with the message built by appending. */
  method Handle(userId: Option<string>, admitted: bool, body: RequestBody,
                complete: string -> Completion, parse: string -> Option<Json>) returns (r: EnhanceResponse)
    ensures r == Post(userId, admitted, body, complete, parse)
  {
    if userId.None? || userId.value == "" {
      return Unauthorized;
    }
    if !admitted {
      return TooManyRequests;
    }
    if !body.Fields? {
      return InternalError;
    }
    var prompt := Field(body.fields, "prompt");
    if !ValidPrompt(prompt) {
      return BadRequest(PROMPT_REQUIRED);
    }
    if |prompt.s| > MAX_PROMPT_LENGTH {
      return BadRequest(PROMPT_TOO_LONG);
    }
    var message := BuildUserMessage(prompt.s, Field(body.fields, "context"));
    var answer := complete(message);
    if answer.Threw? {
      return if answer.code == Some(INSUFFICIENT_QUOTA) then ServiceUnavailable else InternalError;
    }
    if answer.content.None? || answer.content.value == "" {
      // "No response from OpenAI"
      return InternalError;
    }
    var data := parse(answer.content.value);
    if data.None? {
      // "Failed to parse OpenAI response"
      return InternalError;
    }
    r := Answer(prompt.s, data.value);
  }

  /** A request refused before the body is read gets the same answer
      whatever it carries. */
  lemma GuardsPrecedeBody(userId: Option<string>, admitted: bool, body1: RequestBody, body2: RequestBody,
                          complete: string -> Completion, parse: string -> Option<Json>)
    requires userId.None? || userId.value == "" || !admitted
    ensures Post(userId, admitted, body1, complete, parse) == Post(userId, admitted, body2, complete, parse)
    ensures Post(userId, admitted, body1, complete, parse) == Unauthorized ||
            Post(userId, admitted, body1, complete, parse) == TooManyRequests
  {
  }
}
