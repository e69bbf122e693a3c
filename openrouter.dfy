/** lib/openrouter.ts: the image-generation request sent to the chat
    completions API and the cascade that picks an image URL out of its answer,
    plus the text-generation call. The API is a parameter: the request it is
    handed and the outcome it reports (a completion, or the error it threw). */
module OpenRouter {
  import opened Values
  import opened Text
  import Uri
  import ImageDimensions
  import ImageKit

  datatype ModelKey = GEMINI_IMAGE | GEMINI_TEXT | DALLE_3 | STABLE_DIFFUSION

  /** `OPENROUTER_MODELS`. */
  function ModelId(m: ModelKey): string {
    match m
    case GEMINI_IMAGE => "google/gemini-2.5-flash-image-preview:free"
    case GEMINI_TEXT => "google/gemini-2.5-flash:free"
    case DALLE_3 => "openai/dall-e-3"
    case STABLE_DIFFUSION => "stabilityai/stable-diffusion-xl-base-1.0"
  }

  /** The request; omitted fields are None or JUndefined. The aspect ratio is
      whatever value the caller forwards. */
  datatype GenerationRequest = GenerationRequest(
    prompt: string,
    model: Option<ModelKey>,
    aspectRatio: Json,
    maxTokens: Option<int>,
    personaImage: Option<string>)

  const DEFAULT_MAX_TOKENS: int := 4000

  /** `aspectRatio = "16:9"`: the default replaces only an omitted value. */
  function AspectRatioOf(r: GenerationRequest): Json {
    if r.aspectRatio.JUndefined? then JString("16:9") else r.aspectRatio
  }

  predicate HasPersona(r: GenerationRequest) {
    r.personaImage.Some? && r.personaImage.value != ""
  }

  /** A part of the single user message. `PromptText` stands for the fixed
      thumbnail instructions with the prompt and the aspect ratio's text
      embedded in them. */
  datatype ContentPart = PromptText(prompt: string, aspectRatio: string) | ImageUrlPart(url: string) | PlainText(text: string)

  datatype ChatRequest = ChatRequest(model: string, content: seq<ContentPart>, maxTokens: int)

  datatype Usage = Usage(promptTokens: int, completionTokens: int, totalTokens: int)

  /** The first choice's message: its text content and the `url` of each
      entry of its `images` field (None when that entry has none). */
  datatype Message = Message(content: Option<string>, images: Option<seq<Option<string>>>)

  /** What the API call yields: the first choice's message, if any, and the
      usage; or the error it threw, with its HTTP status and message. */
  datatype ChatOutcome =
    | Completion(message: Option<Message>, usage: Option<Usage>)
    | ApiError(status: Option<int>, errorMessage: Option<string>)

  datatype GenerationResponse = GenerationResponse(
    success: bool,
    content: Option<string>,
    imageUrl: Option<string>,
    error: Option<string>,
    usage: Option<Usage>)

  // ---- the request --------------------------------------------------------

  /** The persona reference image, padded to the requested ratio:
      `?tr=ar-A-B,cm-pad_resize,bg-F3F3F3` with A and B the parts of the ratio
      around ':'; a ratio without ':' leaves B undefined. */
  function PersonaUrl(image: string, ratio: string): string {
    var parts := Split(ratio, ':');
    image + "?tr=ar-" + parts[0] + "-" + (if |parts| > 1 then parts[1] else "undefined") + ",cm-pad_resize,bg-F3F3F3"
  }

  /** For each ratio of the dimension table, the persona image is padded to
      exactly that ratio's two terms. */
  lemma PersonaUrlForTableRatio(image: string, a: ImageDimensions.AspectRatio)
    ensures var t := ImageDimensions.RatioTerms(a);
      PersonaUrl(image, ImageDimensions.Key(a))
        == image + "?tr=ar-" + NatToString(t.0) + "-" + NatToString(t.1) + ",cm-pad_resize,bg-F3F3F3"
  {
    var t := ImageDimensions.RatioTerms(a);
    ImageDimensions.KeySpellsTerms(a);
    assert ':' !in NatToString(t.0) && ':' !in NatToString(t.1);
    SplitJoin([NatToString(t.0), NatToString(t.1)], ':');
    assert Join([NatToString(t.0), NatToString(t.1)], ':') == NatToString(t.0) + ":" + NatToString(t.1);
  }

  /** The chat request generateImage sends. */
  function ImageChatRequest(r: GenerationRequest): ChatRequest
    requires HasPersona(r) ==> AspectRatioOf(r).JString?
  {
    var ratio := AspectRatioOf(r);
    var text := [PromptText(r.prompt, JsString(ratio))];
    var content := if HasPersona(r) then text + [ImageUrlPart(PersonaUrl(r.personaImage.value, ratio.s))] else text;
    ChatRequest(ModelId(r.model.GetOr(GEMINI_IMAGE)), content, r.maxTokens.GetOr(DEFAULT_MAX_TOKENS))
  }

  /** The request carries the model (GEMINI_IMAGE by default) and 4000 tokens
      by default; its first part embeds the prompt and the ratio (16:9 by
      default), and a second part is there exactly when a persona image is. */
  lemma ImageChatRequestShape(r: GenerationRequest)
    requires HasPersona(r) ==> AspectRatioOf(r).JString?
    ensures var c := ImageChatRequest(r);
      && c.model == ModelId(r.model.GetOr(GEMINI_IMAGE))
      && c.maxTokens == r.maxTokens.GetOr(4000)
      && 1 <= |c.content| <= 2
      && c.content[0] == PromptText(r.prompt, if r.aspectRatio.JUndefined? then "16:9" else JsString(r.aspectRatio))
      && (|c.content| == 2 <==> HasPersona(r))
      && (HasPersona(r) ==> c.content[1] == ImageUrlPart(PersonaUrl(r.personaImage.value, AspectRatioOf(r).s)))
  {
  }

  // ---- picking the image URL ----------------------------------------------

  /** `images[0].image_url.url`, when it is a non-empty string. */
  function FirstImageUrl(m: Option<Message>): (u: Option<string>)
    ensures u.Some? <==>
      && m.Some? && m.value.images.Some? && |m.value.images.value| > 0
      && m.value.images.value[0].Some? && m.value.images.value[0].value != ""
    ensures u.Some? ==> u == m.value.images.value[0] && u.value != ""
  {
    if m.Some? && m.value.images.Some? && |m.value.images.value| > 0
       && m.value.images.value[0].Some? && m.value.images.value[0].value != ""
    then m.value.images.value[0]
    else None
  }

  function ContentOf(m: Option<Message>): Option<string> {
    if m.Some? then m.value.content else None
  }

  /** The characters of `[A-Za-z0-9+/=]`. */
  predicate IsBase64Char(c: char) {
    ('A' <= c <= 'Z') || ('a' <= c <= 'z') || ('0' <= c <= '9') || c == '+' || c == '/' || c == '='
  }

  /** `content.length > 100 && /^[A-Za-z0-9+/=]+$/.test(content.trim())`. */
  predicate LooksLikeBase64(content: string) {
    |content| > 100 && |Trim(content)| > 0 && forall i :: 0 <= i < |Trim(content)| ==> IsBase64Char(Trim(content)[i])
  }

  const BASE64_PNG_PREFIX: string := "image/png;base64,"

  /** The image the text content carries: content that is already an
      `image/` URL is used as it is; raw base64 gets a PNG media prefix. */
  function ContentImageUrl(content: Option<string>): Option<string> {
    if content.Some? && content.value != "" then
      if StartsWith(content.value, "image/") then content
      else if LooksLikeBase64(content.value) then Some(BASE64_PNG_PREFIX + Trim(content.value))
      else None
    else None
  }

  /** The placeholder's size: 1280x720 for 16:9, 720x1280 for 9:16, else 1024x1024. */
  function PlaceholderSize(ratio: Json): string {
    if ratio == JString("16:9") then "1280x720"
    else if ratio == JString("9:16") then "720x1280"
    else "1024x1024"
  }

  /** The placeholder image, captioned with the first 30 characters of the prompt. */
  function Placeholder(prompt: string, ratio: Json): string {
    "https://via.placeholder.com/" + PlaceholderSize(ratio) + "/6366f1/ffffff?text="
      + Uri.EncodeUriComponent(Prefix(prompt, 30))
  }

  /** The cascade: the `images` field, then the content, then the placeholder. */
  function PickImageUrl(m: Option<Message>, prompt: string, ratio: Json): string {
    match FirstImageUrl(m)
    case Some(u) => u
    case None =>
      match ContentImageUrl(ContentOf(m))
      case Some(u) => u
      case None => Placeholder(prompt, ratio)
  }

  const RATE_LIMIT_MESSAGE: string := "Rate limit exceeded. Please wait before trying again."
  const NO_CREDITS_MESSAGE: string := "Insufficient OpenRouter credits. Please add more credits to your account."

  /** The error a failed call reports: fixed texts for HTTP 429 and 402, the
      thrown error's message otherwise, and a fixed text when that is empty. */
  function ErrorMessage(status: Option<int>, message: Option<string>): (e: string)
    ensures status == Some(429) ==> e == "Rate limit exceeded. Please wait before trying again."
    ensures status == Some(402) ==> e == "Insufficient OpenRouter credits. Please add more credits to your account."
    ensures status != Some(429) && status != Some(402) && message.Some? && message.value != "" ==> e == message.value
    ensures status != Some(429) && status != Some(402) && (message.None? || message.value == "") ==> e == "Failed to generate image"
  {
    if status == Some(429) then RATE_LIMIT_MESSAGE
    else if status == Some(402) then NO_CREDITS_MESSAGE
    else OrElse(message, "Failed to generate image")
  }

  /** What generateImage returns for a request and the API's behaviour. */
  function ImageResponse(r: GenerationRequest, api: ChatRequest -> ChatOutcome): GenerationResponse
    requires HasPersona(r) ==> AspectRatioOf(r).JString?
  {
    match api(ImageChatRequest(r))
    case Completion(m, usage) =>
      GenerationResponse(true, Some(OrElse(ContentOf(m), "Image generated successfully")),
                         Some(PickImageUrl(m, r.prompt, AspectRatioOf(r))), None, usage)
    case ApiError(status, message) =>
      GenerationResponse(false, None, None, Some(ErrorMessage(status, message)), None)
  }

  /** `generateImage`: builds the message part by part, calls the API, and
      reassigns the image URL down the cascade. */
  method GenerateImage(request: GenerationRequest, api: ChatRequest -> ChatOutcome) returns (r: GenerationResponse)
    requires HasPersona(request) ==> AspectRatioOf(request).JString?
    ensures r == ImageResponse(request, api)
  {
    var chat := BuildImageRequest(request);
    var outcome := api(chat);
    if outcome.ApiError? {
      return GenerationResponse(false, None, None, Some(ErrorMessage(outcome.status, outcome.errorMessage)), None);
    }
    var message := outcome.message;
    var text := if message.Some? then message.value.content else None;
    assert text == ContentOf(message);
    var imageUrl := FindImageUrl(message, request.prompt, AspectRatioOf(request));
    r := GenerationResponse(true, Some(OrElse(text, "Image generated successfully")), Some(imageUrl), None, outcome.usage);
  }

  /** The request body, with the persona part pushed after the prompt. */
  method BuildImageRequest(request: GenerationRequest) returns (chat: ChatRequest)
    requires HasPersona(request) ==> AspectRatioOf(request).JString?
    ensures chat == ImageChatRequest(request)
  {
    var model := request.model.GetOr(GEMINI_IMAGE);
    var aspectRatio := AspectRatioOf(request);
    var maxTokens := request.maxTokens.GetOr(DEFAULT_MAX_TOKENS);
    var content: seq<ContentPart> := [PromptText(request.prompt, JsString(aspectRatio))];
    if HasPersona(request) {
      content := content + [ImageUrlPart(PersonaUrl(request.personaImage.value, aspectRatio.s))];
    }
    chat := ChatRequest(ModelId(model), content, maxTokens);
  }

  /** The image URL, reassigned down the cascade: the `images` field, then
      the content, then the placeholder. */
  method FindImageUrl(message: Option<Message>, prompt: string, ratio: Json) returns (url: string)
    ensures url == PickImageUrl(message, prompt, ratio)
  {
    var text := if message.Some? then message.value.content else None;
    var imageUrl: Option<string> := None;
    if message.Some? && message.value.images.Some? {
      var images := message.value.images.value;
      if |images| > 0 && images[0].Some? && images[0].value != "" {
        imageUrl := images[0];
      }
    }
    assert imageUrl == FirstImageUrl(message);
    assert text == ContentOf(message);
    if imageUrl.None? && text.Some? && text.value != "" {
      if StartsWith(text.value, "image/") {
        imageUrl := text;
      } else if |text.value| > 100 && IsBase64Text(Trim(text.value)) {
        imageUrl := Some(BASE64_PNG_PREFIX + Trim(text.value));
      }
    }
    assert imageUrl == (if FirstImageUrl(message).Some? then FirstImageUrl(message) else ContentImageUrl(text));
    url := if imageUrl.Some? then imageUrl.value else Placeholder(prompt, ratio);
  }

  /** The regular expression test, one character at a time. */
  function IsBase64Text(s: string): (b: bool)
    ensures b <==> |s| > 0 && forall i :: 0 <= i < |s| ==> IsBase64Char(s[i])
  {
    |s| > 0 && (IsBase64Char(s[0]) && (|s| == 1 || IsBase64Text(s[1..])))
  }

  // ---- what the cascade guarantees ------------------------------------

  /** A completed call always yields an image URL and a content text; a
      failed one yields neither, and says why. */
  lemma ResponseShape(r: GenerationRequest, api: ChatRequest -> ChatOutcome)
    requires HasPersona(r) ==> AspectRatioOf(r).JString?
    ensures var g := ImageResponse(r, api);
      && (g.success <==> api(ImageChatRequest(r)).Completion?)
      && (g.success ==> g.imageUrl.Some? && g.imageUrl.value != "" && g.content.Some? && g.error.None?)
      && (!g.success ==> g.imageUrl.None? && g.content.None? && g.error.Some?)
  {
  }

  /** The order of the cascade: a URL in the `images` field wins over any
      content; otherwise content starting with "image/" is taken verbatim;
      otherwise raw base64 content gets the PNG prefix on its trimmed form;
      otherwise the placeholder is used, whose caption is URI-safe. */
  lemma CascadeOrder(m: Option<Message>, prompt: string, ratio: Json)
    ensures FirstImageUrl(m).Some? ==> PickImageUrl(m, prompt, ratio) == FirstImageUrl(m).value
    ensures var c := ContentOf(m);
      FirstImageUrl(m).None? && c.Some? && StartsWith(c.value, "image/") ==> PickImageUrl(m, prompt, ratio) == c.value
    ensures var c := ContentOf(m);
      FirstImageUrl(m).None? && c.Some? && !StartsWith(c.value, "image/") && LooksLikeBase64(c.value) ==>
        PickImageUrl(m, prompt, ratio) == "image/png;base64," + Trim(c.value)
    ensures var c := ContentOf(m);
      FirstImageUrl(m).None? && (c.None? || (!StartsWith(c.value, "image/") && !LooksLikeBase64(c.value))) ==>
        PickImageUrl(m, prompt, ratio) == Placeholder(prompt, ratio)
  {
    var c := ContentOf(m);
    if c.Some? && StartsWith(c.value, "image/") {
      assert c.value != "";
    }
  }

  /** The placeholder has the table's size for the ratio (1:1 for anything
      not in the table). */
  lemma PlaceholderAgreesWithTable(ratio: Json)
    ensures PlaceholderSize(ratio) == ImageDimensions.SizeText(ImageDimensions.SizeFor(ratio))
  {
    ImageDimensions.SizeTextOfTable();
    if ratio == JString("16:9") {
      assert ImageDimensions.SizeFor(ratio) == ImageDimensions.GetDimensions(ImageDimensions.Landscape);
    } else if ratio == JString("9:16") {
      assert ImageDimensions.SizeFor(ratio) == ImageDimensions.GetDimensions(ImageDimensions.Portrait);
    } else {
      assert ImageDimensions.SizeFor(ratio) == ImageDimensions.GetDimensions(ImageDimensions.Square);
    }
  }

  /** The placeholder is served from the placeholder host. */
  lemma PlaceholderHost(prompt: string, ratio: Json)
    ensures StartsWith(Placeholder(prompt, ratio), "https://via.placeholder.com/")
  {
    var p := Placeholder(prompt, ratio);
    assert p[..28] == "https://via.placeholder.com/";
  }

  /** Images recovered from the text content are never `data:` URLs: they
      start with "image/", so the generate route, which uploads only
      "data:image/" URLs, never uploads them. */
  lemma ContentImagesAreNotDataUrls(content: Option<string>)
    requires ContentImageUrl(content).Some?
    ensures StartsWith(ContentImageUrl(content).value, "image/")
    ensures !StartsWith(ContentImageUrl(content).value, "data:image/")
  {
    var u := ContentImageUrl(content).value;
    if !StartsWith(content.value, "image/") {
      assert u[..6] == BASE64_PNG_PREFIX[..6];
    }
    assert u[0] == 'i';
  }

  /** The prefix added to raw base64 is exactly what the upload wrapper strips. */
  lemma Base64PrefixRoundTrip(content: string)
    requires LooksLikeBase64(content)
    ensures ImageKit.StripBase64Prefix(BASE64_PNG_PREFIX + Trim(content)) == Trim(content)
  {
    assert BASE64_PNG_PREFIX == "image/" + "png" + ImageKit.BASE64_MARKER;
    ImageKit.StripRemovesMediaPrefix("png", Trim(content));
  }

  // ---- generateText -------------------------------------------------------

  datatype TextResult = TextResult(success: bool, content: Option<string>, error: Option<string>)

  /** `generateText`: one plain user message (GEMINI_TEXT and 500 tokens by
      default). Content is returned only when non-empty; an empty answer is
      "No content generated", a thrown error its message or a fixed text. */
  function GenerateText(prompt: string, model: Option<ModelKey>, maxTokens: Option<int>,
                        api: ChatRequest -> ChatOutcome): (r: TextResult)
    ensures var out := api(ChatRequest(ModelId(model.GetOr(GEMINI_TEXT)), [PlainText(prompt)], maxTokens.GetOr(500)));
      && (r.success <==> out.Completion? && ContentOf(out.message).Some? && ContentOf(out.message).value != "")
      && (r.success ==> r.content == ContentOf(out.message) && r.error.None?)
      && (!r.success ==> r.content.None?)
      && (out.Completion? && !r.success ==> r.error == Some("No content generated"))
      && (out.ApiError? ==> r.error == Some(OrElse(out.errorMessage, "Failed to generate text")))
  {
    match api(ChatRequest(ModelId(model.GetOr(GEMINI_TEXT)), [PlainText(prompt)], maxTokens.GetOr(500)))
    case Completion(m, _) =>
      var content := ContentOf(m);
      if content.None? || content.value == "" then TextResult(false, None, Some("No content generated"))
      else TextResult(true, content, None)
    case ApiError(_, message) => TextResult(false, None, Some(OrElse(message, "Failed to generate text")))
  }
}
