# Thumbnail generation service: a verified model of its credit core

The service is a web app. Signed-in users spend credits to generate thumbnail
images with a hosted image model, and store reference styles and personas to
steer those generations. This project models the server-side core in Dafny
and proves properties of it:

- **The credit ledger.** `Operations` holds the balance per user and an
  append-only transaction log, with `deductCredits`, `addCredits` and
  `deductCreditsWithRetry`. `Db.Database` is a class with one field per
  table.
- **The generate endpoint.** `GenerateRoute` models the whole flow:
  1. validate the request and check the balance;
  2. insert a PROCESSING record and charge 2 credits;
  3. call the image model and optionally upload the result to the CDN;
  4. complete the record, or mark it FAILED and refund.
- **The style and persona endpoints, with their quotas.** `StylesRoute` and
  `PersonasRoute`.
- **The enhance-prompt endpoint.** `EnhancePromptRoute`.
- **The outgoing chat request and the image-URL cascade of the model
  client.** `OpenRouter`.
- **The dimension table.** `ImageDimensions`.
- **The CDN transformation-URL builders.** `SharpImageKit` and `ImageKit`.
- **Account get-or-create.** `AuthHelpers`.
- **The schema enums and column defaults.** `Schema`.

Three helper modules give JavaScript's semantics where the source relies on
them:
- `Values`: JSON values, truthiness, `||` defaults and object destructuring;
- `Text`: `trim`, `startsWith`, `split`, `join` and number rendering;
- `Uri`: `encodeURIComponent`.

`Seqs` holds the filters and the stable sort behind the `where`/`orderBy`
queries.

How the program's parts are modelled:

- **Stateful code is a class with methods.** The ledger operations, the
  generate handler, the style and persona inserts, the account get-or-create
  and the builders that push onto arrays are methods on `Db.Database` or on
  local sequences.
- **Each method is proved against a specification function.** For example,
  `Operations.Deduct`, `Operations.Retry` and `GenerateRoute.Admitted`. The
  lemmas about those functions state what the source promises.
- **Collaborators are parameters.** The model API (`api`), the CDN SDK
  (`sdk`), the rate limiter's verdict, `JSON.parse`, the identity provider's
  user and the style extractor are all passed in.
- **Storage faults are parameters of the credit operations.** Each attempt
  gets a `StorageOutcome`: whether the balance read, the balance write and
  the log insert return.

Quirks of the code are modelled as written:

- The retry loop also retries on insufficient funds, because `deductCredits`
  returns false for that too.
- The refund is a `deductCreditsWithRetry` call with amount −2. It is
  therefore logged as a USAGE entry of +2, not as a REFUND.
- The model client emits `image/...` URLs, not `data:image/...` URLs, from
  text content. The route uploads only `data:image/...` URLs. The upload
  wrapper strips only an `image/<letters>;base64,` prefix. Lemmas state each
  consequence: `OpenRouter.ContentImagesAreNotDataUrls` and
  `ImageKit.DataUrlIsSentWhole`.

Two places where the code and the schema disagree; the model follows the
code:

- The styles route inserts an `extractedMeta` value, but the `styles` table in
  lib/db/schema.ts declares no such column. The model's style row carries it.
- The `style_images` table is declared in lib/db/index.ts, which is not part
  of this model. Its columns are taken from the route's insert: `styleId`,
  `imageUrl` and `order`.

## Model

| member | source | states |
|---|---|---|
| Schema.UserRow | lib/db/schema.ts:35-51 | a new user row takes the given clerk id and email; the plan defaults to FREE and the balance to 5 |
| Schema.DefaultedColumn | lib/db/schema.ts:66-67 | an omitted column gets its default, an explicit null stays null, and a value is kept |
| Schema.GenerationRow | lib/db/schema.ts:54-75 | a new generation defaults to PENDING, creditsUsed 1 and 1280x720; image URL, enhanced prompt, style and persona start empty |
| Schema.StyleRow | lib/db/schema.ts:116-138 | a new style is private and has a usage count of 0 |
| Schema.PersonaRow | lib/db/schema.ts:140-157 | a new persona keeps the given image URL and has a usage count of 0 |
| Schema.InsertUserKeepsValid | lib/db/schema.ts:39-40 | inserting a user whose clerk id is new and whose email is free keeps clerk ids and emails unique and ids distinct |
| Schema.UpdateUserKeepsValid | lib/db/schema.ts:39-40 | updating a user in place with a free email keeps clerk ids and emails unique |
| Schema.LifecycleMovesForward | lib/db/schema.ts:15-20 | a status history whose every step advances (PENDING to a later status, PROCESSING to COMPLETED or FAILED, nothing out of those) has at most 3 entries, and a terminal status in it is the last; `GenerateRoute.AdmittedMovesForward` applies it to the record the generate endpoint writes |
| Db.FindUser | lib/db/operations.ts:64-72 | the lookup by clerk id finds a row exactly when one exists, and it is that row |
| Db.Database.constructor | lib/db/schema.ts:35-157 | every table and the status log start empty and the invariants hold |
| Db.Database.InsertGeneration | app/api/generate/route.ts:63-75 | appends the defaulted generation row with the next id and returns it; the row's status history starts with its inserted status |
| Db.Database.InsertStyle | app/api/styles/route.ts:116-124 | appends the new style row with the next id and returns it |
| Db.Database.InsertStyleImages | app/api/styles/route.ts:133 | appends the image rows in the order given |
| Db.Database.InsertPersona | app/api/personas/route.ts:85-93 | appends the new persona row with the next id and returns it |
| Db.Database.UpdateGeneration | app/api/generate/route.ts:86-89 | sets the status and image URL of the row with that id and appends the status to that row's history; an unknown id changes nothing |
| Operations.DeductOutcome | lib/db/operations.ts:110-162 | a deduction succeeds exactly when the read and write return and the user exists with credits >= amount; failure changes nothing; success sets the balance to old − amount and, when the insert returns, appends exactly one USAGE entry of −amount with the generation id |
| Operations.DeductKeepsBalanceNonNegative | lib/db/operations.ts:120-136 | with amount >= 0 and non-negative balances, no balance becomes negative |
| Operations.NegativeDeductionIsPositiveUsage | lib/db/operations.ts:120-151 | a negative amount always passes the balance guard, raises the balance and logs a positive USAGE entry |
| Operations.DeductKeepsValid | lib/db/operations.ts:129-155 | a deduction keeps the ledger invariants |
| Operations.DeductReconciles | lib/db/operations.ts:143-161 | with the log entry written, every balance stays reconciled with the log; a swallowed log failure shifts the deducting user's balance off the log by exactly amount |
| Operations.AddOutcome | lib/db/operations.ts:164-214 | adding succeeds exactly when the read and write return and the user exists; success sets the balance to old + amount and logs +amount with the given type, PURCHASE by default, and the payment id |
| Operations.AddKeepsValid | lib/db/operations.ts:164-214 | adding keeps the ledger invariants |
| Operations.AddReconciles | lib/db/operations.ts:182-209 | with the log entry written, balances stay reconciled; a swallowed log failure shifts the user's balance off the log by amount |
| Operations.RetryCharacterized | lib/db/operations.ts:217-245 | the retry run succeeds exactly when some attempt would; it stops at the first such attempt; a failed run leaves the ledger unchanged after all attempts; each failed attempt but the last is followed by a 2^attempt·100 ms pause |
| Operations.RetryWithinBudget | lib/db/operations.ts:224-242 | at most `retries` attempts, none when retries < 1, and pauses only between attempts |
| Operations.InsufficientFundsIsRetried | lib/db/operations.ts:217-245 | a balance below amount is retried all `retries` times, with every pause, and still fails with nothing changed |
| Operations.RetrySucceedsOnCleanAttempt | lib/db/operations.ts:217-245 | one attempt whose storage calls return suffices to charge a user who can pay, exactly once |
| Operations.RetryKeepsValid | lib/db/operations.ts:217-245 | a retry run keeps the ledger invariants |
| Operations.RetryNetEffect | lib/db/operations.ts:217-245 | a run succeeds exactly when the user exists, can pay and some attempt's storage calls return; the balance then moves by amount once and the log gains at most that one entry; a failed run changes nothing |
| Operations.DeductCredits | lib/db/operations.ts:110-162 | the method's result and new tables are those of the Deduct specification |
| Operations.AddCredits | lib/db/operations.ts:164-214 | the method's result and new tables are those of the Add specification |
| Operations.DeductCreditsWithRetry | lib/db/operations.ts:217-245 | the loop's result, new tables and pauses are those of the Retry specification |
| Operations.Attempt | lib/db/operations.ts:225-241 | one turn of the loop: success ends the run with the whole run's result; failure changes nothing and the remaining run still matches |
| Operations.GetUserCredits | lib/db/operations.ts:105-108 | the user's balance, and 0 for an unknown user |
| Operations.GetCreditHistory | lib/db/operations.ts:247-257 | nothing for an unknown user; otherwise only that user's entries, at most limit (50 by default), all of them when fewer |
| Operations.CreditHistoryNewestFirst | lib/db/operations.ts:247-257 | the history is newest first |
| Operations.CreditHistoryKeepsNewest | lib/db/operations.ts:247-257 | with more entries than the limit, the ones left out are the oldest: a listed entry is followed in the history by every later entry of the user |
| Operations.GetUserWithStats | lib/db/operations.ts:74-101 | found exactly for a known user; at most 10 recent generations, all the user's, and every one of the user's generations when fewer than 10 are listed |
| Operations.RecentGenerationsNewestFirst | lib/db/operations.ts:79-84 | the recent generations are newest first, and the ones left out are the oldest |
| Operations.CompletedCountOnAppend | lib/db/operations.ts:87-92 | the total counts only COMPLETED generations of the user |
| Operations.CreateOrUpdateUser | lib/db/operations.ts:12-62 | fails with "no email" exactly when the first email is missing or empty, before any write; a unique violation exactly when another user holds the email; it succeeds otherwise. An update keeps id and credits and applies undefined/null/value per column. A new user gets the next id, the given names and image (null when omitted), FREE and 5 credits, and the id counter moves by one; no other path moves it |
| AuthHelpers.OrEmpty | lib/auth-helpers.ts:35-38 | a missing or null profile field becomes "" |
| AuthHelpers.NewAccount | lib/auth-helpers.ts:31-44 | the new account has the primary email, "" for missing names and image, plan FREE and 5 credits |
| AuthHelpers.EnsureUserExists | lib/auth-helpers.ts:5-52 | an existing user is returned and nothing is written; no provider user or an insert error ends in "Failed to create user: …"; otherwise exactly the new row is added; other users are never changed |
| GenerateRoute.RatioField | app/api/generate/route.ts:21 | the aspect ratio defaults to "16:9" only when omitted |
| GenerateRoute.Gate | app/api/generate/route.ts:14-60 | each answer exactly when its check is the first to fail, in the source's order: 401 without sign-in, 500 for an unreadable body, 400 "Prompt is required", 400 "Prompt must be 600 characters or less", 404, then 402 with 2 required and the balance; admitted exactly when all pass |
| GenerateRoute.PromptCheckedBeforeUser | app/api/generate/route.ts:23-48 | a prompt refused with a 400 gets the same answer whatever the users and their balances |
| GenerateRoute.RecordFor | app/api/generate/route.ts:63-75 | the record holds the user, the trimmed prompt, PROCESSING and 2 credits, with the table's size for the ratio |
| GenerateRoute.RouteSizesAgree | app/api/generate/route.ts:70-73 | the route's inline width and height agree with the dimension table, with 1:1 for any other value |
| GenerateRoute.FinalImageUrl | app/api/generate/route.ts:112-129 | a `data:image/` URL is replaced by the uploaded URL when the upload succeeds with one; otherwise the model's URL is kept |
| GenerateRoute.CreditRunEffect | app/api/generate/route.ts:78-83 | the charge or refund run changes only the caller's balance and logs at most one ±2 USAGE entry for the generation |
| GenerateRoute.Post | app/api/generate/route.ts:12-175 | a refused request returns the Gate answer with every table unchanged; an admitted one ends in the state the Admitted specification gives |
| GenerateRoute.Fulfil | app/api/generate/route.ts:62-95 | insert, charge, and FAILED on a failed charge, ending as Admitted gives |
| GenerateRoute.Finish | app/api/generate/route.ts:97-174 | generate, upload, then COMPLETED, or FAILED plus refund, ending as Finished gives |
| GenerateRoute.UnchargedFails | app/api/generate/route.ts:78-95 | when no charge attempt's storage calls return, the response is 500 and the record FAILED, with balance and log unchanged and no refund |
| GenerateRoute.ChargedCompletes | app/api/generate/route.ts:97-147 | a charge followed by an image completes the record with the final URL; the net credit change is −2 |
| GenerateRoute.ChargedRefunds | app/api/generate/route.ts:148-174 | a charge followed by a failed generation marks the record FAILED, reports the error, and nets 0 when the refund run succeeds, −2 otherwise |
| GenerateRoute.AdmittedFulfils | app/api/generate/route.ts:62-174 | every admitted request creates one record whose status history, built from the inserts and updates, is PROCESSING followed by one terminal status, leaves other records' histories alone, touches only the caller's balance, logs at most two generation entries, and ends in one of the three ways above |
| GenerateRoute.AdmittedMovesForward | app/api/generate/route.ts:63-155 | the new record's status history is a lifecycle that ends in a terminal status, written once and last |
| GenerateRoute.PostFulfils | app/api/generate/route.ts:12-175 | the admitted-request guarantees hold for whatever the model API returns |
| OpenRouter.PersonaUrlForTableRatio | lib/openrouter.ts:89-98 | the persona image gets `?tr=ar-A-B,cm-pad_resize,bg-F3F3F3`, with A:B the ratio's two terms |
| OpenRouter.ImageChatRequestShape | lib/openrouter.ts:46-105 | the request carries the model (GEMINI_IMAGE by default) and 4000 tokens by default; the prompt part embeds the prompt and the ratio ("16:9" by default); a second part is present exactly with a persona image |
| OpenRouter.BuildImageRequest | lib/openrouter.ts:74-98 | the pushed message parts are the specified request |
| OpenRouter.FirstImageUrl | lib/openrouter.ts:117-127 | the first `images` URL is taken exactly when the message has one and it is non-empty, and then it is that URL |
| OpenRouter.IsBase64Text | lib/openrouter.ts:137 | the regular expression holds exactly for a non-empty run of `[A-Za-z0-9+/=]` |
| OpenRouter.CascadeOrder | lib/openrouter.ts:113-155 | the `images` field wins; then content starting with "image/" is used verbatim; then raw base64 content gets `image/png;base64,` before its trimmed form; else the placeholder |
| OpenRouter.FindImageUrl | lib/openrouter.ts:113-155 | the reassigned local ends as the cascade's URL |
| OpenRouter.PlaceholderAgreesWithTable | lib/openrouter.ts:148-153 | the placeholder size is the dimension table's, 1024x1024 for any other ratio |
| OpenRouter.PlaceholderHost | lib/openrouter.ts:154 | the placeholder is served from via.placeholder.com |
| OpenRouter.ErrorMessage | lib/openrouter.ts:169-197 | 429 and 402 get their fixed texts; otherwise the error's message, or "Failed to generate image" |
| OpenRouter.ResponseShape | lib/openrouter.ts:157-197 | success exactly when the call completes, and then always a non-empty image URL and a content; a failure has no image URL and an error |
| OpenRouter.GenerateImage | lib/openrouter.ts:42-198 | the method's response is the specified one |
| OpenRouter.ContentImagesAreNotDataUrls | lib/openrouter.ts:129-142 | URLs taken from content start with "image/", never "data:image/", so the route never uploads them |
| OpenRouter.Base64PrefixRoundTrip | lib/openrouter.ts:139 | the prefix added to raw base64 is exactly what the upload wrapper strips |
| OpenRouter.GenerateText | lib/openrouter.ts:200-241 | success exactly when the call completes with non-empty content; empty content is "No content generated"; a thrown error gives its message or "Failed to generate text" |
| ImageDimensions.ParseAspectRatio | lib/image-dimensions.ts:1-7 | a value is a table ratio exactly when it is that ratio's key string |
| ImageDimensions.KeySpellsTerms | lib/image-dimensions.ts:2-4 | each key spells its ratio's two terms around ':' |
| ImageDimensions.GetDimensions | lib/image-dimensions.ts:9-11 | each entry has its ratio's proportions, both sides at least 720, and its name |
| ImageDimensions.TableShape | lib/image-dimensions.ts:2-4 | 9:16 is 16:9 with the sides swapped, 1:1 is 1024 square, and 16:9 is 1280x720 |
| ImageDimensions.SizeFor | lib/image-dimensions.ts:9-11 | a table ratio gets its entry, anything else the square |
| ImageDimensions.SizeTextOfTable | lib/image-dimensions.ts:2-4 | the entries print as 1280x720, 720x1280 and 1024x1024 |
| SharpImageKit.SizeTokens | utils/sharp-imagekit.ts:30-33 | four tokens: width, height, quality and format |
| SharpImageKit.CropGroup | utils/sharp-imagekit.ts:43-54 | the crop tokens are not sharpening tokens, and a zoom token comes only from the face branch with a zoom |
| SharpImageKit.GenerateSharpThumbnail | utils/sharp-imagekit.ts:12-57 | the result is the URL plus `?tr=` and the pushed tokens joined by commas |
| SharpImageKit.TransformsLeadWithSizeQualityFormat | utils/sharp-imagekit.ts:16-33 | the first four tokens are w, h, q and f in that order, quality 90 and format auto by default |
| SharpImageKit.ExactlyOneSharpening | utils/sharp-imagekit.ts:36-40 | exactly one sharpening token: e-upscale when upscaling is allowed, the unsharp mask otherwise |
| SharpImageKit.CropTokens | utils/sharp-imagekit.ts:43-54 | a face (by mode or flag) gives fo-face,c-pad_resize whatever the mode; auto gives fo-auto,c-at_max; pad gives c-pad_resize; force gives c-force; maintain gives c-at_max |
| SharpImageKit.ZoomOnlyWithFace | utils/sharp-imagekit.ts:43-45 | a z- token appears exactly in the face branch with a truthy zoom |
| SharpImageKit.PersonaProfile | utils/sharp-imagekit.ts:62-70 | 150x150 at q95 with a face crop and zoom 0.9 |
| SharpImageKit.Avatar | utils/sharp-imagekit.ts:73-80 | 40x40 at q85 with a face crop |
| SharpImageKit.DashboardCard | utils/sharp-imagekit.ts:83-89 | 300x200 at q85 with an auto crop |
| SharpImageKit.Gallery | utils/sharp-imagekit.ts:92-98 | 200x200 at q80 with an auto crop |
| ImageKit.LetterRun | lib/imagekit.ts:23 | the longest leading run of ASCII letters |
| ImageKit.StripBase64Prefix | lib/imagekit.ts:23 | the input unchanged, or with exactly one leading `image/<letters>;base64,` removed |
| ImageKit.StripRemovesMediaPrefix | lib/imagekit.ts:23 | `image/<letters>;base64,` followed by a payload strips to the payload |
| ImageKit.DataUrlIsSentWhole | lib/imagekit.ts:23 | a `data:` URL is sent to the CDN unstripped |
| ImageKit.UploadToImageKit | lib/imagekit.ts:17-45 | it never throws; the SDK gets the stripped payload, the name, "/thumbnails/" and a unique-name flag; the result has url and fileId on success, or the error's message (or a fixed text) on failure |
| ImageKit.WidthParam | lib/imagekit.ts:61 | a parameter exactly when the width is set and non-zero, and then it is "w-" followed by the width |
| ImageKit.HeightParam | lib/imagekit.ts:62 | a parameter exactly when the height is set and non-zero, and then it is "h-" followed by the height |
| ImageKit.QualityParam | lib/imagekit.ts:63 | a parameter exactly when the quality is set and non-zero, and then it is "q-" followed by the quality |
| ImageKit.FormatParam | lib/imagekit.ts:64 | a parameter exactly when a format is given, and then it is "f-" followed by the format's name |
| ImageKit.GetOptimizedUrl | lib/imagekit.ts:48-67 | no transformations, or none that produce a parameter, leave the URL unchanged; otherwise the URL gets `?tr=` and the parameters joined by commas |
| ImageKit.OptimizedParamsOrdered | lib/imagekit.ts:59-64 | the parameters come in the order w, h, q, f, each at most once |
| ImageKit.SetParamsPresent | lib/imagekit.ts:61-64 | each set value's parameter is present in full (its letter, a dash and the value) at its place in the order |
| ImageKit.PresentParamsSet | lib/imagekit.ts:61-64 | every parameter present comes from a set value |
| ImageKit.OptimizedParamsPresent | lib/imagekit.ts:61-64 | a kind of parameter is present exactly when its value is set |
| ImageKit.OptimizedAgreesWithSharp | lib/imagekit.ts:61-64 | with all four values set, the parameters equal the first four tokens of the sharp builder |
| StylesRoute.StyleLimit | app/api/styles/route.ts:99 | the cap is 2 styles on FREE and 10 on any other plan |
| StylesRoute.UserStyles | app/api/styles/route.ts:25-29 | exactly the caller's styles |
| StylesRoute.ImageRecords | app/api/styles/route.ts:127-131 | one image record per URL, in input order, with order = index |
| StylesRoute.CheckBody | app/api/styles/route.ts:61-82 | accepted exactly for a truthy name and an array of 1 to 5 URLs; more than 5 gets its own 400 |
| StylesRoute.PostGate | app/api/styles/route.ts:51-109 | in order: sign-in, the body, the user, then the cap, where count >= limit gets 403 with the limit and count; otherwise it inserts |
| StylesRoute.Post | app/api/styles/route.ts:51-149 | a refused request writes nothing; an admitted one adds the style with trimmed name and description, followed by its image rows |
| StylesRoute.Insert | app/api/styles/route.ts:116-133 | the style row, then one image row per URL |
| StylesRoute.Get | app/api/styles/route.ts:9-49 | 401 without sign-in and 404 for an unknown user; otherwise each of the caller's styles with its images |
| StylesRoute.AttachImages | app/api/styles/route.ts:32-40 | the loop pairs each style with its images sorted by order |
| StylesRoute.ImagesOfIsOrderedSelection | app/api/styles/route.ts:33-37 | a style's images are exactly its rows, as a permutation, in non-decreasing order |
| StylesRoute.UserStylesInCreationOrder | app/api/styles/route.ts:25-29 | the listing is in creation order |
| StylesRoute.CreatedImagesListedInOrder | app/api/styles/route.ts:127-133 | a new style's images are listed back exactly as created |
| StylesRoute.CreateRespectsLimit | app/api/styles/route.ts:94-109 | an admitted create adds one style and never exceeds the plan's cap |
| StylesRoute.BodyCheckedBeforeUser | app/api/styles/route.ts:58-91 | a bad body gets the same 400 whatever the users and styles |
| PersonasRoute.UserPersonas | app/api/personas/route.ts:24-28 | exactly the caller's personas |
| PersonasRoute.CheckName | app/api/personas/route.ts:78-83 | accepted exactly for a string whose trimmed form has at least 2 characters, stored trimmed; a falsy or short name gets 400 |
| PersonasRoute.PostGate | app/api/personas/route.ts:39-93 | in order: sign-in, the user, the FREE cap (403 with the limit and count), then the name, where the 400 comes exactly for a falsy or short name and the 500 exactly for an unreadable body, a name without `.trim`, a bad description or a missing image URL; admitted with the image URL as given |
| PersonasRoute.Post | app/api/personas/route.ts:39-103 | a refused request writes nothing; an admitted one appends the persona with the trimmed name and the image URL as given |
| PersonasRoute.Get | app/api/personas/route.ts:8-37 | 401 without sign-in, 404 for an unknown user, else exactly the caller's personas |
| PersonasRoute.ListedInCreationOrder | app/api/personas/route.ts:24-28 | the listing is in creation order |
| PersonasRoute.LimitIgnoresBody | app/api/personas/route.ts:56-83 | an over-quota user gets the same 403 whatever the body |
| PersonasRoute.CreateRespectsLimit | app/api/personas/route.ts:56-73 | an admitted create adds one persona, and a FREE user never exceeds 10 |
| PersonasRoute.PaidPlansUncapped | app/api/personas/route.ts:61-64 | a paid plan is never capped |
| EnhancePromptRoute.MessageLines | app/api/enhance-prompt/route.ts:73-82 | the quoted prompt, then "Style preference: " and the style when it is truthy, then "Thumbnail type: " and the type, last, when it is truthy |
| EnhancePromptRoute.BuildUserMessage | app/api/enhance-prompt/route.ts:73-82 | the appended string is the lines joined by newlines |
| EnhancePromptRoute.MessageSplitsIntoLines | app/api/enhance-prompt/route.ts:74-82 | without embedded newlines the message splits back into exactly its lines, in order |
| EnhancePromptRoute.NoContextMessage | app/api/enhance-prompt/route.ts:74-82 | with no context the message is the quoted prompt alone |
| EnhancePromptRoute.Answer | app/api/enhance-prompt/route.ts:108-119 | missing `enhanced` or a non-array `improvements` gives 500; otherwise the original is the trimmed prompt, and estimatedCredits is taken when truthy, 2 otherwise |
| EnhancePromptRoute.Post | app/api/enhance-prompt/route.ts:39-138 | 401, then 429, then the prompt checks (non-blank string, at most 500 characters); insufficient_quota gives 503; a result only from a parsed non-empty reply, and a parsed non-empty reply to an admitted valid prompt always gives the result its shape checks decide |
| EnhancePromptRoute.Handle | app/api/enhance-prompt/route.ts:39-138 | the handler as written answers as the specification |
| EnhancePromptRoute.GuardsPrecedeBody | app/api/enhance-prompt/route.ts:41-57 | a request refused by sign-in or the rate limiter gets the same answer whatever it carries |
| Values.OrElse | app/api/generate/route.ts:170 | JavaScript's or-default on an optional string: the value when non-empty, else the fallback |
| Values.OptionalTrim | app/api/styles/route.ts:121 | `v?.trim()`: absent stays absent, a string is trimmed, anything else throws |
| Text.TrimEmptyIffBlank | app/api/generate/route.ts:24 | a trimmed prompt is empty exactly when it is all whitespace |
| Text.TrimIdempotent | app/api/generate/route.ts:67 | trimming twice is trimming once |
| Text.SplitJoin | lib/openrouter.ts:91 | splitting joined parts that hold no separator gives the parts back |
| Text.NatToStringRoundTrip | app/api/generate/route.ts:33 | the decimal rendering of a number reads back as that number |
| Uri.EncodeUriComponent | lib/openrouter.ts:147 | the encoding holds only unreserved characters and percent escapes, and is never shorter |
| Uri.EncodeUnreservedIdentity | lib/openrouter.ts:147 | a caption of unreserved characters is left as it is |

## Left out

- Concurrency. `deductCredits` reads and then writes an absolute balance, which loses updates under parallel requests. Every run is modelled sequentially.
- Time. The retry back-off is a sequence of pause lengths, not a sleep. Timestamps are not modelled; `createdAt` order is insertion order.
- Ids. Row ids are insertion positions, where the source uses random UUIDs.
- Floating point. This covers the confidence clamp of the enhance-prompt result, the `temperature` of the chat calls, the zoom factor (kept as the text JavaScript prints) and the payment amount column. The enhanced-prompt response omits the confidence field for this reason.
- String lengths are counted in characters, not UTF-16 code units.
- The wording of the image prompt template and of the enhance-prompt system prompt. Only their dependence on the prompt and the aspect ratio is kept.
- External services become parameters:
  - the chat completion APIs;
  - the CDN SDK's upload;
  - the identity provider;
  - the rate limiter;
  - `JSON.parse` of the model's reply;
  - the style metadata extractor, which never throws and answers None on failure.
- The CDN SDK's delete wrapper (`deleteFromImageKit`). It only forwards the SDK's verdict.
- Storage faults. These are modelled only for the credit operations. In the model, all of the handlers' own queries succeed. The paths a failing query takes in the source are therefore not modelled:
  - In the styles, personas and enhance-prompt handlers, the error reaches the outer catch, which answers 500 "Failed to …".
  - In the generate handler, a throw from the COMPLETED update (app/api/generate/route.ts:132-139) lands in the inner catch. That catch marks the record FAILED, refunds the 2 credits and answers 500 with status "failed".
  - A throw from the FAILED update inside that catch (route.ts:152-155) skips the refund.
  - A throw from any other query of the generate handler, outside the inner `try`, reaches its outer catch, which answers 500 "Internal server error" (route.ts:177-182).
- OpenRouter.Placeholder: `prompt.substring(0, 30)` counts UTF-16 code units, so it can cut a surrogate pair in half, for example 29 letters followed by an emoji. `encodeURIComponent` of a lone surrogate throws URIError. `generateImage` then catches it and returns success false with "URI malformed", and the generate handler marks the record FAILED and refunds. The model counts characters, so its placeholder never throws: such a prompt ends COMPLETED at a cost of 2 credits.
- 32-bit integer columns. `credits` and `amount` are Postgres `integer` columns (lib/db/schema.ts:45, 85). The model's integers are unbounded, so it does not tie the two failures this causes to the values written:
  - A new balance outside the 32-bit range makes the balance update throw (lib/db/operations.ts:129-136, 181-188). The outer catch then makes `deductCredits` and `addCredits` return false with the balance unchanged. The model can express this only as `writeOk = false` in the `StorageOutcome` input.
  - An `amount` outside the 32-bit range with an in-range new balance makes only the log insert throw (lib/db/operations.ts:144-155, 196-207). The inner catch swallows it, so the call returns true with the balance changed and no transaction row. An example is `addCredits(c, -2147483649, "BONUS")` on a balance of 5. The model can express this only as `logOk = false`.
- Fractional JSON numbers. `Values.Json` numbers are integers only. A fractional `context.style` or `context.type` in the enhance-prompt body, or a fractional `estimatedCredits` in the model's answer (1.5, say), cannot be represented. Neither can the text JavaScript prints for them.
- The database's unique-violation message is a parameter of `AuthHelpers.EnsureUserExists`.
- Request bodies that parse to a JSON value other than an object or null are treated as having no fields.
- Ties in `orderBy(styleImages.order)` are resolved by a stable sort. The database does not promise any order among equal keys.
- JSON columns. Style image URLs and the persona `imageUrl` are stored as the JSON value supplied. The database's text coercion is not modelled.
- Logging.
- GenerateRoute.Post: its ensures ties the new tables to the `Admitted` function. What that outcome guarantees is proved separately, in `GenerateRoute.PostFulfils`.
