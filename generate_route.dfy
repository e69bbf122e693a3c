/** app/api/generate/route.ts: POST a prompt, get a thumbnail. The handler
    authenticates, validates the prompt, checks the balance, records the
    generation as PROCESSING, charges 2 credits with retries, asks the model
    for an image, uploads a `data:image/` answer to the image CDN, and
    finishes the record as COMPLETED, or as FAILED with the credits refunded.

    The identity the session resolves to, the body, the model API, the CDN
    SDK and the storage faults of the two credit runs are inputs. */
module GenerateRoute {
  import opened Values
  import opened Text
  import opened Schema
  import opened Db
  import Operations
  import OpenRouter
  import ImageKit
  import ImageDimensions

  const CREDITS_PER_GENERATION: int := 2
  const MAX_PROMPT_LENGTH: nat := 600

  datatype GenerateResponse =
    | Unauthorized
    | BadRequest(error: string)
    | UserNotFound
    | InsufficientCredits(required: int, available: int)
    | DeductFailed
    | Completed(imageUrl: string, prompt: string, generationId: nat, usage: Option<OpenRouter.Usage>)
    | GenerationFailed(prompt: string, error: string, generationId: nat)
    | InternalError

  function StatusCode(r: GenerateResponse): int {
    match r
    case Unauthorized => 401
    case BadRequest(_) => 400
    case UserNotFound => 404
    case InsufficientCredits(_, _) => 402
    case DeductFailed => 500
    case Completed(_, _, _, _) => 200
    case GenerationFailed(_, _, _) => 500
    case InternalError => 500
  }

  const PROMPT_REQUIRED: string := "Prompt is required"
  const PROMPT_TOO_LONG: string := "Prompt must be " + NatToString(MAX_PROMPT_LENGTH) + " characters or less"
  const CHARGE_DESCRIPTION: string := "Thumbnail generation"
  const REFUND_DESCRIPTION: string := "Generation failed - refund"

  /** A truthy string that is not all whitespace. */
  predicate ValidPrompt(p: Json) {
    Truthy(p) && p.JString? && |Trim(p.s)| > 0
  }

  /** `aspectRatio = "16:9"`: only an absent property takes the default. */
  function RatioField(fields: map<string, Json>): (j: Json)
    ensures !j.JUndefined?
    ensures Field(fields, "aspectRatio").JUndefined? ==> j == JString("16:9")
    ensures !Field(fields, "aspectRatio").JUndefined? ==> j == fields["aspectRatio"]
  {
    if Field(fields, "aspectRatio").JUndefined? then JString("16:9") else Field(fields, "aspectRatio")
  }

  /** The response the handler gives before it writes anything, in the order
      of its checks (a body that cannot be destructured throws into the outer
      handler); None when the request is admitted. */
  function Gate(userId: Option<string>, body: RequestBody, l: Ledger): (r: Option<GenerateResponse>)
    ensures r.None? <==>
      && userId.Some? && userId.value != "" && body.Fields?
      && ValidPrompt(Field(body.fields, "prompt")) && |Field(body.fields, "prompt").s| <= 600
      && userId.value in l.users && l.users[userId.value].credits >= 2
    ensures r == Some(Unauthorized) <==> userId.None? || userId.value == ""
    ensures r == Some(InternalError) <==> userId.Some? && userId.value != "" && !body.Fields?
    ensures r == Some(BadRequest(PROMPT_REQUIRED)) <==>
      userId.Some? && userId.value != "" && body.Fields? && !ValidPrompt(Field(body.fields, "prompt"))
    ensures r == Some(BadRequest(PROMPT_TOO_LONG)) <==>
      && userId.Some? && userId.value != "" && body.Fields? && ValidPrompt(Field(body.fields, "prompt"))
      && |Field(body.fields, "prompt").s| > 600
    ensures r == Some(UserNotFound) <==>
      && userId.Some? && userId.value != "" && body.Fields?
      && ValidPrompt(Field(body.fields, "prompt")) && |Field(body.fields, "prompt").s| <= 600
      && userId.value !in l.users
    ensures r.Some? && r.value.InsufficientCredits? <==>
      && userId.Some? && userId.value != "" && body.Fields?
      && ValidPrompt(Field(body.fields, "prompt")) && |Field(body.fields, "prompt").s| <= 600
      && userId.value in l.users && l.users[userId.value].credits < 2
    ensures r.Some? && r.value.InsufficientCredits? ==>
      r.value.required == 2 && userId.value in l.users && r.value.available == l.users[userId.value].credits && r.value.available < 2
    ensures r.Some? ==> StatusCode(r.value) in {400, 401, 402, 404, 500}
  {
    if userId.None? || userId.value == "" then Some(Unauthorized)
    else match body
      case Unparsable => Some(InternalError)
      case NullBody => Some(InternalError)
      case Fields(f) =>
        var p := Field(f, "prompt");
        if !ValidPrompt(p) then Some(BadRequest(PROMPT_REQUIRED))
        else if |p.s| > MAX_PROMPT_LENGTH then Some(BadRequest(PROMPT_TOO_LONG))
        else if FindUser(l.users, userId.value).None? then Some(UserNotFound)
        else
          var credits := Operations.GetUserCredits(l, userId.value);
          if credits < CREDITS_PER_GENERATION then Some(InsufficientCredits(CREDITS_PER_GENERATION, credits))
          else None
  }

  /** The prompt is checked before the user is looked up: a request refused
      for its prompt gets the same 400 whatever the users and their balances. */
  lemma PromptCheckedBeforeUser(userId: Option<string>, body: RequestBody, l1: Ledger, l2: Ledger)
    requires Gate(userId, body, l1).Some? && Gate(userId, body, l1).value.BadRequest?
    ensures Gate(userId, body, l2) == Gate(userId, body, l1)
  {
  }

  /** The generation record inserted. Its width and height are written as
      inline conditionals on the ratio value; they agree with the dimension
      table, and a value outside the table gets the 1:1 size. */
  function RecordFor(userId: nat, prompt: string, ratio: Json): (v: NewGeneration)
    ensures v.userId == userId && v.prompt == prompt
    ensures v.status == Some(PROCESSING) && v.creditsUsed == Some(2)
    ensures var d := ImageDimensions.SizeFor(ratio);
      v.width == Value(d.width) && v.height == Value(d.height)
  {
    RouteSizesAgree(ratio);
    NewGeneration(userId, prompt, Some(PROCESSING), Some(CREDITS_PER_GENERATION),
                  Value(if ratio == JString("16:9") then 1280 else if ratio == JString("9:16") then 720 else 1024),
                  Value(if ratio == JString("16:9") then 720 else if ratio == JString("9:16") then 1280 else 1024))
  }

  lemma RouteSizesAgree(ratio: Json)
    ensures var d := ImageDimensions.SizeFor(ratio);
      && (if ratio == JString("16:9") then 1280 else if ratio == JString("9:16") then 720 else 1024) == d.width
      && (if ratio == JString("16:9") then 720 else if ratio == JString("9:16") then 1280 else 1024) == d.height
  {
    var a := ImageDimensions.ParseAspectRatio(ratio);
    if ratio == JString("16:9") {
      assert a == Some(ImageDimensions.Landscape);
    } else if ratio == JString("9:16") {
      assert a == Some(ImageDimensions.Portrait);
    } else {
      assert a.None? || a == Some(ImageDimensions.Square);
    }
  }

  /** The request sent to the model: the (trimmed) prompt, the image model
      and the ratio value as given. */
  function ImageRequest(prompt: string, ratio: Json): OpenRouter.GenerationRequest {
    OpenRouter.GenerationRequest(prompt, Some(OpenRouter.GEMINI_IMAGE), ratio, None, None)
  }

  function Filename(id: nat): string {
    "thumbnail-" + NatToString(id) + ".png"
  }

  /** The URL stored for a generated image: a `data:image/` URL is replaced by
      the CDN's URL when the upload returns a non-empty one; anything else,
      and a failed upload, keeps the model's URL. */
  function FinalImageUrl(url: string, id: nat, sdk: ImageKit.UploadRequest -> ImageKit.SdkOutcome): (r: string)
    ensures var out := sdk(ImageKit.UploadRequest(ImageKit.StripBase64Prefix(url), Filename(id), "/thumbnails/", true));
      && (r != url ==> StartsWith(url, "data:image/") && out.Uploaded? && out.url == r)
      && (StartsWith(url, "data:image/") && out.Uploaded? && out.url != "" ==> r == out.url)
  {
    if StartsWith(url, "data:image/") then
      var upload := ImageKit.UploadToImageKit(url, Filename(id), sdk);
      if upload.success && upload.url.Some? && upload.url.value != "" then upload.url.value else url
    else url
  }

  /** The users table after a credit run of one user: the same users, the
      same rows, except for that user's balance. */
  ghost predicate BalanceOnly(before: map<string, User>, after: map<string, User>, clerkId: string) {
    && clerkId in before && after.Keys == before.Keys
    && (forall c :: c in before && c != clerkId ==> after[c] == before[c])
    && after[clerkId] == before[clerkId].(credits := after[clerkId].credits)
  }

  /** The log after the handler's credit runs: the old log followed by at
      most `n` USAGE entries of this user for this generation, each charging
      or refunding the generation's price. */
  ghost predicate ChargesOnly(before: seq<CreditTransaction>, after: seq<CreditTransaction>, userId: nat, id: nat, n: nat) {
    && before <= after && |after| <= |before| + n
    && (forall i :: |before| <= i < |after| ==>
          && after[i].userId == userId && after[i].generationId == Some(id) && after[i].kind == USAGE
          && (after[i].amount == -2 || after[i].amount == 2))
  }

  /** A charge or a refund run moves only the caller's balance and logs at
      most one entry for the generation. */
  lemma CreditRunEffect(l: Ledger, clerkId: string, amount: int, description: string, id: nat,
                        env: nat -> Operations.StorageOutcome)
    requires clerkId in l.users && (amount == 2 || amount == -2)
    ensures var r := Operations.Retry(l, clerkId, amount, Some(description), Some(id), 3, env, 1);
      && BalanceOnly(l.users, r.after.users, clerkId)
      && ChargesOnly(l.log, r.after.log, l.users[clerkId].id, id, 1)
  {
    Operations.RetryNetEffect(l, clerkId, amount, Some(description), Some(id), 3, env);
  }

  lemma BalanceOnlyTrans(a: map<string, User>, b: map<string, User>, c: map<string, User>, clerkId: string)
    requires BalanceOnly(a, b, clerkId) && BalanceOnly(b, c, clerkId)
    ensures BalanceOnly(a, c, clerkId)
  {
  }

  /** A log with at most one new entry has at most two. */
  lemma ChargesOnlyWiden(a: seq<CreditTransaction>, b: seq<CreditTransaction>, userId: nat, id: nat)
    requires ChargesOnly(a, b, userId, id, 1)
    ensures ChargesOnly(a, b, userId, id, 2)
  {
  }

  lemma ChargesOnlyTrans(a: seq<CreditTransaction>, b: seq<CreditTransaction>, c: seq<CreditTransaction>,
                         userId: nat, id: nat)
    requires ChargesOnly(a, b, userId, id, 1) && ChargesOnly(b, c, userId, id, 1)
    ensures ChargesOnly(a, c, userId, id, 2)
  {
    forall i | |a| <= i < |c|
      ensures c[i].userId == userId && c[i].generationId == Some(id) && c[i].kind == USAGE
      ensures c[i].amount == -2 || c[i].amount == 2
    {
      if i < |b| {
        assert c[i] == b[i];
      }
    }
  }

  /** The handler. */
  method Post(db: Database, userId: Option<string>, body: RequestBody,
              api: OpenRouter.ChatRequest -> OpenRouter.ChatOutcome,
              sdk: ImageKit.UploadRequest -> ImageKit.SdkOutcome,
              chargeEnv: nat -> Operations.StorageOutcome, refundEnv: nat -> Operations.StorageOutcome)
    returns (resp: GenerateResponse)
    requires db.Valid()
    modifies db`users, db`transactions, db`generations, db`statusLog
    ensures db.Valid()
    // Rejected requests write nothing.
    ensures Gate(userId, body, old(db.LedgerOf())).Some? ==>
      && resp == Gate(userId, body, old(db.LedgerOf())).value
      && db.users == old(db.users) && db.transactions == old(db.transactions)
      && db.generations == old(db.generations) && db.statusLog == old(db.statusLog)
    // Admitted requests run with the trimmed prompt and the ratio (see PostFulfils).
    ensures Gate(userId, body, old(db.LedgerOf())).None? ==>
      Run(resp, db.users, db.transactions, db.generations, db.statusLog)
        == Admitted(old(db.users), old(db.transactions), old(db.generations), old(db.statusLog), userId.value,
                    Trim(Field(body.fields, "prompt").s), RatioField(body.fields),
                    OpenRouter.ImageResponse(ImageRequest(Trim(Field(body.fields, "prompt").s), RatioField(body.fields)), api),
                    sdk, chargeEnv, refundEnv)
  {
    if userId.None? || userId.value == "" {
      return Unauthorized;
    }
    if body.Unparsable? || body.NullBody? {
      return InternalError;
    }
    var prompt := Field(body.fields, "prompt");
    var aspectRatio := RatioField(body.fields);
    if !Truthy(prompt) || !prompt.JString? || |Trim(prompt.s)| == 0 {
      return BadRequest(PROMPT_REQUIRED);
    }
    if |prompt.s| > MAX_PROMPT_LENGTH {
      return BadRequest(PROMPT_TOO_LONG);
    }
    var user := FindUser(db.users, userId.value);
    if user.None? {
      return UserNotFound;
    }
    var userCredits := Operations.GetUserCredits(db.LedgerOf(), userId.value);
    if userCredits < CREDITS_PER_GENERATION {
      return InsufficientCredits(CREDITS_PER_GENERATION, userCredits);
    }
    resp := Fulfil(db, userId.value, user.value, Trim(prompt.s), aspectRatio, api, sdk, chargeEnv, refundEnv);
  }

  // ---- the admitted request --------------------------------------------

  /** The answer, the three tables and the records' status histories a
      request leaves. */
  datatype Run = Run(resp: GenerateResponse, users: map<string, User>, log: seq<CreditTransaction>,
                     gens: seq<Generation>, history: seq<seq<GenerationStatus>>)

  /** The record as inserted, before any status update. */
  function Inserted(gens0: seq<Generation>, userId: nat, prompt: string, ratio: Json): seq<Generation> {
    gens0 + [GenerationRow(|gens0|, RecordFor(userId, prompt, ratio))]
  }

  /** route.ts once the balance check has passed: insert the PROCESSING
      record, charge it with the default retries, and on a failed charge mark
      it FAILED; otherwise go on to `Finished`. `image` is what the model
      call answers. */
  function Admitted(users0: map<string, User>, log0: seq<CreditTransaction>, gens0: seq<Generation>,
                    hist0: seq<seq<GenerationStatus>>, clerkId: string, prompt: string, ratio: Json,
                    image: OpenRouter.GenerationResponse, sdk: ImageKit.UploadRequest -> ImageKit.SdkOutcome,
                    chargeEnv: nat -> Operations.StorageOutcome, refundEnv: nat -> Operations.StorageOutcome): Run
    requires clerkId in users0 && |hist0| == |gens0|
  {
    var id := |gens0|;
    var ins := Inserted(gens0, users0[clerkId].id, prompt, ratio);
    var hist := hist0 + [[PROCESSING]];
    var charge := Operations.Retry(Ledger(users0, log0), clerkId, CREDITS_PER_GENERATION, Some(CHARGE_DESCRIPTION),
                                   Some(id), Operations.DEFAULT_RETRIES, chargeEnv, 1);
    if !charge.ok then
      Run(DeductFailed, charge.after.users, charge.after.log, ins[id := ins[id].(status := FAILED)],
          hist[id := hist[id] + [FAILED]])
    else
      Finished(charge.after, ins, hist, clerkId, id, prompt, image, sdk, refundEnv)
  }

  /** The inner `try` of route.ts for the charged record `id`: a generated
      image completes the record with the stored URL; anything else marks
      it FAILED and refunds the credits with the default retries. */
  function Finished(l1: Ledger, gens1: seq<Generation>, hist1: seq<seq<GenerationStatus>>, clerkId: string,
                    id: nat, prompt: string,
                    image: OpenRouter.GenerationResponse, sdk: ImageKit.UploadRequest -> ImageKit.SdkOutcome,
                    refundEnv: nat -> Operations.StorageOutcome): Run
    requires id < |gens1| && id < |hist1|
  {
    if !image.success || image.imageUrl.None? || image.imageUrl.value == "" then
      var refund := Operations.Retry(l1, clerkId, -CREDITS_PER_GENERATION, Some(REFUND_DESCRIPTION), Some(id),
                                     Operations.DEFAULT_RETRIES, refundEnv, 1);
      Run(GenerationFailed(prompt, OrElse(image.error, "Failed to generate image"), id),
          refund.after.users, refund.after.log, gens1[id := gens1[id].(status := FAILED)],
          hist1[id := hist1[id] + [FAILED]])
    else
      var url := FinalImageUrl(image.imageUrl.value, id, sdk);
      Run(Completed(url, prompt, id, image.usage), l1.users, l1.log,
          gens1[id := gens1[id].(status := COMPLETED, imageUrl := Some(url))], hist1[id := hist1[id] + [COMPLETED]])
  }

  /** Record and charge (route.ts from the insert to the charge check); the
      rest is `Finish`. */
  method Fulfil(db: Database, clerkId: string, u: User, prompt: string, aspectRatio: Json,
                api: OpenRouter.ChatRequest -> OpenRouter.ChatOutcome,
                sdk: ImageKit.UploadRequest -> ImageKit.SdkOutcome,
                chargeEnv: nat -> Operations.StorageOutcome, refundEnv: nat -> Operations.StorageOutcome)
    returns (resp: GenerateResponse)
    requires db.Valid()
    requires clerkId in db.users && u == db.users[clerkId]
    modifies db`users, db`transactions, db`generations, db`statusLog
    ensures db.Valid()
    ensures Run(resp, db.users, db.transactions, db.generations, db.statusLog)
      == Admitted(old(db.users), old(db.transactions), old(db.generations), old(db.statusLog), clerkId, prompt, aspectRatio,
                  OpenRouter.ImageResponse(ImageRequest(prompt, aspectRatio), api), sdk, chargeEnv, refundEnv)
  {
    var record := db.InsertGeneration(RecordFor(u.id, prompt, aspectRatio));
    var id := record.id;
    var creditDeducted, _ := Operations.DeductCreditsWithRetry(db, clerkId, CREDITS_PER_GENERATION, Some(CHARGE_DESCRIPTION),
                                                               Some(id), Operations.DEFAULT_RETRIES, chargeEnv);
    if !creditDeducted {
      db.UpdateGeneration(id, FAILED, None);
      return DeductFailed;
    }
    resp := Finish(db, clerkId, id, prompt, aspectRatio, api, sdk, refundEnv);
  }

  /** Generate, upload, finish, or refund (the inner `try` and `catch` of
      route.ts), for the charged record `id`. */
  method Finish(db: Database, clerkId: string, id: nat, prompt: string, aspectRatio: Json,
                api: OpenRouter.ChatRequest -> OpenRouter.ChatOutcome,
                sdk: ImageKit.UploadRequest -> ImageKit.SdkOutcome,
                refundEnv: nat -> Operations.StorageOutcome)
    returns (resp: GenerateResponse)
    requires db.Valid() && id < |db.generations|
    modifies db`users, db`transactions, db`generations, db`statusLog
    ensures db.Valid()
    ensures Run(resp, db.users, db.transactions, db.generations, db.statusLog)
      == Finished(old(db.LedgerOf()), old(db.generations), old(db.statusLog), clerkId, id, prompt,
                  OpenRouter.ImageResponse(ImageRequest(prompt, aspectRatio), api), sdk, refundEnv)
  {
    var request := ImageRequest(prompt, aspectRatio);
    var result := OpenRouter.GenerateImage(request, api);
    if !result.success || result.imageUrl.None? || result.imageUrl.value == "" {
      db.UpdateGeneration(id, FAILED, None);
      var _, _ := Operations.DeductCreditsWithRetry(db, clerkId, -CREDITS_PER_GENERATION, Some(REFUND_DESCRIPTION),
                                                    Some(id), Operations.DEFAULT_RETRIES, refundEnv);
      return GenerationFailed(prompt, OrElse(result.error, "Failed to generate image"), id);
    }

    var finalImageUrl := result.imageUrl.value;
    if StartsWith(result.imageUrl.value, "data:image/") {
      var uploadResult := ImageKit.UploadToImageKit(result.imageUrl.value, Filename(id), sdk);
      if uploadResult.success && uploadResult.url.Some? && uploadResult.url.value != "" {
        finalImageUrl := uploadResult.url.value;
      }
    }
    assert finalImageUrl == FinalImageUrl(result.imageUrl.value, id, sdk);
    db.UpdateGeneration(id, COMPLETED, Some(finalImageUrl));
    return Completed(finalImageUrl, prompt, id, result.usage);
  }

  // ---- what an admitted request promises ---------------------------------

  /** What an admitted request does, from the old state of the three tables
      to the new one. */
  ghost predicate Fulfilled(
    users0: map<string, User>, log0: seq<CreditTransaction>, gens0: seq<Generation>,
    hist0: seq<seq<GenerationStatus>>, clerkId: string, prompt: string, ratio: Json,
    image: OpenRouter.GenerationResponse, sdk: ImageKit.UploadRequest -> ImageKit.SdkOutcome,
    chargeEnv: nat -> Operations.StorageOutcome, refundEnv: nat -> Operations.StorageOutcome, run: Run)
    requires clerkId in users0
  {
    && RecordCreated(gens0, run.gens, hist0, run.history, users0[clerkId].id, prompt, ratio)
    && BalanceOnly(users0, run.users, clerkId)
    && ChargesOnly(log0, run.log, users0[clerkId].id, |gens0|, 2)
    && FinishedAs(users0[clerkId].credits, log0, gens0, clerkId, prompt, ratio, image, sdk, chargeEnv, refundEnv, run)
  }

  /** One record is created, with the trimmed prompt, the price and the
      table's size for the ratio. Its status history is a lifecycle: inserted
      as PROCESSING, written once more with a terminal status. No other
      record's history changes. */
  ghost predicate RecordCreated(gens0: seq<Generation>, gens: seq<Generation>,
                                hist0: seq<seq<GenerationStatus>>, hist: seq<seq<GenerationStatus>>,
                                userId: nat, prompt: string, ratio: Json)
  {
    var id := |gens0|;
    var d := ImageDimensions.SizeFor(ratio);
    && |gens| == id + 1 && gens[..id] == gens0
    && gens[id].id == id && gens[id].userId == userId
    && gens[id].prompt == prompt && gens[id].creditsUsed == 2
    && gens[id].width == Some(d.width) && gens[id].height == Some(d.height)
    && |hist| == id + 1 && hist[..id] == hist0
    && hist[id] == [PROCESSING, gens[id].status]
    && IsLifecycle(hist[id])
    && Terminal(gens[id].status)
  }

  /** The three ways an admitted request ends. The charge fails only when no
      attempt's storage calls return; nothing is then charged and the record
      is FAILED. A generated image completes the record with the stored URL
      at a cost of exactly 2 credits; a failed generation marks it FAILED and
      refunds the credits when some refund attempt's storage calls return. */
  ghost predicate FinishedAs(
    credits0: int, log0: seq<CreditTransaction>, gens0: seq<Generation>, clerkId: string,
    prompt: string, ratio: Json,
    image: OpenRouter.GenerationResponse, sdk: ImageKit.UploadRequest -> ImageKit.SdkOutcome,
    chargeEnv: nat -> Operations.StorageOutcome, refundEnv: nat -> Operations.StorageOutcome, run: Run)
  {
    var id := |gens0|;
    var resp := run.resp;
    && |run.gens| == id + 1 && clerkId in run.users
    && (resp == DeductFailed <==> !Operations.StorageAnswers(chargeEnv, 3))
    && (resp == DeductFailed ==> run.gens[id].status == FAILED && run.users[clerkId].credits == credits0 && run.log == log0)
    && (Operations.StorageAnswers(chargeEnv, 3) && image.success ==>
          && image.imageUrl.Some?
          && resp == Completed(FinalImageUrl(image.imageUrl.value, id, sdk), prompt, id, image.usage)
          && run.gens[id].status == COMPLETED && run.gens[id].imageUrl == Some(resp.imageUrl)
          && run.users[clerkId].credits == credits0 - 2)
    && (Operations.StorageAnswers(chargeEnv, 3) && !image.success ==>
          && resp == GenerationFailed(prompt, OrElse(image.error, "Failed to generate image"), id)
          && run.gens[id].status == FAILED && run.gens[id].imageUrl.None?
          && run.users[clerkId].credits == credits0 - (if Operations.StorageAnswers(refundEnv, 3) then 0 else 2))
  }

  /** A charge that fails leaves the ledger as it was and the record FAILED. */
  lemma UnchargedFails(users0: map<string, User>, log0: seq<CreditTransaction>, gens0: seq<Generation>,
                       hist0: seq<seq<GenerationStatus>>,
                       clerkId: string, prompt: string, ratio: Json,
                       image: OpenRouter.GenerationResponse, sdk: ImageKit.UploadRequest -> ImageKit.SdkOutcome,
                       chargeEnv: nat -> Operations.StorageOutcome, refundEnv: nat -> Operations.StorageOutcome)
    requires clerkId in users0 && users0[clerkId].credits >= CREDITS_PER_GENERATION && |hist0| == |gens0|
    requires !Operations.StorageAnswers(chargeEnv, 3)
    ensures Fulfilled(users0, log0, gens0, hist0, clerkId, prompt, ratio, image, sdk, chargeEnv, refundEnv,
                      Admitted(users0, log0, gens0, hist0, clerkId, prompt, ratio, image, sdk, chargeEnv, refundEnv))
  {
    var l0 := Ledger(users0, log0);
    Operations.RetryNetEffect(l0, clerkId, CREDITS_PER_GENERATION, Some(CHARGE_DESCRIPTION), Some(|gens0|),
                              Operations.DEFAULT_RETRIES, chargeEnv);
    var run := Admitted(users0, log0, gens0, hist0, clerkId, prompt, ratio, image, sdk, chargeEnv, refundEnv);
    assert run.gens[..|gens0|] == gens0;
  }

  /** A charge that succeeds, followed by a generated image: the record is
      COMPLETED and the user has paid exactly once. */
  lemma ChargedCompletes(users0: map<string, User>, log0: seq<CreditTransaction>, gens0: seq<Generation>,
                       hist0: seq<seq<GenerationStatus>>,
                         clerkId: string, prompt: string, ratio: Json,
                         image: OpenRouter.GenerationResponse, sdk: ImageKit.UploadRequest -> ImageKit.SdkOutcome,
                         chargeEnv: nat -> Operations.StorageOutcome, refundEnv: nat -> Operations.StorageOutcome)
    requires clerkId in users0 && users0[clerkId].credits >= CREDITS_PER_GENERATION && |hist0| == |gens0|
    requires Operations.StorageAnswers(chargeEnv, 3)
    requires image.success && image.imageUrl.Some? && image.imageUrl.value != ""
    ensures Fulfilled(users0, log0, gens0, hist0, clerkId, prompt, ratio, image, sdk, chargeEnv, refundEnv,
                      Admitted(users0, log0, gens0, hist0, clerkId, prompt, ratio, image, sdk, chargeEnv, refundEnv))
  {
    var l0 := Ledger(users0, log0);
    var id := |gens0|;
    CreditRunEffect(l0, clerkId, CREDITS_PER_GENERATION, CHARGE_DESCRIPTION, id, chargeEnv);
    Operations.RetryNetEffect(l0, clerkId, CREDITS_PER_GENERATION, Some(CHARGE_DESCRIPTION), Some(id),
                              Operations.DEFAULT_RETRIES, chargeEnv);
    var charge := Operations.Retry(l0, clerkId, CREDITS_PER_GENERATION, Some(CHARGE_DESCRIPTION), Some(id),
                                   Operations.DEFAULT_RETRIES, chargeEnv, 1);
    ChargesOnlyWiden(log0, charge.after.log, users0[clerkId].id, id);
    var run := Admitted(users0, log0, gens0, hist0, clerkId, prompt, ratio, image, sdk, chargeEnv, refundEnv);
    assert run.gens[..id] == gens0;
  }

  /** A charge that succeeds, followed by a failed generation: the record is
      FAILED and the refund run gives the credits back when it can. */
  lemma ChargedRefunds(users0: map<string, User>, log0: seq<CreditTransaction>, gens0: seq<Generation>,
                       hist0: seq<seq<GenerationStatus>>,
                       clerkId: string, prompt: string, ratio: Json,
                       image: OpenRouter.GenerationResponse, sdk: ImageKit.UploadRequest -> ImageKit.SdkOutcome,
                       chargeEnv: nat -> Operations.StorageOutcome, refundEnv: nat -> Operations.StorageOutcome)
    requires clerkId in users0 && users0[clerkId].credits >= CREDITS_PER_GENERATION && |hist0| == |gens0|
    requires Operations.StorageAnswers(chargeEnv, 3)
    requires !image.success && image.imageUrl.None?
    ensures Fulfilled(users0, log0, gens0, hist0, clerkId, prompt, ratio, image, sdk, chargeEnv, refundEnv,
                      Admitted(users0, log0, gens0, hist0, clerkId, prompt, ratio, image, sdk, chargeEnv, refundEnv))
  {
    var l0 := Ledger(users0, log0);
    var id := |gens0|;
    CreditRunEffect(l0, clerkId, CREDITS_PER_GENERATION, CHARGE_DESCRIPTION, id, chargeEnv);
    Operations.RetryNetEffect(l0, clerkId, CREDITS_PER_GENERATION, Some(CHARGE_DESCRIPTION), Some(id),
                              Operations.DEFAULT_RETRIES, chargeEnv);
    var l1 := Operations.Retry(l0, clerkId, CREDITS_PER_GENERATION, Some(CHARGE_DESCRIPTION), Some(id),
                               Operations.DEFAULT_RETRIES, chargeEnv, 1).after;
    CreditRunEffect(l1, clerkId, -CREDITS_PER_GENERATION, REFUND_DESCRIPTION, id, refundEnv);
    Operations.RetryNetEffect(l1, clerkId, -CREDITS_PER_GENERATION, Some(REFUND_DESCRIPTION), Some(id),
                              Operations.DEFAULT_RETRIES, refundEnv);
    var l2 := Operations.Retry(l1, clerkId, -CREDITS_PER_GENERATION, Some(REFUND_DESCRIPTION), Some(id),
                               Operations.DEFAULT_RETRIES, refundEnv, 1).after;
    BalanceOnlyTrans(l0.users, l1.users, l2.users, clerkId);
    ChargesOnlyTrans(l0.log, l1.log, l2.log, users0[clerkId].id, id);
    var run := Admitted(users0, log0, gens0, hist0, clerkId, prompt, ratio, image, sdk, chargeEnv, refundEnv);
    assert run.gens[..id] == gens0;
  }

  /** Every admitted request ends in one of the three ways `FinishedAs`
      lists, given a model answer of the shape `generateImage` returns. */
  lemma AdmittedFulfils(users0: map<string, User>, log0: seq<CreditTransaction>, gens0: seq<Generation>,
                        hist0: seq<seq<GenerationStatus>>,
                        clerkId: string, prompt: string, ratio: Json,
                        image: OpenRouter.GenerationResponse, sdk: ImageKit.UploadRequest -> ImageKit.SdkOutcome,
                        chargeEnv: nat -> Operations.StorageOutcome, refundEnv: nat -> Operations.StorageOutcome)
    requires clerkId in users0 && users0[clerkId].credits >= CREDITS_PER_GENERATION && |hist0| == |gens0|
    requires image.success ==> image.imageUrl.Some? && image.imageUrl.value != ""
    requires !image.success ==> image.imageUrl.None?
    ensures Fulfilled(users0, log0, gens0, hist0, clerkId, prompt, ratio, image, sdk, chargeEnv, refundEnv,
                      Admitted(users0, log0, gens0, hist0, clerkId, prompt, ratio, image, sdk, chargeEnv, refundEnv))
  {
    if !Operations.StorageAnswers(chargeEnv, 3) {
      UnchargedFails(users0, log0, gens0, hist0, clerkId, prompt, ratio, image, sdk, chargeEnv, refundEnv);
    } else if image.success {
      ChargedCompletes(users0, log0, gens0, hist0, clerkId, prompt, ratio, image, sdk, chargeEnv, refundEnv);
    } else {
      ChargedRefunds(users0, log0, gens0, hist0, clerkId, prompt, ratio, image, sdk, chargeEnv, refundEnv);
    }
  }

  /** The new record's status only moves forward: the statuses written to it
      form a lifecycle, so the terminal status it ends in is written once, last. */
  lemma AdmittedMovesForward(users0: map<string, User>, log0: seq<CreditTransaction>, gens0: seq<Generation>,
                             hist0: seq<seq<GenerationStatus>>,
                             clerkId: string, prompt: string, ratio: Json,
                             image: OpenRouter.GenerationResponse, sdk: ImageKit.UploadRequest -> ImageKit.SdkOutcome,
                             chargeEnv: nat -> Operations.StorageOutcome, refundEnv: nat -> Operations.StorageOutcome)
    requires clerkId in users0 && users0[clerkId].credits >= CREDITS_PER_GENERATION && |hist0| == |gens0|
    requires image.success ==> image.imageUrl.Some? && image.imageUrl.value != ""
    requires !image.success ==> image.imageUrl.None?
    ensures var run := Admitted(users0, log0, gens0, hist0, clerkId, prompt, ratio, image, sdk, chargeEnv, refundEnv);
      var h := run.history[|gens0|];
      && |gens0| < |run.history| && IsLifecycle(h) && Terminal(h[|h| - 1])
      && forall i :: 0 <= i < |h| && Terminal(h[i]) ==> i == |h| - 1
  {
    AdmittedFulfils(users0, log0, gens0, hist0, clerkId, prompt, ratio, image, sdk, chargeEnv, refundEnv);
    var run := Admitted(users0, log0, gens0, hist0, clerkId, prompt, ratio, image, sdk, chargeEnv, refundEnv);
    LifecycleMovesForward(run.history[|gens0|]);
  }

  /** The handler's promise for an admitted request, over the model API. */
  lemma PostFulfils(userId: Option<string>, body: RequestBody, users0: map<string, User>,
                    log0: seq<CreditTransaction>, gens0: seq<Generation>, hist0: seq<seq<GenerationStatus>>,
                    api: OpenRouter.ChatRequest -> OpenRouter.ChatOutcome,
                    sdk: ImageKit.UploadRequest -> ImageKit.SdkOutcome,
                    chargeEnv: nat -> Operations.StorageOutcome, refundEnv: nat -> Operations.StorageOutcome)
    requires Gate(userId, body, Ledger(users0, log0)).None? && |hist0| == |gens0|
    ensures var prompt := Trim(Field(body.fields, "prompt").s);
      var ratio := RatioField(body.fields);
      var image := OpenRouter.ImageResponse(ImageRequest(prompt, ratio), api);
      Fulfilled(users0, log0, gens0, hist0, userId.value, prompt, ratio, image, sdk, chargeEnv, refundEnv,
                Admitted(users0, log0, gens0, hist0, userId.value, prompt, ratio, image, sdk, chargeEnv, refundEnv))
  {
    var prompt := Trim(Field(body.fields, "prompt").s);
    var ratio := RatioField(body.fields);
    OpenRouter.ResponseShape(ImageRequest(prompt, ratio), api);
    AdmittedFulfils(users0, log0, gens0, hist0, userId.value, prompt, ratio,
                    OpenRouter.ImageResponse(ImageRequest(prompt, ratio), api), sdk, chargeEnv, refundEnv);
  }
}
