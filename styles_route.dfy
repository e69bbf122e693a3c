/** app/api/styles/route.ts: listing a user's styles with their reference
    images, and creating a style from up to five reference images under a
    per-plan cap on how many styles a user may own. */
module StylesRoute {
  import opened Values
  import opened Text
  import opened Schema
  import opened Db
  import Seqs

  const FREE_TIER_STYLE_LIMIT: nat := 2
  const PAID_TIER_STYLE_LIMIT: nat := 10
  const MAX_REFERENCE_IMAGES: nat := 5

  const NAME_AND_IMAGES_REQUIRED: string := "Name and at least one reference image are required"
  const TOO_MANY_IMAGES: string := "Maximum 5 reference images allowed per style"

  /** How many styles a plan may own: two on the free tier, ten on any paid plan. */
  function StyleLimit(plan: Plan): (n: nat)
    ensures plan == FREE ==> n == FREE_TIER_STYLE_LIMIT
    ensures plan != FREE ==> n == PAID_TIER_STYLE_LIMIT
    ensures n >= 1
  {
    if plan == FREE then FREE_TIER_STYLE_LIMIT else PAID_TIER_STYLE_LIMIT
  }

  /** The styles a user owns, in the order they were created. */
  function UserStyles(styles: seq<Style>, ownerId: nat): (r: seq<Style>)
    ensures forall i :: 0 <= i < |r| ==> r[i].userId == ownerId && r[i] in styles
    ensures forall s :: s in styles && s.userId == ownerId ==> s in r
  {
    Seqs.Filter(styles, (s: Style) => s.userId == ownerId)
  }

  /** The reference images of one style in `order`, as `orderBy(order)` returns them. */
  function ImagesOf(images: seq<StyleImage>, styleId: nat): seq<StyleImage> {
    Seqs.SortBy(Seqs.Filter(images, (x: StyleImage) => x.styleId == styleId),
                (x: StyleImage) => x.order)
  }

  /** The image rows a new style gets: one per URL, numbered by its position. */
  function ImageRecords(styleId: nat, urls: seq<Json>): (r: seq<StyleImage>)
    ensures |r| == |urls|
    ensures forall i :: 0 <= i < |r| ==> r[i].styleId == styleId && r[i].imageUrl == urls[i] && r[i].order == i
  {
    seq(|urls|, i requires 0 <= i < |urls| => StyleImage(styleId, urls[i], i))
  }

  datatype StyleResponse =
    | Unauthorized
    | BadRequest(error: string)
    | UserNotFound
    | LimitReached(error: string, limit: nat, current: nat)
    | Created(style: Style, images: seq<StyleImage>)
    /** "Failed to create style": the body could not be read or a `.trim` threw. */
    | InternalError

  function StatusCode(r: StyleResponse): nat {
    match r
    case Unauthorized => 401
    case BadRequest(_) => 400
    case UserNotFound => 404
    case LimitReached(_, _, _) => 403
    case Created(_, _) => 200
    case InternalError => 500
  }

  /** The body check: a truthy name and a non-empty array of at most five URLs. */
  function CheckBody(fields: map<string, Json>): (r: Result<seq<Json>, StyleResponse>)
    ensures r.Ok? <==>
      Truthy(Field(fields, "name")) && Field(fields, "imageUrls").JArray? &&
      1 <= |Field(fields, "imageUrls").items| <= MAX_REFERENCE_IMAGES
    ensures r.Ok? ==> r.value == Field(fields, "imageUrls").items
    ensures r.Err? && Truthy(Field(fields, "name")) && Field(fields, "imageUrls").JArray? &&
            |Field(fields, "imageUrls").items| > MAX_REFERENCE_IMAGES ==>
            r == Err(BadRequest(TOO_MANY_IMAGES))
    ensures r.Err? && !(Truthy(Field(fields, "name")) && Field(fields, "imageUrls").JArray? &&
            |Field(fields, "imageUrls").items| > MAX_REFERENCE_IMAGES) ==>
            r == Err(BadRequest(NAME_AND_IMAGES_REQUIRED))
  {
    var name := Field(fields, "name");
    var imageUrls := Field(fields, "imageUrls");
    if !Truthy(name) || !Truthy(imageUrls) || !imageUrls.JArray? || |imageUrls.items| == 0 then
      Err(BadRequest(NAME_AND_IMAGES_REQUIRED))
    else if |imageUrls.items| > MAX_REFERENCE_IMAGES then
      Err(BadRequest(TOO_MANY_IMAGES))
    else
      Ok(imageUrls.items)
  }

  /** Every answer POST gives before it writes, or None when it goes on to
      insert the style. The checks run in the source's order: sign-in, the
      body, the user, the plan's cap, and the two `.trim` calls. */
  function PostGate(userId: Option<string>, body: RequestBody, users: map<string, User>,
                    styles: seq<Style>): (r: Option<StyleResponse>)
    ensures (userId.None? || userId.value == "") <==> r == Some(Unauthorized)
    ensures r.Some? && r.value.BadRequest? <==>
      userId.Some? && userId.value != "" && body.Fields? && CheckBody(body.fields).Err?
    ensures r == Some(UserNotFound) <==>
      userId.Some? && userId.value != "" && body.Fields? && CheckBody(body.fields).Ok? &&
      userId.value !in users
    ensures r.Some? && r.value.LimitReached? <==>
      userId.Some? && userId.value != "" && body.Fields? && CheckBody(body.fields).Ok? &&
      userId.value in users &&
      |UserStyles(styles, users[userId.value].id)| >= StyleLimit(users[userId.value].plan)
    ensures r.Some? && r.value.LimitReached? ==>
      var u := users[userId.value];
      r.value == LimitReached(PlanName(u.plan) + " tier style limit reached",
                              StyleLimit(u.plan), |UserStyles(styles, u.id)|)
    ensures r.None? <==>
      userId.Some? && userId.value != "" && body.Fields? && CheckBody(body.fields).Ok? &&
      userId.value in users &&
      |UserStyles(styles, users[userId.value].id)| < StyleLimit(users[userId.value].plan) &&
      Field(body.fields, "name").JString? && OptionalTrim(Field(body.fields, "description")).Ok?
    ensures r.Some? ==> !r.value.Created?
  {
    if userId.None? || userId.value == "" then Some(Unauthorized)
    else match body
      case Unparsable => Some(InternalError)
      case NullBody => Some(InternalError)
      case Fields(fields) =>
        match CheckBody(fields)
        case Err(e) => Some(e)
        case Ok(_) =>
          if userId.value !in users then Some(UserNotFound)
          else
            var u := users[userId.value];
            var current := |UserStyles(styles, u.id)|;
            var maxStyles := StyleLimit(u.plan);
            if current >= maxStyles then
              Some(LimitReached(PlanName(u.plan) + " tier style limit reached", maxStyles, current))
            else if !Field(fields, "name").JString? then Some(InternalError)
            else if OptionalTrim(Field(fields, "description")).Err? then Some(InternalError)
            else None
  }

  /** POST /api/styles. `extract` stands for the metadata extractor, which
      never throws (it answers None when extraction fails). */
  method Post(db: Database, userId: Option<string>, body: RequestBody,
              extract: seq<Json> -> Option<string>) returns (resp: StyleResponse)
    requires db.Valid()
    modifies db`styles, db`styleImages
    ensures db.Valid()
    ensures PostGate(userId, body, old(db.users), old(db.styles)).Some? ==>
      resp == PostGate(userId, body, old(db.users), old(db.styles)).value &&
      db.styles == old(db.styles) && db.styleImages == old(db.styleImages)
    ensures PostGate(userId, body, old(db.users), old(db.styles)).None? ==>
      var fields := body.fields;
      var urls := Field(fields, "imageUrls").items;
      var st := StyleRow(|old(db.styles)|, old(db.users)[userId.value].id,
                         Trim(Field(fields, "name").s),
                         OptionalTrim(Field(fields, "description")).value, extract(urls));
      resp == Created(st, ImageRecords(st.id, urls)) &&
      db.styles == old(db.styles) + [st] &&
      db.styleImages == old(db.styleImages) + ImageRecords(st.id, urls)
  {
    if userId.None? || userId.value == "" {
      return Unauthorized;
    }
    if !body.Fields? {
      return InternalError;
    }
    var fields := body.fields;
    var checked := CheckBody(fields);
    if checked.Err? {
      return checked.error;
    }
    var urls := checked.value;
    var user := FindUser(db.users, userId.value);
    if user.None? {
      return UserNotFound;
    }
    var u := user.value;
    var current := |UserStyles(db.styles, u.id)|;
    var maxStyles := StyleLimit(u.plan);
    if current >= maxStyles {
      return LimitReached(PlanName(u.plan) + " tier style limit reached", maxStyles, current);
    }
    var meta := extract(urls);
    var name := Field(fields, "name");
    if !name.JString? {
      // `name.trim` is not a function
      return InternalError;
    }
    var description := OptionalTrim(Field(fields, "description"));
    if description.Err? {
      return InternalError;
    }
    resp := Insert(db, u.id, Trim(name.s), description.value, meta, urls);
  }

  /** The two inserts: the style row, then one image row per URL. */
  method Insert(db: Database, ownerId: nat, name: string, description: Option<string>,
                meta: Option<string>, urls: seq<Json>) returns (resp: StyleResponse)
    requires db.Valid()
    modifies db`styles, db`styleImages
    ensures db.Valid()
    ensures var st := StyleRow(|old(db.styles)|, ownerId, name, description, meta);
      resp == Created(st, ImageRecords(st.id, urls)) &&
      db.styles == old(db.styles) + [st] &&
      db.styleImages == old(db.styleImages) + ImageRecords(st.id, urls)
  {
    var st := db.InsertStyle(ownerId, name, description, meta);
    var records := ImageRecords(st.id, urls);
    db.InsertStyleImages(records);
    resp := Created(st, records);
  }

  // ---- GET ---------------------------------------------------------------

  datatype StyleWithImages = StyleWithImages(style: Style, images: seq<StyleImage>)

  datatype StyleList =
    | ListUnauthorized
    | ListUserNotFound
    | Listed(styles: seq<StyleWithImages>)

  /** GET /api/styles: the caller's styles in creation order, each with its
      images in `order`; one images query per style. */
  method Get(db: Database, userId: Option<string>) returns (r: StyleList)
    requires db.Valid()
    ensures (userId.None? || userId.value == "") <==> r == ListUnauthorized
    ensures r == ListUserNotFound <==> userId.Some? && userId.value != "" && userId.value !in db.users
    ensures r.Listed? ==>
      userId.Some? && userId.value in db.users &&
      var mine := UserStyles(db.styles, db.users[userId.value].id);
      |r.styles| == |mine| &&
      forall i :: 0 <= i < |mine| ==>
        r.styles[i] == StyleWithImages(mine[i], ImagesOf(db.styleImages, mine[i].id))
  {
    if userId.None? || userId.value == "" {
      return ListUnauthorized;
    }
    var user := FindUser(db.users, userId.value);
    if user.None? {
      return ListUserNotFound;
    }
    var out := AttachImages(UserStyles(db.styles, user.value.id), db.styleImages);
    r := Listed(out);
  }

  /** The loop over the user's styles that fetches each one's images. */
  method AttachImages(mine: seq<Style>, images: seq<StyleImage>) returns (out: seq<StyleWithImages>)
    ensures |out| == |mine|
    ensures forall i :: 0 <= i < |mine| ==> out[i] == StyleWithImages(mine[i], ImagesOf(images, mine[i].id))
  {
    out := [];
    for i := 0 to |mine|
      invariant |out| == i
      invariant forall k :: 0 <= k < i ==> out[k] == StyleWithImages(mine[k], ImagesOf(images, mine[k].id))
    {
      out := out + [StyleWithImages(mine[i], ImagesOf(images, mine[i].id))];
    }
  }

  // ---- properties --------------------------------------------------------

  /** A style's images come back in non-decreasing `order`, all of that
      style, and exactly the rows the table holds for it. */
  lemma ImagesOfIsOrderedSelection(images: seq<StyleImage>, styleId: nat)
    ensures Seqs.NonDecreasing(ImagesOf(images, styleId), (x: StyleImage) => x.order)
    ensures multiset(ImagesOf(images, styleId)) ==
            multiset(Seqs.Filter(images, (x: StyleImage) => x.styleId == styleId))
    ensures forall x :: x in ImagesOf(images, styleId) ==> x.styleId == styleId && x in images
    ensures forall x :: x in images && x.styleId == styleId ==> x in ImagesOf(images, styleId)
  {
    var mine := Seqs.Filter(images, (x: StyleImage) => x.styleId == styleId);
    Seqs.SortBySorted(mine, (x: StyleImage) => x.order);
    forall x | x in ImagesOf(images, styleId) ensures x.styleId == styleId && x in images {
      assert x in multiset(mine);
    }
    forall x | x in images && x.styleId == styleId ensures x in ImagesOf(images, styleId) {
      assert x in multiset(mine);
    }
  }

  /** The styles a user lists come in strictly increasing id order, which is
      the order they were created in. */
  lemma UserStylesInCreationOrder(styles: seq<Style>, ownerId: nat)
    requires StyleIds(styles)
    ensures Seqs.Increasing(UserStyles(styles, ownerId), (s: Style) => s.id)
  {
    Seqs.FilterIncreasing(styles, (s: Style) => s.userId == ownerId, (s: Style) => s.id);
  }

  /** Round trip: the images a POST stores for a new style are what a later
      GET lists for it, in the order the request gave the URLs. */
  lemma {:induction false} CreatedImagesListedInOrder(images: seq<StyleImage>, n: nat, urls: seq<Json>)
    requires StyleImagesOf(images, n)
    ensures ImagesOf(images + ImageRecords(n, urls), n) == ImageRecords(n, urls)
  {
    var forStyle := (x: StyleImage) => x.styleId == n;
    var records := ImageRecords(n, urls);
    Seqs.FilterAppend(images, records, forStyle);
    Seqs.FilterNone(images, forStyle);
    Seqs.FilterAll(records, forStyle);
    assert Seqs.Filter(images + records, forStyle) == records;
    Seqs.SortBySortedIsIdentity(records, (x: StyleImage) => x.order);
  }

  /** The cap holds: a created style brings its owner's count up by exactly
      one and never above the plan's limit. */
  lemma {:induction false} CreateRespectsLimit(userId: Option<string>, body: RequestBody,
                                               users: map<string, User>, styles: seq<Style>, st: Style)
    requires PostGate(userId, body, users, styles).None?
    requires st.userId == users[userId.value].id
    ensures |UserStyles(styles + [st], st.userId)| == |UserStyles(styles, st.userId)| + 1
    ensures |UserStyles(styles + [st], st.userId)| <= StyleLimit(users[userId.value].plan)
  {
    var mine := (s: Style) => s.userId == st.userId;
    Seqs.FilterAppend(styles, [st], mine);
    assert Seqs.Filter([st], mine) == [st] by {
      assert [st][..0] == [];
    }
  }

  /** The body is checked before the user is looked up: a bad body is a 400
      whether or not the caller has a user row, and whatever they own. */
  lemma BodyCheckedBeforeUser(userId: Option<string>, body: RequestBody,
                              users1: map<string, User>, styles1: seq<Style>,
                              users2: map<string, User>, styles2: seq<Style>)
    requires PostGate(userId, body, users1, styles1).Some?
    requires PostGate(userId, body, users1, styles1).value.BadRequest?
    ensures PostGate(userId, body, users2, styles2) == PostGate(userId, body, users1, styles1)
  {
  }
}
