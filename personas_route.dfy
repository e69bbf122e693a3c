/** app/api/personas/route.ts: listing a user's personas and creating one,
    with a cap of ten personas on the free tier and none on paid plans. */
module PersonasRoute {
  import opened Values
  import opened Text
  import opened Schema
  import opened Db
  import Seqs

  const FREE_TIER_PERSONA_LIMIT: nat := 10
  const PERSONA_NAME_REQUIRED: string := "Persona name is required"
  const LIMIT_REACHED: string := "Free tier persona limit reached"

  /** The personas a user owns, in the order they were created. */
  function UserPersonas(personas: seq<Persona>, ownerId: nat): (r: seq<Persona>)
    ensures forall i :: 0 <= i < |r| ==> r[i].userId == ownerId && r[i] in personas
    ensures forall p :: p in personas && p.userId == ownerId ==> p in r
  {
    Seqs.Filter(personas, (p: Persona) => p.userId == ownerId)
  }

  /** Whether the cap stops a user: only the free tier has one. */
  predicate AtLimit(u: User, personas: seq<Persona>) {
    u.plan == FREE && |UserPersonas(personas, u.id)| >= FREE_TIER_PERSONA_LIMIT
  }

  datatype PersonaResponse =
    | Unauthorized
    | UserNotFound
    | LimitReached(error: string, limit: nat, current: nat)
    | BadRequest(error: string)
    | Created(persona: Persona)
    /** "Failed to create persona": the body could not be read, a `.trim`
        threw, or the insert broke the non-null image URL column. */
    | InternalError

  function StatusCode(r: PersonaResponse): nat {
    match r
    case Unauthorized => 401
    case UserNotFound => 404
    case LimitReached(_, _, _) => 403
    case BadRequest(_) => 400
    case Created(_) => 200
    case InternalError => 500
  }

  /** The name check `!name || name.trim().length < 2`: Ok with the trimmed
      name, a 400 when the name is falsy or too short, and a 500 when a truthy
      non-string value has no `.trim`. */
  function CheckName(name: Json): (r: Result<string, PersonaResponse>)
    ensures r.Ok? <==> name.JString? && |Trim(name.s)| >= 2
    ensures r.Ok? ==> r.value == Trim(name.s)
    ensures r == Err(BadRequest(PERSONA_NAME_REQUIRED)) <==>
      !Truthy(name) || (name.JString? && |Trim(name.s)| < 2)
    ensures r.Err? && r.error != BadRequest(PERSONA_NAME_REQUIRED) ==> r.error == InternalError
  {
    if !Truthy(name) then Err(BadRequest(PERSONA_NAME_REQUIRED))
    else if !name.JString? then Err(InternalError)
    else if |Trim(name.s)| < 2 then Err(BadRequest(PERSONA_NAME_REQUIRED))
    else Ok(Trim(name.s))
  }

  /** Every answer POST gives before it writes, or None when the insert
      succeeds. Sign-in, the user and the cap are checked before the body is
      read. */
  function PostGate(userId: Option<string>, body: RequestBody, users: map<string, User>,
                    personas: seq<Persona>): (r: Option<PersonaResponse>)
    ensures (userId.None? || userId.value == "") <==> r == Some(Unauthorized)
    ensures r == Some(UserNotFound) <==> userId.Some? && userId.value != "" && userId.value !in users
    ensures r.Some? && r.value.LimitReached? <==>
      userId.Some? && userId.value != "" && userId.value in users && AtLimit(users[userId.value], personas)
    ensures r.Some? && r.value.LimitReached? ==>
      r.value == LimitReached(LIMIT_REACHED, FREE_TIER_PERSONA_LIMIT,
                              |UserPersonas(personas, users[userId.value].id)|)
    ensures r.Some? && r.value.BadRequest? ==>
      body.Fields? && r.value == BadRequest(PERSONA_NAME_REQUIRED)
    ensures r == Some(BadRequest(PERSONA_NAME_REQUIRED)) <==>
      userId.Some? && userId.value != "" && userId.value in users &&
      !AtLimit(users[userId.value], personas) && body.Fields? &&
      CheckName(Field(body.fields, "name")) == Err(BadRequest(PERSONA_NAME_REQUIRED))
    ensures r == Some(InternalError) <==>
      userId.Some? && userId.value != "" && userId.value in users &&
      !AtLimit(users[userId.value], personas) &&
      (|| !body.Fields?
       || CheckName(Field(body.fields, "name")) == Err(InternalError)
       || (CheckName(Field(body.fields, "name")).Ok? &&
           (|| OptionalTrim(Field(body.fields, "description")).Err?
            || Field(body.fields, "imageUrl").JUndefined? || Field(body.fields, "imageUrl").JNull?)))
    ensures r.None? <==>
      userId.Some? && userId.value != "" && userId.value in users &&
      !AtLimit(users[userId.value], personas) && body.Fields? &&
      CheckName(Field(body.fields, "name")).Ok? &&
      OptionalTrim(Field(body.fields, "description")).Ok? &&
      !Field(body.fields, "imageUrl").JUndefined? && !Field(body.fields, "imageUrl").JNull?
    ensures r.Some? ==> !r.value.Created?
  {
    if userId.None? || userId.value == "" then Some(Unauthorized)
    else if userId.value !in users then Some(UserNotFound)
    else
      var u := users[userId.value];
      if AtLimit(u, personas) then
        Some(LimitReached(LIMIT_REACHED, FREE_TIER_PERSONA_LIMIT, |UserPersonas(personas, u.id)|))
      else match body
        case Unparsable => Some(InternalError)
        case NullBody => Some(InternalError)
        case Fields(fields) =>
          match CheckName(Field(fields, "name"))
          case Err(e) => Some(e)
          case Ok(_) =>
            if OptionalTrim(Field(fields, "description")).Err? then Some(InternalError)
            else
              var imageUrl := Field(fields, "imageUrl");
              if imageUrl.JUndefined? || imageUrl.JNull? then Some(InternalError)
              else None
  }

  /** POST /api/personas. */
  method Post(db: Database, userId: Option<string>, body: RequestBody) returns (resp: PersonaResponse)
    requires db.Valid()
    modifies db`personas
    ensures db.Valid()
    ensures PostGate(userId, body, old(db.users), old(db.personas)).Some? ==>
      resp == PostGate(userId, body, old(db.users), old(db.personas)).value &&
      db.personas == old(db.personas)
    ensures PostGate(userId, body, old(db.users), old(db.personas)).None? ==>
      var fields := body.fields;
      var p := PersonaRow(|old(db.personas)|, old(db.users)[userId.value].id,
                          CheckName(Field(fields, "name")).value,
                          OptionalTrim(Field(fields, "description")).value,
                          Field(fields, "imageUrl"));
      resp == Created(p) && db.personas == old(db.personas) + [p]
  {
    if userId.None? || userId.value == "" {
      return Unauthorized;
    }
    var user := FindUser(db.users, userId.value);
    if user.None? {
      return UserNotFound;
    }
    var u := user.value;
    if AtLimit(u, db.personas) {
      return LimitReached(LIMIT_REACHED, FREE_TIER_PERSONA_LIMIT, |UserPersonas(db.personas, u.id)|);
    }
    if !body.Fields? {
      return InternalError;
    }
    var fields := body.fields;
    var name := CheckName(Field(fields, "name"));
    if name.Err? {
      return name.error;
    }
    var description := OptionalTrim(Field(fields, "description"));
    if description.Err? {
      return InternalError;
    }
    var imageUrl := Field(fields, "imageUrl");
    if imageUrl.JUndefined? || imageUrl.JNull? {
      // the insert violates the non-null image URL column
      return InternalError;
    }
    var p := db.InsertPersona(u.id, name.value, description.value, imageUrl);
    resp := Created(p);
  }

  datatype PersonaList =
    | ListUnauthorized
    | ListUserNotFound
    | Listed(personas: seq<Persona>)

  /** GET /api/personas: the caller's personas, oldest first. */
  function Get(userId: Option<string>, users: map<string, User>, personas: seq<Persona>): (r: PersonaList)
    ensures (userId.None? || userId.value == "") <==> r == ListUnauthorized
    ensures r == ListUserNotFound <==> userId.Some? && userId.value != "" && userId.value !in users
    ensures r.Listed? ==>
      userId.Some? && userId.value in users &&
      (forall p :: p in r.personas <==> p in personas && p.userId == users[userId.value].id)
  {
    if userId.None? || userId.value == "" then ListUnauthorized
    else if userId.value !in users then ListUserNotFound
    else Listed(UserPersonas(personas, users[userId.value].id))
  }

  // ---- properties --------------------------------------------------------

  /** Listed personas come in strictly increasing id order, which is the
      order they were created in. */
  lemma ListedInCreationOrder(userId: Option<string>, users: map<string, User>, personas: seq<Persona>)
    requires PersonaIds(personas)
    requires Get(userId, users, personas).Listed?
    ensures Seqs.Increasing(Get(userId, users, personas).personas, (p: Persona) => p.id)
  {
    Seqs.FilterIncreasing(personas, (p: Persona) => p.userId == users[userId.value].id,
                          (p: Persona) => p.id);
  }

  /** The cap is checked before the body is read: a capped user gets the
      same 403 whatever they send. */
  lemma LimitIgnoresBody(userId: Option<string>, body1: RequestBody, body2: RequestBody,
                         users: map<string, User>, personas: seq<Persona>)
    requires PostGate(userId, body1, users, personas).Some?
    requires PostGate(userId, body1, users, personas).value.LimitReached?
    ensures PostGate(userId, body2, users, personas) == PostGate(userId, body1, users, personas)
  {
  }

  /** The cap holds on the free tier: a created persona brings its owner's
      count up by exactly one and a free user never past ten. Paid plans are
      never capped. */
  lemma {:induction false} CreateRespectsLimit(userId: Option<string>, body: RequestBody,
                                               users: map<string, User>, personas: seq<Persona>, p: Persona)
    requires PostGate(userId, body, users, personas).None?
    requires p.userId == users[userId.value].id
    ensures |UserPersonas(personas + [p], p.userId)| == |UserPersonas(personas, p.userId)| + 1
    ensures users[userId.value].plan == FREE ==>
      |UserPersonas(personas + [p], p.userId)| <= FREE_TIER_PERSONA_LIMIT
  {
    var mine := (q: Persona) => q.userId == p.userId;
    Seqs.FilterAppend(personas, [p], mine);
    assert Seqs.Filter([p], mine) == [p] by {
      assert [p][..0] == [];
    }
  }

  /** A paid user is never turned away for owning too many personas. */
  lemma PaidPlansUncapped(userId: Option<string>, body: RequestBody,
                          users: map<string, User>, personas: seq<Persona>)
    requires userId.Some? && userId.value in users && users[userId.value].plan != FREE
    ensures PostGate(userId, body, users, personas).Some? ==>
      !PostGate(userId, body, users, personas).value.LimitReached?
  {
  }
}
