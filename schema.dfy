/** The tables of lib/db/schema.ts as Dafny values: enumerations, row types,
    the column defaults applied on insert, and the generation lifecycle the
    status column goes through. Row ids are natural numbers handed out in
    insertion order (the source draws random UUIDs); `createdAt` order is
    therefore insertion order. */
module Schema {
  import opened Values

  datatype Plan = FREE | CREATOR | PRO
  datatype GenerationStatus = PENDING | PROCESSING | COMPLETED | FAILED
  datatype TransactionType = PURCHASE | USAGE | REFUND | BONUS

  /** The enum value as it is stored and rendered. */
  function PlanName(p: Plan): string {
    match p
    case FREE => "FREE"
    case CREATOR => "CREATOR"
    case PRO => "PRO"
  }

  const DEFAULT_PLAN: Plan := FREE
  /** Free tier starts with 5 credits. */
  const DEFAULT_CREDITS: int := 5
  const DEFAULT_STATUS: GenerationStatus := PENDING
  const DEFAULT_CREDITS_USED: int := 1
  const DEFAULT_WIDTH: int := 1280
  const DEFAULT_HEIGHT: int := 720
  const DEFAULT_USAGE_COUNT: int := 0

  datatype User = User(
    id: nat,
    clerkId: string,
    email: string,
    firstName: Option<string>,
    lastName: Option<string>,
    imageUrl: Option<string>,
    plan: Plan,
    credits: int)

  datatype Generation = Generation(
    id: nat,
    userId: nat,
    prompt: string,
    enhancedPrompt: Option<string>,
    imageUrl: Option<string>,
    status: GenerationStatus,
    creditsUsed: int,
    width: Option<int>,
    height: Option<int>,
    styleId: Option<nat>,
    personaId: Option<nat>)

  /** One ledger entry; by the column's comment the amount is positive for
      purchases and negative for usage. */
  datatype CreditTransaction = CreditTransaction(
    id: nat,
    userId: nat,
    amount: int,
    kind: TransactionType,
    description: Option<string>,
    generationId: Option<nat>,
    paymentId: Option<string>)

  /** A style row. `extractedMeta` is the column the styles route writes; the
      JSON style columns it never sets are not modelled. */
  datatype Style = Style(
    id: nat,
    userId: nat,
    name: string,
    description: Option<string>,
    extractedMeta: Option<string>,
    isPublic: bool,
    usageCount: int)

  /** A reference image of a style, as the styles route inserts it. The table
      itself is declared in lib/db/index.ts, which is not part of this model. */
  datatype StyleImage = StyleImage(styleId: nat, imageUrl: Json, order: nat)

  /** A persona row. Its image URL column is a non-null text column; the
      value is kept as the request supplied it. */
  datatype Persona = Persona(
    id: nat,
    userId: nat,
    name: string,
    description: Option<string>,
    imageUrl: Json,
    usageCount: int)

  // ---- inserts and column defaults --------------------------------------

  /** The values an insert into `users` names; a None column takes its default. */
  datatype NewUser = NewUser(
    clerkId: string,
    email: string,
    firstName: Option<string>,
    lastName: Option<string>,
    imageUrl: Option<string>,
    plan: Option<Plan>,
    credits: Option<int>)

  function UserRow(id: nat, v: NewUser): (u: User)
    ensures u.id == id && u.clerkId == v.clerkId && u.email == v.email
    ensures u.plan == v.plan.GetOr(FREE) && u.credits == v.credits.GetOr(5)
  {
    User(id, v.clerkId, v.email, v.firstName, v.lastName, v.imageUrl,
         v.plan.GetOr(DEFAULT_PLAN), v.credits.GetOr(DEFAULT_CREDITS))
  }

  /** The values an insert into `generations` names. `width` and `height` are
      nullable columns with defaults: an omitted value takes the default, an
      explicit null stays null. */
  datatype NewGeneration = NewGeneration(
    userId: nat,
    prompt: string,
    status: Option<GenerationStatus>,
    creditsUsed: Option<int>,
    width: Maybe<int>,
    height: Maybe<int>)

  function DefaultedColumn(m: Maybe<int>, default: int): (r: Option<int>)
    ensures m.Undefined? ==> r == Some(default)
    ensures m.Null? ==> r == None
    ensures m.Value? ==> r == Some(m.value)
  {
    match m
    case Undefined => Some(default)
    case Null => None
    case Value(v) => Some(v)
  }

  function GenerationRow(id: nat, v: NewGeneration): (g: Generation)
    ensures g.id == id && g.userId == v.userId && g.prompt == v.prompt
    ensures g.status == v.status.GetOr(PENDING) && g.creditsUsed == v.creditsUsed.GetOr(1)
    ensures v.width.Undefined? ==> g.width == Some(1280)
    ensures v.height.Undefined? ==> g.height == Some(720)
    ensures g.imageUrl.None? && g.enhancedPrompt.None? && g.styleId.None? && g.personaId.None?
  {
    Generation(id, v.userId, v.prompt, None, None, v.status.GetOr(DEFAULT_STATUS),
               v.creditsUsed.GetOr(DEFAULT_CREDITS_USED),
               DefaultedColumn(v.width, DEFAULT_WIDTH), DefaultedColumn(v.height, DEFAULT_HEIGHT),
               None, None)
  }

  function StyleRow(id: nat, userId: nat, name: string, description: Option<string>,
                    extractedMeta: Option<string>): (s: Style)
    ensures s.id == id && s.userId == userId && s.name == name
    ensures !s.isPublic && s.usageCount == 0
  {
    Style(id, userId, name, description, extractedMeta, false, DEFAULT_USAGE_COUNT)
  }

  function PersonaRow(id: nat, userId: nat, name: string, description: Option<string>,
                      imageUrl: Json): (p: Persona)
    ensures p.id == id && p.userId == userId && p.name == name && p.imageUrl == imageUrl
    ensures p.usageCount == 0
  {
    Persona(id, userId, name, description, imageUrl, DEFAULT_USAGE_COUNT)
  }

  // ---- table invariants --------------------------------------------------

  /** The users table keyed by `clerkId`: each key is its row's `clerkId`,
      and `id` and `email` are unique (the unique and primary-key constraints). */
  ghost predicate UsersValid(users: map<string, User>, nextId: nat) {
    && (forall c :: c in users ==> users[c].clerkId == c && users[c].id < nextId)
    && (forall a, b :: a in users && b in users && a != b ==> users[a].id != users[b].id)
    && (forall a, b :: a in users && b in users && a != b ==> users[a].email != users[b].email)
  }

  /** True when no user other than `clerkId` has this email. */
  predicate EmailFree(users: map<string, User>, clerkId: string, email: string) {
    forall c :: c in users && c != clerkId ==> users[c].email != email
  }

  /** Rows of an append-only table carry their position as id. */
  ghost predicate TransactionIds(log: seq<CreditTransaction>) {
    forall i :: 0 <= i < |log| ==> log[i].id == i
  }

  ghost predicate GenerationIds(gens: seq<Generation>) {
    forall i :: 0 <= i < |gens| ==> gens[i].id == i
  }

  ghost predicate StyleIds(styles: seq<Style>) {
    forall i :: 0 <= i < |styles| ==> styles[i].id == i
  }

  /** Every style image belongs to one of the first `n` styles (the foreign key). */
  ghost predicate StyleImagesOf(images: seq<StyleImage>, n: nat) {
    forall i :: 0 <= i < |images| ==> images[i].styleId < n
  }

  ghost predicate PersonaIds(personas: seq<Persona>) {
    forall i :: 0 <= i < |personas| ==> personas[i].id == i
  }

  /** Inserting a user whose clerkId and email are both unused keeps the table
      valid: the unique constraints are what the insert checks. */
  lemma InsertUserKeepsValid(users: map<string, User>, nextId: nat, v: NewUser)
    requires UsersValid(users, nextId)
    requires v.clerkId !in users && EmailFree(users, v.clerkId, v.email)
    ensures UsersValid(users[v.clerkId := UserRow(nextId, v)], nextId + 1)
  {
  }

  /** Updating a user in place keeps the table valid when the id and clerkId
      stay and the email stays unique. */
  lemma UpdateUserKeepsValid(users: map<string, User>, nextId: nat, u: User)
    requires UsersValid(users, nextId)
    requires u.clerkId in users && u.id == users[u.clerkId].id
    requires EmailFree(users, u.clerkId, u.email)
    ensures UsersValid(users[u.clerkId := u], nextId)
  {
  }

  // ---- the generation lifecycle -----------------------------------------

  predicate Terminal(s: GenerationStatus) {
    s == COMPLETED || s == FAILED
  }

  /** The moves a record's status can make: PENDING to any later state,
      PROCESSING to a terminal state, and nothing out of a terminal state. */
  predicate Advances(a: GenerationStatus, b: GenerationStatus) {
    match a
    case PENDING => b != PENDING
    case PROCESSING => Terminal(b)
    case COMPLETED => false
    case FAILED => false
  }

  /** One status history per record, each ending in the record's current status. */
  ghost predicate StatusLogOf(log: seq<seq<GenerationStatus>>, gens: seq<Generation>) {
    && |log| == |gens|
    && forall i :: 0 <= i < |gens| ==> |log[i]| >= 1 && log[i][|log[i]| - 1] == gens[i].status
  }

  function Rank(s: GenerationStatus): nat {
    match s
    case PENDING => 0
    case PROCESSING => 1
    case COMPLETED => 2
    case FAILED => 2
  }

  /** The successive statuses written to one record. */
  predicate IsLifecycle(trace: seq<GenerationStatus>) {
    |trace| >= 1 && forall i :: 0 <= i < |trace| - 1 ==> Advances(trace[i], trace[i + 1])
  }

  /** Along a lifecycle the status only moves forward: its rank grows by at
      least one per write, so no record is written more than three times and a
      terminal status, once reached, is the last. */
  lemma {:induction false} LifecycleMovesForward(trace: seq<GenerationStatus>)
    requires IsLifecycle(trace)
    ensures forall i :: 0 <= i < |trace| ==> Rank(trace[i]) >= Rank(trace[0]) + i
    ensures |trace| <= 3
    ensures forall i :: 0 <= i < |trace| && Terminal(trace[i]) ==> i == |trace| - 1
    decreases |trace|
  {
    if |trace| > 1 {
      var rest := trace[1..];
      assert IsLifecycle(rest) by {
        forall i | 0 <= i < |rest| - 1 ensures Advances(rest[i], rest[i + 1]) {
          assert rest[i] == trace[i + 1] && rest[i + 1] == trace[i + 2];
        }
      }
      LifecycleMovesForward(rest);
      assert Advances(trace[0], trace[1]);
      forall i | 1 <= i < |trace| ensures Rank(trace[i]) >= Rank(trace[0]) + i {
        assert trace[i] == rest[i - 1];
      }
      assert Rank(trace[|trace| - 1]) <= 2;
    }
  }
}
