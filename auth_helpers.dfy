/** lib/auth-helpers.ts: `ensureUserExists`, the get-or-create that gives a
    signed-in identity its account row on first use. */
module AuthHelpers {
  import opened Values
  import opened Schema
  import opened Db
  import Operations

  const CREATE_FAILED_PREFIX: string := "Failed to create user: "
  const NO_PROVIDER_USER: string := "Unable to fetch user details from Clerk"

  /** `v || ""` for a profile field that may be missing or null. */
  function OrEmpty(m: Maybe<string>): (r: string)
    ensures m.Value? ==> r == m.value
    ensures !m.Value? ==> r == ""
  {
    if m.Value? then m.value else ""
  }

  /** The row's values for a new account: every profile column defaults to
      the empty string, the plan is FREE and the balance 5 credits. */
  function NewAccount(clerkId: string, c: Operations.ClerkUser): (v: NewUser)
    ensures v.clerkId == clerkId && v.email == Operations.PrimaryEmail(c)
    ensures v.firstName == Some(OrEmpty(c.firstName)) && v.lastName == Some(OrEmpty(c.lastName))
    ensures v.imageUrl == Some(OrEmpty(c.imageUrl))
    ensures UserRow(0, v).plan == FREE && UserRow(0, v).credits == 5
  {
    NewUser(clerkId, Operations.PrimaryEmail(c), Some(OrEmpty(c.firstName)), Some(OrEmpty(c.lastName)),
            Some(OrEmpty(c.imageUrl)), Some(FREE), Some(DEFAULT_CREDITS))
  }

  /** ensureUserExists. `current` is what the identity provider returns for
      the signed-in user, and `uniqueViolation` the database's message when
      the new row's email is already taken; an insert error is re-thrown
      with the "Failed to create user: " prefix. */
  method EnsureUserExists(db: Database, clerkId: string, current: Option<Operations.ClerkUser>,
                          uniqueViolation: string) returns (r: Result<User, string>)
    requires db.Valid()
    modifies db`users, db`nextUserId
    ensures db.Valid()
    ensures clerkId in old(db.users) ==>
      r == Ok(old(db.users)[clerkId]) && db.users == old(db.users) && db.nextUserId == old(db.nextUserId)
    ensures clerkId !in old(db.users) && current.None? ==>
      r == Err(CREATE_FAILED_PREFIX + NO_PROVIDER_USER) && db.users == old(db.users)
    ensures clerkId !in old(db.users) && current.Some? &&
            !EmailFree(old(db.users), clerkId, Operations.PrimaryEmail(current.value)) ==>
      r == Err(CREATE_FAILED_PREFIX + uniqueViolation) && db.users == old(db.users)
    ensures clerkId !in old(db.users) && current.Some? &&
            EmailFree(old(db.users), clerkId, Operations.PrimaryEmail(current.value)) ==>
      r == Ok(UserRow(old(db.nextUserId), NewAccount(clerkId, current.value))) &&
      db.users == old(db.users)[clerkId := r.value] && db.nextUserId == old(db.nextUserId) + 1
    ensures r.Ok? ==> clerkId in db.users && db.users[clerkId] == r.value
    ensures forall c :: c in old(db.users) ==> c in db.users && db.users[c] == old(db.users)[c]
  {
    var existing := FindUser(db.users, clerkId);
    if existing.Some? {
      return Ok(existing.value);
    }
    if current.None? {
      return Err(CREATE_FAILED_PREFIX + NO_PROVIDER_USER);
    }
    var values := NewAccount(clerkId, current.value);
    if !EmailFree(db.users, clerkId, values.email) {
      return Err(CREATE_FAILED_PREFIX + uniqueViolation);
    }
    InsertUserKeepsValid(db.users, db.nextUserId, values);
    var row := UserRow(db.nextUserId, values);
    db.users := db.users[clerkId := row];
    db.nextUserId := db.nextUserId + 1;
    r := Ok(row);
  }
}
