/** lib/db/operations.ts: the user and credit operations. Each credit
    operation is specified by a function on the Ledger value (Deduct, Add,
    Retry) whose properties are proved as lemmas; the methods perform the same
    reads and writes on the Database and are proved to match them.

    Storage faults are an input: `readOk` says whether the user lookup returns
    (it may throw), `writeOk` whether the balance update returns a row, and
    `logOk` whether the transaction insert succeeds. Runs are sequential; the
    lost update that two concurrent read-then-write deductions can cause is not
    modelled. */
module Operations {
  import opened Values
  import opened Schema
  import opened Db
  import Seqs

  datatype StorageOutcome = StorageOutcome(readOk: bool, writeOk: bool, logOk: bool)

  /** The outcome of one credit operation: its boolean result and the ledger after it. */
  datatype Step = Step(ok: bool, after: Ledger)

  // ---- deductCredits ------------------------------------------------------

  /** deductCredits: false when the lookup fails, the user is missing, the
      balance is below `amount` or the update writes nothing; otherwise the
      balance becomes `credits - amount` and a USAGE entry of `-amount` is
      appended, unless that append fails, which is swallowed. */
  function Deduct(l: Ledger, clerkId: string, amount: int, description: Option<string>,
                  generationId: Option<nat>, env: StorageOutcome): Step
  {
    if !env.readOk then Step(false, l)
    else if clerkId !in l.users || l.users[clerkId].credits < amount then Step(false, l)
    else if !env.writeOk then Step(false, l)
    else
      var u := l.users[clerkId];
      var entry := CreditTransaction(|l.log|, u.id, -amount, USAGE, description, generationId, None);
      Step(true, Ledger(l.users[clerkId := u.(credits := u.credits - amount)],
                        if env.logOk then l.log + [entry] else l.log))
  }

  /** When a deduction succeeds: exactly that, in terms of the old ledger. */
  lemma DeductOutcome(l: Ledger, clerkId: string, amount: int, description: Option<string>,
                      generationId: Option<nat>, env: StorageOutcome)
    ensures var s := Deduct(l, clerkId, amount, description, generationId, env);
      && (s.ok <==> env.readOk && env.writeOk && clerkId in l.users && l.users[clerkId].credits >= amount)
      && (!s.ok ==> s.after == l)
      && (s.ok ==> s.after.users.Keys == l.users.Keys
                   && s.after.users[clerkId] == l.users[clerkId].(credits := l.users[clerkId].credits - amount)
                   && (forall c :: c in l.users && c != clerkId ==> s.after.users[c] == l.users[c]))
      && (s.ok && env.logOk ==> s.after.log == l.log + [CreditTransaction(|l.log|, l.users[clerkId].id, -amount,
                                                        USAGE, description, generationId, None)])
      && (s.ok && !env.logOk ==> s.after.log == l.log)
  {
  }

  /** With a non-negative amount a successful deduction never drives a
      non-negative balance below zero: the `credits < amount` guard is the
      whole overdraft protection of a sequential run. */
  lemma DeductKeepsBalanceNonNegative(l: Ledger, clerkId: string, amount: int, description: Option<string>,
                                      generationId: Option<nat>, env: StorageOutcome)
    requires amount >= 0
    requires forall c :: c in l.users ==> l.users[c].credits >= 0
    ensures var s := Deduct(l, clerkId, amount, description, generationId, env);
      forall c :: c in s.after.users ==> s.after.users[c].credits >= 0
  {
  }

  /** The refund path: with a negative amount the guard `credits < amount`
      cannot reject a non-negative balance, so with clean storage the balance
      goes up by `-amount` and the entry logged is a USAGE entry with a
      positive amount, against the column's sign convention, not a REFUND. */
  lemma NegativeDeductionIsPositiveUsage(l: Ledger, clerkId: string, amount: int, description: Option<string>,
                                         generationId: Option<nat>)
    requires amount < 0 && clerkId in l.users && l.users[clerkId].credits >= 0
    ensures var s := Deduct(l, clerkId, amount, description, generationId, StorageOutcome(true, true, true));
      && s.ok
      && s.after.users[clerkId].credits == l.users[clerkId].credits + (-amount)
      && s.after.log[|s.after.log| - 1].kind == USAGE
      && s.after.log[|s.after.log| - 1].amount > 0
      && |s.after.log| == |l.log| + 1
  {
  }

  /** A deduction keeps the table invariants. */
  lemma DeductKeepsValid(l: Ledger, n: nat, clerkId: string, amount: int, description: Option<string>,
                         generationId: Option<nat>, env: StorageOutcome)
    requires LedgerValid(l, n)
    ensures LedgerValid(Deduct(l, clerkId, amount, description, generationId, env).after, n)
  {
    var s := Deduct(l, clerkId, amount, description, generationId, env);
    if s.ok {
      var u := l.users[clerkId];
      UpdateUserKeepsValid(l.users, n, u.(credits := u.credits - amount));
    }
  }

  // ---- reconciliation of balance and log ----------------------------------

  /** The sum of the logged amounts of one user. */
  function Logged(log: seq<CreditTransaction>, userId: nat): int {
    if log == [] then 0
    else Logged(log[..|log| - 1], userId) + (if log[|log| - 1].userId == userId then log[|log| - 1].amount else 0)
  }

  lemma LoggedAppend(log: seq<CreditTransaction>, t: CreditTransaction, userId: nat)
    ensures Logged(log + [t], userId) == Logged(log, userId) + (if t.userId == userId then t.amount else 0)
  {
    assert (log + [t])[..|log|] == log;
  }

  /** The part of a balance the log does not account for: the 5 starting
      credits, plus any change whose log entry was lost. */
  function Unlogged(l: Ledger, clerkId: string): int
    requires clerkId in l.users
  {
    l.users[clerkId].credits - Logged(l.log, l.users[clerkId].id)
  }

  /** A successful deduction keeps every user's balance reconciled with the
      log when the entry is written; when the append fails, the deducting
      user's balance drifts from the log by exactly `amount`. */
  lemma DeductReconciles(l: Ledger, n: nat, clerkId: string, amount: int, description: Option<string>,
                         generationId: Option<nat>, env: StorageOutcome, other: string)
    requires LedgerValid(l, n) && other in l.users
    ensures var s := Deduct(l, clerkId, amount, description, generationId, env);
      other in s.after.users &&
      Unlogged(s.after, other)
        == Unlogged(l, other) - (if s.ok && other == clerkId && !env.logOk then amount else 0)
  {
    var s := Deduct(l, clerkId, amount, description, generationId, env);
    if s.ok && env.logOk {
      var u := l.users[clerkId];
      LoggedAppend(l.log, CreditTransaction(|l.log|, u.id, -amount, USAGE, description, generationId, None),
                   l.users[other].id);
    }
  }

  // ---- addCredits ---------------------------------------------------------

  /** addCredits: the mirror image of deductCredits without a balance
      guard. The entry carries `+amount`, the given type (PURCHASE when none is
      given) and the payment id. */
  function Add(l: Ledger, clerkId: string, amount: int, kind: Option<TransactionType>,
               description: Option<string>, paymentId: Option<string>, env: StorageOutcome): Step
  {
    if !env.readOk || clerkId !in l.users || !env.writeOk then Step(false, l)
    else
      var u := l.users[clerkId];
      var entry := CreditTransaction(|l.log|, u.id, amount, kind.GetOr(PURCHASE), description, None, paymentId);
      Step(true, Ledger(l.users[clerkId := u.(credits := u.credits + amount)],
                        if env.logOk then l.log + [entry] else l.log))
  }

  lemma AddOutcome(l: Ledger, clerkId: string, amount: int, kind: Option<TransactionType>,
                   description: Option<string>, paymentId: Option<string>, env: StorageOutcome)
    ensures var s := Add(l, clerkId, amount, kind, description, paymentId, env);
      && (s.ok <==> env.readOk && env.writeOk && clerkId in l.users)
      && (!s.ok ==> s.after == l)
      && (s.ok ==> s.after.users == l.users[clerkId := l.users[clerkId].(credits := l.users[clerkId].credits + amount)])
      && (s.ok && env.logOk ==>
            |s.after.log| == |l.log| + 1 && s.after.log[..|l.log|] == l.log
            && s.after.log[|l.log|].amount == amount && s.after.log[|l.log|].kind == kind.GetOr(PURCHASE)
            && s.after.log[|l.log|].paymentId == paymentId)
  {
  }

  lemma AddKeepsValid(l: Ledger, n: nat, clerkId: string, amount: int, kind: Option<TransactionType>,
                      description: Option<string>, paymentId: Option<string>, env: StorageOutcome)
    requires LedgerValid(l, n)
    ensures LedgerValid(Add(l, clerkId, amount, kind, description, paymentId, env).after, n)
  {
    var s := Add(l, clerkId, amount, kind, description, paymentId, env);
    if s.ok {
      var u := l.users[clerkId];
      UpdateUserKeepsValid(l.users, n, u.(credits := u.credits + amount));
    }
  }

  /** Adding with the log written keeps every user reconciled; when the
      append fails, the user's balance drifts from the log by `amount`. */
  lemma AddReconciles(l: Ledger, n: nat, clerkId: string, amount: int, kind: Option<TransactionType>,
                      description: Option<string>, paymentId: Option<string>, env: StorageOutcome, other: string)
    requires LedgerValid(l, n) && other in l.users
    ensures var s := Add(l, clerkId, amount, kind, description, paymentId, env);
      other in s.after.users &&
      Unlogged(s.after, other)
        == Unlogged(l, other) + (if s.ok && other == clerkId && !env.logOk then amount else 0)
  {
    var s := Add(l, clerkId, amount, kind, description, paymentId, env);
    if s.ok && env.logOk {
      var u := l.users[clerkId];
      LoggedAppend(l.log, CreditTransaction(|l.log|, u.id, amount, kind.GetOr(PURCHASE), description, None, paymentId),
                   l.users[other].id);
    }
  }

  // ---- deductCreditsWithRetry --------------------------------------------

  function Pow2(n: nat): nat {
    if n == 0 then 1 else 2 * Pow2(n - 1)
  }

  /** The pause after a failed attempt, in milliseconds: 2^attempt * 100. */
  function Backoff(attempt: nat): nat {
    Pow2(attempt) * 100
  }

  /** A retry run: its result, the ledger after it, the number of the last
      attempt made, and the pauses taken between attempts. */
  datatype RetryRun = RetryRun(ok: bool, after: Ledger, attempts: nat, waits: seq<nat>)

  /** deductCreditsWithRetry from attempt number `attempt` on: stop at the first
      successful deduction; after a failed one pause, unless it was the last. */
  function Retry(l: Ledger, clerkId: string, amount: int, description: Option<string>,
                 generationId: Option<nat>, retries: int, env: nat -> StorageOutcome, attempt: nat): RetryRun
    requires attempt >= 1
    decreases if attempt <= retries then retries - attempt + 1 else 0
  {
    if attempt > retries then RetryRun(false, l, attempt - 1, [])
    else
      var s := Deduct(l, clerkId, amount, description, generationId, env(attempt));
      if s.ok then RetryRun(true, s.after, attempt, [])
      else
        var rest := Retry(s.after, clerkId, amount, description, generationId, retries, env, attempt + 1);
        if attempt < retries then rest.(waits := [Backoff(attempt)] + rest.waits) else rest
  }

  /** An attempt that would succeed against ledger `l`. */
  predicate Succeeds(l: Ledger, clerkId: string, amount: int, description: Option<string>,
                     generationId: Option<nat>, env: nat -> StorageOutcome, k: nat)
  {
    Deduct(l, clerkId, amount, description, generationId, env(k)).ok
  }

  /** What a retry run from attempt `a` does. Failed attempts change nothing,
      so: it succeeds exactly when one of the attempts a..retries would succeed
      against the starting ledger; it then stops at the first such attempt and
      leaves that attempt's ledger; otherwise it leaves the ledger as it was
      after trying every attempt up to `retries`. One pause follows each failed
      attempt but the last, with the doubling back-off. */
  lemma {:induction false} RetryCharacterized(l: Ledger, clerkId: string, amount: int, description: Option<string>,
                                              generationId: Option<nat>, retries: int, env: nat -> StorageOutcome, a: nat)
    requires a >= 1
    ensures var r := Retry(l, clerkId, amount, description, generationId, retries, env, a);
      && (r.ok <==> exists k :: a <= k <= retries && Succeeds(l, clerkId, amount, description, generationId, env, k))
      && (r.ok ==> a <= r.attempts <= retries
                   && Deduct(l, clerkId, amount, description, generationId, env(r.attempts)) == Step(true, r.after)
                   && forall k :: a <= k < r.attempts ==> !Succeeds(l, clerkId, amount, description, generationId, env, k))
      && (!r.ok ==> r.after == l && r.attempts == (if retries >= a then retries else a - 1))
      && |r.waits| == (if r.attempts >= a then r.attempts - a else 0)
      && (forall i :: 0 <= i < |r.waits| ==> r.waits[i] == Backoff(a + i))
    decreases if a <= retries then retries - a + 1 else 0
  {
    if a <= retries {
      var s := Deduct(l, clerkId, amount, description, generationId, env(a));
      if !s.ok {
        RetryCharacterized(l, clerkId, amount, description, generationId, retries, env, a + 1);
        var r := Retry(l, clerkId, amount, description, generationId, retries, env, a);
        var rest := Retry(l, clerkId, amount, description, generationId, retries, env, a + 1);
        if r.ok {
          var k :| a + 1 <= k <= retries && Succeeds(l, clerkId, amount, description, generationId, env, k);
        }
        if exists k :: a <= k <= retries && Succeeds(l, clerkId, amount, description, generationId, env, k) {
          var k :| a <= k <= retries && Succeeds(l, clerkId, amount, description, generationId, env, k);
          assert k != a;
        }
        if a < retries {
          assert r.waits == [Backoff(a)] + rest.waits;
          forall i | 0 <= i < |r.waits| ensures r.waits[i] == Backoff(a + i) {
            if i > 0 {
              assert r.waits[i] == rest.waits[i - 1];
            }
          }
        } else {
          assert r == rest;
        }
      } else {
        assert Succeeds(l, clerkId, amount, description, generationId, env, a);
      }
    }
  }

  /** The attempt budget: the run makes at most `retries` attempts (none when
      `retries < 1`) and pauses only between attempts. */
  lemma RetryWithinBudget(l: Ledger, clerkId: string, amount: int, description: Option<string>,
                          generationId: Option<nat>, retries: int, env: nat -> StorageOutcome)
    ensures var r := Retry(l, clerkId, amount, description, generationId, retries, env, 1);
      && r.attempts <= (if retries >= 0 then retries else 0)
      && (retries < 1 ==> !r.ok && r.attempts == 0 && r.after == l)
      && |r.waits| == (if r.attempts >= 1 then r.attempts - 1 else 0)
      && (forall i :: 0 <= i < |r.waits| ==> r.waits[i] == Pow2(i + 1) * 100)
  {
    RetryCharacterized(l, clerkId, amount, description, generationId, retries, env, 1);
  }

  /** deductCredits returns false for insufficient funds just as for a storage
      fault, so the retry loop retries a balance that is too low: every one of
      the `retries` attempts is made, with the pauses, and the run still fails. */
  lemma InsufficientFundsIsRetried(l: Ledger, clerkId: string, amount: int, description: Option<string>,
                                   generationId: Option<nat>, retries: int, env: nat -> StorageOutcome)
    requires clerkId in l.users && l.users[clerkId].credits < amount && retries >= 1
    ensures var r := Retry(l, clerkId, amount, description, generationId, retries, env, 1);
      !r.ok && r.after == l && r.attempts == retries && |r.waits| == retries - 1
  {
    RetryCharacterized(l, clerkId, amount, description, generationId, retries, env, 1);
  }

  /** One attempt whose lookup and update both go through is enough: a user
      whose balance covers the amount is charged by the run, once. */
  lemma RetrySucceedsOnCleanAttempt(l: Ledger, clerkId: string, amount: int, description: Option<string>,
                                    generationId: Option<nat>, retries: int, env: nat -> StorageOutcome, k: nat)
    requires clerkId in l.users && l.users[clerkId].credits >= amount
    requires 1 <= k <= retries && env(k).readOk && env(k).writeOk
    ensures var r := Retry(l, clerkId, amount, description, generationId, retries, env, 1);
      r.ok && r.after.users == l.users[clerkId := l.users[clerkId].(credits := l.users[clerkId].credits - amount)]
  {
    RetryCharacterized(l, clerkId, amount, description, generationId, retries, env, 1);
    assert Succeeds(l, clerkId, amount, description, generationId, env, k);
  }

  /** A retry run keeps the table invariants. */
  lemma RetryKeepsValid(l: Ledger, n: nat, clerkId: string, amount: int, description: Option<string>,
                        generationId: Option<nat>, retries: int, env: nat -> StorageOutcome)
    requires LedgerValid(l, n)
    ensures LedgerValid(Retry(l, clerkId, amount, description, generationId, retries, env, 1).after, n)
  {
    RetryCharacterized(l, clerkId, amount, description, generationId, retries, env, 1);
    var r := Retry(l, clerkId, amount, description, generationId, retries, env, 1);
    if r.ok {
      DeductKeepsValid(l, n, clerkId, amount, description, generationId, env(r.attempts));
    }
  }

  /** Some attempt among 1..retries whose lookup and update both return. */
  predicate StorageAnswers(env: nat -> StorageOutcome, retries: int) {
    exists k :: 1 <= k <= retries && env(k).readOk && env(k).writeOk
  }

  /** The net effect of a retry run: it succeeds exactly when the user exists,
      can pay, and some attempt's storage calls return; the balance has then
      moved by `amount` once and the log holds at most that one USAGE entry
      more. A failed run changes nothing. */
  lemma RetryNetEffect(l: Ledger, clerkId: string, amount: int, description: Option<string>,
                       generationId: Option<nat>, retries: int, env: nat -> StorageOutcome)
    ensures var r := Retry(l, clerkId, amount, description, generationId, retries, env, 1);
      && (r.ok <==> clerkId in l.users && l.users[clerkId].credits >= amount && StorageAnswers(env, retries))
      && (!r.ok ==> r.after == l)
      && (r.ok ==>
            && r.after.users == l.users[clerkId := l.users[clerkId].(credits := l.users[clerkId].credits - amount)]
            && (|| r.after.log == l.log
                || r.after.log == l.log + [CreditTransaction(|l.log|, l.users[clerkId].id, -amount, USAGE,
                                                             description, generationId, None)]))
  {
    RetryCharacterized(l, clerkId, amount, description, generationId, retries, env, 1);
    var r := Retry(l, clerkId, amount, description, generationId, retries, env, 1);
    if clerkId in l.users && l.users[clerkId].credits >= amount && StorageAnswers(env, retries) {
      var k :| 1 <= k <= retries && env(k).readOk && env(k).writeOk;
      assert Succeeds(l, clerkId, amount, description, generationId, env, k);
    }
    if r.ok {
      var k :| 1 <= k <= retries && Succeeds(l, clerkId, amount, description, generationId, env, k);
      assert env(k).readOk && env(k).writeOk;
    }
  }

  // ---- the methods on the database ----------------------------------------

  method DeductCredits(db: Database, clerkId: string, amount: int, description: Option<string>,
                       generationId: Option<nat>, env: StorageOutcome) returns (ok: bool)
    requires db.Valid()
    modifies db`users, db`transactions
    ensures db.Valid()
    ensures Step(ok, db.LedgerOf()) == Deduct(old(db.LedgerOf()), clerkId, amount, description, generationId, env)
  {
    ghost var l := db.LedgerOf();
    DeductKeepsValid(l, db.nextUserId, clerkId, amount, description, generationId, env);
    if !env.readOk {
      return false;
    }
    var user := FindUser(db.users, clerkId);
    if user.None? || user.value.credits < amount {
      return false;
    }
    if !env.writeOk {
      return false;
    }
    var u := user.value;
    var log := db.transactions;
    if env.logOk {
      log := log + [CreditTransaction(|log|, u.id, -amount, USAGE, description, generationId, None)];
    }
    var users := db.users[clerkId := u.(credits := u.credits - amount)];
    assert Ledger(users, log) == Deduct(l, clerkId, amount, description, generationId, env).after;
    // the balance update, then the ledger insert
    db.users, db.transactions := users, log;
    ok := true;
  }

  method AddCredits(db: Database, clerkId: string, amount: int, kind: Option<TransactionType>,
                    description: Option<string>, paymentId: Option<string>, env: StorageOutcome) returns (ok: bool)
    requires kind != Some(USAGE)
    requires db.Valid()
    modifies db`users, db`transactions
    ensures db.Valid()
    ensures Step(ok, db.LedgerOf()) == Add(old(db.LedgerOf()), clerkId, amount, kind, description, paymentId, env)
  {
    ghost var l := db.LedgerOf();
    AddKeepsValid(l, db.nextUserId, clerkId, amount, kind, description, paymentId, env);
    if !env.readOk {
      return false;
    }
    var user := FindUser(db.users, clerkId);
    if user.None? {
      return false;
    }
    if !env.writeOk {
      return false;
    }
    var u := user.value;
    var log := db.transactions;
    if env.logOk {
      log := log + [CreditTransaction(|log|, u.id, amount, kind.GetOr(PURCHASE), description, None, paymentId)];
    }
    var users := db.users[clerkId := u.(credits := u.credits + amount)];
    assert Ledger(users, log) == Add(l, clerkId, amount, kind, description, paymentId, env).after;
    // the balance update, then the ledger insert
    db.users, db.transactions := users, log;
    ok := true;
  }

  /** One turn of the attempt loop, as the run unfolds it. */
  lemma RetryStep(l: Ledger, clerkId: string, amount: int, description: Option<string>,
                  generationId: Option<nat>, retries: int, env: nat -> StorageOutcome, attempt: nat)
    requires 1 <= attempt <= retries
    ensures var s := Deduct(l, clerkId, amount, description, generationId, env(attempt));
      var run := Retry(l, clerkId, amount, description, generationId, retries, env, attempt);
      var rest := Retry(l, clerkId, amount, description, generationId, retries, env, attempt + 1);
      && (s.ok ==> run == RetryRun(true, s.after, attempt, []))
      && (!s.ok ==> s.after == l && run == if attempt < retries then rest.(waits := [Backoff(attempt)] + rest.waits) else rest)
  {
  }

  const DEFAULT_RETRIES: int := 3

  /** The attempt loop; `waits` are the pauses it sleeps, in milliseconds. */
  /** The loop's invariant before attempt `attempt`: the run from here on,
      with the pauses already taken in front, is the whole run. */
  ghost predicate RunSoFar(whole: RetryRun, l: Ledger, clerkId: string, amount: int, description: Option<string>,
                           generationId: Option<nat>, retries: int, env: nat -> StorageOutcome, attempt: nat,
                           waits: seq<nat>)
    requires attempt >= 1
  {
    var r := Retry(l, clerkId, amount, description, generationId, retries, env, attempt);
    whole.ok == r.ok && whole.after == r.after && whole.waits == waits + r.waits
  }

  method DeductCreditsWithRetry(db: Database, clerkId: string, amount: int, description: Option<string>,
                                generationId: Option<nat>, retries: int, env: nat -> StorageOutcome)
    returns (ok: bool, waits: seq<nat>)
    requires db.Valid()
    modifies db`users, db`transactions
    ensures db.Valid()
    ensures var r := Retry(old(db.LedgerOf()), clerkId, amount, description, generationId, retries, env, 1);
      ok == r.ok && db.LedgerOf() == r.after && waits == r.waits
  {
    ghost var l := db.LedgerOf();
    ghost var whole := Retry(l, clerkId, amount, description, generationId, retries, env, 1);
    waits := [];
    assert [] + whole.waits == whole.waits;
    var attempt := 1;
    while attempt <= retries
      invariant attempt >= 1
      invariant db.Valid() && db.LedgerOf() == l
      invariant RunSoFar(whole, l, clerkId, amount, description, generationId, retries, env, attempt, waits)
      decreases retries - attempt
    {
      var success;
      success, waits := Attempt(db, clerkId, amount, description, generationId, retries, env, attempt, l, whole, waits);
      if success {
        return true, waits;
      }
      attempt := attempt + 1;
    }
    assert waits + [] == waits;
    ok := false;
  }

  /** One turn of the loop: a deduction attempt, and the pause after it
      when it fails and is not the last. */
  method Attempt(db: Database, clerkId: string, amount: int, description: Option<string>,
                 generationId: Option<nat>, retries: int, env: nat -> StorageOutcome, attempt: nat,
                 ghost l: Ledger, ghost whole: RetryRun, waits: seq<nat>)
    returns (success: bool, waits': seq<nat>)
    requires db.Valid() && db.LedgerOf() == l && 1 <= attempt <= retries
    requires RunSoFar(whole, l, clerkId, amount, description, generationId, retries, env, attempt, waits)
    modifies db`users, db`transactions
    ensures db.Valid()
    ensures success ==> whole.ok && db.LedgerOf() == whole.after && waits' == whole.waits
    ensures !success ==> db.LedgerOf() == l
    ensures !success ==> RunSoFar(whole, l, clerkId, amount, description, generationId, retries, env, attempt + 1, waits')
  {
    RetryStep(l, clerkId, amount, description, generationId, retries, env, attempt);
    ghost var rest := Retry(l, clerkId, amount, description, generationId, retries, env, attempt + 1);
    success := DeductCredits(db, clerkId, amount, description, generationId, env(attempt));
    waits' := waits;
    if success {
      assert waits + [] == waits;
    } else if attempt < retries {
      assert waits + ([Backoff(attempt)] + rest.waits) == (waits + [Backoff(attempt)]) + rest.waits;
      waits' := waits + [Backoff(attempt)];
    }
  }

  // ---- reads ---------------------------------------------------------------

  /** getUserCredits: `user?.credits || 0`. */
  function GetUserCredits(l: Ledger, clerkId: string): (r: int)
    ensures clerkId !in l.users ==> r == 0
    ensures clerkId in l.users ==> r == l.users[clerkId].credits
  {
    match FindUser(l.users, clerkId)
    case None => 0
    case Some(u) => u.credits
  }

  const DEFAULT_HISTORY_LIMIT: nat := 50

  /** getCreditHistory: the user's entries newest first, at most `limit`
      (50 when none is given); nothing for an unknown user. */
  function GetCreditHistory(l: Ledger, clerkId: string, limit: Option<nat>): (r: seq<CreditTransaction>)
    ensures clerkId !in l.users ==> r == []
    ensures |r| <= limit.GetOr(50)
    ensures clerkId in l.users ==> forall i :: 0 <= i < |r| ==> r[i] in l.log && r[i].userId == l.users[clerkId].id
    ensures clerkId in l.users && |r| < limit.GetOr(50) ==>
      forall i :: 0 <= i < |l.log| && l.log[i].userId == l.users[clerkId].id ==> l.log[i] in r
  {
    match FindUser(l.users, clerkId)
    case None => []
    case Some(u) => Seqs.NewestFirst(l.log, (t: CreditTransaction) => t.userId == u.id, limit.GetOr(DEFAULT_HISTORY_LIMIT))
  }

  /** The history is newest first: its entry ids strictly decrease. */
  lemma CreditHistoryNewestFirst(l: Ledger, clerkId: string, limit: Option<nat>)
    requires TransactionIds(l.log)
    ensures Seqs.Decreasing(GetCreditHistory(l, clerkId, limit), (t: CreditTransaction) => t.id)
  {
    if clerkId in l.users {
      var u := l.users[clerkId];
      Seqs.NewestFirstDecreasing(l.log, (t: CreditTransaction) => t.userId == u.id,
                                 limit.GetOr(DEFAULT_HISTORY_LIMIT), (t: CreditTransaction) => t.id);
    }
  }

  /** When the user has more than `limit` entries, the ones left out are the
      oldest: an entry in the history is followed there by every later entry
      of the same user. */
  lemma CreditHistoryKeepsNewest(l: Ledger, clerkId: string, limit: Option<nat>)
    requires TransactionIds(l.log)
    ensures var r := GetCreditHistory(l, clerkId, limit);
      clerkId in l.users ==>
        forall i, j ::
          (0 <= i < j < |l.log| && l.log[i].userId == l.users[clerkId].id &&
           l.log[j].userId == l.users[clerkId].id && l.log[i] in r) ==> l.log[j] in r
  {
    if clerkId in l.users {
      var u := l.users[clerkId];
      Seqs.NewestFirstKeepsNewest(l.log, (t: CreditTransaction) => t.userId == u.id,
                                  limit.GetOr(DEFAULT_HISTORY_LIMIT), (t: CreditTransaction) => t.id);
    }
  }

  datatype UserWithStats = UserWithStats(user: User, recentGenerations: seq<Generation>, totalGenerations: nat)

  const RECENT_GENERATIONS: nat := 10

  /** getUserWithStats: the user's ten newest generations and the number of
      their COMPLETED generations. */
  function GetUserWithStats(users: map<string, User>, gens: seq<Generation>, clerkId: string): (r: Option<UserWithStats>)
    ensures r.Some? <==> clerkId in users
    ensures r.Some? ==> r.value.user == users[clerkId] && |r.value.recentGenerations| <= 10
    ensures r.Some? ==> forall i :: 0 <= i < |r.value.recentGenerations| ==>
      r.value.recentGenerations[i] in gens && r.value.recentGenerations[i].userId == users[clerkId].id
    ensures r.Some? && |r.value.recentGenerations| < RECENT_GENERATIONS ==>
      forall g :: g in gens && g.userId == users[clerkId].id ==> g in r.value.recentGenerations
  {
    match FindUser(users, clerkId)
    case None => None
    case Some(u) =>
      Some(UserWithStats(u,
        Seqs.NewestFirst(gens, (g: Generation) => g.userId == u.id, RECENT_GENERATIONS),
        Seqs.Count(gens, (g: Generation) => g.userId == u.id && g.status == COMPLETED)))
  }

  /** The recent generations are the user's ten newest, newest first: their
      ids strictly decrease, and a generation listed is followed there by
      every later generation of the user. */
  lemma RecentGenerationsNewestFirst(users: map<string, User>, gens: seq<Generation>, clerkId: string)
    requires GenerationIds(gens) && clerkId in users
    ensures var r := GetUserWithStats(users, gens, clerkId).value.recentGenerations;
      && Seqs.Decreasing(r, (g: Generation) => g.id)
      && forall i, j ::
           (0 <= i < j < |gens| && gens[i].userId == users[clerkId].id &&
            gens[j].userId == users[clerkId].id && gens[i] in r) ==> gens[j] in r
  {
    var u := users[clerkId];
    Seqs.NewestFirstDecreasing(gens, (g: Generation) => g.userId == u.id, RECENT_GENERATIONS, (g: Generation) => g.id);
    Seqs.NewestFirstKeepsNewest(gens, (g: Generation) => g.userId == u.id, RECENT_GENERATIONS, (g: Generation) => g.id);
  }

  /** Only COMPLETED generations count: adding a row in any other status
      leaves the total as it was, adding a COMPLETED row of the user adds one. */
  lemma CompletedCountOnAppend(users: map<string, User>, gens: seq<Generation>, clerkId: string, g: Generation)
    requires clerkId in users
    ensures GetUserWithStats(users, gens + [g], clerkId).value.totalGenerations
      == GetUserWithStats(users, gens, clerkId).value.totalGenerations
         + (if g.userId == users[clerkId].id && g.status == COMPLETED then 1 else 0)
  {
    assert (gens + [g])[..|gens|] == gens;
  }

  // ---- createOrUpdateUser --------------------------------------------------

  /** The identity provider's view of a user. */
  datatype ClerkUser = ClerkUser(
    id: string,
    emailAddresses: seq<string>,
    firstName: Maybe<string>,
    lastName: Maybe<string>,
    imageUrl: Maybe<string>)

  datatype UserError = NoEmailFound | UniqueViolation

  /** `emailAddresses[0]?.emailAddress`, empty when there is none. */
  function PrimaryEmail(c: ClerkUser): string {
    if |c.emailAddresses| > 0 then c.emailAddresses[0] else ""
  }

  /** An update's `set`: undefined keeps the column, null clears it. */
  function SetColumn(m: Maybe<string>, current: Option<string>): Option<string> {
    match m
    case Undefined => current
    case Null => None
    case Value(v) => Some(v)
  }

  function InsertColumn(m: Maybe<string>): Option<string> {
    match m
    case Value(v) => Some(v)
    case _ => None
  }

  /** createOrUpdateUser. A missing or empty email throws before any query;
      an email held by another user violates the unique constraint. */
  method CreateOrUpdateUser(db: Database, c: ClerkUser) returns (r: Result<User, UserError>)
    requires db.Valid()
    modifies db`users, db`nextUserId
    ensures db.Valid()
    ensures r == Err(NoEmailFound) <==> PrimaryEmail(c) == ""
    ensures r.Ok? <==> PrimaryEmail(c) != "" && EmailFree(old(db.users), c.id, PrimaryEmail(c))
    ensures r == Err(UniqueViolation) <==> PrimaryEmail(c) != "" && !EmailFree(old(db.users), c.id, PrimaryEmail(c))
    ensures r.Err? ==> db.users == old(db.users)
    ensures r.Ok? ==> db.users == old(db.users)[c.id := r.value]
    ensures r.Ok? ==> r.value.clerkId == c.id && r.value.email == PrimaryEmail(c)
    ensures r.Ok? && c.id in old(db.users) ==>
      var u := old(db.users)[c.id];
      r.value == u.(email := PrimaryEmail(c), firstName := SetColumn(c.firstName, u.firstName),
                    lastName := SetColumn(c.lastName, u.lastName), imageUrl := SetColumn(c.imageUrl, u.imageUrl))
    ensures r.Ok? && c.id !in old(db.users) ==>
      && r.value == UserRow(old(db.nextUserId), NewUser(c.id, PrimaryEmail(c), InsertColumn(c.firstName),
                                                        InsertColumn(c.lastName), InsertColumn(c.imageUrl),
                                                        None, Some(DEFAULT_CREDITS)))
      && r.value.credits == 5 && r.value.plan == FREE
      && db.nextUserId == old(db.nextUserId) + 1
    ensures (r.Err? || c.id in old(db.users)) ==> db.nextUserId == old(db.nextUserId)
  {
    var email := PrimaryEmail(c);
    if email == "" {
      return Err(NoEmailFound);
    }
    if !EmailFree(db.users, c.id, email) {
      return Err(UniqueViolation);
    }
    var existing := FindUser(db.users, c.id);
    if existing.Some? {
      var u := existing.value;
      var updated := u.(email := email, firstName := SetColumn(c.firstName, u.firstName),
                        lastName := SetColumn(c.lastName, u.lastName), imageUrl := SetColumn(c.imageUrl, u.imageUrl));
      UpdateUserKeepsValid(db.users, db.nextUserId, updated);
      db.users := db.users[c.id := updated];
      r := Ok(updated);
    } else {
      var values := NewUser(c.id, email, InsertColumn(c.firstName), InsertColumn(c.lastName),
                            InsertColumn(c.imageUrl), None, Some(DEFAULT_CREDITS));
      InsertUserKeepsValid(db.users, db.nextUserId, values);
      var row := UserRow(db.nextUserId, values);
      db.users := db.users[c.id := row];
      db.nextUserId := db.nextUserId + 1;
      r := Ok(row);
    }
  }
}
