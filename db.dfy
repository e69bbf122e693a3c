/** The database the handlers share (lib/db/index.ts is not part of this
    model): one field per table the core touches. Tables are append-only
    sequences in insertion order, except `users`, which is keyed by the
    identity provider's id (`clerkId`). */
module Db {
  import opened Values
  import opened Schema

  /** The part of the database the credit operations read and write. */
  datatype Ledger = Ledger(users: map<string, User>, log: seq<CreditTransaction>)

  ghost predicate LedgerValid(l: Ledger, nextUserId: nat) {
    UsersValid(l.users, nextUserId) && TransactionIds(l.log)
  }

  class Database {
    var users: map<string, User>
    var nextUserId: nat
    var transactions: seq<CreditTransaction>
    var generations: seq<Generation>
    var styles: seq<Style>
    var styleImages: seq<StyleImage>
    var personas: seq<Persona>
    /** The statuses each generation record has held, oldest first: the one
        it was inserted with, then one per update. */
    ghost var statusLog: seq<seq<GenerationStatus>>

    ghost predicate Valid()
      reads this
    {
      && LedgerValid(Ledger(users, transactions), nextUserId)
      && GenerationIds(generations)
      && StatusLogOf(statusLog, generations)
      && StyleIds(styles)
      && StyleImagesOf(styleImages, |styles|)
      && PersonaIds(personas)
    }

    function LedgerOf(): Ledger
      reads this
    {
      Ledger(users, transactions)
    }

    constructor ()
      ensures Valid()
      ensures users == map[] && transactions == [] && generations == []
      ensures styles == [] && styleImages == [] && personas == [] && statusLog == []
    {
      users := map[];
      nextUserId := 0;
      transactions := [];
      generations := [];
      styles := [];
      styleImages := [];
      personas := [];
      statusLog := [];
    }

    /** `insert into generations ... returning`: the new row, with the next id. */
    method InsertGeneration(v: NewGeneration) returns (g: Generation)
      requires Valid()
      modifies this`generations, this`statusLog
      ensures Valid()
      ensures g == GenerationRow(|old(generations)|, v)
      ensures generations == old(generations) + [g]
      ensures statusLog == old(statusLog) + [[g.status]]
    {
      g := GenerationRow(|generations|, v);
      generations := generations + [g];
      statusLog := statusLog + [[g.status]];
    }

    /** `insert into styles ... returning`. */
    method InsertStyle(userId: nat, name: string, description: Option<string>, extractedMeta: Option<string>)
      returns (st: Style)
      requires Valid()
      modifies this`styles
      ensures Valid()
      ensures st == StyleRow(|old(styles)|, userId, name, description, extractedMeta)
      ensures styles == old(styles) + [st]
    {
      st := StyleRow(|styles|, userId, name, description, extractedMeta);
      styles := styles + [st];
    }

    /** `insert into style_images values ...`: rows of existing styles. */
    method InsertStyleImages(rows: seq<StyleImage>)
      requires Valid()
      requires forall i :: 0 <= i < |rows| ==> rows[i].styleId < |styles|
      modifies this`styleImages
      ensures Valid()
      ensures styleImages == old(styleImages) + rows
    {
      styleImages := styleImages + rows;
    }

    /** `insert into personas ... returning`. */
    method InsertPersona(userId: nat, name: string, description: Option<string>, imageUrl: Json)
      returns (p: Persona)
      requires Valid()
      modifies this`personas
      ensures Valid()
      ensures p == PersonaRow(|old(personas)|, userId, name, description, imageUrl)
      ensures personas == old(personas) + [p]
    {
      p := PersonaRow(|personas|, userId, name, description, imageUrl);
      personas := personas + [p];
    }

    /** `update generations set status = ?[, imageUrl = ?] where id = ?`: ids
        are positions, so the row is the one at `id`; an unknown id matches
        nothing. A None image URL leaves the column as it was. */
    method UpdateGeneration(id: nat, status: GenerationStatus, imageUrl: Option<string>)
      requires Valid()
      modifies this`generations, this`statusLog
      ensures Valid()
      ensures id < |old(generations)| ==>
        && generations == old(generations)[id := old(generations)[id].(status := status,
                                               imageUrl := if imageUrl.Some? then imageUrl else old(generations)[id].imageUrl)]
        && statusLog == old(statusLog)[id := old(statusLog)[id] + [status]]
      ensures id >= |old(generations)| ==> generations == old(generations) && statusLog == old(statusLog)
    {
      if id < |generations| {
        var g := generations[id];
        generations := generations[id := g.(status := status, imageUrl := if imageUrl.Some? then imageUrl else g.imageUrl)];
        statusLog := statusLog[id := statusLog[id] + [status]];
      }
    }
  }

  /** `select ... from users where clerkId = ? limit 1`. */
  function FindUser(users: map<string, User>, clerkId: string): (r: Option<User>)
    ensures r.Some? <==> clerkId in users
    ensures r.Some? ==> r.value == users[clerkId]
  {
    if clerkId in users then Some(users[clerkId]) else None
  }
}
