/**
 * The User collection the handlers query and insert into through
 * Mongoose (`User.findOne({email})`, `new User(...)`, `save()`). The
 * collection is a sequence of documents in insertion order.
 */
module Users {
  import opened Wrappers

  /** A document id (`_id`). */
  type UserId = nat

  /** A User document; `password` holds the bcrypt hash, as in the source. */
  datatype UserRecord = UserRecord(id: UserId, name: string, email: string, password: string)

  /** Some document has this e-mail (exact, case-sensitive match). */
  predicate EmailTaken(users: seq<UserRecord>, email: string) {
    exists i :: 0 <= i < |users| && users[i].email == email
  }

  /** `User.findOne({email})`: the first document with that e-mail, if any. */
  function FindByEmail(users: seq<UserRecord>, email: string): (r: Option<UserRecord>)
    ensures r.None? <==> !EmailTaken(users, email)
    ensures r.Some? ==> exists i :: 0 <= i < |users| && users[i] == r.value && users[i].email == email
                                   && forall j :: 0 <= j < i ==> users[j].email != email
  {
    if users == [] then None
    else if users[0].email == email then Some(users[0])
    else
      var r := FindByEmail(users[1..], email);
      assert forall i :: 1 <= i < |users| ==> users[i] == users[1..][i - 1];
      r
  }

  ghost predicate UniqueEmails(users: seq<UserRecord>) {
    forall i, j :: 0 <= i < j < |users| ==> users[i].email != users[j].email
  }

  ghost predicate UniqueIds(users: seq<UserRecord>) {
    forall i, j :: 0 <= i < j < |users| ==> users[i].id != users[j].id
  }

  /** Every id in the collection was handed out before `nextId`. */
  ghost predicate IdsBelow(users: seq<UserRecord>, nextId: UserId) {
    forall i :: 0 <= i < |users| ==> users[i].id < nextId
  }

  /** The collection invariant: e-mails and ids unique, ids already issued. */
  ghost predicate WellFormed(users: seq<UserRecord>, nextId: UserId) {
    UniqueEmails(users) && UniqueIds(users) && IdsBelow(users, nextId)
  }

  /** With unique e-mails, looking up a stored e-mail finds that very document. */
  lemma FindStored(users: seq<UserRecord>, i: nat)
    requires UniqueEmails(users)
    requires i < |users|
    ensures FindByEmail(users, users[i].email) == Some(users[i])
  {
  }

  /** Appending a document does not change the answer for e-mails already stored. */
  lemma {:induction false} FindAfterInsert(users: seq<UserRecord>, u: UserRecord, email: string)
    ensures FindByEmail(users + [u], email) ==
      if FindByEmail(users, email).Some? then FindByEmail(users, email)
      else if u.email == email then Some(u) else None
  {
    if users == [] {
      assert users + [u] == [u];
    } else {
      assert (users + [u])[0] == users[0];
      assert (users + [u])[1..] == users[1..] + [u];
      if users[0].email != email {
        FindAfterInsert(users[1..], u, email);
      }
    }
  }

  /**
   * Inserting a document whose e-mail is absent and whose id is the next
   * one keeps the collection invariant.
   */
  lemma InsertKeepsWellFormed(users: seq<UserRecord>, nextId: UserId, u: UserRecord)
    requires WellFormed(users, nextId)
    requires !EmailTaken(users, u.email)
    requires u.id == nextId
    ensures WellFormed(users + [u], nextId + 1)
  {
  }
}
