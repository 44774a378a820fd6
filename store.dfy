/** The user table behind `UserService` (src/services is not part of this
    model), as pure functions over a map from primary key to row. `nextId`
    is the table's auto-increment counter. The controllers apply these
    functions to their own state. */
module UserStore {
  import opened Common
  import opened Models
  import opened Joi
  import opened AuthValidation
  import opened UserValidation

  /** Keys are the rows' own ids, all below the counter and positive, and no
      two rows share an email (the `unique` constraint of the model). */
  ghost predicate Consistent(users: map<int, User>, nextId: int)
  {
    && 1 <= nextId
    && (forall id :: id in users ==> 1 <= id < nextId && users[id].id == id)
    && (forall a, b :: a in users && b in users && users[a].email == users[b].email ==> a == b)
  }

  /** The keys of the rows holding `email`. */
  function EmailOwners(users: map<int, User>, email: string): set<int>
  {
    set id | id in users && users[id].email == email
  }

  /** Under the unique constraint an email has at most one owner. */
  lemma AtMostOneOwner(users: map<int, User>, nextId: int, email: string)
    requires Consistent(users, nextId)
    ensures |EmailOwners(users, email)| <= 1
  {
    var r := FindFrom(users, nextId, email, 1);
    if r.Some? {
      forall x | x in EmailOwners(users, email)
        ensures x == r.value
      {
        assert users[x].email == users[r.value].email;
      }
      assert EmailOwners(users, email) == {r.value};
    } else {
      assert EmailOwners(users, email) == {};
    }
  }

  // ---------------------------------------------------------------------------
  // Lookups

  /** The key scan behind `find({ email })`, from key `i` upwards: the first
      key holding `email`, or nothing. */
  function FindFrom(users: map<int, User>, nextId: int, email: string, i: int): (r: Option<int>)
    ensures r.Some? ==> i <= r.value < nextId && r.value in users && users[r.value].email == email
    ensures r.None? ==> forall id :: i <= id < nextId && id in users ==> users[id].email != email
    decreases nextId - i
  {
    if i >= nextId then None
    else if i in users && users[i].email == email then Some(i)
    else FindFrom(users, nextId, email, i + 1)
  }

  /** `find({ email })`: the row holding `email`, or nothing. */
  function FindByEmail(users: map<int, User>, nextId: int, email: string): (r: Option<User>)
    ensures r.Some? ==> r.value.email == email && exists id :: id in users && users[id] == r.value
    ensures r.None? ==> forall id :: 1 <= id < nextId && id in users ==> users[id].email != email
  {
    match FindFrom(users, nextId, email, 1)
    case Some(id) => Some(users[id])
    case None => None
  }

  /** On a valid table the lookup answers exactly the row holding the email. */
  lemma FindByEmailExact(users: map<int, User>, nextId: int, email: string, id: int)
    requires Consistent(users, nextId) && id in users
    ensures FindByEmail(users, nextId, email) == Some(users[id]) <==> users[id].email == email
  {
  }

  /** The lookup finds nothing exactly when nobody holds the email. */
  lemma FindByEmailNone(users: map<int, User>, nextId: int, email: string)
    requires Consistent(users, nextId)
    ensures FindByEmail(users, nextId, email).None? <==> EmailOwners(users, email) == {}
  {
    var r := FindFrom(users, nextId, email, 1);
    if r.Some? {
      assert r.value in EmailOwners(users, email);
    }
    assert forall id :: id in EmailOwners(users, email) ==> id in users && users[id].email == email;
  }

  // ---------------------------------------------------------------------------
  // Insertion

  /** Whether a required string column receives a usable value. */
  predicate Filled(f: Field)
  {
    f.Str?
  }

  /** The nullable `gender` column: absent is `NULL`. */
  function Nullable(f: Field): Option<string>
    requires !f.NonString?
  {
    if f.Absent? then None else Some(f.s)
  }

  /** `create({ ...body })`: a required column left out violates `allowNull:
      false`, a non-string value violates the column type, an email already
      held violates the unique constraint; otherwise a fresh unverified row
      takes the next key, the password digest and the clock. */
  function Create(users: map<int, User>, nextId: int, body: SignupBody,
                  hash: (string, nat) -> string, salt: nat, now: int): (r: Result<User, Fault>)
    ensures r.Ok? <==>
      && Filled(body.firstName) && Filled(body.lastName) && Filled(body.email)
      && Filled(body.password) && !body.gender.NonString?
      && EmailOwners(users, body.email.s) == {}
    ensures r.Ok? ==>
      && r.value.id == nextId && !r.value.isVerified
      && r.value.firstName == body.firstName.s && r.value.lastName == body.lastName.s
      && r.value.email == body.email.s && r.value.password == hash(body.password.s, salt)
      && r.value.gender == Nullable(body.gender)
      && r.value.createdAt == now && r.value.updatedAt == now
    ensures r.Err? && !r.error.UniqueViolation? ==>
      !(Filled(body.firstName) && Filled(body.lastName) && Filled(body.email) && Filled(body.password))
      || body.gender.NonString?
  {
    if body.firstName.Absent? || body.lastName.Absent? || body.email.Absent? || body.password.Absent? then
      Err(NotNullViolation)
    else if body.firstName.NonString? || body.lastName.NonString? || body.email.NonString?
         || body.password.NonString? || body.gender.NonString? then
      Err(StringViolation)
    else if EmailOwners(users, body.email.s) != {} then
      Err(UniqueViolation)
    else
      Ok(User(nextId, body.firstName.s, body.lastName.s, body.email.s,
              hash(body.password.s, salt), Nullable(body.gender), false, now, now))
  }

  /** Inserting the created row keeps the table valid. */
  lemma CreateKeepsValid(users: map<int, User>, nextId: int, body: SignupBody,
                         hash: (string, nat) -> string, salt: nat, now: int)
    requires Consistent(users, nextId)
    requires Create(users, nextId, body, hash, salt, now).Ok?
    ensures var u := Create(users, nextId, body, hash, salt, now).value;
            Consistent(users[u.id := u], nextId + 1)
  {
    var u := Create(users, nextId, body, hash, salt, now).value;
    assert forall b :: b in users ==> (b in EmailOwners(users, u.email) <==> users[b].email == u.email);
  
  }

  // ---------------------------------------------------------------------------
  // Updates

  /** `updateById({ isVerified: true }, id)`: the row with that key, now
      verified, or the store's 'Not Found' error (also for a missing id). */
  function MarkVerified(users: map<int, User>, id: Option<int>, now: int): (r: Result<User, Fault>)
    ensures r.Ok? <==> id.Some? && id.value in users
    ensures r.Err? ==> r.error == NotFound
    ensures r.Ok? ==> r.value == users[id.value].(isVerified := true, updatedAt := now)
  {
    if id.Some? && id.value in users then Ok(users[id.value].(isVerified := true, updatedAt := now))
    else Err(NotFound)
  }

  /** Writing the verified row back keeps the table valid, and verifying
      again changes nothing but the timestamp. */
  lemma MarkVerifiedKeepsValid(users: map<int, User>, nextId: int, id: int, now: int, later: int)
    requires Consistent(users, nextId) && id in users
    ensures var u := MarkVerified(users, Some(id), now).value;
            && Consistent(users[id := u], nextId)
            && MarkVerified(users[id := u], Some(id), later) == Ok(u.(updatedAt := later))
  {
  }

  /** `updatePassword(password, email)`: every row holding `email` gets the
      new digest; the count of rows written comes back with the new table. */
  function UpdatePassword(users: map<int, User>, email: string, digest: string, now: int)
    : (r: (map<int, User>, nat))
    ensures r.0.Keys == users.Keys
    ensures forall id :: id in users && users[id].email == email
              ==> r.0[id] == users[id].(password := digest, updatedAt := now)
    ensures forall id :: id in users && users[id].email != email ==> r.0[id] == users[id]
    ensures r.1 == |EmailOwners(users, email)|
  {
    (map id | id in users :: if users[id].email == email
                              then users[id].(password := digest, updatedAt := now)
                              else users[id],
     |EmailOwners(users, email)|)
  }

  /** On a valid table exactly one row is written when the email is held,
      none otherwise, and the table stays valid. */
  lemma UpdatePasswordCount(users: map<int, User>, nextId: int, email: string, digest: string, now: int)
    requires Consistent(users, nextId)
    ensures var (after, count) := UpdatePassword(users, email, digest, now);
            && (count == 1 <==> FindByEmail(users, nextId, email).Some?)
            && (count == 0 <==> FindByEmail(users, nextId, email).None?)
            && Consistent(after, nextId)
  {
    AtMostOneOwner(users, nextId, email);
    FindByEmailNone(users, nextId, email);
    var after := UpdatePassword(users, email, digest, now).0;
    assert forall id :: id in after ==> after[id].email == users[id].email;
  }

  /** The profile columns of a row after `update(body)`: a key left out keeps
      its column. */
  function Patch(u: User, body: ProfileBody, now: int): User
    requires !body.firstName.NonString? && !body.lastName.NonString?
    requires !body.email.NonString? && !body.gender.NonString?
  {
    u.(firstName := if body.firstName.Str? then body.firstName.s else u.firstName,
       lastName := if body.lastName.Str? then body.lastName.s else u.lastName,
       email := if body.email.Str? then body.email.s else u.email,
       gender := if body.gender.Str? then Some(body.gender.s) else u.gender,
       updatedAt := now)
  }

  /** `updateAny(body, { id })`: the updated row, or the failure: no row with
      that key, a non-string value, or an email that another row holds. */
  function UpdateAny(users: map<int, User>, id: int, body: ProfileBody, now: int): (r: Result<User, Fault>)
    ensures r.Ok? <==>
      && id in users
      && !body.firstName.NonString? && !body.lastName.NonString?
      && !body.email.NonString? && !body.gender.NonString?
      && (body.email.Str? ==> EmailOwners(users, body.email.s) <= {id})
    ensures id !in users ==> r == Err(NotFound)
    ensures r.Ok? ==>
      && r.value.id == users[id].id && r.value.password == users[id].password
      && r.value.isVerified == users[id].isVerified && r.value.createdAt == users[id].createdAt
      && (body.firstName.Absent? ==> r.value.firstName == users[id].firstName)
      && (body.firstName.Str? ==> r.value.firstName == body.firstName.s)
      && (body.email.Absent? ==> r.value.email == users[id].email)
      && (body.email.Str? ==> r.value.email == body.email.s)
      && (body.lastName.Absent? ==> r.value.lastName == users[id].lastName)
      && (body.lastName.Str? ==> r.value.lastName == body.lastName.s)
      && (body.gender.Absent? ==> r.value.gender == users[id].gender)
      && (body.gender.Str? ==> r.value.gender == Some(body.gender.s))
      && r.value.updatedAt == now
  {
    if id !in users then Err(NotFound)
    else if body.firstName.NonString? || body.lastName.NonString?
         || body.email.NonString? || body.gender.NonString? then Err(StringViolation)
    else if body.email.Str? && !(EmailOwners(users, body.email.s) <= {id}) then Err(UniqueViolation)
    else Ok(Patch(users[id], body, now))
  }

  /** Writing the updated row back keeps the table valid. */
  lemma UpdateAnyKeepsValid(users: map<int, User>, nextId: int, id: int, body: ProfileBody, now: int)
    requires Consistent(users, nextId)
    requires UpdateAny(users, id, body, now).Ok?
    ensures Consistent(users[id := UpdateAny(users, id, body, now).value], nextId)
  {
    var u := UpdateAny(users, id, body, now).value;
    assert forall b :: b in users ==> (b in EmailOwners(users, u.email) <==> users[b].email == u.email);
  
  }

  /** `deleteOne({ id })`: the table without that key, and the number of rows
      removed. */
  function DeleteOne(users: map<int, User>, id: int): (r: (map<int, User>, nat))
    ensures r.1 == 1 <==> id in users
    ensures r.1 == 0 <==> id !in users
    ensures r.0 == users - {id} && id !in r.0
  {
    if id in users then (users - {id}, 1) else (users, 0)
  }

  /** Deleting keeps the table valid. */
  lemma DeleteKeepsValid(users: map<int, User>, nextId: int, id: int)
    requires Consistent(users, nextId)
    ensures Consistent(DeleteOne(users, id).0, nextId)
  {
  }

  // ---------------------------------------------------------------------------
  // Verification is one-way

  /** No row that was verified before is unverified after; rows may vanish. */
  ghost predicate VerifiedKept(before: map<int, User>, after: map<int, User>)
  {
    forall id :: id in before && id in after && before[id].isVerified ==> after[id].isVerified
  }

  /** None of the writes above ever clears `isVerified`. */
  lemma WritesKeepVerified(users: map<int, User>, nextId: int, body: SignupBody,
                           hash: (string, nat) -> string, salt: nat, id: int,
                           claimsId: Option<int>, profile: ProfileBody,
                           email: string, digest: string, now: int)
    requires Consistent(users, nextId)
    ensures Create(users, nextId, body, hash, salt, now).Ok? ==>
      VerifiedKept(users, users[nextId := Create(users, nextId, body, hash, salt, now).value])
    ensures MarkVerified(users, claimsId, now).Ok? ==>
      VerifiedKept(users, users[claimsId.value := MarkVerified(users, claimsId, now).value])
    ensures UpdateAny(users, id, profile, now).Ok? ==>
      VerifiedKept(users, users[id := UpdateAny(users, id, profile, now).value])
    ensures VerifiedKept(users, UpdatePassword(users, email, digest, now).0)
    ensures VerifiedKept(users, DeleteOne(users, id).0)
  {
  }
}
