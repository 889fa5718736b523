/** The `User` schema of `models/User.js`: the document, its defaults, the
    validation Mongoose runs on `save()`, and the two unique indexes. */
module UserModel {
  import opened Common

  /** A User document. `password` holds what the registration code stores
      there (a hash); timestamps are not modelled. */
  datatype User = User(
    firstName: Option<string>,
    lastName: Option<string>,
    email: Option<string>,
    password: Option<string>,
    picturePath: string,
    friends: seq<Id>,
    githubId: Option<string>,
    location: Option<string>,
    occupation: Option<string>,
    viewedProfile: Option<real>,
    impressions: Option<real>)

  /** `new User({...})` with the given fields: the schema defaults fill
      `picturePath` and `friends`, the remaining fields stay absent. */
  function NewUser(firstName: Option<string>, lastName: Option<string>,
                   email: Option<string>, password: Option<string>,
                   githubId: Option<string>): (u: User)
  {
    User(firstName, lastName, email, password, "", [], githubId, None, None, None, None)
  }

  /** The `required` callback of `email` and of `password`: a user who does
      not sign in through GitHub must have both. */
  predicate CredentialsRequired(u: User) {
    !Truthy(u.githubId)
  }

  /** What Mongoose's validation accepts: a required string must be present and
      non-empty. (The `min` and `max` options on strings validate nothing.) */
  predicate ValidUser(u: User) {
    && Truthy(u.firstName)
    && Truthy(u.lastName)
    && (CredentialsRequired(u) ==> Truthy(u.email))
    && (CredentialsRequired(u) ==> Truthy(u.password))
  }

  /** The unique index on `email`, over the users that have one. */
  ghost predicate UniqueEmails(users: map<Id, User>) {
    forall a, b :: a in users && b in users && a != b && users[a].email.Some? ==>
      users[a].email != users[b].email
  }

  /** The unique index on `githubId`, over the users that have one. */
  ghost predicate UniqueGithubIds(users: map<Id, User>) {
    forall a, b :: a in users && b in users && a != b && users[a].githubId.Some? ==>
      users[a].githubId != users[b].githubId
  }

  /** Both unique indexes hold. */
  ghost predicate UniqueKeys(users: map<Id, User>) {
    UniqueEmails(users) && UniqueGithubIds(users)
  }

  /** Every stored document passed validation and the indexes hold. */
  ghost predicate ValidStore(users: map<Id, User>) {
    && UniqueKeys(users)
    && forall id :: id in users ==> ValidUser(users[id])
  }

  /** No stored user has the email or the GitHub id of `u`. */
  predicate NoDuplicateKey(users: map<Id, User>, u: User) {
    forall k :: k in users ==>
      && (u.email.Some? ==> users[k].email != u.email)
      && (u.githubId.Some? ==> users[k].githubId != u.githubId)
  }

  /** `save()` of a new document under the fresh id `id`: validation first,
      then the unique indexes; either failure stores nothing. */
  function SaveNew(users: map<Id, User>, id: Id, u: User): (r: Option<map<Id, User>>)
    requires id !in users
    ensures r.Some? <==> ValidUser(u) && NoDuplicateKey(users, u)
    ensures r.Some? ==> r.value.Keys == users.Keys + {id} && r.value[id] == u
    ensures r.Some? ==> forall k :: k in users ==> r.value[k] == users[k]
  {
    if ValidUser(u) && NoDuplicateKey(users, u) then Some(users[id := u]) else None
  }

  /** A successful save keeps the indexes and the validity of the store. */
  lemma SaveNewKeepsStoreValid(users: map<Id, User>, id: Id, u: User)
    requires id !in users
    requires SaveNew(users, id, u).Some?
    ensures UniqueKeys(users) ==> UniqueKeys(SaveNew(users, id, u).value)
    ensures ValidStore(users) ==> ValidStore(SaveNew(users, id, u).value)
  {
  }

  /** A new document whose email is already taken is never stored. */
  lemma SaveNewRejectsTakenEmail(users: map<Id, User>, id: Id, u: User, k: Id)
    requires id !in users && k in users
    requires u.email.Some? && users[k].email == u.email
    ensures SaveNew(users, id, u) == None
  {
  }

  /** `firstName` and `lastName` are required: an absent or empty name makes
      any user invalid. */
  lemma NamesRequired(u: User, name: Option<string>)
    requires !Truthy(name)
    ensures !ValidUser(u.(firstName := name)) && !ValidUser(u.(lastName := name))
  {
  }

  /** For a user with both names, leaving out the email and the password is
      allowed exactly when a GitHub id is set; with both given it always is. */
  lemma CredentialsRequiredExactlyWithoutGithub(u: User)
    requires Truthy(u.firstName) && Truthy(u.lastName)
    ensures ValidUser(u.(email := None)) <==> Truthy(u.githubId)
    ensures ValidUser(u.(password := None)) <==> Truthy(u.githubId)
    ensures ValidUser(u.(email := Some("e"), password := Some("p")))
  {
  }

  /** Replacing a user's names keeps both unique indexes. */
  lemma ReplaceNamesKeepsUniqueKeys(users: map<Id, User>, id: Id, u: User)
    requires id in users && UniqueKeys(users)
    requires u.email == users[id].email && u.githubId == users[id].githubId
    ensures UniqueKeys(users[id := u])
  {
  }
}
