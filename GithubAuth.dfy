/** The two handlers of `index.js` that reconcile a GitHub identity with a
    User document: the body of the `/auth/github/callback` route (find or
    create the user, then choose a redirect) and the
    `/users/:userId/complete-profile` route (fill in the names). */
module GithubAuth {
  import opened Common
  import opened JsString
  import opened UserModel

  /** What the GitHub strategy hands on as `req.user`: the provider's profile. */
  datatype GithubProfile = GithubProfile(id: string, displayName: Option<string>)

  /** How the callback ends. */
  datatype CallbackOutcome =
    | ToCompleteProfile(userId: Id)  // redirect to /complete-profile?userId=<id>
    | ToProfile(userId: Id)          // redirect to the client's /profile/<id>
    | CreateRejected                 // save() rejected; the rejection is unhandled and nothing is sent

  /** How the complete-profile handler ends. */
  datatype CompletionOutcome =
    | ToHome          // redirect to the client's /home
    | UserNotFound    // 404 "User not found"
    | IdCastFailed    // findById rejected with a cast error; unhandled, nothing is sent
    | UpdateRejected  // save() rejected; unhandled, nothing is sent

  /** `displayName ? displayName.split(' ')[0] : ''` */
  function FirstNameOf(displayName: Option<string>): (r: string) {
    if Truthy(displayName) then Split(displayName.value)[0] else ""
  }

  /** `displayName && pieces.length > 1 ? pieces[pieces.length - 1] : ''`
      where `pieces` is `displayName.split(' ')`. */
  function LastNameOf(displayName: Option<string>): (r: string) {
    if Truthy(displayName) && |Split(displayName.value)| > 1
    then Split(displayName.value)[|Split(displayName.value)| - 1]
    else ""
  }

  /** The document the callback builds for an unknown GitHub id. */
  function NewGithubUser(p: GithubProfile): (r: User) {
    NewUser(Some(FirstNameOf(p.displayName)), Some(LastNameOf(p.displayName)), None, None, Some(p.id))
  }

  /** Some stored user carries this GitHub id. */
  predicate HasGithubUser(users: map<Id, User>, githubId: string) {
    exists k :: k in users && users[k].githubId == Some(githubId)
  }

  /** The redirect chosen for the user with id `id`: the profile page when both
      names are present, the completion page otherwise. */
  function RedirectFor(id: Id, u: User): (r: CallbackOutcome) {
    if !Truthy(u.firstName) || !Truthy(u.lastName) then ToCompleteProfile(id) else ToProfile(id)
  }

  /** `supplied || stored`: the value complete-profile assigns to a name. */
  function MergeName(supplied: Option<string>, stored: Option<string>): (r: Option<string>) {
    if Truthy(supplied) then supplied else stored
  }

  /** The user after complete-profile's two assignments. */
  function WithNames(u: User, firstName: Option<string>, lastName: Option<string>): (r: User) {
    u.(firstName := MergeName(firstName, u.firstName), lastName := MergeName(lastName, u.lastName))
  }

  /** The user collection, updated in place by the two handlers. */
  class UserStore {
    var users: map<Id, User>

    /** The unique indexes on `email` and `githubId`, which the database enforces. */
    ghost predicate Valid()
      reads this
    {
      UniqueKeys(users)
    }

    constructor ()
      ensures Valid() && users == map[]
    {
      users := map[];
    }

    /** The callback body. `newId` is the ObjectId a new document receives. */
    method GithubCallback(profile: GithubProfile, newId: Id) returns (outcome: CallbackOutcome)
      requires Valid()
      requires newId !in users
      modifies this
      ensures Valid()
      ensures HasGithubUser(old(users), profile.id) ==>
        && users == old(users)
        && !outcome.CreateRejected?
        && outcome.userId in users
        && users[outcome.userId].githubId == Some(profile.id)
        && outcome == RedirectFor(outcome.userId, users[outcome.userId])
      ensures !HasGithubUser(old(users), profile.id) ==>
        var u := NewGithubUser(profile);
        if ValidUser(u) then users == old(users)[newId := u] && outcome == RedirectFor(newId, u)
        else users == old(users) && outcome == CreateRejected
    {
      var id: Id;
      var user: User;
      if k :| k in users && users[k].githubId == Some(profile.id) {
        id, user := k, users[k];
      } else {
        user := NewGithubUser(profile);
        GithubUserSaveIsValidation(users, newId, profile);
        var saved := SaveNew(users, newId, user);
        if saved.None? {
          outcome := CreateRejected;
          return;
        }
        SaveNewKeepsStoreValid(users, newId, user);
        id, users := newId, saved.value;
      }
      if !Truthy(user.firstName) || !Truthy(user.lastName) {
        outcome := ToCompleteProfile(id);
      } else {
        outcome := ToProfile(id);
      }
    }

    /** The complete-profile handler for `POST /users/<userId>/complete-profile`
        with the body's `firstName` and `lastName`. `isObjectId` tells which
        strings Mongoose can cast to an ObjectId. */
    method CompleteProfile(userId: Id, firstName: Option<string>, lastName: Option<string>,
                           isObjectId: Id -> bool) returns (outcome: CompletionOutcome)
      requires Valid()
      modifies this
      ensures Valid()
      ensures !isObjectId(userId) ==> outcome == IdCastFailed && users == old(users)
      ensures isObjectId(userId) && userId !in old(users) ==>
        outcome == UserNotFound && users == old(users)
      ensures isObjectId(userId) && userId in old(users) ==>
        var u := WithNames(old(users)[userId], firstName, lastName);
        if ValidUser(u) then outcome == ToHome && users == old(users)[userId := u]
        else outcome == UpdateRejected && users == old(users)
    {
      if !isObjectId(userId) {
        outcome := IdCastFailed;
        return;
      }
      if userId !in users {
        outcome := UserNotFound;
        return;
      }
      var user := users[userId];
      user := user.(firstName := if Truthy(firstName) then firstName else user.firstName);
      user := user.(lastName := if Truthy(lastName) then lastName else user.lastName);
      if !ValidUser(user) {
        outcome := UpdateRejected;
        return;
      }
      ReplaceNamesKeepsUniqueKeys(users, userId, user);
      users := users[userId := user];
      outcome := ToHome;
    }
  }

  /** For a GitHub id nobody has yet, saving the new document fails only
      through validation: no unique index can object. */
  lemma GithubUserSaveIsValidation(users: map<Id, User>, newId: Id, p: GithubProfile)
    requires newId !in users && !HasGithubUser(users, p.id)
    ensures SaveNew(users, newId, NewGithubUser(p)).Some? <==> ValidUser(NewGithubUser(p))
  {
  }

  /** A new GitHub user carries the profile id, has no local credentials and
      gets the schema defaults. */
  lemma NewGithubUserFields(p: GithubProfile)
    ensures var u := NewGithubUser(p);
      && u.githubId == Some(p.id) && u.email == None && u.password == None
      && u.picturePath == "" && u.friends == []
      && u.location == None && u.occupation == None
      && u.viewedProfile == None && u.impressions == None
  {
  }

  /** The first name is the display name up to its first space (all of it when
      it has none), and empty when there is no display name. */
  lemma FirstNameIsLeadingWord(displayName: Option<string>)
    ensures var f := FirstNameOf(displayName);
      && ' ' !in f
      && (!Truthy(displayName) ==> f == "")
      && (Truthy(displayName) ==>
            var s := displayName.value;
            |f| <= |s| && s[..|f|] == f && (|f| < |s| ==> s[|f|] == ' '))
  {
    if Truthy(displayName) {
      FirstPieceIsPrefix(displayName.value);
    }
  }

  /** The last name is what follows the display name's last space, and empty
      when the display name is absent or has no space. */
  lemma LastNameIsTrailingWord(displayName: Option<string>)
    ensures var l := LastNameOf(displayName);
      && ' ' !in l
      && (!(Truthy(displayName) && ' ' in displayName.value) ==> l == "")
      && (Truthy(displayName) && ' ' in displayName.value ==>
            var s := displayName.value;
            |l| < |s| && s[|s| - |l|..] == l && s[|s| - |l| - 1] == ' ')
  {
    if Truthy(displayName) {
      var s := displayName.value;
      SpaceCountPositive(s);
      if ' ' in s {
        LastPieceIsSuffix(s);
      }
    }
  }

  /** The split is on one space, so a double space yields an empty middle piece. */
  lemma DoubleSpaceDisplayName()
    ensures Split("A  B") == ["A", "", "B"]
    ensures FirstNameOf(Some("A  B")) == "A" && LastNameOf(Some("A  B")) == "B"
  {
    assert Split("") == [""];
    assert "B"[1..] == "" && ['B'] + "" == "B";
    assert Split("B") == ["B"];
    assert " B"[1..] == "B" && Split(" B") == ["", "B"];
    assert "  B"[1..] == " B" && Split("  B") == ["", "", "B"];
    assert "A  B"[1..] == "  B" && ['A'] + "" == "A";
  }

  /** A new GitHub user is stored only with both names, so a freshly created
      user is always sent to the profile page, never to the completion page. */
  lemma NewGithubUserNeverIncomplete(p: GithubProfile, id: Id)
    ensures FirstNameOf(p.displayName) == "" || LastNameOf(p.displayName) == "" ==>
      !ValidUser(NewGithubUser(p))
    ensures ValidUser(NewGithubUser(p)) ==> RedirectFor(id, NewGithubUser(p)) == ToProfile(id)
  {
  }

  /** A display name without a space (or no display name) gives an empty last
      name, so the callback's save is rejected and no redirect is sent. */
  lemma OneWordDisplayNameRejected(p: GithubProfile)
    requires !(Truthy(p.displayName) && ' ' in p.displayName.value)
    ensures !ValidUser(NewGithubUser(p))
  {
    LastNameIsTrailingWord(p.displayName);
  }

  /** When every stored document passed validation, the callback never
      chooses the completion page for an existing user either. */
  lemma ValidStoreNeverIncomplete(users: map<Id, User>, k: Id)
    requires ValidStore(users) && k in users
    ensures RedirectFor(k, users[k]) == ToProfile(k)
  {
  }

  /** The corrected schema: names required on the same terms as the email and
      password, that is only for users who do not sign in through GitHub. */
  predicate ValidUserDeferringNames(u: User) {
    && (CredentialsRequired(u) ==> Truthy(u.firstName) && Truthy(u.lastName))
    && (CredentialsRequired(u) ==> Truthy(u.email) && Truthy(u.password))
  }

  /** Under the corrected schema every new GitHub user is stored, and it is
      sent to the completion page exactly when a name could not be derived. */
  lemma DeferredNamesRouteToCompletion(p: GithubProfile, id: Id)
    requires p.id != ""
    ensures ValidUserDeferringNames(NewGithubUser(p))
    ensures RedirectFor(id, NewGithubUser(p)) == ToCompleteProfile(id) <==>
      FirstNameOf(p.displayName) == "" || LastNameOf(p.displayName) == ""
  {
  }

  /** A supplied name that is absent or empty keeps the stored one; any other
      supplied name replaces it, whatever was stored. */
  lemma MergeNameRule(supplied: Option<string>, stored: Option<string>)
    ensures !Truthy(supplied) ==> MergeName(supplied, stored) == stored
    ensures Truthy(supplied) ==> MergeName(supplied, stored) == supplied
    ensures Truthy(stored) ==> Truthy(MergeName(supplied, stored))
  {
  }

  /** Complete-profile overwrites a name that was already set. */
  lemma MergeNameOverwritesExisting()
    ensures MergeName(Some("X"), Some("Existing")) == Some("X")
  {
  }

  /** Complete-profile changes no field but the two names. */
  lemma WithNamesChangesOnlyNames(u: User, firstName: Option<string>, lastName: Option<string>)
    ensures WithNames(u, firstName, lastName).(firstName := u.firstName, lastName := u.lastName) == u
  {
  }

  /** The corrected merge: a supplied name is used only where none is stored. */
  function FillName(supplied: Option<string>, stored: Option<string>): (r: Option<string>) {
    if !Truthy(stored) && Truthy(supplied) then supplied else stored
  }

  /** The corrected merge never overwrites a stored name, fills an empty one
      when a name is supplied, and agrees with the written merge everywhere else. */
  lemma FillNameNeverOverwrites(supplied: Option<string>, stored: Option<string>)
    ensures Truthy(stored) ==> FillName(supplied, stored) == stored
    ensures !Truthy(stored) ==> FillName(supplied, stored) == MergeName(supplied, stored)
    ensures FillName(supplied, stored) != MergeName(supplied, stored) <==>
      Truthy(stored) && Truthy(supplied) && supplied != stored
  {
  }
}
