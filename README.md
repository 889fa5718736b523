# Identity and authorization core of a social-media backend, in Dafny

This project models the part of an Express/Mongoose server that decides who
a request comes from and what that identity may do. It has four parts:

- **The `verifyToken` middleware.** From an optional `Authorization` header it
  decides one of three outcomes: a 401 response, a 500 response, or attaching
  the verified payload to the request and calling `next`.
- **The GitHub login callback.** It finds or creates the User for a GitHub
  profile, derives the names from the display name, and redirects either to
  the profile page or to the profile-completion page.
- **The complete-profile handler.** It merges the names supplied in the
  request body into a stored user.
- **The User schema, and the four comment handlers over the comment and post
  collections.** The schema covers the required fields, the defaults and the
  unique indexes. The comment handlers are `getComments`, `createComment`,
  `updateComment`, and `deleteComment` with its ordered ownership checks.

The database is a set of in-memory maps. `users: map<Id, User>` is a field of
the class `GithubAuth.UserStore`. `posts` and `comments` are fields of
`Comments.CommentStore`, and each `Post` holds its ordered list of comment
ids. Each handler is a method on its store. Its postcondition gives the
outcome of the call and the whole new state. Pure functions hold the decision
logic: `Auth.Authenticate`, `Comments.DeleteDecision`, `GithubAuth.RedirectFor`
and `GithubAuth.MergeName`. The JavaScript string built-ins the handlers use
are `JsString.Split`, `JsString.TrimStart` and `JsString.StartsWith`. The
lemmas are stated over these pure functions.

Modules: `Common` (Option, ids, JavaScript truthiness), `JsString`,
`UserModel`, `GithubAuth`, `Auth`, `Comments`.

Foreign calls are parameters:
- `jwt.verify` under the process secret is `verify: string -> VerifyResult`. It
  returns a payload, throws a `JsonWebTokenError`, or throws some other error.
- `mongoose.Types.ObjectId.isValid` and Mongoose's cast of an id string are
  `isObjectId: Id -> bool`.
- The validation of the Comment schema is `accepts: Comment -> bool`.
- The ObjectId given to a new document is the `newId` argument. The model
  requires that it is unused.

Behaviours of the code that a reader might not expect, all of which the model keeps:
- After the `"Bearer "` marker, the code also trims leading white space
  (`trimLeft`).
- The display name is split on single spaces, not on runs of white space.
- Complete-profile overwrites names that are already stored (see Findings).
- The schema requires both names on every user, so a GitHub user can never be
  stored in an "incomplete" state (see Findings).
- The schema does not forbid an email and a GitHub id on the same user. It
  only requires email and password when there is no GitHub id.
- `deleteComment` answers 500 when the id cannot be cast to an ObjectId.
  `getComments` does the same for the post id, on the assumption stated under "Left out".
- Find-or-create is a read followed by a separate write, not an atomic upsert.
  The model runs each handler as one sequential step.

## Model

| member | source | states |
|---|---|---|
| JsString.TrimStart | middleware/auth.js:14 | `trimLeft` returns a suffix of its input, everything it removes is JavaScript white space, and the result does not start with white space |
| JsString.StartsWith | middleware/auth.js:12 | no contract; defines `s.startsWith(prefix)`: `prefix` is a prefix of `s`, compared character by character |
| JsString.Split | index.js:111-112 | `split(' ')` gives one more piece than there are spaces, and no piece contains a space |
| JsString.SpaceCountPositive | index.js:112 | the split has more than one piece exactly when the display name contains a space |
| JsString.JoinSplit | index.js:111 | joining the pieces with single spaces gives back the display name, so nothing is lost by the split |
| JsString.SplitJoin | index.js:111 | splitting space-free pieces joined by single spaces gives the same pieces back |
| JsString.FirstPieceIsPrefix | index.js:111 | the first piece is a prefix of the string, followed by a space or by the end |
| JsString.LastPieceIsSuffix | index.js:112 | with more than one piece, the last piece is a suffix of the string and a space stands right before it |
| UserModel.NewUser | models/User.js:34-41 | no contract; defines a new document with the given fields and the defaults `picturePath` `""` and `friends` `[]` |
| UserModel.CredentialsRequired | models/User.js:17-33 | no contract; defines the `required` callback of `email` and `password`: it holds when `githubId` is falsy |
| UserModel.ValidUser | models/User.js:5-33 | no contract; defines schema validation: a non-empty `firstName` and `lastName`, and a non-empty `email` and `password` whenever `CredentialsRequired` holds |
| UserModel.UniqueEmails | models/User.js:17-20 | no contract; defines the unique index on `email`: no two stored users share a present email |
| UserModel.UniqueGithubIds | models/User.js:42-46 | no contract; defines the unique index on `githubId`: no two stored users share a present GitHub id |
| UserModel.NoDuplicateKey | models/User.js:17-46 | no contract; defines the index check on insert: no stored user already has the new document's email or GitHub id |
| UserModel.SaveNew | models/User.js:3-53 | saving a new document succeeds exactly when it passes validation and no stored user has its email or GitHub id; on success the document is added under its id and every other user is unchanged |
| UserModel.SaveNewKeepsStoreValid | models/User.js:17-46 | a successful save keeps the unique indexes on `email` and `githubId` and keeps every stored document valid |
| UserModel.SaveNewRejectsTakenEmail | models/User.js:17-20 | a new document whose email another user already has is never stored |
| UserModel.NamesRequired | models/User.js:5-16 | a user whose `firstName` or `lastName` is absent or empty is invalid |
| UserModel.CredentialsRequiredExactlyWithoutGithub | models/User.js:17-33 | for a user with both names, dropping the email, or dropping the password, leaves it valid exactly when it has a truthy `githubId` |
| UserModel.ReplaceNamesKeepsUniqueKeys | models/User.js:17-46 | replacing a user's names keeps both unique indexes |
| GithubAuth.FirstNameOf | index.js:111 | no contract; defines `displayName ? displayName.split(' ')[0] : ''` |
| GithubAuth.LastNameOf | index.js:112 | no contract; defines the last piece of `displayName.split(' ')` when there is more than one, else `''` |
| GithubAuth.NewGithubUser | index.js:108-115 | no contract; defines the new User built from a GitHub profile |
| GithubAuth.HasGithubUser | index.js:104-106 | no contract; defines `User.findOne({ githubId })` finding a user, the negation of the `!user` test |
| GithubAuth.RedirectFor | index.js:119-126 | no contract; defines the redirect: to complete-profile when a name is falsy, else to the profile page |
| GithubAuth.MergeName | index.js:142-143 | no contract; defines `supplied \|\| stored` |
| GithubAuth.WithNames | index.js:142-143 | no contract; defines the user after both names are merged |
| GithubAuth.UserStore.GithubCallback | index.js:101-127 | if a user has the profile's GitHub id, nothing changes and that user's redirect is chosen; otherwise the new user is added under the new id when it validates (nothing else changes), or nothing is stored and nothing is sent; the redirect goes to completion exactly when a name is falsy |
| GithubAuth.UserStore.CompleteProfile | index.js:134-146 | an id that cannot be cast and an unknown id both leave the store untouched (the unknown id answers 404); otherwise only the target user's two names change, by the merge rule, and only when the result validates |
| GithubAuth.GithubUserSaveIsValidation | index.js:104-116 | for a GitHub id no stored user has, saving the new user fails only by validation |
| GithubAuth.NewGithubUserFields | index.js:108-115 | a new GitHub user has `githubId` set to the profile id, no email and no password, `picturePath` `""`, `friends` `[]`, and the other fields absent |
| GithubAuth.FirstNameIsLeadingWord | index.js:111 | `firstName` is the display name up to its first space, or all of it when there is no space; it is `''` when the display name is absent or empty |
| GithubAuth.LastNameIsTrailingWord | index.js:112 | `lastName` is what follows the last space of the display name; it is `''` when the display name is absent, empty or has no space |
| GithubAuth.DoubleSpaceDisplayName | index.js:111-112 | `"A  B"` splits into `["A","","B"]` and gives first name `A` and last name `B` |
| GithubAuth.NewGithubUserNeverIncomplete | index.js:116-121 | a new user with an empty derived name never validates, and a new user that validates is always sent to the profile page |
| GithubAuth.OneWordDisplayNameRejected | index.js:111-116 | a new user whose display name is absent or has no space fails validation, so nothing is stored |
| GithubAuth.ValidStoreNeverIncomplete | index.js:120-121 | when every stored user is valid, the completion redirect is never chosen |
| GithubAuth.DeferredNamesRouteToCompletion | index.js:119-121 | under the corrected schema, every new GitHub user validates and is sent to completion exactly when a derived name is empty |
| GithubAuth.ValidUserDeferringNames | index.js:119-121 | no contract; defines the corrected schema of the first finding: names, like email and password, required only without a GitHub id |
| GithubAuth.MergeNameRule | index.js:142-143 | an absent or empty supplied name keeps the stored one, any other supplied name replaces it, and a stored non-empty name never becomes empty |
| GithubAuth.MergeNameOverwritesExisting | index.js:142 | supplying `"X"` over a stored `"Existing"` stores `"X"` |
| GithubAuth.WithNamesChangesOnlyNames | index.js:142-144 | complete-profile changes no field but `firstName` and `lastName` |
| GithubAuth.FillNameNeverOverwrites | index.js:142-143 | the corrected merge keeps a stored non-empty name and otherwise agrees with the code's merge |
| GithubAuth.FillName | index.js:142-143 | no contract; defines the corrected merge the line's comment intends: a supplied name is used only where no name is stored |
| Auth.ExtractToken | middleware/auth.js:12-15 | no contract; defines the token handed to `jwt.verify`: the rest after `"Bearer "` with leading white space trimmed, or the whole header |
| Auth.Authenticate | middleware/auth.js:3-28 | no contract; defines the middleware's decision: 401 for a falsy header, then `Continue`, 401 or 500 by what `verify` does with the extracted token |
| Auth.StatusOf | middleware/auth.js:8-28 | no contract; defines the status each refusal sends: 401 for no token and for a JWT error, 500 for any other error |
| Auth.VerifyToken | middleware/auth.js:3-29 | each call does exactly one of two things: it calls `next` once with `req.user` set to the verified payload, or it sends one response with the decided status and leaves `req.user` and `next` alone |
| Auth.NoTokenExactly | middleware/auth.js:8-10 | the answer is 401 "no token" exactly when the header is absent or empty |
| Auth.BearerTokenIsTrimmedRest | middleware/auth.js:12-15 | after a leading `"Bearer "`, the token is the rest of the header with only its leading white space removed |
| Auth.BareTokenUnchanged | middleware/auth.js:12-17 | a header without the case-sensitive marker is verified unchanged |
| Auth.BearerWithSpacesExample | middleware/auth.js:14 | `"Bearer   abc"` is verified as `"abc"` |
| Auth.BearerCaseSensitiveExample | middleware/auth.js:12 | `"bearer abc"` and `"Bearer"` are verified unchanged |
| Auth.BearerStrippedOnceExample | middleware/auth.js:12-15 | `"Bearer Bearer abc"` is verified as `"Bearer abc"` |
| Auth.ContinueExactlyWhenVerified | middleware/auth.js:17-20 | `next` is reached exactly when the extracted token verifies, and then with that payload |
| Auth.FailuresClassified | middleware/auth.js:21-28 | a JWT error answers 401 "Invalid token", and any other thrown error answers 500 |
| Comments.CommentsOf | controllers/comments.js:12 | no contract; defines `Comment.find({ post: postId })` as the comments whose `post` is that id |
| Comments.UserIdOf | controllers/comments.js:68 | no contract; defines `req.user && req.user.id`, kept only when truthy |
| Comments.DeleteDecision | controllers/comments.js:65-104 | no contract; defines `deleteComment`'s chain of checks in the handler's order |
| Comments.CreateStatus | controllers/comments.js:26-49 | no contract; defines the status each `createComment` outcome sends: 404, 404, 409 or 201 |
| Comments.DeleteStatus | controllers/comments.js:65-104 | no contract; defines the status each `deleteComment` outcome sends: 401, 500, 404, 404, 403 or 200 |
| Comments.Unlink | controllers/comments.js:97 | no contract; defines the corrected delete's extra step: the id taken out of every post's list |
| Comments.StoredValue | controllers/comments.js:24-36 | no contract; defines what a document holds for a body `text` that is `null` or a string |
| Comments.CommentStore.GetComments | controllers/comments.js:8-18 | a post id that cannot be cast answers 500; otherwise the answer is 200 with exactly the stored comments whose `post` is that id |
| Comments.CommentStore.CreateComment | controllers/comments.js:22-50 | an invalid post id, a missing post, and a comment the schema rejects each answer with no change; the answer's status is 404, 404, 409 or 201 accordingly; otherwise one comment is stored under the new id with the request user's id, the post id and the body's text (`null` and missing both leave it unset), and the new id is appended to that post's list |
| Comments.CommentStore.UpdateComment | controllers/comments.js:52-63 | an invalid id answers 404 with no change; otherwise the answer is `{text, _id}` whether or not the comment exists, only that comment's text changes: a missing `text` changes nothing, a `null` one clears it, a string replaces it; there is no ownership check |
| Comments.CommentStore.DeleteComment | controllers/comments.js:65-104 | the outcome is the ordered check chain (below); only a `Deleted` outcome removes anything, and then only that comment; post lists are never touched |
| Comments.CommentStore.DeleteCommentAndUnlink | controllers/comments.js:92-99 | the corrected delete: the same checks, plus the id leaves every post's list, so no id in any list is left dangling |
| Comments.RemoveId | controllers/comments.js:97 | removing an id from a list keeps every other id and drops that one, and a list without that id is left unchanged |
| Comments.CreateKeepsLinks | controllers/comments.js:36-43 | storing the comment and appending its fresh id keeps every comment listed in its post, and creates no dangling id |
| Comments.CreateListsComment | controllers/comments.js:12-37 | after a create, the listing of the new comment's post gains exactly that comment, and every other listing is unchanged |
| Comments.ListedCommentsAreInPostList | controllers/comments.js:12 | a comment is listed under exactly its own post, and that post's list names it |
| Comments.UpdateKeepsLinks | controllers/comments.js:58-60 | changing a comment's text keeps it listed in its post and creates no dangling id |
| Comments.DeleteRefusesAnonymousFirst | controllers/comments.js:68-76 | the answer is 401 exactly when there is no truthy user id, whatever the store holds |
| Comments.DeleteCheckOrder | controllers/comments.js:79-94 | with a user id, the checks come in this order: 500 for an id that cannot be cast, 404 for a missing comment, 404 for a missing or empty creator, 403 for a different creator |
| Comments.DeleteOnlyByCreator | controllers/comments.js:92-97 | a comment is deleted exactly when the user id is truthy, the comment id can be cast, the comment exists and its creator equals that user id |
| Comments.DeleteUnlistsComment | controllers/comments.js:97 | a delete removes the comment from its post's listing and from no other listing |
| Comments.DeleteLeavesDanglingId | controllers/comments.js:97 | after a successful delete, the id stays in its post's list and names no comment |
| Comments.UnlinkKeepsLinks | controllers/comments.js:97 | after the corrected delete, every remaining comment is still listed in its post and no list holds a dangling id |

## Left out

- The signature and expiry checks inside `jwt.verify` (RFC 7519) are not modelled. `verify` is a parameter that returns a payload or throws.
- Token signing and the login and registration handlers are left out: `controllers/auth.js` is not part of this model.
- `ObjectId.isValid` is the uninterpreted parameter `isObjectId`. The model assumes that Mongoose's id cast succeeds exactly for the strings that `isValid` accepts.
- Ids are compared as strings, and every id is assumed to arrive in the canonical form that an ObjectId's `toString()` gives (24 lower-case hex digits). Mongoose's cast in `findById`, `find({post})` and the stored `creator` makes an upper-case spelling of an id find the same document, but `comment.creator.toString() !== userId` then compares the lower-case form with the spelling the token carries; the model does not capture either effect of that normalisation.
- Passport, the GitHub strategy, `serializeUser`/`deserializeUser`, sessions and the OAuth handshake are third-party I/O and are not modelled. The profile arrives as a `GithubProfile`. A redirect is identified only by its constructor and the user id.
- Express setup, middleware stacks, static files, file uploads, the database connection and seeding are plumbing and are left out.
- `routes/comments.js` is route wiring. Its one fact is in the signatures: `CreateComment` takes the payload that `verifyToken` attached, `DeleteComment` takes the request's optional user, and `GetComments` takes no user.
- The `min`/`max` options on the User strings are not modelled, because Mongoose does not enforce them on strings.
- MongoDB's non-sparse unique indexes are not modelled. In MongoDB, users without an `email` or `githubId` are indexed as `null` and can collide with each other. The model applies uniqueness to present values only.
- The read-then-create race in the GitHub callback and the read-modify-write race on `post.comments` are concurrency hazards. Each handler runs as one atomic step.
- Logging and the exact texts of error bodies are left out.
- `viewedProfile` and `impressions` are JavaScript Numbers, modelled as `real`; floating-point rounding is not modelled, and the core never reads them.
- `models/Comment.js` and `models/Post.js` are not part of this model:
  - comment validation is the parameter `accepts`;
  - a post is reduced to its list of comment ids;
  - `post.save()` is assumed to succeed.
- Mongoose's `populate` of the comment's creator, and the timestamps, are not modelled.
- The two `index.js` handlers have no `try`/`catch`. A rejected `save()` or `findById` is an outcome that sends nothing (`CreateRejected`, `UpdateRejected`, `IdCastFailed`). Express's own treatment of the unhandled rejection is not modelled.
- `save()` is modelled as validating the whole document, whereas Mongoose validates only the paths it tracks.
- Comments.CommentStore.GetComments: returns the matching comments as a map keyed by id, so the order of `find`'s results is not modelled. The 500 answer for a post id that `isObjectId` rejects assumes that `models/Comment.js` types `post` as an ObjectId, so that `find({post})` fails to cast it; that file is not part of this model.
- Comments.CommentStore.UpdateComment: assumes Mongoose 6 or later, which drops an `undefined` key from an update, so a missing `text` leaves the stored text as it was (Mongoose 5 would store `null` instead), while an explicit `null` is stored; the package version is not part of this model. A `text` that is neither a string nor `null` (a number, an object) is not modelled. Errors that `findByIdAndUpdate` throws are not modelled, since the handler does not catch them.
- Auth.VerifyToken: an exception thrown synchronously by `next()` inside the `try` would also be caught and answered. This is not modelled.

## Findings

The handlers above model the code as written. The corrected members sit beside them, and each has the property the code evidently intended.

| source | as written | input that shows it | evidently intended | confidence | as-written member | corrected member |
|---|---|---|---|---|---|---|
| index.js:142-143 | `firstName \|\| user.firstName` lets any non-empty supplied name replace the stored one | stored `firstName` `"Existing"`, body `firstName` `"X"`: the stored name becomes `"X"` | keep a stored non-empty name ("Don't overwrite if already exists") | high; not executed | GithubAuth.MergeNameOverwritesExisting | GithubAuth.FillNameNeverOverwrites |
| controllers/comments.js:97 | only the Comment document is deleted | the creator deletes a comment whose id line 42 pushed onto its post: the id stays in `post.comments` and names nothing | remove the id from the post's list as well | medium; not executed | Comments.DeleteLeavesDanglingId | Comments.UnlinkKeepsLinks |
| index.js:111-121 | a new GitHub user with an empty derived name fails the schema's `required` names (models/User.js:5-16), so `save()` rejects and no redirect is sent | display name `"octocat"` (no space): `lastName` is `''` and the user is never stored | store the user and redirect to complete-profile, as the comment and branch at lines 119-121 say | medium; not executed | GithubAuth.OneWordDisplayNameRejected | GithubAuth.DeferredNamesRouteToCompletion |
