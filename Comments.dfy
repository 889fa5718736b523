/** The comment handlers of `controllers/comments.js` over the comment and
    post collections. Every post keeps an ordered list of the ids of its
    comments, a copy of what the comments' own `post` fields already say. */
module Comments {
  import opened Common
  import Auth

  /** A Comment document; `creator` is the id of the user who wrote it. */
  datatype Comment = Comment(text: Option<string>, creator: Option<Id>, post: Id)

  /** A Post document, reduced to its list of comment ids. */
  datatype Post = Post(comments: seq<Id>)

  /** Every comment belongs to a stored post whose list names it. */
  ghost predicate Attached(posts: map<Id, Post>, comments: map<Id, Comment>) {
    forall c :: c in comments ==>
      comments[c].post in posts && c in posts[comments[c].post].comments
  }

  /** Every id in a post's list names a stored comment. */
  ghost predicate NoDangling(posts: map<Id, Post>, comments: map<Id, Comment>) {
    forall p, c :: p in posts && c in posts[p].comments ==> c in comments
  }

  /** An ObjectId that no document and no list has used yet. */
  ghost predicate FreshCommentId(posts: map<Id, Post>, comments: map<Id, Comment>, id: Id) {
    id !in comments && forall p :: p in posts ==> id !in posts[p].comments
  }

  /** `Comment.find({ post: postId })`. */
  function CommentsOf(comments: map<Id, Comment>, postId: Id): (r: map<Id, Comment>) {
    map k | k in comments && comments[k].post == postId :: comments[k]
  }

  /** The `text` field of a parsed JSON request body: missing, `null`, or a string. */
  datatype BodyText = Missing | Null | Text(s: string)

  /** The value a document holds for a body field that is not missing. */
  function StoredValue(t: BodyText): (r: Option<string>) {
    if t.Text? then Some(t.s) else None
  }

  /** How `createComment` ends. */
  datatype CreateOutcome =
    | InvalidPostId                      // 404 "No post with that id"
    | PostMissing                        // 404 "Post not found"
    | CommentRejected                    // 409: the comment's save() failed
    | Created(id: Id, comment: Comment)  // 201 with the stored comment

  /** How `updateComment` ends. */
  datatype UpdateOutcome =
    | InvalidCommentId                 // 404 "No comment with that id"
    | Updated(text: BodyText, id: Id)  // 200 with {text, _id}

  /** How `deleteComment` ends. */
  datatype DeleteOutcome =
    | NoUserId        // 401
    | CastFailed      // 500: findById rejected the id
    | CommentMissing  // 404 "Comment not found"
    | CreatorMissing  // 404 "Comment creator information is missing"
    | NotOwner        // 403
    | Deleted         // 200

  function CreateStatus(o: CreateOutcome): (r: nat) {
    match o
    case InvalidPostId => 404
    case PostMissing => 404
    case CommentRejected => 409
    case Created(_, _) => 201
  }

  function DeleteStatus(o: DeleteOutcome): (r: nat) {
    match o
    case NoUserId => 401
    case CastFailed => 500
    case CommentMissing => 404
    case CreatorMissing => 404
    case NotOwner => 403
    case Deleted => 200
  }

  /** `req.user && req.user.id`, kept only when it is truthy. */
  function UserIdOf(user: Option<Auth.Payload>): (r: Option<Id>) {
    if user.Some? && Truthy(user.value.id) then user.value.id else None
  }

  /** The chain of checks of `deleteComment`, in the order the handler makes them. */
  function DeleteDecision(comments: map<Id, Comment>, user: Option<Auth.Payload>,
                          commentId: Id, isObjectId: Id -> bool): (r: DeleteOutcome) {
    match UserIdOf(user)
    case None => NoUserId
    case Some(uid) =>
      if !isObjectId(commentId) then CastFailed
      else if commentId !in comments then CommentMissing
      else if !Truthy(comments[commentId].creator) then CreatorMissing
      else if comments[commentId].creator.value != uid then NotOwner
      else Deleted
  }

  /** `ids` without any occurrence of `x`; a list without `x` is left as it is. */
  function RemoveId(ids: seq<Id>, x: Id): (r: seq<Id>)
    ensures forall y :: y in r <==> y in ids && y != x
    ensures |r| <= |ids|
    ensures x !in ids ==> r == ids
  {
    if ids == [] then []
    else if ids[0] == x then RemoveId(ids[1..], x)
    else [ids[0]] + RemoveId(ids[1..], x)
  }

  /** Every post with `id` taken out of its list. */
  function Unlink(posts: map<Id, Post>, id: Id): (r: map<Id, Post>) {
    map p | p in posts :: Post(RemoveId(posts[p].comments, id))
  }

  /** The comment and post collections, updated in place by the handlers. */
  class CommentStore {
    var posts: map<Id, Post>
    var comments: map<Id, Comment>

    ghost predicate Valid()
      reads this
    {
      Attached(posts, comments)
    }

    constructor (posts: map<Id, Post>)
      ensures Valid() && this.posts == posts && comments == map[]
    {
      this.posts, comments := posts, map[];
    }

    /** `getComments`: a cast error on the post id is caught and answered 500. */
    method GetComments(postId: Id, isObjectId: Id -> bool) returns (status: nat, listed: map<Id, Comment>)
      ensures status == (if isObjectId(postId) then 200 else 500)
      ensures status == 200 ==> forall k :: k in listed <==> k in comments && comments[k].post == postId
      ensures status == 200 ==> forall k :: k in listed ==> listed[k] == comments[k]
      ensures status == 500 ==> listed == map[]
    {
      if !isObjectId(postId) {
        return 500, map[];
      }
      return 200, CommentsOf(comments, postId);
    }

    /** `createComment` for `user` (set by the token middleware) on `postId`.
        `newId` is the ObjectId the comment receives, and `accepts` is the
        verdict of the Comment schema's validation. */
    method CreateComment(user: Auth.Payload, postId: Id, text: BodyText, newId: Id,
                         isObjectId: Id -> bool, accepts: Comment -> bool)
      returns (outcome: CreateOutcome)
      requires Valid()
      requires FreshCommentId(posts, comments, newId)
      modifies this
      ensures Valid()
      ensures NoDangling(old(posts), old(comments)) ==> NoDangling(posts, comments)
      ensures CreateStatus(outcome) ==
        if !isObjectId(postId) || postId !in old(posts) then 404
        else if accepts(Comment(StoredValue(text), user.id, postId)) then 201
        else 409
      ensures !isObjectId(postId) ==>
        outcome == InvalidPostId && posts == old(posts) && comments == old(comments)
      ensures isObjectId(postId) && postId !in old(posts) ==>
        outcome == PostMissing && posts == old(posts) && comments == old(comments)
      ensures isObjectId(postId) && postId in old(posts) ==>
        var c := Comment(StoredValue(text), user.id, postId);
        if accepts(c) then
          && outcome == Created(newId, c)
          && comments == old(comments)[newId := c]
          && posts == old(posts)[postId := Post(old(posts)[postId].comments + [newId])]
        else
          outcome == CommentRejected && posts == old(posts) && comments == old(comments)
    {
      if !isObjectId(postId) {
        return InvalidPostId;
      }
      if postId !in posts {
        return PostMissing;
      }
      var c := Comment(StoredValue(text), user.id, postId);
      if !accepts(c) {
        return CommentRejected;
      }
      CreateKeepsLinks(posts, comments, newId, c);
      comments := comments[newId := c];
      var post := posts[postId];
      post := post.(comments := post.comments + [newId]);
      posts := posts[postId := post];
      outcome := Created(newId, c);
    }

    /** `updateComment`: no ownership check, no existence check. A missing
        `text` is an `undefined` key, which Mongoose drops from the update; a
        `null` one is stored as null. */
    method UpdateComment(id: Id, text: BodyText, isObjectId: Id -> bool)
      returns (outcome: UpdateOutcome)
      requires Valid()
      modifies this
      ensures Valid()
      ensures NoDangling(old(posts), old(comments)) ==> NoDangling(posts, comments)
      ensures posts == old(posts)
      ensures !isObjectId(id) ==> outcome == InvalidCommentId && comments == old(comments)
      ensures isObjectId(id) ==>
        && outcome == Updated(text, id)
        && comments == (if id in old(comments) && !text.Missing?
                        then old(comments)[id := old(comments)[id].(text := StoredValue(text))]
                        else old(comments))
    {
      if !isObjectId(id) {
        return InvalidCommentId;
      }
      if id in comments && !text.Missing? {
        UpdateKeepsLinks(posts, comments, id, StoredValue(text));
        comments := comments[id := comments[id].(text := StoredValue(text))];
      }
      outcome := Updated(text, id);
    }

    /** `deleteComment` for the request's `user` and the comment `commentId`. */
    method DeleteComment(user: Option<Auth.Payload>, commentId: Id, isObjectId: Id -> bool)
      returns (outcome: DeleteOutcome)
      requires Valid()
      modifies this
      ensures Valid()
      ensures outcome == DeleteDecision(old(comments), user, commentId, isObjectId)
      ensures posts == old(posts)
      ensures comments == if outcome == Deleted then old(comments) - {commentId} else old(comments)
    {
      if user.None? || !Truthy(user.value.id) {
        return NoUserId;
      }
      var userId := user.value.id.value;
      if !isObjectId(commentId) {
        return CastFailed;
      }
      if commentId !in comments {
        return CommentMissing;
      }
      var comment := comments[commentId];
      if !Truthy(comment.creator) {
        return CreatorMissing;
      }
      if comment.creator.value != userId {
        return NotOwner;
      }
      comments := comments - {commentId};
      outcome := Deleted;
    }

    /** The corrected `deleteComment`: the same checks, and the deleted id is
        also taken out of every post's list. */
    method DeleteCommentAndUnlink(user: Option<Auth.Payload>, commentId: Id, isObjectId: Id -> bool)
      returns (outcome: DeleteOutcome)
      requires Valid()
      modifies this
      ensures Valid()
      ensures NoDangling(old(posts), old(comments)) ==> NoDangling(posts, comments)
      ensures outcome == DeleteDecision(old(comments), user, commentId, isObjectId)
      ensures outcome == Deleted ==>
        comments == old(comments) - {commentId} && posts == Unlink(old(posts), commentId)
      ensures outcome != Deleted ==> comments == old(comments) && posts == old(posts)
    {
      outcome := DeleteDecision(comments, user, commentId, isObjectId);
      if outcome == Deleted {
        UnlinkKeepsLinks(posts, comments, commentId);
        comments := comments - {commentId};
        posts := Unlink(posts, commentId);
      }
    }
  }

  /** Adding a comment under a fresh id and appending that id to its post's
      list keeps every comment attached and creates no dangling id. */
  lemma CreateKeepsLinks(posts: map<Id, Post>, comments: map<Id, Comment>, newId: Id, c: Comment)
    requires Attached(posts, comments) && FreshCommentId(posts, comments, newId)
    requires c.post in posts
    ensures var posts' := posts[c.post := Post(posts[c.post].comments + [newId])];
      && Attached(posts', comments[newId := c])
      && (NoDangling(posts, comments) ==> NoDangling(posts', comments[newId := c]))
  {
  }

  /** After a create, the listing of the comment's post gains exactly the new
      comment, and every other listing stays as it was. */
  lemma CreateListsComment(comments: map<Id, Comment>, newId: Id, c: Comment, q: Id)
    requires newId !in comments
    ensures CommentsOf(comments[newId := c], c.post) == CommentsOf(comments, c.post)[newId := c]
    ensures q != c.post ==> CommentsOf(comments[newId := c], q) == CommentsOf(comments, q)
  {
  }

  /** A comment is listed under exactly its own post, and, while every comment
      is attached, that post's list names it. */
  lemma ListedCommentsAreInPostList(posts: map<Id, Post>, comments: map<Id, Comment>, postId: Id, k: Id)
    requires Attached(posts, comments)
    ensures k in CommentsOf(comments, postId) <==> k in comments && comments[k].post == postId
    ensures k in CommentsOf(comments, postId) ==> postId in posts && k in posts[postId].comments
  {
  }

  /** Changing a comment's text moves it to no other post. */
  lemma UpdateKeepsLinks(posts: map<Id, Post>, comments: map<Id, Comment>, id: Id, text: Option<string>)
    requires id in comments
    ensures Attached(posts, comments) ==> Attached(posts, comments[id := comments[id].(text := text)])
    ensures NoDangling(posts, comments) ==> NoDangling(posts, comments[id := comments[id].(text := text)])
  {
  }

  /** A missing or falsy user id is refused with 401 whatever the store holds,
      before any lookup. */
  lemma DeleteRefusesAnonymousFirst(comments: map<Id, Comment>, user: Option<Auth.Payload>,
                                   commentId: Id, isObjectId: Id -> bool)
    ensures DeleteDecision(comments, user, commentId, isObjectId) == NoUserId <==>
      user.None? || !Truthy(user.value.id)
    ensures user.None? || !Truthy(user.value.id) ==>
      DeleteStatus(DeleteDecision(comments, user, commentId, isObjectId)) == 401
  {
  }

  /** With a user id, the next checks come in order: 500 for an id that cannot
      be cast, 404 for a missing comment, 404 for a missing creator, 403 for
      another creator. */
  lemma DeleteCheckOrder(comments: map<Id, Comment>, user: Option<Auth.Payload>,
                         commentId: Id, isObjectId: Id -> bool)
    requires UserIdOf(user).Some?
    ensures var d := DeleteDecision(comments, user, commentId, isObjectId);
      && (!isObjectId(commentId) ==> d == CastFailed)
      && (isObjectId(commentId) && commentId !in comments ==> d == CommentMissing)
      && (isObjectId(commentId) && commentId in comments && !Truthy(comments[commentId].creator) ==>
            d == CreatorMissing)
      && (isObjectId(commentId) && commentId in comments && Truthy(comments[commentId].creator) ==>
            (comments[commentId].creator != UserIdOf(user) ==> d == NotOwner))
  {
  }

  /** A comment is deleted exactly when the request's user id is its creator. */
  lemma DeleteOnlyByCreator(comments: map<Id, Comment>, user: Option<Auth.Payload>,
                            commentId: Id, isObjectId: Id -> bool)
    ensures DeleteDecision(comments, user, commentId, isObjectId) == Deleted <==>
      && UserIdOf(user).Some?
      && isObjectId(commentId)
      && commentId in comments
      && comments[commentId].creator == UserIdOf(user)
  {
  }

  /** Deleting a comment removes it from its post's listing and from no other. */
  lemma DeleteUnlistsComment(comments: map<Id, Comment>, id: Id, q: Id)
    requires id in comments
    ensures CommentsOf(comments - {id}, comments[id].post) ==
      CommentsOf(comments, comments[id].post) - {id}
    ensures q != comments[id].post ==> CommentsOf(comments - {id}, q) == CommentsOf(comments, q)
  {
  }

  /** The handler as written leaves the deleted id in its post's list. */
  lemma DeleteLeavesDanglingId(posts: map<Id, Post>, comments: map<Id, Comment>,
                               user: Option<Auth.Payload>, commentId: Id, isObjectId: Id -> bool)
    requires Attached(posts, comments)
    requires DeleteDecision(comments, user, commentId, isObjectId) == Deleted
    ensures var p := comments[commentId].post;
      p in posts && commentId in posts[p].comments && commentId !in comments - {commentId}
    ensures !NoDangling(posts, comments - {commentId})
  {
  }

  /** The corrected delete: taking the id out of every list keeps every
      remaining comment attached and leaves no dangling id. */
  lemma UnlinkKeepsLinks(posts: map<Id, Post>, comments: map<Id, Comment>, id: Id)
    requires Attached(posts, comments)
    ensures Attached(Unlink(posts, id), comments - {id})
    ensures NoDangling(posts, comments) ==> NoDangling(Unlink(posts, id), comments - {id})
  {
  }
}
