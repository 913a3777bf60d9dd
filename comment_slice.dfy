/** The `comments` slice: the comments of the open video and the request
    flags. Its like toggle patches the found comment in place. */
module CommentSlice {
  import opened Common
  import opened KeyedLists

  datatype CommentOwner = CommentOwner(avatar: string, username: string)

  datatype Comment = Comment(
    owner: CommentOwner,
    id: Id,
    isCommentLiked: bool,
    totalLikes: int,
    content: string,
    userId: Id,
    videoId: Id,
    createdAt: string,
    updatedAt: string)

  function CommentId(c: Comment): Id { c.id }

  /** The list after `comments[k]` gets the like fields; the match `find`
      returns is the first one. */
  function PatchLike(comments: seq<Comment>, commentId: Id, liked: bool, totalLikes: int): seq<Comment> {
    match FirstIndex(comments, CommentId, commentId)
    case None => comments
    case Some(k) => comments[k := comments[k].(isCommentLiked := liked, totalLikes := totalLikes)]
  }

  class Slice {
    var comments: seq<Comment>
    var loading: bool
    var error: Option<string>

    constructor ()
      ensures comments == [] && !loading && error == None
    {
      comments := [];
      loading := false;
      error := None;
    }

    /** toggleCommentLike fulfilled: the first comment with the id gets the
        payload's like flag and count; with no match nothing changes. */
    method ToggleCommentLikeFulfilled(commentId: Id, liked: bool, totalLikes: int)
      modifies this`comments
      ensures comments == PatchLike(old(comments), commentId, liked, totalLikes)
    {
      var index := FindIndex(comments, CommentId, commentId);
      if index != -1 {
        comments := comments[index := comments[index].(isCommentLiked := liked, totalLikes := totalLikes)];
      }
    }

    /** getComments pending: loading starts and the error is cleared. */
    method GetCommentsPending()
      modifies this`loading, this`error
      ensures loading && error == None
    {
      loading := true;
      error := None;
    }

    /** getComments fulfilled: the list becomes `payload.comments`. */
    method GetCommentsFulfilled(payloadComments: seq<Comment>)
      modifies this`loading, this`comments
      ensures !loading && comments == payloadComments
    {
      loading := false;
      comments := payloadComments;
    }

    /** getComments rejected: the list stays as it was. */
    method GetCommentsRejected(payload: Option<string>)
      modifies this`loading, this`error
      ensures !loading && error == payload
    {
      loading := false;
      error := payload;
    }

    /** createComment fulfilled: the new comment goes in front. */
    method CreateCommentFulfilled(created: Comment)
      modifies this`comments
      ensures comments == [created] + old(comments)
    {
      comments := [created] + comments;
    }

    /** updateComment fulfilled: only the first comment with the payload's id
        is replaced; with no match nothing changes. */
    method UpdateCommentFulfilled(updated: Comment)
      modifies this`comments
      ensures match FirstIndex(old(comments), CommentId, updated.id)
        case None => comments == old(comments)
        case Some(k) => comments == old(comments)[k := updated]
    {
      var index := FindIndex(comments, CommentId, updated.id);
      if index != -1 {
        comments := comments[index := updated];
      }
    }

    /** deleteComment fulfilled: the reducer is empty, so nothing changes. */
    method DeleteCommentFulfilled(commentId: Id)
      ensures comments == old(comments) && loading == old(loading) && error == old(error)
    {
    }
  }

  /** The like patch keeps the length, changes at most one comment (the first
      with the id) and, in it, only the two like fields. */
  lemma PatchLikeChangesOnlyFirstMatch(comments: seq<Comment>, commentId: Id, liked: bool, totalLikes: int)
    ensures var r := PatchLike(comments, commentId, liked, totalLikes);
      && |r| == |comments|
      && (forall i :: 0 <= i < |comments| ==>
            r[i].(isCommentLiked := comments[i].isCommentLiked, totalLikes := comments[i].totalLikes) == comments[i])
      && (forall i :: 0 <= i < |comments| && r[i] != comments[i] ==>
            comments[i].id == commentId && forall j :: 0 <= j < i ==> comments[j].id != commentId)
      && ((forall i :: 0 <= i < |comments| ==> comments[i].id != commentId) ==> r == comments)
  {
  }

  /** The patched comment carries the payload's values. */
  lemma PatchLikeSetsFields(comments: seq<Comment>, commentId: Id, liked: bool, totalLikes: int, k: nat)
    requires k < |comments| && comments[k].id == commentId
    requires forall j :: 0 <= j < k ==> comments[j].id != commentId
    ensures PatchLike(comments, commentId, liked, totalLikes)[k].isCommentLiked == liked
    ensures PatchLike(comments, commentId, liked, totalLikes)[k].totalLikes == totalLikes
  {
    FirstIndexIsFirst(comments, CommentId, commentId, k);
  }

  /** Applying the same like payload twice is the same as applying it once. */
  lemma PatchLikeIdempotent(comments: seq<Comment>, commentId: Id, liked: bool, totalLikes: int)
    ensures PatchLike(PatchLike(comments, commentId, liked, totalLikes), commentId, liked, totalLikes)
      == PatchLike(comments, commentId, liked, totalLikes)
  {
    var once := PatchLike(comments, commentId, liked, totalLikes);
    match FirstIndex(comments, CommentId, commentId)
    case None =>
    case Some(k) =>
      assert forall j :: 0 <= j < |once| ==> once[j].id == comments[j].id;
      FirstIndexIsFirst(once, CommentId, commentId, k);
  }
}
