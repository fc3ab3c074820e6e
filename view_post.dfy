/** The post page's handlers (client/src/pages/ViewPost.jsx). The page owns the
    post in its own state. As on the recipe card, a handler that awaits a request
    is split into the click and the completion, and each busy flag admits one
    handler of its kind in flight. The buttons exist only once the post has loaded,
    so every handler requires it. */
module ViewPost {
  import opened Common
  import opened Http
  import opened PostActions
  import Auth

  const FetchFailed := "Failed to fetch post."

  datatype PendingLike = PendingLike(before: Post, user: Liker, optimistic: Post)
  datatype PendingComment = PendingComment(before: Post, text: string)

  class PostPage {
    var post: Option<Post>
    var loading: bool
    var error: Option<string>
    var isLiking: bool
    var isSaving: bool
    var isCommenting: bool
    var newComment: string
    var selectedRating: int
    var showRatingModal: bool
    var pendingLike: Option<PendingLike>
    var pendingSave: Option<Post>
    var pendingComment: Option<PendingComment>

    /** Each busy flag is set exactly while its handler is in flight, and only once
        the post is there. */
    predicate Valid()
      reads this
    {
      (isLiking <==> pendingLike.Some?) && (isSaving <==> pendingSave.Some?)
      && (isCommenting <==> pendingComment.Some?)
      && (isLiking || isSaving || isCommenting ==> post.Some?)
    }

    /** The page as first rendered: no post yet, loading. */
    constructor()
      ensures Valid() && post == None && loading && error == None
      ensures !isLiking && !isSaving && !isCommenting && newComment == "" && selectedRating == 0 && !showRatingModal
    {
      post, loading, error := None, true, None;
      isLiking, isSaving, isCommenting := false, false, false;
      newComment, selectedRating, showRatingModal := "", 0, false;
      pendingLike, pendingSave, pendingComment := None, None, None;
    }

    /** The load effect settles: the post arrives, or the fetch error is shown;
        loading ends either way. */
    method Loaded(outcome: Outcome<Post>)
      requires Valid()
      modifies this
      ensures Valid() && !loading
      ensures outcome.Done? ==> post == Some(outcome.value) && error == old(error)
      ensures outcome.Failed? ==> post == old(post) && error == Some(FetchFailed)
    {
      match outcome {
        case Done(p) => post := Some(p);
        case Failed(_) => error := Some(FetchFailed);
      }
      loading := false;
    }

    /** handleLike up to the request: as on the card, ToggleLike is shown at once. */
    method BeginLike(auth: Auth.AuthStore, user: Option<Liker>, tempId: int) returns (started: bool)
      requires Valid() && post.Some?
      modifies this
      ensures Valid()
      ensures started <==> !old(isLiking) && Present(auth.accessToken) && user.Some?
      ensures !started ==> post == old(post) && isLiking == old(isLiking) && pendingLike == old(pendingLike)
      ensures started ==>
        var opt := ToggleLike(old(post).value, user.value, tempId);
        post == Some(opt) && isLiking && pendingLike == Some(PendingLike(old(post).value, user.value, opt))
      ensures isSaving == old(isSaving) && pendingSave == old(pendingSave)
      ensures isCommenting == old(isCommenting) && pendingComment == old(pendingComment)
      ensures newComment == old(newComment)
    {
      if isLiking || !Present(auth.accessToken) {
        return false;
      }
      if user.None? {
        return false;
      }
      var opt := ToggleLike(post.value, user.value, tempId);
      pendingLike := Some(PendingLike(post.value, user.value, opt));
      isLiking := true;
      post := Some(opt);
      started := true;
    }

    /** handleLike after the request: ReconcileLike of the post before the click, or
        that post back on failure (and the tokens cleared on 401). */
    method FinishLike(auth: Auth.AuthStore, outcome: Outcome<LikeResponse>, nowId: int)
      requires Valid() && isLiking
      modifies this, auth
      ensures Valid() && !isLiking
      ensures var q := old(pendingLike).value;
        post == Some(if outcome.Done? then ReconcileLike(q.before, q.user, outcome.value, nowId, q.optimistic)
                     else q.before)
      ensures outcome.Failed? && HasStatus(outcome.error, 401) ==> auth.accessToken == None && auth.refreshToken == None
      ensures !(outcome.Failed? && HasStatus(outcome.error, 401)) ==> unchanged(auth)
      ensures isSaving == old(isSaving) && pendingSave == old(pendingSave)
      ensures isCommenting == old(isCommenting) && pendingComment == old(pendingComment)
      ensures newComment == old(newComment)
    {
      var q := pendingLike.value;
      match outcome {
        case Done(resp) =>
          post := Some(ReconcileLike(q.before, q.user, resp, nowId, q.optimistic));
        case Failed(e) =>
          post := Some(q.before);
          if HasStatus(e, 401) {
            auth.ClearTokens();
          }
      }
      isLiking, pendingLike := false, None;
    }

    /** handleSave up to the request: the flag flipped at once. */
    method BeginSave(auth: Auth.AuthStore, user: Option<Liker>) returns (started: bool)
      requires Valid() && post.Some?
      modifies this
      ensures Valid()
      ensures started <==> !old(isSaving) && Present(auth.accessToken) && user.Some?
      ensures !started ==> post == old(post) && isSaving == old(isSaving) && pendingSave == old(pendingSave)
      ensures started ==> post == Some(SaveOptimistic(old(post).value)) && isSaving && pendingSave == old(post)
      ensures isLiking == old(isLiking) && pendingLike == old(pendingLike)
      ensures isCommenting == old(isCommenting) && pendingComment == old(pendingComment)
      ensures newComment == old(newComment)
    {
      if isSaving || !Present(auth.accessToken) {
        return false;
      }
      if user.None? {
        return false;
      }
      pendingSave := post;
      isSaving := true;
      post := Some(SaveOptimistic(post.value));
      started := true;
    }

    /** handleSave after the request: SaveFinal of the post before the click, or that
        post back on failure. */
    method FinishSave(auth: Auth.AuthStore, outcome: Outcome<Option<bool>>)
      requires Valid() && isSaving
      modifies this, auth
      ensures Valid() && !isSaving
      ensures var before := old(pendingSave).value;
        post == Some(if outcome.Done? then SaveFinal(before, outcome.value) else before)
      ensures outcome.Failed? && HasStatus(outcome.error, 401) ==> auth.accessToken == None && auth.refreshToken == None
      ensures !(outcome.Failed? && HasStatus(outcome.error, 401)) ==> unchanged(auth)
      ensures isLiking == old(isLiking) && pendingLike == old(pendingLike)
      ensures isCommenting == old(isCommenting) && pendingComment == old(pendingComment)
      ensures newComment == old(newComment)
    {
      var before := pendingSave.value;
      match outcome {
        case Done(saved) =>
          post := Some(SaveFinal(before, saved));
        case Failed(e) =>
          post := Some(before);
          if HasStatus(e, 401) {
            auth.ClearTokens();
          }
      }
      isSaving, pendingSave := false, None;
    }

    /** handleCommentSubmit up to the request. A blank draft (JsTrim gives "") is
        refused like a comment in flight or a missing token or user. */
    method BeginComment(auth: Auth.AuthStore, user: Option<Liker>, tempId: int) returns (started: bool)
      requires Valid() && post.Some?
      modifies this
      ensures Valid()
      ensures started <==> JsTrim(old(newComment)) != "" && !old(isCommenting) && Present(auth.accessToken) && user.Some?
      ensures !started ==> post == old(post) && newComment == old(newComment) && isCommenting == old(isCommenting)
                           && pendingComment == old(pendingComment)
      ensures started ==>
        post == Some(CommentOptimistic(old(post).value, user.value, tempId, old(newComment)))
        && newComment == "" && isCommenting && pendingComment == Some(PendingComment(old(post).value, old(newComment)))
      ensures isLiking == old(isLiking) && pendingLike == old(pendingLike)
      ensures isSaving == old(isSaving) && pendingSave == old(pendingSave)
    {
      if JsTrim(newComment) == "" || isCommenting || !Present(auth.accessToken) {
        return false;
      }
      if user.None? {
        return false;
      }
      var text := newComment;
      pendingComment := Some(PendingComment(post.value, text));
      isCommenting := true;
      post := Some(CommentOptimistic(post.value, user.value, tempId, text));
      newComment := "";
      started := true;
    }

    /** handleCommentSubmit after the request: the original comments plus the
        server's comment; on failure (including a post without a comments list,
        whose spread throws) the post before the click and the draft come back. */
    method FinishComment(auth: Auth.AuthStore, outcome: Outcome<Comment>)
      requires Valid() && isCommenting
      modifies this, auth
      ensures Valid() && !isCommenting
      ensures var q := old(pendingComment).value;
        var final := if outcome.Done? then CommentFinal(q.before, outcome.value) else None;
        (final.Some? ==> post == final && newComment == old(newComment))
        && (final.None? ==> post == Some(q.before) && newComment == q.text)
      ensures outcome.Failed? && HasStatus(outcome.error, 401) ==> auth.accessToken == None && auth.refreshToken == None
      ensures !(outcome.Failed? && HasStatus(outcome.error, 401)) ==> unchanged(auth)
      ensures isLiking == old(isLiking) && pendingLike == old(pendingLike)
      ensures isSaving == old(isSaving) && pendingSave == old(pendingSave)
    {
      var q := pendingComment.value;
      var final := if outcome.Done? then CommentFinal(q.before, outcome.value) else None;
      if final.Some? {
        post := final;
      } else {
        post := Some(q.before);
        newComment := q.text;
        if outcome.Failed? && HasStatus(outcome.error, 401) {
          auth.ClearTokens();
        }
      }
      isCommenting, pendingComment := false, None;
    }

    /** handleRating, as one step with the request's outcome. It is refused only
        without a token or without a selection. */
    method Rate(auth: Auth.AuthStore, outcome: Outcome<Option<real>>) returns (sent: bool)
      requires Valid() && post.Some?
      modifies this, auth
      ensures Valid()
      ensures sent <==> old(selectedRating) != 0 && Present(old(auth.accessToken))
      ensures sent && outcome.Done? ==>
        post == Some(RatingFinal(old(post).value, outcome.value, old(selectedRating)))
        && !showRatingModal && selectedRating == 0
      ensures !sent || outcome.Failed? ==>
        post == old(post) && showRatingModal == old(showRatingModal) && selectedRating == old(selectedRating)
      ensures sent && outcome.Failed? && HasStatus(outcome.error, 401) ==> auth.accessToken == None && auth.refreshToken == None
      ensures !(sent && outcome.Failed? && HasStatus(outcome.error, 401)) ==> unchanged(auth)
      ensures isLiking == old(isLiking) && pendingLike == old(pendingLike)
      ensures isSaving == old(isSaving) && pendingSave == old(pendingSave)
      ensures isCommenting == old(isCommenting) && pendingComment == old(pendingComment)
    {
      if !Present(auth.accessToken) || selectedRating == 0 {
        return false;
      }
      sent := true;
      match outcome {
        case Done(average) =>
          post := Some(RatingFinal(post.value, average, selectedRating));
          showRatingModal := false;
          selectedRating := 0;
        case Failed(e) =>
          if HasStatus(e, 401) {
            auth.ClearTokens();
          }
      }
    }

    /** closeRatingModal: the modal closes and the selection resets. */
    method CloseRatingModal()
      modifies this
      ensures !showRatingModal && selectedRating == 0
      ensures post == old(post) && newComment == old(newComment) && loading == old(loading) && error == old(error)
      ensures isLiking == old(isLiking) && pendingLike == old(pendingLike)
      ensures isSaving == old(isSaving) && pendingSave == old(pendingSave)
      ensures isCommenting == old(isCommenting) && pendingComment == old(pendingComment)
    {
      showRatingModal := false;
      selectedRating := 0;
    }
  }
}
