/** The recipe card's handlers (client/src/components/RecipeCard.jsx). The card
    shows the recipe its parent passes and reports every change through
    `onRecipeUpdate`; the model keeps the recipe as the parent re-renders it and
    the log of those calls. A handler that awaits a request is split in two: the
    click, up to the request, and the completion, which receives the request's
    outcome. The busy flags admit one like, one save, one comment and one follow
    in flight at a time, so each pending handler keeps what its closure captured
    in one slot. */
module RecipeCard {
  import opened Common
  import opened Http
  import opened PostActions
  import Auth

  /** The author's profile as the card fetched it. */
  datatype ChefProfile = ChefProfile(id: int, followerCount: int)

  /** What an in-flight like captured: the recipe before the click, the user, whether
      they liked it, and the optimistic recipe shown meanwhile. */
  datatype PendingLike = PendingLike(before: Post, user: Liker, wasLiked: bool, optimistic: Post)

  /** What an in-flight comment captured: the recipe before the click and the draft. */
  datatype PendingComment = PendingComment(before: Post, text: string)

  /** The follower count after a follow (+1) or an unfollow (-1) succeeds. */
  function FollowerCountAfter(count: int, wasFollowing: bool): (r: int)
    ensures wasFollowing ==> r == count - 1
    ensures !wasFollowing ==> r == count + 1
  {
    if wasFollowing then count - 1 else count + 1
  }

  /** Following then unfollowing restores the count. */
  lemma FollowThenUnfollow(count: int)
    ensures FollowerCountAfter(FollowerCountAfter(count, false), true) == count
  {
  }

  /** `!newComment.trim()`: a draft that is empty or all whitespace. */
  predicate BlankDraft(s: string) {
    JsTrim(s) == ""
  }

  /** A draft is blank exactly when every character is whitespace. */
  lemma BlankDraftIff(s: string)
    ensures BlankDraft(s) <==> AllSpace(s, IsJsSpace)
  {
    TrimEmptyIff(s, IsJsSpace);
  }

  /** The rating guard: a rating is sent when there is a token and a non-zero
      selection; the in-flight flag only matters when one of those is missing, and
      then the request is refused anyway. */
  predicate RatingProceeds(selected: int, isRating: bool, hasToken: bool) {
    !((selected == 0 || isRating || !hasToken) && (!hasToken || selected == 0))
  }

  /** So a rating already in flight does not block another. */
  lemma RatingGuardIgnoresInFlight(selected: int, hasToken: bool)
    ensures RatingProceeds(selected, true, hasToken) <==> selected != 0 && hasToken
    ensures RatingProceeds(selected, true, hasToken) == RatingProceeds(selected, false, hasToken)
  {
  }

  class Card {
    /** The recipe prop, as the parent re-renders it after each update. */
    var recipe: Post
    /** The arguments of every onRecipeUpdate call, oldest first. */
    var updates: seq<Post>
    var isLiking: bool
    var isSaving: bool
    var isCommenting: bool
    var isFollowLoading: bool
    var isFollowing: bool
    var chefProfile: Option<ChefProfile>
    var newComment: string
    var selectedRating: int
    var showRatingModal: bool
    var pendingLike: Option<PendingLike>
    var pendingSave: Option<Post>
    var pendingComment: Option<PendingComment>

    /** Each busy flag is set exactly while its handler is in flight; a follow is
        one step, so between steps it is never loading. */
    predicate Valid()
      reads this
    {
      (isLiking <==> pendingLike.Some?) && (isSaving <==> pendingSave.Some?)
      && (isCommenting <==> pendingComment.Some?) && !isFollowLoading
    }

    /** A freshly mounted card. */
    constructor(recipe: Post)
      ensures Valid() && this.recipe == recipe && updates == []
      ensures !isLiking && !isSaving && !isCommenting && !isFollowLoading && !isFollowing
      ensures chefProfile == None && newComment == "" && selectedRating == 0 && !showRatingModal
    {
      this.recipe := recipe;
      updates := [];
      isLiking, isSaving, isCommenting, isFollowLoading, isFollowing := false, false, false, false, false;
      chefProfile := None;
      newComment := "";
      selectedRating := 0;
      showRatingModal := false;
      pendingLike, pendingSave, pendingComment := None, None, None;
    }

    /** fetchChefProfile succeeded: the profile is stored and, when there is a
        current user, isFollowing says whether they are among its followers. */
    method ChefProfileLoaded(profile: ChefProfile, followerIds: seq<int>, currentUser: Option<int>)
      requires Valid()
      modifies this
      ensures Valid() && chefProfile == Some(profile)
      ensures currentUser.Some? ==> isFollowing == (currentUser.value in followerIds)
      ensures currentUser.None? ==> isFollowing == old(isFollowing)
      ensures recipe == old(recipe) && updates == old(updates)
    {
      chefProfile := Some(profile);
      if currentUser.Some? {
        isFollowing := currentUser.value in followerIds;
      }
    }

    /** Record an onRecipeUpdate call; the parent passes the recipe back. */
    method Report(p: Post)
      modifies this
      ensures recipe == p && updates == old(updates) + [p]
      ensures isLiking == old(isLiking) && isSaving == old(isSaving) && isCommenting == old(isCommenting)
      ensures pendingLike == old(pendingLike) && pendingSave == old(pendingSave) && pendingComment == old(pendingComment)
      ensures newComment == old(newComment) && selectedRating == old(selectedRating)
      ensures showRatingModal == old(showRatingModal) && isFollowing == old(isFollowing)
      ensures isFollowLoading == old(isFollowLoading) && chefProfile == old(chefProfile)
    {
      recipe := p;
      updates := updates + [p];
    }

    /** handleLike up to the request. While a like is in flight, without a token, or
        without a known user nothing changes. Otherwise the optimistic recipe
        (ToggleLike) is reported and the like is in flight. */
    method BeginLike(auth: Auth.AuthStore, user: Option<Liker>, tempId: int) returns (started: bool)
      requires Valid()
      modifies this
      ensures Valid()
      ensures started <==> !old(isLiking) && Present(auth.accessToken) && user.Some?
      ensures !started ==> recipe == old(recipe) && updates == old(updates) && isLiking == old(isLiking)
                           && pendingLike == old(pendingLike)
      ensures started ==>
        var opt := ToggleLike(old(recipe), user.value, tempId);
        recipe == opt && updates == old(updates) + [opt] && isLiking
        && pendingLike == Some(PendingLike(old(recipe), user.value, LikedBy(old(recipe).likes, user.value.id), opt))
      ensures isSaving == old(isSaving) && pendingSave == old(pendingSave)
      ensures isCommenting == old(isCommenting) && pendingComment == old(pendingComment)
    {
      if isLiking || !Present(auth.accessToken) {
        return false;
      }
      if user.None? {
        return false;
      }
      var u := user.value;
      var opt := ToggleLike(recipe, u, tempId);
      pendingLike := Some(PendingLike(recipe, u, LikedBy(recipe.likes, u.id), opt));
      isLiking := true;
      Report(opt);
      started := true;
    }

    /** handleLike after the request settles. Success reports ReconcileLike of the
        recipe as it was before the click; failure reports that recipe itself, and a
        401 also clears the tokens. The like is no longer in flight. */
    method FinishLike(auth: Auth.AuthStore, outcome: Outcome<LikeResponse>, nowId: int)
      requires Valid() && isLiking
      modifies this, auth
      ensures Valid() && !isLiking
      ensures var q := old(pendingLike).value;
        var shown := if outcome.Done? then ReconcileLike(q.before, q.user, outcome.value, nowId, q.optimistic)
                     else q.before;
        recipe == shown && updates == old(updates) + [shown]
      ensures outcome.Failed? && HasStatus(outcome.error, 401) ==> auth.accessToken == None && auth.refreshToken == None
      ensures !(outcome.Failed? && HasStatus(outcome.error, 401)) ==> unchanged(auth)
      ensures isSaving == old(isSaving) && pendingSave == old(pendingSave)
      ensures isCommenting == old(isCommenting) && pendingComment == old(pendingComment)
    {
      var q := pendingLike.value;
      match outcome {
        case Done(resp) =>
          Report(ReconcileLike(q.before, q.user, resp, nowId, q.optimistic));
        case Failed(e) =>
          Report(q.before);
          if HasStatus(e, 401) {
            auth.ClearTokens();
          }
      }
      isLiking, pendingLike := false, None;
    }

    /** handleSave up to the request: the optimistic recipe has the flag flipped. */
    method BeginSave(auth: Auth.AuthStore, user: Option<Liker>) returns (started: bool)
      requires Valid()
      modifies this
      ensures Valid()
      ensures started <==> !old(isSaving) && Present(auth.accessToken) && user.Some?
      ensures !started ==> recipe == old(recipe) && updates == old(updates) && isSaving == old(isSaving)
                           && pendingSave == old(pendingSave)
      ensures started ==> recipe == SaveOptimistic(old(recipe)) && updates == old(updates) + [recipe]
                          && isSaving && pendingSave == Some(old(recipe))
      ensures isLiking == old(isLiking) && pendingLike == old(pendingLike)
      ensures isCommenting == old(isCommenting) && pendingComment == old(pendingComment)
    {
      if isSaving || !Present(auth.accessToken) {
        return false;
      }
      if user.None? {
        return false;
      }
      pendingSave := Some(recipe);
      isSaving := true;
      Report(SaveOptimistic(recipe));
      started := true;
    }

    /** handleSave after the request settles: SaveFinal of the recipe before the
        click with the response's `saved`, or that recipe back on failure. */
    method FinishSave(auth: Auth.AuthStore, outcome: Outcome<Option<bool>>)
      requires Valid() && isSaving
      modifies this, auth
      ensures Valid() && !isSaving
      ensures var before := old(pendingSave).value;
        var shown := if outcome.Done? then SaveFinal(before, outcome.value) else before;
        recipe == shown && updates == old(updates) + [shown]
      ensures outcome.Failed? && HasStatus(outcome.error, 401) ==> auth.accessToken == None && auth.refreshToken == None
      ensures !(outcome.Failed? && HasStatus(outcome.error, 401)) ==> unchanged(auth)
      ensures isLiking == old(isLiking) && pendingLike == old(pendingLike)
      ensures isCommenting == old(isCommenting) && pendingComment == old(pendingComment)
    {
      var before := pendingSave.value;
      match outcome {
        case Done(saved) =>
          Report(SaveFinal(before, saved));
        case Failed(e) =>
          Report(before);
          if HasStatus(e, 401) {
            auth.ClearTokens();
          }
      }
      isSaving, pendingSave := false, None;
    }

    /** handleCommentSubmit up to the request. A blank draft, a comment in flight, a
        missing token or user change nothing. Otherwise the draft is shown as a
        temporary comment and the input is cleared. */
    method BeginComment(auth: Auth.AuthStore, user: Option<Liker>, tempId: int) returns (started: bool)
      requires Valid()
      modifies this
      ensures Valid()
      ensures started <==> !BlankDraft(old(newComment)) && !old(isCommenting) && Present(auth.accessToken) && user.Some?
      ensures !started ==> recipe == old(recipe) && updates == old(updates) && newComment == old(newComment)
                           && isCommenting == old(isCommenting) && pendingComment == old(pendingComment)
      ensures started ==>
        var opt := CommentOptimistic(old(recipe), user.value, tempId, old(newComment));
        recipe == opt && updates == old(updates) + [opt] && newComment == "" && isCommenting
        && pendingComment == Some(PendingComment(old(recipe), old(newComment)))
      ensures isLiking == old(isLiking) && pendingLike == old(pendingLike)
      ensures isSaving == old(isSaving) && pendingSave == old(pendingSave)
    {
      if BlankDraft(newComment) || isCommenting || !Present(auth.accessToken) {
        return false;
      }
      if user.None? {
        return false;
      }
      var text := newComment;
      pendingComment := Some(PendingComment(recipe, text));
      isCommenting := true;
      Report(CommentOptimistic(recipe, user.value, tempId, text));
      newComment := "";
      started := true;
    }

    /** handleCommentSubmit after the request settles. Success reports the recipe
        before the click with the server's comment appended; when that recipe had no
        comments list the spread throws and the handler fails like a failed
        request: the recipe before the click comes back and the draft is restored. */
    method FinishComment(auth: Auth.AuthStore, outcome: Outcome<Comment>)
      requires Valid() && isCommenting
      modifies this, auth
      ensures Valid() && !isCommenting
      ensures var q := old(pendingComment).value;
        var final := if outcome.Done? then CommentFinal(q.before, outcome.value) else None;
        (final.Some? ==> recipe == final.value && updates == old(updates) + [final.value] && newComment == old(newComment))
        && (final.None? ==> recipe == q.before && updates == old(updates) + [q.before] && newComment == q.text)
      ensures outcome.Failed? && HasStatus(outcome.error, 401) ==> auth.accessToken == None && auth.refreshToken == None
      ensures !(outcome.Failed? && HasStatus(outcome.error, 401)) ==> unchanged(auth)
      ensures isLiking == old(isLiking) && pendingLike == old(pendingLike)
      ensures isSaving == old(isSaving) && pendingSave == old(pendingSave)
    {
      var q := pendingComment.value;
      var final := if outcome.Done? then CommentFinal(q.before, outcome.value) else None;
      if final.Some? {
        Report(final.value);
      } else {
        Report(q.before);
        newComment := q.text;
        if outcome.Failed? && HasStatus(outcome.error, 401) {
          auth.ClearTokens();
        }
      }
      isCommenting, pendingComment := false, None;
    }

    /** handleRating, as one step with the request's outcome (the server's
        average_rating on success). Without a token or a selection nothing changes.
        Success reports RatingFinal, closes the modal and resets the selection;
        failure only clears the tokens on 401. */
    method Rate(auth: Auth.AuthStore, outcome: Outcome<Option<real>>) returns (sent: bool)
      requires Valid()
      modifies this, auth
      ensures Valid()
      ensures sent <==> old(selectedRating) != 0 && Present(old(auth.accessToken))
      ensures sent && outcome.Done? ==>
        var r := RatingFinal(old(recipe), outcome.value, old(selectedRating));
        recipe == r && updates == old(updates) + [r] && !showRatingModal && selectedRating == 0
      ensures !sent || outcome.Failed? ==>
        recipe == old(recipe) && updates == old(updates) && showRatingModal == old(showRatingModal)
        && selectedRating == old(selectedRating)
      ensures sent && outcome.Failed? && HasStatus(outcome.error, 401) ==> auth.accessToken == None && auth.refreshToken == None
      ensures !(sent && outcome.Failed? && HasStatus(outcome.error, 401)) ==> unchanged(auth)
      ensures isLiking == old(isLiking) && pendingLike == old(pendingLike)
      ensures isSaving == old(isSaving) && pendingSave == old(pendingSave)
      ensures isCommenting == old(isCommenting) && pendingComment == old(pendingComment)
    {
      if !Present(auth.accessToken) || selectedRating == 0 {
        return false;
      }
      sent := true;
      match outcome
      case Done(average) =>
        Report(RatingFinal(recipe, average, selectedRating));
        showRatingModal := false;
        selectedRating := 0;
      case Failed(e) =>
        if HasStatus(e, 401) {
          auth.ClearTokens();
        }
    }

    /** handleFollow, as one step with the request's outcome; the follow button is
        disabled while the follow is loading. Without a profile or a token nothing
        changes. Success flips isFollowing and moves the follower count by one;
        failure only clears the tokens on 401. */
    method Follow(auth: Auth.AuthStore, succeeded: bool, status: Option<int>) returns (sent: bool)
      requires Valid()
      modifies this, auth
      ensures Valid()
      ensures sent <==> old(chefProfile).Some? && Present(old(auth.accessToken))
      ensures sent && succeeded ==>
        isFollowing == !old(isFollowing)
        && chefProfile == Some(old(chefProfile).value.(followerCount :=
             FollowerCountAfter(old(chefProfile).value.followerCount, old(isFollowing))))
      ensures !(sent && succeeded) ==> isFollowing == old(isFollowing) && chefProfile == old(chefProfile)
      ensures sent && !succeeded && status == Some(401) ==> auth.accessToken == None && auth.refreshToken == None
      ensures !(sent && !succeeded && status == Some(401)) ==> unchanged(auth)
      ensures recipe == old(recipe) && updates == old(updates)
      ensures isLiking == old(isLiking) && pendingLike == old(pendingLike)
      ensures isSaving == old(isSaving) && pendingSave == old(pendingSave)
      ensures isCommenting == old(isCommenting) && pendingComment == old(pendingComment)
    {
      if chefProfile.None? || isFollowLoading || !Present(auth.accessToken) {
        return false;
      }
      sent := true;
      isFollowLoading := true;
      if succeeded {
        var was := isFollowing;
        isFollowing := !was;
        chefProfile := Some(chefProfile.value.(followerCount := FollowerCountAfter(chefProfile.value.followerCount, was)));
      } else if status == Some(401) {
        auth.ClearTokens();
      }
      isFollowLoading := false;
    }

    /** closeRatingModal: the modal closes and the selection resets. */
    method CloseRatingModal()
      modifies this
      ensures !showRatingModal && selectedRating == 0
      ensures recipe == old(recipe) && updates == old(updates) && newComment == old(newComment)
      ensures isLiking == old(isLiking) && pendingLike == old(pendingLike)
      ensures isSaving == old(isSaving) && pendingSave == old(pendingSave)
      ensures isCommenting == old(isCommenting) && pendingComment == old(pendingComment)
    {
      showRatingModal := false;
      selectedRating := 0;
    }
  }
}
