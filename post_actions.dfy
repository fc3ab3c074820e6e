/** The pure recipe-post computations shared by the recipe card
    (client/src/components/RecipeCard.jsx) and the post page
    (client/src/pages/ViewPost.jsx): the optimistic like toggle and how a like
    response is reconciled, the save flag, the rating value, the comment list,
    and the cooking-time label. A post is the JSON object the server sends,
    with the fields these computations touch; `...post` copies are record
    updates. */
module PostActions {
  import opened Common
  import Seqs

  /** The user summary copied into a like or a comment. */
  datatype Liker = Liker(id: int, username: string, fullName: Option<string>, profilePicture: Option<string>)

  datatype Like = Like(id: int, user: Liker, post: int)

  datatype Comment = Comment(id: int, user: Liker, post: int, content: string)

  /** A post; `likes`, `comments`, `isSaved` and `averageRating` may be absent, and
      `owner` is `post.user?.id`. */
  datatype Post = Post(
    id: int, owner: Option<int>, likes: Option<seq<Like>>, comments: Option<seq<Comment>>,
    isSaved: Option<bool>, averageRating: Option<real>)

  /** `post.likes?.some(like => like.user.id === uid)`. */
  predicate LikedBy(likes: Option<seq<Like>>, uid: int) {
    likes.Some? && exists i :: 0 <= i < |likes.value| && likes.value[i].user.id == uid
  }

  /** `likes || []`. */
  function LikesOrEmpty(p: Post): seq<Like> {
    if p.likes.Some? then p.likes.value else []
  }

  /** The filter test `like => like.user.id !== uid`. */
  function NotBy(uid: int): Like -> bool {
    (l: Like) => l.user.id != uid
  }

  /** The likes of everyone but uid, in order. */
  function WithoutLikesOf(likes: seq<Like>, uid: int): seq<Like> {
    Seqs.Filter(likes, NotBy(uid))
  }

  /** The optimistic post of a like click: a user who already likes the post loses
      all their likes; anyone else gains one new like with the temporary id. */
  function ToggleLike(p: Post, user: Liker, tempId: int): Post {
    if LikedBy(p.likes, user.id) then p.(likes := Some(WithoutLikesOf(p.likes.value, user.id)))
    else p.(likes := Some(LikesOrEmpty(p) + [Like(tempId, user, p.id)]))
  }

  /** Unliking drops every like of the user and keeps every other like in order;
      liking appends exactly one like of the user. Only the likes change. */
  lemma ToggleLikeSpec(p: Post, user: Liker, tempId: int)
    ensures var r := ToggleLike(p, user, tempId);
      r == p.(likes := r.likes) && r.likes.Some? && (LikedBy(r.likes, user.id) <==> !LikedBy(p.likes, user.id))
    ensures LikedBy(p.likes, user.id) ==>
      var r := ToggleLike(p, user, tempId).likes.value;
      Seqs.IsSubsequence(r, p.likes.value)
      && forall i :: 0 <= i < |p.likes.value| && p.likes.value[i].user.id != user.id ==> p.likes.value[i] in r
    ensures !LikedBy(p.likes, user.id) ==>
      ToggleLike(p, user, tempId).likes.value == LikesOrEmpty(p) + [Like(tempId, user, p.id)]
  {
    var r := ToggleLike(p, user, tempId);
    if LikedBy(p.likes, user.id) {
      Seqs.FilterSubsequence(p.likes.value, NotBy(user.id));
    } else {
      var n := |LikesOrEmpty(p)|;
      assert r.likes.value[n].user.id == user.id;
    }
  }

  /** Liking and then unliking, from a defined likes list the user is not in,
      gives back the original post. */
  lemma ToggleLikeTwice(p: Post, user: Liker, tempId: int, tempId2: int)
    requires p.likes.Some? && !LikedBy(p.likes, user.id)
    ensures ToggleLike(ToggleLike(p, user, tempId), user, tempId2) == p
  {
    var keep := NotBy(user.id);
    var a := p.likes.value;
    var L := Like(tempId, user, p.id);
    var once := ToggleLike(p, user, tempId);
    assert once.likes == Some(a + [L]);
    assert LikedBy(once.likes, user.id) by { assert (a + [L])[|a|] == L; }
    Seqs.FilterAppend(a, [L], keep);
    Seqs.FilterAll(a, keep);
    assert Seqs.Filter([L], keep) == [];
    assert Seqs.Filter(a + [L], keep) == a;
  }

  /** The three shapes of a like response the handlers accept: a full likes array,
      a `liked` flag (its truthiness) with an optional `like_id`, or neither. */
  datatype LikeResponse = LikeResponse(likes: Option<seq<Like>>, liked: Option<bool>, likeId: Option<int>)

  /** The post after a like request succeeds. `p` is the post as it was before the
      click, `optimistic` what the click showed, `nowId` the Date.now() fallback id. */
  function ReconcileLike(p: Post, user: Liker, resp: LikeResponse, nowId: int, optimistic: Post): Post {
    var was := LikedBy(p.likes, user.id);
    if resp.likes.Some? then p.(likes := resp.likes)
    else if resp.liked.Some? then
      if resp.liked.value && !was then
        var id := if resp.likeId.Some? && resp.likeId.value != 0 then resp.likeId.value else nowId;
        p.(likes := Some(LikesOrEmpty(p) + [Like(id, user, p.id)]))
      else if !resp.liked.value && was then p.(likes := Some(WithoutLikesOf(p.likes.value, user.id)))
      else p
    else optimistic
  }

  /** A likes array from the server wins. A `liked` flag leaves the user's like
      state equal to the flag, changing the list only when the flag disagrees with
      the state before the click. With neither, the optimistic post stands. */
  lemma ReconcileLikeSpec(p: Post, user: Liker, resp: LikeResponse, nowId: int, tempId: int)
    ensures var f := ReconcileLike(p, user, resp, nowId, ToggleLike(p, user, tempId));
      (resp.likes.Some? ==> f == p.(likes := resp.likes))
      && (resp.likes.None? && resp.liked.Some? ==>
            f == p.(likes := f.likes) && (LikedBy(f.likes, user.id) <==> resp.liked.value)
            && (resp.liked.value == LikedBy(p.likes, user.id) ==> f == p))
      && (resp.likes.None? && resp.liked.None? ==> f == ToggleLike(p, user, tempId))
  {
    if resp.likes.None? && resp.liked.Some? {
      var was := LikedBy(p.likes, user.id);
      var f := ReconcileLike(p, user, resp, nowId, ToggleLike(p, user, tempId));
      if resp.liked.value && !was {
        var n := |LikesOrEmpty(p)|;
        assert f.likes.value[n].user.id == user.id;
      } else if !resp.liked.value && was {
        ToggleLikeSpec(p, user, tempId);
      }
    }
  }

  /** `post.is_saved || false`. */
  predicate IsSaved(p: Post) {
    p.isSaved == Some(true)
  }

  /** The optimistic post of a save click: the flag flipped. */
  function SaveOptimistic(p: Post): (r: Post)
    ensures r == p.(isSaved := r.isSaved) && r.isSaved.Some? && (IsSaved(r) <==> !IsSaved(p))
  {
    p.(isSaved := Some(!IsSaved(p)))
  }

  /** The post after a save request succeeds: `response.saved` when defined, the
      flipped flag otherwise. */
  function SaveFinal(p: Post, saved: Option<bool>): (r: Post)
    ensures r == p.(isSaved := r.isSaved)
    ensures saved.Some? ==> r.isSaved == saved
  {
    p.(isSaved := Some(if saved.Some? then saved.value else !IsSaved(p)))
  }

  /** Without a `saved` field the final post is the optimistic one; flipping twice
      restores a defined flag. */
  lemma SaveSpec(p: Post)
    ensures SaveFinal(p, None) == SaveOptimistic(p)
    ensures p.isSaved.Some? ==> SaveOptimistic(SaveOptimistic(p)) == p
  {
    if p.isSaved.Some? {
      var once := SaveOptimistic(p);
      assert IsSaved(once) == !IsSaved(p);
      if p.isSaved.value {
        assert !IsSaved(once);
      } else {
        assert IsSaved(once);
      }
    }
  }

  /** The post after a rating request succeeds: the server's average when truthy,
      else the selected rating. */
  function RatingFinal(p: Post, average: Option<real>, selected: int): (r: Post)
    ensures r == p.(averageRating := r.averageRating)
    ensures average.Some? && average.value != 0.0 ==> r.averageRating == average
    ensures average.None? || average.value == 0.0 ==> r.averageRating == Some(selected as real)
  {
    p.(averageRating := Some(if average.Some? && average.value != 0.0 then average.value else selected as real))
  }

  /** `comments || []`. */
  function CommentsOrEmpty(p: Post): seq<Comment> {
    if p.comments.Some? then p.comments.value else []
  }

  /** The optimistic post of a comment: the draft appended as a temporary comment. */
  function CommentOptimistic(p: Post, user: Liker, tempId: int, content: string): (r: Post)
    ensures r == p.(comments := r.comments)
    ensures r.comments == Some(CommentsOrEmpty(p) + [Comment(tempId, user, p.id, content)])
  {
    p.(comments := Some(CommentsOrEmpty(p) + [Comment(tempId, user, p.id, content)]))
  }

  /** The post after a comment request succeeds: the original comments followed by
      the server's comment. Spreading absent comments throws, which the handler
      treats as a failure: None. */
  function CommentFinal(p: Post, c: Comment): (r: Option<Post>)
    ensures r.None? <==> p.comments.None?
    ensures r.Some? ==> r.value == p.(comments := Some(p.comments.value + [c]))
  {
    if p.comments.None? then None else Some(p.(comments := Some(p.comments.value + [c])))
  }

  /** The server's comment takes the optimistic comment's place: the final list
      differs from the optimistic one only in its last element. */
  lemma CommentFinalReplacesOptimistic(p: Post, user: Liker, tempId: int, content: string, c: Comment)
    requires p.comments.Some?
    ensures var o := CommentOptimistic(p, user, tempId, content).comments.value;
      var f := CommentFinal(p, c).value.comments.value;
      |f| == |o| && f[..|f| - 1] == o[..|o| - 1] == p.comments.value && f[|f| - 1] == c
  {
    var o := CommentOptimistic(p, user, tempId, content).comments.value;
    var f := CommentFinal(p, c).value.comments.value;
    assert o[..|o| - 1] == p.comments.value;
    assert f[..|f| - 1] == p.comments.value;
  }

  /** pat occurs in s at index j. */
  predicate OccursAt(s: string, pat: string, j: nat) {
    j + |pat| <= |s| && s[j..j + |pat|] == pat
  }

  /** The first index at which pat occurs in s. */
  function IndexOf(s: string, pat: string): (r: Option<nat>)
    ensures r.Some? ==> OccursAt(s, pat, r.value) && forall j: nat :: j < r.value ==> !OccursAt(s, pat, j)
    ensures r.None? ==> forall j: nat :: !OccursAt(s, pat, j)
  {
    if |s| < |pat| then None
    else if s[..|pat|] == pat then
      assert s[0..0 + |pat|] == s[..|pat|];
      Some(0)
    else
      OccursAtTail(s, pat);
      assert !OccursAt(s, pat, 0) by { assert s[0..0 + |pat|] == s[..|pat|]; }
      match IndexOf(s[1..], pat)
      case None => None
      case Some(i) => Some(i + 1)
  }

  /** Past the first character, occurrences in s are occurrences in its tail. */
  lemma OccursAtTail(s: string, pat: string)
    requires s != []
    ensures forall j: nat :: j >= 1 ==> (OccursAt(s, pat, j) <==> OccursAt(s[1..], pat, j - 1))
  {
    forall j: nat | j >= 1 ensures OccursAt(s, pat, j) <==> OccursAt(s[1..], pat, j - 1) {
      var t := s[1..];
      if j + |pat| <= |s| {
        assert s[j..j + |pat|] == t[j - 1..j - 1 + |pat|];
      }
    }
  }

  /** `s.replace(pat, rep)` with a string pattern: only the first occurrence. */
  function ReplaceFirst(s: string, pat: string, rep: string): string {
    match IndexOf(s, pat)
    case None => s
    case Some(i) => s[..i] + rep + s[i + |pat|..]
  }

  /** The card's formatTime: "30 min" for a missing time, otherwise the time with its
      first "00:" removed, then " min". */
  function FormatCookTime(t: Option<string>): string {
    if t.None? || t.value == "" then "30 min" else ReplaceFirst(t.value, "00:", "") + " min"
  }

  /** A time without "00:" only gains the unit; a time starting with "00:" loses
      those three characters and nothing else; a missing time gets the default. */
  lemma FormatCookTimeSpec(t: string)
    ensures FormatCookTime(None) == "30 min" && FormatCookTime(Some("")) == "30 min"
    ensures (forall j: nat :: !OccursAt(t, "00:", j)) && t != "" ==>
      FormatCookTime(Some(t)) == t + " min"
    ensures |t| >= 3 && t[..3] == "00:" ==> FormatCookTime(Some(t)) == t[3..] + " min"
  {
    if |t| >= 3 && t[..3] == "00:" {
      assert t[0..0 + 3] == t[..3];
      assert OccursAt(t, "00:", 0);
      assert IndexOf(t, "00:") == Some(0);
    }
  }
}
