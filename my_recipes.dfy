/** The profile's own-recipes grid (client/src/components/MyRecipes.jsx): the
    fetched posts filtered to those whose author is the profile user, and what the
    component shows for them. */
module MyRecipes {
  import opened Common
  import Seqs

  /** A fetched post as the filter sees it: `post.user?.id` (None when the post
      carries no user). */
  datatype Post = Post(id: int, authorId: Option<int>)

  /** `post.user?.id === user?.id`; two absent ids compare equal. */
  function OwnedBy(profileId: Option<int>): Post -> bool {
    (p: Post) => p.authorId == profileId
  }

  /** `posts.filter((post) => post.user?.id === user?.id)`. */
  function MyPosts(posts: seq<Post>, profileId: Option<int>): seq<Post> {
    Seqs.Filter(posts, OwnedBy(profileId))
  }

  /** The filter keeps the fetched order, keeps only the profile user's posts, and
      keeps every one of them. */
  lemma MyPostsSpec(posts: seq<Post>, profileId: Option<int>)
    ensures var mine := MyPosts(posts, profileId);
      Seqs.IsSubsequence(mine, posts)
      && (forall i :: 0 <= i < |mine| ==> mine[i].authorId == profileId)
      && (forall i :: 0 <= i < |posts| && posts[i].authorId == profileId ==> posts[i] in mine)
  {
    Seqs.FilterSubsequence(posts, OwnedBy(profileId));
  }

  /** What the component renders. */
  datatype Screen = Loading | NothingPosted | Grid(posts: seq<Post>)

  /** The loading text while loading; after loading the empty-state text when no
      post is the user's, else the grid of the user's posts. */
  function Render(loading: bool, posts: seq<Post>, profileId: Option<int>): Screen {
    if loading then Loading
    else
      var mine := MyPosts(posts, profileId);
      if |mine| == 0 then NothingPosted else Grid(mine)
  }

  /** The empty-state text appears exactly when loading is over and none of the
      fetched posts is the profile user's; a grid never shows an empty list. */
  lemma RenderSpec(loading: bool, posts: seq<Post>, profileId: Option<int>)
    ensures Render(loading, posts, profileId) == NothingPosted
      <==> !loading && forall i :: 0 <= i < |posts| ==> posts[i].authorId != profileId
    ensures Render(loading, posts, profileId).Grid? ==> |Render(loading, posts, profileId).posts| > 0
  {
    if !loading && forall i :: 0 <= i < |posts| ==> posts[i].authorId != profileId {
      Seqs.FilterNone(posts, OwnedBy(profileId));
    }
  }

  /** The fetch effect: without an access token nothing is requested and the
      component keeps loading; with one, a successful response replaces the posts,
      a failed one keeps them, and loading ends either way. */
  class MyRecipesView {
    var posts: seq<Post>
    var loading: bool

    constructor()
      ensures posts == [] && loading
    {
      posts, loading := [], true;
    }

    method Load(hasToken: bool, response: Option<seq<Post>>)
      modifies this
      ensures !hasToken ==> posts == old(posts) && loading == old(loading)
      ensures hasToken && response.Some? ==> posts == response.value
      ensures hasToken && response.None? ==> posts == old(posts)
      ensures hasToken ==> !loading
    {
      if hasToken {
        if response.Some? {
          posts := response.value;
        }
        loading := false;
      }
    }
  }
}
