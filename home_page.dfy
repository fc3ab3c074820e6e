/** The home feed (client/src/pages/Home.jsx): the first page of recipes, the
    "load more" pagination, and applying a card's update to the list. */
module HomePage {
  import opened Common
  import opened Http
  import opened PostActions

  const LoadFailed := "Failed to load recipes. Please try again later."

  /** The pagination fields of a paged response. */
  datatype Pagination = Pagination(count: int, next: Option<string>, previous: Option<string>)

  /** A paged response body. */
  datatype Page = Page(results: seq<Post>, count: int, next: Option<string>, previous: Option<string>)

  /** `{...recipe, is_saved: recipe.is_saved || false}`. */
  function WithSavedFlag(p: Post): (r: Post)
    ensures r == p.(isSaved := r.isSaved) && r.isSaved.Some? && (IsSaved(r) <==> IsSaved(p))
  {
    p.(isSaved := Some(IsSaved(p)))
  }

  /** The first page with every is_saved defined, in order. */
  function Normalize(rs: seq<Post>): (r: seq<Post>)
    ensures |r| == |rs| && forall i :: 0 <= i < |r| ==> r[i] == WithSavedFlag(rs[i])
  {
    seq(|rs|, i requires 0 <= i < |rs| => WithSavedFlag(rs[i]))
  }

  /** handleRecipeUpdate's map: every recipe with the update's id becomes the
      update. */
  function ReplaceById(rs: seq<Post>, u: Post): seq<Post> {
    seq(|rs|, i requires 0 <= i < |rs| => if rs[i].id == u.id then u else rs[i])
  }

  /** The list keeps its length and order; recipes with another id are untouched;
      replacing twice is replacing once; and a list without that id is unchanged. */
  lemma ReplaceByIdSpec(rs: seq<Post>, u: Post)
    ensures |ReplaceById(rs, u)| == |rs|
    ensures forall i :: 0 <= i < |rs| ==> ReplaceById(rs, u)[i] == (if rs[i].id == u.id then u else rs[i])
    ensures ReplaceById(ReplaceById(rs, u), u) == ReplaceById(rs, u)
    ensures (forall i :: 0 <= i < |rs| ==> rs[i].id != u.id) ==> ReplaceById(rs, u) == rs
  {
  }

  /** A later update of the same recipe wins over an earlier one. */
  lemma ReplaceByIdLastWins(rs: seq<Post>, u: Post, v: Post)
    requires u.id == v.id
    ensures ReplaceById(ReplaceById(rs, u), v) == ReplaceById(rs, v)
  {
  }

  class Home {
    var recipes: seq<Post>
    var loading: bool
    var error: Option<string>
    var pagination: Pagination
    /** getData requests issued and not yet settled. */
    ghost var pending: nat

    constructor()
      ensures recipes == [] && loading && error == None && pagination == Pagination(0, None, None) && pending == 0
    {
      recipes, loading, error, pagination := [], true, None, Pagination(0, None, None);
      pending := 0;
    }

    /** getData up to the request. */
    method BeginLoad()
      modifies this
      ensures loading && error == None && recipes == old(recipes) && pagination == old(pagination)
      ensures pending == old(pending) + 1
    {
      loading, error := true, None;
      pending := pending + 1;
    }

    /** getData settles: the results with is_saved defaulted to false and the page's
        pagination, or the load error; loading ends either way. */
    method FinishLoad(outcome: Outcome<Page>)
      requires pending > 0
      modifies this
      ensures !loading && pending == old(pending) - 1
      ensures outcome.Done? ==>
        recipes == Normalize(outcome.value.results) && error == old(error)
        && pagination == Pagination(outcome.value.count, outcome.value.next, outcome.value.previous)
      ensures outcome.Failed? ==> recipes == old(recipes) && pagination == old(pagination) && error == Some(LoadFailed)
    {
      pending := pending - 1;
      match outcome {
        case Done(page) =>
          recipes := Normalize(page.results);
          pagination := Pagination(page.count, page.next, page.previous);
        case Failed(_) =>
          error := Some(LoadFailed);
      }
      loading := false;
    }

    /** handleRecipeUpdate, the cards' onRecipeUpdate. */
    method RecipeUpdated(u: Post)
      modifies this
      ensures recipes == ReplaceById(old(recipes), u)
      ensures loading == old(loading) && error == old(error) && pagination == old(pagination) && pending == old(pending)
    {
      recipes := ReplaceById(recipes, u);
    }

    /** loadMoreRecipes, as one step with the request's outcome. Without a next link
        nothing is requested. Success appends the page's results as they come (no
        is_saved default) and replaces the pagination; failure changes nothing. */
    method LoadMore(outcome: Outcome<Page>) returns (requested: bool)
      modifies this
      ensures requested <==> Present(old(pagination).next)
      ensures requested && outcome.Done? ==>
        recipes == old(recipes) + outcome.value.results
        && pagination == Pagination(outcome.value.count, outcome.value.next, outcome.value.previous)
      ensures !requested || outcome.Failed? ==> recipes == old(recipes) && pagination == old(pagination)
      ensures loading == old(loading) && error == old(error) && pending == old(pending)
    {
      if !Present(pagination.next) {
        return false;
      }
      requested := true;
      if outcome.Done? {
        var page := outcome.value;
        recipes := recipes + page.results;
        pagination := Pagination(page.count, page.next, page.previous);
      }
    }
  }
}
