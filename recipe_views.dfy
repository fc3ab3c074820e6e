/** The recipe endpoints (server/core/Recipe/views.py): who may call each view,
    and the author checks of create, update and delete. The recipe table is a
    `RecipeService` object. */
module RecipeViews {
  import opened Common

  type UserId = int

  /** The request's user: anonymous, or an authenticated account. */
  datatype Requester = Anonymous | Authenticated(id: UserId)

  /** The five recipe views. */
  datatype View = ListView | CreateView | DetailView | UpdateView | DeleteView

  /** The permission classes: AllowAny on list and detail, IsAuthenticated on the
      others. */
  function Permitted(v: View, who: Requester): (ok: bool)
    ensures v == ListView || v == DetailView ==> ok
    ensures who.Anonymous? && (v == CreateView || v == UpdateView || v == DeleteView) ==> !ok
    ensures who.Authenticated? ==> ok
  {
    match v
    case ListView => true
    case DetailView => true
    case _ => who.Authenticated?
  }

  /** The writable fields of a recipe. */
  datatype RecipeData = RecipeData(
    title: string, description: string, image: Option<string>, ingredients: string, steps: string, tags: string)

  /** A recipe row; `author` is read-only in the serializer. */
  datatype Recipe = Recipe(id: nat, data: RecipeData, author: UserId)

  const NotAuthor := "You are not the author of this recipe."

  /** What a view answers. `Invalid` is the serializer's 400 on bad data. */
  datatype Response =
    | Saved(recipe: Recipe) | Deleted
    | NotAuthenticated | NotFound | Invalid | PermissionDenied(message: string)

  /** The index of the recipe with id `id`. */
  function Find(rs: seq<Recipe>, id: nat): (r: Option<nat>)
    ensures r.Some? ==> r.value < |rs| && rs[r.value].id == id
    ensures r.None? ==> forall i :: 0 <= i < |rs| ==> rs[i].id != id
  {
    if rs == [] then None
    else if rs[0].id == id then Some(0)
    else match Find(rs[1..], id)
      case None => None
      case Some(i) => Some(i + 1)
  }

  /** The common gate of update and delete, in the order the view applies it:
      authentication, lookup, (for update) validation, then the author check.
      Some(i) means the requester may change row i. */
  datatype Gate = Pass(index: nat) | Stop(response: Response)

  function AuthorGate(rs: seq<Recipe>, who: Requester, id: nat, valid: bool): (g: Gate)
    ensures g.Pass? ==> g.index < |rs| && who.Authenticated? && rs[g.index].id == id
                        && rs[g.index].author == who.id && valid
    ensures g.Stop? ==> !g.response.Saved? && !g.response.Deleted?
  {
    if who.Anonymous? then Stop(NotAuthenticated)
    else match Find(rs, id)
      case None => Stop(NotFound)
      case Some(i) =>
        if !valid then Stop(Invalid)
        else if who.id != rs[i].author then Stop(PermissionDenied(NotAuthor))
        else Pass(i)
  }

  /** The author of an existing recipe passes the gate with valid data; anyone
      else who is signed in is refused with PermissionDenied. */
  lemma AuthorGateSpec(rs: seq<Recipe>, who: Requester, id: nat, i: nat)
    requires DistinctIds(rs) && i < |rs| && rs[i].id == id && who.Authenticated?
    ensures who.id == rs[i].author ==> AuthorGate(rs, who, id, true) == Pass(i)
    ensures who.id != rs[i].author ==> AuthorGate(rs, who, id, true) == Stop(PermissionDenied(NotAuthor))
  {
    FindUnique(rs, id, i);
  }

  /** No two recipes share an id. */
  predicate DistinctIds(rs: seq<Recipe>) {
    forall i, j :: 0 <= i < j < |rs| ==> rs[i].id != rs[j].id
  }

  /** Recipe ids are unique and below the next id to hand out. */
  predicate IdsBelow(rs: seq<Recipe>, next: nat) {
    (forall i :: 0 <= i < |rs| ==> rs[i].id < next) && DistinctIds(rs)
  }

  /** In a table with unique ids, Find returns the one row with that id. */
  lemma {:induction false} FindUnique(rs: seq<Recipe>, id: nat, i: nat)
    requires DistinctIds(rs) && i < |rs| && rs[i].id == id
    ensures Find(rs, id) == Some(i)
  {
    if i > 0 {
      FindUnique(rs[1..], id, i - 1);
    }
  }

  /** Removing row i keeps every other row, in order. */
  lemma RemoveKeepsOthers(rs: seq<Recipe>, i: nat)
    requires i < |rs| && DistinctIds(rs)
    ensures var r := rs[..i] + rs[i + 1..];
      |r| == |rs| - 1 && (forall k :: 0 <= k < |r| ==> r[k].id != rs[i].id)
      && forall k :: 0 <= k < |rs| && k != i ==> rs[k] in r
  {
    var r := rs[..i] + rs[i + 1..];
    forall k | 0 <= k < |rs| && k != i ensures rs[k] in r {
      if k < i { assert r[k] == rs[k]; } else { assert r[k - 1] == rs[k]; }
    }
  }

  class RecipeService {
    var recipes: seq<Recipe>
    var nextId: nat

    predicate Valid()
      reads this
    {
      IdsBelow(recipes, nextId)
    }

    constructor()
      ensures Valid() && recipes == [] && nextId == 1
    {
      recipes := [];
      nextId := 1;
    }

    /** RecipeCreateView: the new recipe's author is the requester, whatever the
        data says. */
    method Create(who: Requester, data: RecipeData, valid: bool) returns (resp: Response)
      requires Valid()
      modifies this
      ensures Valid()
      ensures who.Anonymous? ==> resp == NotAuthenticated && recipes == old(recipes) && nextId == old(nextId)
      ensures who.Authenticated? && !valid ==> resp == Invalid && recipes == old(recipes) && nextId == old(nextId)
      ensures who.Authenticated? && valid ==>
        var r := Recipe(old(nextId), data, who.id);
        resp == Saved(r) && recipes == old(recipes) + [r] && nextId == old(nextId) + 1
    {
      if !Permitted(CreateView, who) {
        return NotAuthenticated;
      }
      if !valid {
        return Invalid;
      }
      var r := Recipe(nextId, data, who.id);
      recipes := recipes + [r];
      nextId := nextId + 1;
      resp := Saved(r);
    }

    /** RecipeUpdateView: only the author's update is saved; it replaces the
        writable fields and keeps the id and author. */
    method Update(who: Requester, id: nat, data: RecipeData, valid: bool) returns (resp: Response)
      requires Valid()
      modifies this
      ensures Valid() && nextId == old(nextId)
      ensures match AuthorGate(old(recipes), who, id, valid)
        case Stop(r) => resp == r && recipes == old(recipes)
        case Pass(i) =>
          var updated := old(recipes)[i].(data := data);
          recipes == old(recipes)[i := updated] && resp == Saved(updated)
    {
      var g := AuthorGate(recipes, who, id, valid);
      if g.Stop? {
        return g.response;
      }
      var updated := recipes[g.index].(data := data);
      recipes := recipes[g.index := updated];
      resp := Saved(updated);
    }

    /** RecipeDeleteView: only the author's delete removes the recipe; every other
        recipe stays, in order. */
    method Delete(who: Requester, id: nat) returns (resp: Response)
      requires Valid()
      modifies this
      ensures Valid() && nextId == old(nextId)
      ensures match AuthorGate(old(recipes), who, id, true)
        case Stop(r) => resp == r && recipes == old(recipes)
        case Pass(i) => recipes == old(recipes)[..i] + old(recipes)[i + 1..] && resp == Deleted
    {
      var g := AuthorGate(recipes, who, id, true);
      if g.Stop? {
        return g.response;
      }
      recipes := recipes[..g.index] + recipes[g.index + 1..];
      resp := Deleted;
    }
  }
}
