/** The following list (client/src/components/Following.jsx): the accounts the user follows, loaded once a
    token is present, and the unfollow button, which is disabled for an id whose
    unfollow is in flight. */
module FollowingList {
  import opened Common
  import opened Relationships

  /** The side of a relationship this list shows and unfollows. */
  function Side(): Relationship -> int {
    (r: Relationship) => r.following
  }

  class FollowingList {
    var following: seq<Relationship>
    var loading: bool
    var unfollowingIds: set<int>

    constructor()
      ensures following == [] && loading && unfollowingIds == {}
    {
      following, loading, unfollowingIds := [], true, {};
    }

    /** The fetch effect. Without a token nothing is requested and the list stays
        loading. Otherwise the list becomes FetchedList of the response (None for a
        failed request, Some(None) for a body that is not an array) and loading
        ends. */
    method Load(hasToken: bool, body: Option<Option<seq<Relationship>>>)
      modifies this
      ensures !hasToken ==> following == old(following) && loading == old(loading)
      ensures hasToken ==> following == FetchedList(body) && !loading
      ensures unfollowingIds == old(unfollowingIds)
    {
      if hasToken {
        following := FetchedList(body);
        loading := false;
      }
    }

    /** handleUnfollow up to the request: the id is marked as in flight. */
    method BeginUnfollow(id: int)
      requires id !in unfollowingIds
      modifies this
      ensures unfollowingIds == old(unfollowingIds) + {id}
      ensures following == old(following) && loading == old(loading)
    {
      unfollowingIds := unfollowingIds + {id};
    }

    /** handleUnfollow after the request: on success every relationship whose
        following is id leaves the list; either way the id is no longer in flight,
        and the other in-flight ids stay. */
    method FinishUnfollow(id: int, succeeded: bool)
      requires id in unfollowingIds
      modifies this
      ensures succeeded ==> following == Without(old(following), Side(), id)
      ensures !succeeded ==> following == old(following)
      ensures unfollowingIds == old(unfollowingIds) - {id}
      ensures loading == old(loading)
    {
      if succeeded {
        following := Without(following, Side(), id);
      }
      unfollowingIds := unfollowingIds - {id};
    }
  }
}
