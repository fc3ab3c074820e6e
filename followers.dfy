/** The followers list (client/src/components/Followers.jsx): the accounts that follow the user, loaded once a
    token is present, and the unfollow button, which is disabled for an id whose
    unfollow is in flight. */
module FollowersList {
  import opened Common
  import opened Relationships

  /** The side of a relationship this list shows and unfollows. */
  function Side(): Relationship -> int {
    (r: Relationship) => r.follower
  }

  class FollowersList {
    var followers: seq<Relationship>
    var loading: bool
    var unfollowingIds: set<int>

    constructor()
      ensures followers == [] && loading && unfollowingIds == {}
    {
      followers, loading, unfollowingIds := [], true, {};
    }

    /** The fetch effect. Without a token nothing is requested and the list stays
        loading. Otherwise the list becomes FetchedList of the response (None for a
        failed request, Some(None) for a body that is not an array) and loading
        ends. */
    method Load(hasToken: bool, body: Option<Option<seq<Relationship>>>)
      modifies this
      ensures !hasToken ==> followers == old(followers) && loading == old(loading)
      ensures hasToken ==> followers == FetchedList(body) && !loading
      ensures unfollowingIds == old(unfollowingIds)
    {
      if hasToken {
        followers := FetchedList(body);
        loading := false;
      }
    }

    /** handleUnfollow up to the request: the id is marked as in flight. */
    method BeginUnfollow(id: int)
      requires id !in unfollowingIds
      modifies this
      ensures unfollowingIds == old(unfollowingIds) + {id}
      ensures followers == old(followers) && loading == old(loading)
    {
      unfollowingIds := unfollowingIds + {id};
    }

    /** handleUnfollow after the request: on success every relationship whose
        follower is id leaves the list; either way the id is no longer in flight,
        and the other in-flight ids stay. */
    method FinishUnfollow(id: int, succeeded: bool)
      requires id in unfollowingIds
      modifies this
      ensures succeeded ==> followers == Without(old(followers), Side(), id)
      ensures !succeeded ==> followers == old(followers)
      ensures unfollowingIds == old(unfollowingIds) - {id}
      ensures loading == old(loading)
    {
      if succeeded {
        followers := Without(followers, Side(), id);
      }
      unfollowingIds := unfollowingIds - {id};
    }
  }
}
