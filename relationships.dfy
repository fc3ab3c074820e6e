/** The follower relationship objects the following and followers lists show
    (client/src/components/Following.jsx, client/src/components/Followers.jsx),
    and the list operations both lists share. */
module Relationships {
  import opened Common
  import Seqs

  /** A relationship object: `follower` follows `following`. */
  datatype Relationship = Relationship(id: int, follower: int, following: int)

  /** The fetched list: an array body is the list; a body that is not an array,
      or a failed request, gives the empty list. */
  function FetchedList(body: Option<Option<seq<Relationship>>>): (r: seq<Relationship>)
    ensures body.Some? && body.value.Some? ==> r == body.value.value
    ensures body.None? || body.value.None? ==> r == []
  {
    if body.Some? && body.value.Some? then body.value.value else []
  }

  /** `list.filter(r => side(r) !== id)`. */
  function Without(rs: seq<Relationship>, side: Relationship -> int, id: int): seq<Relationship> {
    Seqs.Filter(rs, (r: Relationship) => side(r) != id)
  }

  /** The filtered list keeps, in order, exactly the relationships whose chosen
      side is not id; removing the same id again changes nothing. */
  lemma WithoutSpec(rs: seq<Relationship>, side: Relationship -> int, id: int)
    ensures var w := Without(rs, side, id);
      Seqs.IsSubsequence(w, rs)
      && (forall i :: 0 <= i < |w| ==> side(w[i]) != id)
      && (forall i :: 0 <= i < |rs| && side(rs[i]) != id ==> rs[i] in w)
      && Without(w, side, id) == w
  {
    var keep := (r: Relationship) => side(r) != id;
    Seqs.FilterSubsequence(rs, keep);
    Seqs.FilterIdempotent(rs, keep);
  }
}
