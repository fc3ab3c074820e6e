/** The Notification record (server/core/notifications/models.py), the user and
    follower rows it refers to, and what deleting a user does to it. */
module NotificationModel {
  import opened Common
  import Seqs

  type UserId = int

  /** A row of the user table, as far as notifications use it. */
  datatype User = User(id: UserId, username: string, profilePicture: Option<string>, email: string)

  /** A row of the follower table: `follower` follows `following`. */
  datatype Follow = Follow(follower: UserId, following: UserId)

  /** The three choices of `notification_type`. */
  datatype NotificationType = Global | Followers | Personal {
    /** The stored value. */
    function Key(): string {
      match this
      case Global => "global"
      case Followers => "followers"
      case Personal => "personal"
    }

    /** The human-readable choice label. */
    function Label(): string {
      match this
      case Global => "Global"
      case Followers => "Followers Only"
      case Personal => "Personal"
    }
  }

  /** The stored value back to its choice; anything else is not a choice. */
  function ParseType(s: string): (t: Option<NotificationType>)
    ensures t.Some? ==> t.value.Key() == s
    ensures t.None? <==> s != "global" && s != "followers" && s != "personal"
  {
    if s == "global" then Some(Global)
    else if s == "followers" then Some(Followers)
    else if s == "personal" then Some(Personal)
    else None
  }

  /** Every choice round-trips through its stored value, and the stored values of
      distinct choices differ. */
  lemma ParseTypeRoundTrip(t: NotificationType, u: NotificationType)
    ensures ParseType(t.Key()) == Some(t)
    ensures t.Key() == u.Key() ==> t == u
  {
  }

  const MaxMessageLength := 255

  /** A notification row. `sender` is nullable (SET_NULL), `recipient` is nullable
      too; `createdAt` is the auto_now_add stamp. */
  datatype Notification = Notification(
    id: nat, sender: Option<UserId>, recipient: Option<UserId>, message: string,
    url: Option<string>, ntype: NotificationType, createdAt: int, isRead: bool)

  /** The column declarations: message is a CharField(max_length=255). */
  predicate FitsColumns(n: Notification) {
    |n.message| <= MaxMessageLength
  }

  /** A row created without naming the type or the read flag takes the field
      defaults: type personal, unread. */
  function NewRow(id: nat, sender: Option<UserId>, recipient: Option<UserId>, message: string,
                  url: Option<string>, ntype: Option<NotificationType>, createdAt: int): (n: Notification)
    ensures n.id == id && n.sender == sender && n.recipient == recipient && n.message == message
            && n.url == url && n.createdAt == createdAt
    ensures n.ntype == if ntype.Some? then ntype.value else Personal
    ensures !n.isRead
  {
    Notification(id, sender, recipient, message, url, if ntype.Some? then ntype.value else Personal, createdAt, false)
  }

  /** `__str__`: "<type> - <message>". The text before the separator parses back
      to the row's type and the text after it is the message. */
  function Describe(n: Notification): (d: string)
    ensures var k := |n.ntype.Key()|;
      |d| == k + 3 + |n.message| && ParseType(d[..k]) == Some(n.ntype)
      && d[k..k + 3] == " - " && d[k + 3..] == n.message
  {
    var r := n.ntype.Key() + " - " + n.message;
    assert r[..|n.ntype.Key()|] == n.ntype.Key();
    r
  }

  /** Deleting user u: notifications u received go (CASCADE), notifications u sent
      stay with their sender set to null (SET_NULL). */
  function DeleteUser(ns: seq<Notification>, u: UserId): seq<Notification> {
    var kept := Seqs.Filter(ns, (n: Notification) => n.recipient != Some(u));
    seq(|kept|, i requires 0 <= i < |kept| => if kept[i].sender == Some(u) then kept[i].(sender := None) else kept[i])
  }

  /** After the deletion no row mentions u. Every row u did not receive survives, in
      order, with only its sender changed, and only when that sender was u. */
  lemma DeleteUserSpec(ns: seq<Notification>, u: UserId)
    ensures var r := DeleteUser(ns, u);
      (forall i :: 0 <= i < |r| ==> r[i].recipient != Some(u) && r[i].sender != Some(u)) &&
      |r| == |Seqs.Filter(ns, (n: Notification) => n.recipient != Some(u))| &&
      forall i :: 0 <= i < |r| ==> r[i] in ns || (r[i].sender == None && r[i].(sender := Some(u)) in ns)
  {
    var kept := Seqs.Filter(ns, (n: Notification) => n.recipient != Some(u));
    var r := DeleteUser(ns, u);
    forall i | 0 <= i < |r| ensures r[i] in ns || (r[i].sender == None && r[i].(sender := Some(u)) in ns) {
      assert kept[i] in ns;
      if kept[i].sender == Some(u) {
        assert r[i].(sender := Some(u)) == kept[i];
      }
    }
  }

  /** Rows that mention neither u as recipient nor as sender are untouched, and
      rows not received by u are all still there. */
  lemma DeleteUserKeepsOthers(ns: seq<Notification>, u: UserId, i: nat)
    requires i < |ns| && ns[i].recipient != Some(u)
    ensures ns[i].sender != Some(u) ==> ns[i] in DeleteUser(ns, u)
    ensures ns[i].sender == Some(u) ==> ns[i].(sender := None) in DeleteUser(ns, u)
  {
    var p := (n: Notification) => n.recipient != Some(u);
    var kept := Seqs.Filter(ns, p);
    assert ns[i] in kept;
    var j :| 0 <= j < |kept| && kept[j] == ns[i];
    assert DeleteUser(ns, u)[j] == if ns[i].sender == Some(u) then ns[i].(sender := None) else ns[i];
  }
}
