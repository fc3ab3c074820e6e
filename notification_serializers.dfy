/** What the notification endpoints put on the wire
    (server/core/notifications/serializers.py). */
module NotificationSerializers {
  import opened Common
  import opened NotificationModel
  import Seqs

  /** UserMiniSerializer: id, username and profile picture only. */
  datatype MiniUser = MiniUser(id: UserId, username: string, profilePicture: Option<string>)

  function Mini(u: User): (m: MiniUser)
    ensures m.id == u.id && m.username == u.username && m.profilePicture == u.profilePicture
  {
    MiniUser(u.id, u.username, u.profilePicture)
  }

  /** The user row with the given id, if there is one. */
  function FindUser(users: seq<User>, id: UserId): (r: Option<User>)
    ensures r.Some? ==> r.value in users && r.value.id == id
    ensures r.None? ==> forall i :: 0 <= i < |users| ==> users[i].id != id
  {
    if users == [] then None else if users[0].id == id then Some(users[0]) else FindUser(users[1..], id)
  }

  /** The nested sender of a row: null when the row's sender is null. */
  function SenderOf(n: Notification, users: seq<User>): Option<MiniUser> {
    if n.sender.Some? && FindUser(users, n.sender.value).Some? then Some(Mini(FindUser(users, n.sender.value).value))
    else None
  }

  /** NotificationSerializer: a received notification, with no recipient field. */
  datatype Received = Received(
    id: nat, sender: Option<MiniUser>, message: string, url: Option<string>,
    notificationType: string, createdAt: int, isRead: bool)

  function SerializeReceived(n: Notification, users: seq<User>): (r: Received)
    ensures r.id == n.id && r.message == n.message && r.url == n.url && r.createdAt == n.createdAt
    ensures r.isRead == n.isRead && r.notificationType == n.ntype.Key()
    ensures r.sender == SenderOf(n, users)
  {
    Received(n.id, SenderOf(n, users), n.message, n.url, n.ntype.Key(), n.createdAt, n.isRead)
  }

  /** The received form hides the recipient: rows that differ only in their
      recipient serialize identically. */
  lemma ReceivedHidesRecipient(n: Notification, other: Option<UserId>, users: seq<User>)
    ensures SerializeReceived(n.(recipient := other), users) == SerializeReceived(n, users)
  {
  }

  /** get_recipient: the recipient's mini user for a personal notification, null
      for every other type. */
  function RecipientOf(n: Notification, users: seq<User>): (r: Option<MiniUser>)
    ensures n.ntype != Personal ==> r.None?
    ensures n.ntype == Personal && n.recipient.Some? && FindUser(users, n.recipient.value).Some? ==>
              r == Some(Mini(FindUser(users, n.recipient.value).value))
  {
    if n.ntype == Personal && n.recipient.Some? && FindUser(users, n.recipient.value).Some?
    then Some(Mini(FindUser(users, n.recipient.value).value))
    else None
  }

  /** The grouping key of get_recipient_count: same sender, message, type and
      creation stamp. */
  predicate SameBroadcast(m: Notification, n: Notification) {
    m.sender == n.sender && m.message == n.message && m.ntype == n.ntype && m.createdAt == n.createdAt
  }

  /** get_recipient_count: for global and followers notifications, the number of
      rows sharing the grouping key; 1 for any other type. */
  function RecipientCount(n: Notification, all: seq<Notification>): nat {
    if n.ntype == Global || n.ntype == Followers
    then |Seqs.Filter(all, (m: Notification) => SameBroadcast(m, n))|
    else 1
  }

  /** A broadcast row counts at least itself, and never more than the table holds;
      a personal row always counts one. */
  lemma RecipientCountBounds(n: Notification, all: seq<Notification>)
    requires n in all
    ensures 1 <= RecipientCount(n, all) <= |all|
    ensures n.ntype == Personal ==> RecipientCount(n, all) == 1
  {
    if n.ntype != Personal {
      var p := (m: Notification) => SameBroadcast(m, n);
      var i :| 0 <= i < |all| && all[i] == n;
      assert all[i] in Seqs.Filter(all, p);
    }
  }

  /** SentNotificationSerializer. */
  datatype Sent = Sent(
    id: nat, sender: Option<MiniUser>, recipient: Option<MiniUser>, recipientCount: nat,
    message: string, url: Option<string>, notificationType: string, createdAt: int, isRead: bool)

  function SerializeSent(n: Notification, all: seq<Notification>, users: seq<User>): (r: Sent)
    ensures r.id == n.id && r.message == n.message && r.url == n.url && r.createdAt == n.createdAt
    ensures r.isRead == n.isRead && r.notificationType == n.ntype.Key() && r.sender == SenderOf(n, users)
    ensures r.recipient == RecipientOf(n, users) && r.recipientCount == RecipientCount(n, all)
  {
    Sent(n.id, SenderOf(n, users), RecipientOf(n, users), RecipientCount(n, all),
         n.message, n.url, n.ntype.Key(), n.createdAt, n.isRead)
  }
}
