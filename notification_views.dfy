/** The notification endpoints (server/core/notifications/views.py): pushing a
    notification to its audience, the newest-first list views, and marking
    notifications read. The database is a `NotificationService` object holding
    the user, follower and notification tables. */
module NotificationViews {
  import opened Common
  import opened NotificationModel
  import opened NotificationSerializers
  import Seqs

  /** The body fields the push view reads; None when the key is absent. */
  datatype PushRequest = PushRequest(
    message: Option<string>, url: Option<string>, notificationType: Option<string>, recipient: Option<int>)

  /** 201 with the created notifications, or an error status with its message. */
  datatype PushResponse = Created(items: seq<Received>) | BadRequest(error: string) | NotFound(error: string)

  const MissingFields := "message and notification_type are required."
  const RecipientRequired := "Recipient is required for personal notifications."
  const RecipientNotFound := "Recipient not found."
  const InvalidType := "Invalid notification type."

  /** Python truthiness of an optional string and of an optional id. */
  predicate Truthy(s: Option<string>) { s.Some? && s.value != "" }
  predicate TruthyId(r: Option<int>) { r.Some? && r.value != 0 }

  /** Some Follower row says that u follows `sender`. */
  predicate FollowsSender(follows: seq<Follow>, u: UserId, sender: UserId) {
    exists f :: f in follows && f.follower == u && f.following == sender
  }

  /** Who a push goes to, or the response that refuses it. */
  datatype Audience = Audience(ntype: NotificationType, users: seq<User>) | Refused(response: PushResponse)

  /** The checks and the recipient query of the push view, in the order the view
      makes them. */
  function SelectAudience(users: seq<User>, follows: seq<Follow>, sender: User, req: PushRequest): (a: Audience)
    ensures !Truthy(req.message) || !Truthy(req.notificationType) ==> a == Refused(BadRequest(MissingFields))
    ensures a.Audience? ==> Truthy(req.message) && Truthy(req.notificationType)
                            && req.notificationType.value == a.ntype.Key()
    ensures a.Refused? ==> !a.response.Created?
  {
    if !Truthy(req.message) || !Truthy(req.notificationType) then Refused(BadRequest(MissingFields))
    else match ParseType(req.notificationType.value)
      case Some(Global) =>
        Audience(Global, Seqs.Filter(users, (u: User) => u.id != sender.id))
      case Some(Followers) =>
        Audience(Followers, Seqs.Filter(users, (u: User) => FollowsSender(follows, u.id, sender.id)))
      case Some(Personal) =>
        if !TruthyId(req.recipient) then Refused(BadRequest(RecipientRequired))
        else (match FindUser(users, req.recipient.value)
          case None => Refused(NotFound(RecipientNotFound))
          case Some(r) => Audience(Personal, [r]))
      case None => Refused(BadRequest(InvalidType))
  }

  /** Who receives each kind of push: everyone but the sender; exactly the sender's
      followers; the one named existing user. Unknown types, a missing recipient and
      an unknown recipient are refused with their status. */
  lemma AudienceSpec(users: seq<User>, follows: seq<Follow>, sender: User, req: PushRequest)
    requires Truthy(req.message) && Truthy(req.notificationType)
    ensures var a := SelectAudience(users, follows, sender, req);
      var t := req.notificationType.value;
      (t == "global" ==>
        a.Audience? && a.ntype == Global &&
        forall u :: u in a.users <==> u in users && u.id != sender.id) &&
      (t == "followers" ==>
        a.Audience? && a.ntype == Followers &&
        forall u :: u in a.users <==> u in users && FollowsSender(follows, u.id, sender.id)) &&
      (t == "personal" && !TruthyId(req.recipient) ==> a == Refused(BadRequest(RecipientRequired))) &&
      (t == "personal" && TruthyId(req.recipient) ==>
        if FindUser(users, req.recipient.value).Some?
        then a == Audience(Personal, [FindUser(users, req.recipient.value).value])
        else a == Refused(NotFound(RecipientNotFound))) &&
      (t != "global" && t != "followers" && t != "personal" ==> a == Refused(BadRequest(InvalidType)))
  {
    var a := SelectAudience(users, follows, sender, req);
    var t := req.notificationType.value;
    if t == "global" {
      forall u ensures u in a.users <==> u in users && u.id != sender.id {
        if u in users && u.id != sender.id {
          var i :| 0 <= i < |users| && users[i] == u;
        }
      }
    } else if t == "followers" {
      forall u ensures u in a.users <==> u in users && FollowsSender(follows, u.id, sender.id) {
        if u in users && FollowsSender(follows, u.id, sender.id) {
          var i :| 0 <= i < |users| && users[i] == u;
        }
      }
    }
  }

  /** The rows the creation loop makes for audience `us`, the i-th stamped with
      `stamp(i)` and numbered from `start`. */
  function BroadcastRows(start: nat, sender: UserId, us: seq<User>, message: string, url: Option<string>,
                         t: NotificationType, stamp: nat -> int): (rs: seq<Notification>)
    ensures |rs| == |us|
    ensures forall i :: 0 <= i < |rs| ==>
      rs[i] == Notification(start + i, Some(sender), Some(us[i].id), message, url, t, stamp(i), false)
  {
    seq(|us|, i requires 0 <= i < |us| => NewRow(start + i, Some(sender), Some(us[i].id), message, url, Some(t), stamp(i)))
  }

  /** As written, every insert of a push reads the clock anew. With distinct
      readings each broadcast row then shares its creation stamp with no other row
      of the push, so its recipient count is 1 however many users received it. */
  lemma SplitStampsCountOne(start: nat, sender: UserId, us: seq<User>, message: string, url: Option<string>,
                            t: NotificationType, clock: nat -> int, k: nat)
    requires t != Personal && k < |us|
    requires forall i, j :: 0 <= i < j < |us| ==> clock(i) != clock(j)
    ensures var rs := BroadcastRows(start, sender, us, message, url, t, clock);
      RecipientCount(rs[k], rs) == 1
  {
    var rs := BroadcastRows(start, sender, us, message, url, t, clock);
    forall i | 0 <= i < |rs| && i != k ensures !SameBroadcast(rs[i], rs[k]) {
      assert rs[i].createdAt == clock(i) && rs[k].createdAt == clock(k);
      if i < k {
        assert clock(i) != clock(k);
      } else {
        assert clock(k) != clock(i);
      }
    }
    OnlySelfCountsOne(rs, k);
  }

  /** A row that shares its broadcast key with no other row of the table counts
      only itself. */
  lemma OnlySelfCountsOne(rs: seq<Notification>, k: nat)
    requires k < |rs| && forall i :: 0 <= i < |rs| && i != k ==> !SameBroadcast(rs[i], rs[k])
    ensures |Seqs.Filter(rs, (m: Notification) => SameBroadcast(m, rs[k]))| == 1
  {
    var p := (m: Notification) => SameBroadcast(m, rs[k]);
    assert rs == rs[..k] + [rs[k]] + rs[k + 1..];
    Seqs.FilterAppend(rs[..k] + [rs[k]], rs[k + 1..], p);
    Seqs.FilterAppend(rs[..k], [rs[k]], p);
    var before, after := rs[..k], rs[k + 1..];
    forall i | 0 <= i < |before| ensures !p(before[i]) {
      assert before[i] == rs[i];
    }
    forall i | 0 <= i < |after| ensures !p(after[i]) {
      assert after[i] == rs[k + 1 + i];
    }
    Seqs.FilterNone(before, p);
    Seqs.FilterNone(after, p);
  }

  /** The rows of a push whose inserts all carry one creation stamp `now`. */
  function SharedStampRows(start: nat, sender: UserId, us: seq<User>, message: string, url: Option<string>,
                           t: NotificationType, now: int): (rs: seq<Notification>)
    ensures |rs| == |us| && forall i :: 0 <= i < |rs| ==> rs[i].createdAt == now
  {
    BroadcastRows(start, sender, us, message, url, t, (i: nat) => now)
  }

  /** With one stamp per push, the recipient count of each broadcast row is the
      size of its audience, provided no earlier row shares the broadcast key. */
  lemma SharedStampCountsAudience(earlier: seq<Notification>, start: nat, sender: UserId, us: seq<User>,
                                  message: string, url: Option<string>, t: NotificationType, now: int, k: nat)
    requires t != Personal && k < |us|
    requires forall m :: m in earlier ==>
      !SameBroadcast(m, SharedStampRows(start, sender, us, message, url, t, now)[k])
    ensures var rs := SharedStampRows(start, sender, us, message, url, t, now);
      RecipientCount(rs[k], earlier + rs) == |us|
  {
    var rs := SharedStampRows(start, sender, us, message, url, t, now);
    var p := (m: Notification) => SameBroadcast(m, rs[k]);
    Seqs.FilterAppend(earlier, rs, p);
    Seqs.FilterNone(earlier, p);
    Seqs.FilterAll(rs, p);
  }

  /** The serialized form of each row, in order. */
  function SerializeAll(rs: seq<Notification>, users: seq<User>): (r: seq<Received>)
    ensures |r| == |rs| && forall i :: 0 <= i < |r| ==> r[i] == SerializeReceived(rs[i], users)
  {
    seq(|rs|, i requires 0 <= i < |rs| => SerializeReceived(rs[i], users))
  }

  /** User ids are unique in the table. */
  predicate DistinctIds(users: seq<User>) {
    forall i, j :: 0 <= i < j < |users| ==> users[i].id != users[j].id
  }

  /** In a table with unique ids, looking up a user's id finds that user. */
  lemma {:induction false} FindUserFinds(users: seq<User>, u: User)
    requires DistinctIds(users) && u in users
    ensures FindUser(users, u.id) == Some(u)
  {
    if users[0] != u {
      assert users[1..] == users[1..];
      var j :| 0 <= j < |users| && users[j] == u;
      assert j > 0 && users[1..][j - 1] == u;
      FindUserFinds(users[1..], u);
    }
  }

  /** Every notification a push returns names the authenticated sender, and never
      reveals who received it. */
  lemma PushItemsFromSender(users: seq<User>, sender: User, rows: seq<Notification>)
    requires DistinctIds(users) && sender in users
    requires forall i :: 0 <= i < |rows| ==> rows[i].sender == Some(sender.id)
    ensures forall i :: 0 <= i < |rows| ==> SerializeAll(rows, users)[i].sender == Some(Mini(sender))
  {
    FindUserFinds(users, sender);
  }

  /** Ordering by `-created_at`: a stable insertion sort, newest first. */
  function Insert(x: Notification, s: seq<Notification>): seq<Notification> {
    if s == [] || s[0].createdAt <= x.createdAt then [x] + s else [s[0]] + Insert(x, s[1..])
  }

  function Newest(s: seq<Notification>): seq<Notification> {
    if s == [] then [] else Insert(s[0], Newest(s[1..]))
  }

  predicate NewestFirst(s: seq<Notification>) {
    forall i, j :: 0 <= i < j < |s| ==> s[i].createdAt >= s[j].createdAt
  }

  lemma {:induction false} InsertSpec(x: Notification, s: seq<Notification>)
    requires NewestFirst(s)
    ensures NewestFirst(Insert(x, s)) && multiset(Insert(x, s)) == multiset(s) + multiset{x}
  {
    if s == [] || s[0].createdAt <= x.createdAt {
      assert Insert(x, s) == [x] + s;
    } else {
      InsertSpec(x, s[1..]);
      var r := Insert(x, s[1..]);
      assert s == [s[0]] + s[1..];
      forall k | 0 <= k < |r| ensures r[k].createdAt <= s[0].createdAt {
        assert r[k] in multiset(r);
        if r[k] != x {
          assert r[k] in multiset(s[1..]);
          var j :| 0 <= j < |s[1..]| && s[1..][j] == r[k];
          assert s[j + 1] == r[k];
        }
      }
      assert Insert(x, s) == [s[0]] + r;
    }
  }

  /** The newest-first ordering is sorted by creation stamp and is a permutation of
      its input. */
  lemma {:induction false} NewestSpec(s: seq<Notification>)
    ensures NewestFirst(Newest(s)) && multiset(Newest(s)) == multiset(s)
  {
    if s != [] {
      NewestSpec(s[1..]);
      InsertSpec(s[0], Newest(s[1..]));
      assert s == [s[0]] + s[1..];
    }
  }

  /** A row belongs in a received list: its recipient is the requester and, for
      the per-type views, its type is the view's. */
  predicate InInbox(n: Notification, user: UserId, t: Option<NotificationType>) {
    n.recipient == Some(user) && (t.None? || n.ntype == t.value)
  }

  /** The queryset of the received-list views: all (t = None), global, followers
      or personal notifications of the requester, newest first. */
  function InboxRows(ns: seq<Notification>, user: UserId, t: Option<NotificationType>): (r: seq<Notification>)
    ensures NewestFirst(r)
    ensures forall i :: 0 <= i < |r| ==> InInbox(r[i], user, t)
    ensures forall n :: n in ns && InInbox(n, user, t) ==> n in r
    ensures multiset(r) == multiset(Seqs.Filter(ns, (n: Notification) => InInbox(n, user, t)))
  {
    var p := (n: Notification) => InInbox(n, user, t);
    var f := Seqs.Filter(ns, p);
    NewestSpec(f);
    NewestFilter(ns, p);
    Newest(f)
  }

  /** A permutation has the same members. */
  lemma MembersOfPermutation(a: seq<Notification>, b: seq<Notification>)
    requires multiset(a) == multiset(b)
    ensures forall n :: n in a <==> n in b
  {
    forall n ensures n in a <==> n in b {
      assert n in a <==> n in multiset(a);
    }
  }

  /** Ordering a filtered sequence keeps exactly its members, and all of them pass
      the filter. */
  lemma NewestFilter(s: seq<Notification>, p: Notification -> bool)
    ensures var r := Newest(Seqs.Filter(s, p));
      (forall i :: 0 <= i < |r| ==> p(r[i])) && forall n :: n in s && p(n) ==> n in r
  {
    var f := Seqs.Filter(s, p);
    var r := Newest(f);
    NewestSpec(f);
    MembersOfPermutation(f, r);
    forall i | 0 <= i < |r| ensures p(r[i]) {
      assert r[i] in f;
      var j :| 0 <= j < |f| && f[j] == r[i];
    }
    forall n | n in s && p(n) ensures n in r {
      var j :| 0 <= j < |s| && s[j] == n;
    }
  }

  /** The queryset of the sent view: the requester's sent notifications, newest
      first. */
  function SentRows(ns: seq<Notification>, user: UserId): (r: seq<Notification>)
    ensures NewestFirst(r)
    ensures forall i :: 0 <= i < |r| ==> r[i].sender == Some(user)
    ensures forall n :: n in ns && n.sender == Some(user) ==> n in r
    ensures multiset(r) == multiset(Seqs.Filter(ns, (n: Notification) => n.sender == Some(user)))
  {
    var p := (n: Notification) => n.sender == Some(user);
    var f := Seqs.Filter(ns, p);
    NewestSpec(f);
    NewestFilter(ns, p);
    Newest(f)
  }

  /** The inbox rows are exactly the requester's rows of the view's type. */
  lemma InboxRowsMembers(ns: seq<Notification>, user: UserId, t: Option<NotificationType>, n: Notification)
    ensures n in InboxRows(ns, user, t) <==> n in ns && InInbox(n, user, t)
  {
    var f := Seqs.Filter(ns, (m: Notification) => InInbox(m, user, t));
    MembersOfPermutation(InboxRows(ns, user, t), f);
    if n in f {
      var j :| 0 <= j < |f| && f[j] == n;
    }
  }

  /** The sent rows are exactly the requester's sent rows. */
  lemma SentRowsMembers(ns: seq<Notification>, user: UserId, n: Notification)
    ensures n in SentRows(ns, user) <==> n in ns && n.sender == Some(user)
  {
    var f := Seqs.Filter(ns, (m: Notification) => m.sender == Some(user));
    MembersOfPermutation(SentRows(ns, user), f);
    if n in f {
      var j :| 0 <= j < |f| && f[j] == n;
    }
  }

  /** The sent view's response body. */
  function ListSent(ns: seq<Notification>, users: seq<User>, user: UserId): (r: seq<Sent>)
    ensures |r| == |SentRows(ns, user)|
    ensures forall i :: 0 <= i < |r| ==> r[i] == SerializeSent(SentRows(ns, user)[i], ns, users)
  {
    var rs := SentRows(ns, user);
    seq(|rs|, i requires 0 <= i < |rs| => SerializeSent(rs[i], ns, users))
  }

  /** The sent response lists the requester's sent notifications newest first,
      each serialized with its recipient and recipient count: every item is one
      of those rows and every one of them appears. */
  lemma ListSentSpec(ns: seq<Notification>, users: seq<User>, user: UserId)
    ensures var r := ListSent(ns, users, user);
      (forall i, j :: 0 <= i < j < |r| ==> r[i].createdAt >= r[j].createdAt) &&
      (forall i :: 0 <= i < |r| ==>
        exists n :: n in ns && n.sender == Some(user) && r[i] == SerializeSent(n, ns, users)) &&
      (forall n :: n in ns && n.sender == Some(user) ==> SerializeSent(n, ns, users) in r)
  {
    var rs := SentRows(ns, user);
    var r := ListSent(ns, users, user);
    forall i, j | 0 <= i < j < |r| ensures r[i].createdAt >= r[j].createdAt {
      assert r[i].createdAt == rs[i].createdAt && r[j].createdAt == rs[j].createdAt;
    }
    forall i | 0 <= i < |r|
      ensures exists n :: n in ns && n.sender == Some(user) && r[i] == SerializeSent(n, ns, users)
    {
      SentRowsMembers(ns, user, rs[i]);
      assert r[i] == SerializeSent(rs[i], ns, users);
    }
    forall n | n in ns && n.sender == Some(user) ensures SerializeSent(n, ns, users) in r {
      SentRowsMembers(ns, user, n);
      var k :| 0 <= k < |rs| && rs[k] == n;
      assert r[k] == SerializeSent(n, ns, users);
    }
  }

  /** The received views' response body. */
  function ListReceived(ns: seq<Notification>, users: seq<User>, user: UserId, t: Option<NotificationType>): (r: seq<Received>)
    ensures |r| == |InboxRows(ns, user, t)|
    ensures forall i :: 0 <= i < |r| ==> r[i] == SerializeReceived(InboxRows(ns, user, t)[i], users)
  {
    SerializeAll(InboxRows(ns, user, t), users)
  }

  /** The received response lists the requester's rows of the view's type newest
      first, serialized: every item is one such row and every such row appears. */
  lemma ListReceivedSpec(ns: seq<Notification>, users: seq<User>, user: UserId, t: Option<NotificationType>)
    ensures var r := ListReceived(ns, users, user, t);
      (forall i, j :: 0 <= i < j < |r| ==> r[i].createdAt >= r[j].createdAt) &&
      (forall i :: 0 <= i < |r| ==>
        exists n :: n in ns && InInbox(n, user, t) && r[i] == SerializeReceived(n, users)) &&
      (forall n :: n in ns && InInbox(n, user, t) ==> SerializeReceived(n, users) in r)
  {
    var rs := InboxRows(ns, user, t);
    var r := ListReceived(ns, users, user, t);
    forall i, j | 0 <= i < j < |r| ensures r[i].createdAt >= r[j].createdAt {
      assert r[i].createdAt == rs[i].createdAt && r[j].createdAt == rs[j].createdAt;
    }
    forall i | 0 <= i < |r|
      ensures exists n :: n in ns && InInbox(n, user, t) && r[i] == SerializeReceived(n, users)
    {
      InboxRowsMembers(ns, user, t, rs[i]);
      assert r[i] == SerializeReceived(rs[i], users);
    }
    forall n | n in ns && InInbox(n, user, t) ensures SerializeReceived(n, users) in r {
      InboxRowsMembers(ns, user, t, n);
      var k :| 0 <= k < |rs| && rs[k] == n;
      assert r[k] == SerializeReceived(n, users);
    }
  }

  /** The requester's unread count. */
  function UnreadCount(ns: seq<Notification>, user: UserId): nat {
    |Seqs.Filter(ns, (n: Notification) => n.recipient == Some(user) && !n.isRead)|
  }

  /** `Notification.objects.get(pk=pk, recipient=user)`: the index of that row. */
  function FindOwn(ns: seq<Notification>, pk: nat, user: UserId): (r: Option<nat>)
    ensures r.Some? ==> r.value < |ns| && ns[r.value].id == pk && ns[r.value].recipient == Some(user)
    ensures r.None? ==> forall i :: 0 <= i < |ns| ==> !(ns[i].id == pk && ns[i].recipient == Some(user))
  {
    if ns == [] then None
    else if ns[0].id == pk && ns[0].recipient == Some(user) then Some(0)
    else match FindOwn(ns[1..], pk, user)
      case None => None
      case Some(i) => Some(i + 1)
  }

  /** Setting the read flag of one of u's rows lowers u's unread count by one if the
      row was unread and leaves it alone otherwise. */
  lemma {:induction false} MarkOneUnreadCount(ns: seq<Notification>, k: nat, user: UserId)
    requires k < |ns| && ns[k].recipient == Some(user)
    ensures UnreadCount(ns[k := ns[k].(isRead := true)], user) == UnreadCount(ns, user) - (if ns[k].isRead then 0 else 1)
  {
    var p := (n: Notification) => n.recipient == Some(user) && !n.isRead;
    var m := ns[k := ns[k].(isRead := true)];
    assert ns == ns[..k] + [ns[k]] + ns[k + 1..];
    assert m == ns[..k] + [m[k]] + ns[k + 1..];
    Seqs.FilterAppend(ns[..k] + [ns[k]], ns[k + 1..], p);
    Seqs.FilterAppend(ns[..k], [ns[k]], p);
    Seqs.FilterAppend(ns[..k] + [m[k]], ns[k + 1..], p);
    Seqs.FilterAppend(ns[..k], [m[k]], p);
    assert Seqs.Filter([m[k]], p) == [];
  }

  /** The rows after mark-all-read: every unread row of `user` becomes read. */
  function MarkAllRows(ns: seq<Notification>, user: UserId): (r: seq<Notification>)
    ensures |r| == |ns|
  {
    seq(|ns|, i requires 0 <= i < |ns| =>
      if ns[i].recipient == Some(user) && !ns[i].isRead then ns[i].(isRead := true) else ns[i])
  }

  /** After mark-all-read the requester has nothing unread, and every row of another
      recipient is untouched; rows only ever change their read flag. */
  lemma MarkAllSpec(ns: seq<Notification>, user: UserId)
    ensures UnreadCount(MarkAllRows(ns, user), user) == 0
    ensures forall i :: 0 <= i < |ns| && ns[i].recipient != Some(user) ==> MarkAllRows(ns, user)[i] == ns[i]
    ensures forall i :: 0 <= i < |ns| ==> MarkAllRows(ns, user)[i] == ns[i].(isRead := MarkAllRows(ns, user)[i].isRead)
    ensures forall i :: 0 <= i < |ns| && ns[i].recipient == Some(user) ==> MarkAllRows(ns, user)[i].isRead
  {
    var r := MarkAllRows(ns, user);
    Seqs.FilterNone(r, (n: Notification) => n.recipient == Some(user) && !n.isRead);
  }

  /** The response of mark-read: the updated notification with the unread count, or
      404 when the requester has no notification with that id. */
  datatype MarkReadResponse = Marked(notification: Received, unreadCount: nat) | MarkNotFound(error: string)

  const NotificationNotFound := "Notification not found."
  const AllMarked := "All notifications marked as read."

  /** Notification ids are unique and below the next id to hand out. */
  predicate IdsBelow(ns: seq<Notification>, next: nat) {
    (forall i :: 0 <= i < |ns| ==> ns[i].id < next) &&
    (forall i, j :: 0 <= i < j < |ns| ==> ns[i].id < ns[j].id)
  }

  /** Appending a row with the next id keeps ids unique and below the new next id. */
  lemma IdsBelowAppend(ns: seq<Notification>, next: nat, n: Notification)
    requires IdsBelow(ns, next) && n.id == next
    ensures IdsBelow(ns + [n], next + 1)
  {
  }

  /** Serializing one more row extends the serialized list by that row. */
  lemma SerializeAllSnoc(rs: seq<Notification>, n: Notification, users: seq<User>)
    ensures SerializeAll(rs + [n], users) == SerializeAll(rs, users) + [SerializeReceived(n, users)]
  {
  }

  /** One insert of a push: the rows so far grow by the next row, which keeps the
      ids unique and extends the serialized list by that row. */
  lemma PushStep(before: seq<Notification>, rows: seq<Notification>, i: nat, start: nat, users: seq<User>)
    requires i < |rows| && rows[i].id == start + i && IdsBelow(before + rows[..i], start + i)
    ensures (before + rows[..i]) + [rows[i]] == before + rows[..i + 1]
    ensures IdsBelow(before + rows[..i + 1], start + i + 1)
    ensures SerializeAll(rows[..i], users) + [SerializeReceived(rows[i], users)] == SerializeAll(rows[..i + 1], users)
  {
    assert rows[..i + 1] == rows[..i] + [rows[i]];
    IdsBelowAppend(before + rows[..i], start + i, rows[i]);
    SerializeAllSnoc(rows[..i], rows[i], users);
  }

  /** The tables the notification views read and write. */
  class NotificationService {
    var users: seq<User>
    var follows: seq<Follow>
    var notifications: seq<Notification>
    var nextId: nat

    predicate Valid()
      reads this
    {
      DistinctIds(users) && IdsBelow(notifications, nextId)
    }

    constructor(users: seq<User>, follows: seq<Follow>)
      requires DistinctIds(users)
      ensures Valid()
      ensures this.users == users && this.follows == follows && notifications == [] && nextId == 1
    {
      this.users := users;
      this.follows := follows;
      notifications := [];
      nextId := 1;
    }

    /** PushNotificationView.post by the authenticated `sender`. The i-th row the
        loop creates is stamped with `clock(i)`, the clock reading of its own
        insert. */
    method Push(sender: User, req: PushRequest, clock: nat -> int) returns (resp: PushResponse)
      requires Valid() && sender in users
      modifies this
      ensures Valid()
      ensures users == old(users) && follows == old(follows)
      ensures var a := SelectAudience(old(users), old(follows), sender, req);
        match a
        case Refused(r) => resp == r && notifications == old(notifications) && nextId == old(nextId)
        case Audience(t, us) =>
          var rows := BroadcastRows(old(nextId), sender.id, us, req.message.value, req.url, t, clock);
          notifications == old(notifications) + rows && nextId == old(nextId) + |us|
          && resp == Created(SerializeAll(rows, users))
    {
      var a := SelectAudience(users, follows, sender, req);
      if a.Refused? {
        return a.response;
      }
      var us := a.users;
      ghost var rows := BroadcastRows(nextId, sender.id, us, req.message.value, req.url, a.ntype, clock);
      ghost var before := notifications;
      ghost var start := nextId;
      var items: seq<Received> := [];
      var i := 0;
      while i < |us|
        invariant 0 <= i <= |us|
        invariant notifications == before + rows[..i]
        invariant nextId == start + i
        invariant items == SerializeAll(rows[..i], users)
        invariant Valid() && users == old(users) && follows == old(follows)
      {
        var n := Notification(nextId, Some(sender.id), Some(us[i].id), req.message.value, req.url, a.ntype, clock(i), false);
        assert n == rows[i];
        PushStep(before, rows, i, start, users);
        notifications := notifications + [n];
        nextId := nextId + 1;
        items := items + [SerializeReceived(n, users)];
        i := i + 1;
      }
      assert rows[..i] == rows;
      resp := Created(items);
    }

    /** MarkNotificationReadView.post for notification `pk` by `user`. */
    method MarkRead(user: UserId, pk: nat) returns (resp: MarkReadResponse)
      requires Valid()
      modifies this
      ensures Valid()
      ensures users == old(users) && follows == old(follows) && nextId == old(nextId)
      ensures match FindOwn(old(notifications), pk, user)
        case None => resp == MarkNotFound(NotificationNotFound) && notifications == old(notifications)
        case Some(k) =>
          notifications == old(notifications)[k := old(notifications)[k].(isRead := true)]
          && resp == Marked(SerializeReceived(notifications[k], users), UnreadCount(notifications, user))
    {
      var found := FindOwn(notifications, pk, user);
      if found.None? {
        return MarkNotFound(NotificationNotFound);
      }
      var k := found.value;
      notifications := notifications[k := notifications[k].(isRead := true)];
      resp := Marked(SerializeReceived(notifications[k], users), UnreadCount(notifications, user));
    }

    /** MarkAllNotificationsReadView.post by `user`. */
    method MarkAllRead(user: UserId) returns (message: string)
      requires Valid()
      modifies this
      ensures Valid()
      ensures users == old(users) && follows == old(follows) && nextId == old(nextId)
      ensures notifications == MarkAllRows(old(notifications), user)
      ensures message == AllMarked
    {
      notifications := MarkAllRows(notifications, user);
      message := AllMarked;
    }
  }
}
