/** The client's sent-notification store (client/src/stores/notificationStore.js)
    and the notification records the client receives from the server. */
module NotificationStore {
  import opened Common
  import opened Http

  /** A user as embedded in a notification body (`sender`, `recipient`). */
  datatype Sender = Sender(id: Option<int>, username: string, profilePicture: Option<string>)

  /** A notification as the client receives it. `createdAt` is in whole seconds;
      `recipient` and `recipientCount` are only sent by the sent-notifications view.
      A deleted sender arrives as `sender: null` (None). */
  datatype Notification = Notification(
    id: int, sender: Option<Sender>, recipient: Option<Sender>, recipientCount: Option<int>,
    message: string, url: Option<string>, notificationType: string, createdAt: int, isRead: bool)

  const YouPicture := "https://cdn-icons-png.flaticon.com/512/3135/3135715.png"
  const You := Sender(None, "You", Some(YouPicture))
  const DefaultError := "Failed to fetch"

  /** `{...n, sender: {username: "You", profile_picture: ...}}` on every item. */
  function AsSentByYou(ns: seq<Notification>): seq<Notification> {
    seq(|ns|, i requires 0 <= i < |ns| => ns[i].(sender := Some(You)))
  }

  /** The rewrite keeps the list's length and order and every field of every item
      except the sender, which becomes "You" with the fixed picture; applying it a
      second time (as the dropdown does) changes nothing more. */
  lemma AsSentByYouSpec(ns: seq<Notification>)
    ensures |AsSentByYou(ns)| == |ns|
    ensures forall i :: 0 <= i < |ns| ==>
              AsSentByYou(ns)[i].sender == Some(You) && AsSentByYou(ns)[i].(sender := ns[i].sender) == ns[i]
    ensures AsSentByYou(AsSentByYou(ns)) == AsSentByYou(ns)
  {
  }

  class NotificationStore {
    var notifications: seq<Notification>
    var loading: bool
    var error: Option<string>
    /** Number of requests issued and not yet settled. */
    ghost var pending: nat

    /** The initial state: no notifications, not loading, no error. */
    constructor ()
      ensures notifications == [] && !loading && error == None && pending == 0
    {
      notifications, loading, error := [], false, None;
      pending := 0;
    }

    /** The synchronous part of fetchNotifications: loading on, error cleared,
        one request issued; the list is kept. */
    method BeginFetch()
      modifies this
      ensures loading && error == None && notifications == old(notifications) && pending == old(pending) + 1
    {
      loading, error := true, None;
      pending := pending + 1;
    }

    /** A request settles. Success installs the results rewritten by AsSentByYou;
        failure records `err.message || "Failed to fetch"` and keeps the list.
        Loading ends false either way. */
    method FinishFetch(outcome: Outcome<seq<Notification>>)
      requires pending > 0
      modifies this
      ensures !loading && pending == old(pending) - 1
      ensures outcome.Done? ==> notifications == AsSentByYou(outcome.value) && error == old(error)
      ensures outcome.Failed? ==>
                notifications == old(notifications) &&
                error == Some(if outcome.error.message != "" then outcome.error.message else DefaultError)
    {
      pending := pending - 1;
      match outcome
      case Done(results) =>
        notifications, loading := AsSentByYou(results), false;
      case Failed(e) =>
        error, loading := Some(if e.message != "" then e.message else DefaultError), false;
    }
  }
}
