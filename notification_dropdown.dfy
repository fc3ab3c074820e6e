/** The notification dropdown's data handling
    (client/src/components/NotificationDropdown.jsx): signature-based
    deduplication, relative-time labels, the field renaming into tab items, the
    icon table and the assembly of the four tabs. */
module NotificationDropdown {
  import opened Common
  import opened Http
  import opened NotificationStore
  import Seqs

  /** Only these two types are deduplicated. The server's follower type is
      "followers", so follower notifications are never deduplicated. */
  predicate IsDedupType(t: string) {
    t == "global" || t == "follow"
  }

  /** `${url}` of a JSON url field: a null url renders as "null". */
  function UrlText(url: Option<string>): string {
    if url.Some? then url.value else "null"
  }

  /** `${message}-${url}-${notification_type}`. */
  function Signature(n: Notification): string {
    n.message + "-" + UrlText(n.url) + "-" + n.notificationType
  }

  /** Deduplication with `seen` as the set of signatures already taken. */
  function DedupFrom(ns: seq<Notification>, seen: set<string>): (r: seq<Notification>)
    ensures |r| <= |ns|
  {
    if ns == [] then []
    else if IsDedupType(ns[0].notificationType) then
      if Signature(ns[0]) in seen then DedupFrom(ns[1..], seen)
      else [ns[0]] + DedupFrom(ns[1..], seen + {Signature(ns[0])})
    else [ns[0]] + DedupFrom(ns[1..], seen)
  }

  /** The specification of deduplicateNotifications. */
  function Dedup(ns: seq<Notification>): seq<Notification> {
    DedupFrom(ns, {})
  }

  /** deduplicateNotifications: one pass that keeps a `seen` set of signatures. */
  method Deduplicate(ns: seq<Notification>) returns (deduplicated: seq<Notification>)
    ensures deduplicated == Dedup(ns)
  {
    var seen: set<string> := {};
    deduplicated := [];
    var i := 0;
    while i < |ns|
      invariant 0 <= i <= |ns|
      invariant Dedup(ns) == deduplicated + DedupFrom(ns[i..], seen)
    {
      var notif := ns[i];
      assert ns[i..][1..] == ns[i + 1..];
      if notif.notificationType == "global" || notif.notificationType == "follow" {
        var signature := Signature(notif);
        if signature !in seen {
          seen := seen + {signature};
          deduplicated := deduplicated + [notif];
        }
      } else {
        deduplicated := deduplicated + [notif];
      }
      i := i + 1;
    }
  }

  /** Signatures of the deduplicated-type items among the first k. */
  function SigsBefore(ns: seq<Notification>, k: nat): set<string>
    requires k <= |ns|
  {
    set j | 0 <= j < k && IsDedupType(ns[j].notificationType) :: Signature(ns[j])
  }

  /** Item i survives: its type is not deduplicated, or no earlier item of a
      deduplicated type has its signature. */
  predicate Kept(ns: seq<Notification>, i: nat)
    requires i < |ns|
  {
    !IsDedupType(ns[i].notificationType) || Signature(ns[i]) !in SigsBefore(ns, i)
  }

  /** The surviving items from index k on, in order. */
  function KeptFrom(ns: seq<Notification>, k: nat): seq<Notification>
    requires k <= |ns|
    decreases |ns| - k
  {
    if k == |ns| then [] else (if Kept(ns, k) then [ns[k]] else []) + KeptFrom(ns, k + 1)
  }

  lemma {:induction false} DedupFromKept(ns: seq<Notification>, k: nat)
    requires k <= |ns|
    ensures DedupFrom(ns[k..], SigsBefore(ns, k)) == KeptFrom(ns, k)
    decreases |ns| - k
  {
    if k < |ns| {
      var S := SigsBefore(ns, k);
      var n := ns[k];
      assert ns[k..][0] == n && ns[k..][1..] == ns[k + 1..];
      if IsDedupType(n.notificationType) {
        assert SigsBefore(ns, k + 1) == S + {Signature(n)};
        DedupFromKept(ns, k + 1);
        if Signature(n) in S {
          assert S + {Signature(n)} == S;
          assert DedupFrom(ns[k..], S) == DedupFrom(ns[k + 1..], S);
        } else {
          assert DedupFrom(ns[k..], S) == [n] + DedupFrom(ns[k + 1..], S + {Signature(n)});
        }
      } else {
        assert SigsBefore(ns, k + 1) == S;
        DedupFromKept(ns, k + 1);
        assert DedupFrom(ns[k..], S) == [n] + DedupFrom(ns[k + 1..], S);
      }
    }
  }

  /** Deduplication keeps exactly the items that are not of a deduplicated type
      and, among "global"/"follow" items, exactly the first with each signature,
      all in their original order. */
  lemma DedupKeepsFirsts(ns: seq<Notification>)
    ensures Dedup(ns) == KeptFrom(ns, 0)
  {
    assert ns[0..] == ns;
    assert SigsBefore(ns, 0) == {};
    DedupFromKept(ns, 0);
  }

  lemma {:induction false} DedupFromSubsequence(ns: seq<Notification>, seen: set<string>)
    ensures Seqs.IsSubsequence(DedupFrom(ns, seen), ns)
  {
    if ns != [] {
      var n := ns[0];
      if IsDedupType(n.notificationType) && Signature(n) in seen {
        DedupFromSubsequence(ns[1..], seen);
      } else {
        var seen' := if IsDedupType(n.notificationType) then seen + {Signature(n)} else seen;
        DedupFromSubsequence(ns[1..], seen');
        var r := DedupFrom(ns, seen);
        assert r[0] == n && r[1..] == DedupFrom(ns[1..], seen');
      }
    }
  }

  /** The output is a subsequence of the input, so never longer. */
  lemma DedupSubsequence(ns: seq<Notification>)
    ensures Seqs.IsSubsequence(Dedup(ns), ns) && |Dedup(ns)| <= |ns|
  {
    DedupFromSubsequence(ns, {});
  }

  lemma {:induction false} DedupFromOthers(ns: seq<Notification>, seen: set<string>)
    ensures Seqs.Filter(DedupFrom(ns, seen), (n: Notification) => !IsDedupType(n.notificationType))
         == Seqs.Filter(ns, (n: Notification) => !IsDedupType(n.notificationType))
  {
    var p := (n: Notification) => !IsDedupType(n.notificationType);
    if ns != [] {
      var n := ns[0];
      var seen' := if IsDedupType(n.notificationType) then seen + {Signature(n)} else seen;
      DedupFromOthers(ns[1..], seen);
      DedupFromOthers(ns[1..], seen');
      if !(IsDedupType(n.notificationType) && Signature(n) in seen) {
        Seqs.FilterAppend([n], DedupFrom(ns[1..], seen'), p);
      }
    }
  }

  /** Every item whose type is neither "global" nor "follow" is kept, duplicates
      included: those items are the same list before and after. */
  lemma DedupKeepsOtherTypes(ns: seq<Notification>)
    ensures Seqs.Filter(Dedup(ns), (n: Notification) => !IsDedupType(n.notificationType))
         == Seqs.Filter(ns, (n: Notification) => !IsDedupType(n.notificationType))
  {
    DedupFromOthers(ns, {});
  }

  /** No item of a deduplicated type repeats a signature in seen or earlier in ns. */
  predicate DistinctSigs(ns: seq<Notification>, seen: set<string>) {
    ns == [] ||
    (if IsDedupType(ns[0].notificationType)
     then Signature(ns[0]) !in seen && DistinctSigs(ns[1..], seen + {Signature(ns[0])})
     else DistinctSigs(ns[1..], seen))
  }

  lemma {:induction false} DedupFromDistinct(ns: seq<Notification>, seen: set<string>)
    ensures DistinctSigs(DedupFrom(ns, seen), seen)
  {
    if ns != [] {
      var n := ns[0];
      if IsDedupType(n.notificationType) {
        if Signature(n) in seen {
          DedupFromDistinct(ns[1..], seen);
        } else {
          DedupFromDistinct(ns[1..], seen + {Signature(n)});
          var r := DedupFrom(ns, seen);
          assert r[0] == n && r[1..] == DedupFrom(ns[1..], seen + {Signature(n)});
        }
      } else {
        DedupFromDistinct(ns[1..], seen);
        var r := DedupFrom(ns, seen);
        assert r[0] == n && r[1..] == DedupFrom(ns[1..], seen);
      }
    }
  }

  lemma {:induction false} DistinctFixed(ns: seq<Notification>, seen: set<string>)
    requires DistinctSigs(ns, seen)
    ensures DedupFrom(ns, seen) == ns
  {
    if ns != [] {
      var n := ns[0];
      if IsDedupType(n.notificationType) {
        DistinctFixed(ns[1..], seen + {Signature(n)});
      } else {
        DistinctFixed(ns[1..], seen);
      }
      assert ns == [n] + ns[1..];
    }
  }

  /** Deduplicating twice is deduplicating once. */
  lemma DedupIdempotent(ns: seq<Notification>)
    ensures Dedup(Dedup(ns)) == Dedup(ns)
  {
    DedupFromDistinct(ns, {});
    DistinctFixed(Dedup(ns), {});
  }

  /** The whole-unit count and unit suffix of an age of d seconds. */
  function Bucket(d: int): (int, string) {
    if d < 60 then (d, "s")
    else if d < 3600 then (d / 60, "m")
    else if d < 86400 then (d / 3600, "h")
    else (d / 86400, "d")
  }

  /** formatTime, given the age in whole seconds. */
  function FormatTime(d: int): string {
    IntToString(Bucket(d).0) + Bucket(d).1 + " ago"
  }

  function UnitSeconds(suffix: string): nat {
    if suffix == "s" then 1 else if suffix == "m" then 60 else if suffix == "h" then 3600 else 86400
  }

  /** The label of a non-negative age counts the whole units elapsed in the largest
      unit (second, minute, hour, day) that fits: v units have passed but not v + 1,
      and below a day the count stays under the next unit's size. */
  lemma FormatTimeMeaning(d: int)
    requires d >= 0
    ensures var (v, s) := Bucket(d);
      FormatTime(d) == NatToString(v) + s + " ago" &&
      v * UnitSeconds(s) <= d < (v + 1) * UnitSeconds(s) &&
      (s == "s" <==> d < 60) && (s == "m" <==> 60 <= d < 3600) &&
      (s == "h" <==> 3600 <= d < 86400) && (s == "d" <==> 86400 <= d) &&
      (s != "d" ==> v < (if s == "h" then 24 else 60)) && (s != "s" ==> v >= 1)
  {
  }

  /** A notification as a dropdown row. */
  datatype TabItem = TabItem(
    id: int, kind: string, user: string, message: string, time: string,
    avatar: Option<string>, url: Option<string>, isRead: bool, recipientCount: Option<int>)

  /** transformNotification, with `now` the current time in seconds. A notification
      whose sender is null makes `notification.sender.username` throw: None. */
  function Transform(n: Notification, now: int): (r: Option<TabItem>)
    ensures r.None? <==> n.sender.None?
    ensures r.Some? ==>
      r.value.id == n.id && r.value.message == n.message && r.value.url == n.url &&
      r.value.kind == n.notificationType && r.value.isRead == n.isRead &&
      r.value.recipientCount == n.recipientCount &&
      r.value.user == n.sender.value.username && r.value.avatar == n.sender.value.profilePicture &&
      r.value.time == FormatTime(now - n.createdAt)
  {
    match n.sender
    case None => None
    case Some(s) =>
      Some(TabItem(n.id, n.notificationType, s.username, n.message, FormatTime(now - n.createdAt),
                   s.profilePicture, n.url, n.isRead, n.recipientCount))
  }

  /** `list.map(transformNotification)`: None as soon as one item throws. */
  function TransformAll(ns: seq<Notification>, now: int): (r: Option<seq<TabItem>>)
    ensures r.Some? <==> forall i :: 0 <= i < |ns| ==> ns[i].sender.Some?
    ensures r.Some? ==>
      |r.value| == |ns| &&
      forall i :: 0 <= i < |ns| ==> Transform(ns[i], now) == Some(r.value[i])
  {
    if ns == [] then Some([])
    else
      var head, tail := Transform(ns[0], now), TransformAll(ns[1..], now);
      if head.None? || tail.None? then None
      else
        assert forall i :: 1 <= i < |ns| ==> ns[i] == ns[1..][i - 1];
        Some([head.value] + tail.value)
  }

  const Bell := "🔔"
  const KnownTypes := ["like", "comment", "follow", "recipe", "share", "global", "personal", "sent"]

  /** getNotificationIcon. */
  function Icon(kind: string): (glyph: string)
    ensures kind !in KnownTypes <==> glyph == Bell
    ensures kind == "follow" || kind == "personal" ==> glyph == "👤"
  {
    match kind
    case "like" => "❤️"
    case "comment" => "💬"
    case "follow" => "👤"
    case "recipe" => "📖"
    case "share" => "🔄"
    case "global" => "🌍"
    case "personal" => "👤"
    case "sent" => "✉️"
    case _ => Bell
  }

  datatype Tabs = Tabs(global: seq<TabItem>, following: seq<TabItem>, personal: seq<TabItem>, sent: seq<TabItem>)

  /** The tab bar: each tab's label with its count; the badge shows when count > 0. */
  function TabCounts(t: Tabs): seq<(string, nat)> {
    [("Global", |t.global|), ("Following", |t.following|), ("Personal", |t.personal|), ("Sent", |t.sent|)]
  }

  const FetchError := "Failed to fetch notifications"

  /** fetchAllNotifications once its requests have settled: the global and
      following results are deduplicated, personal results are not, and the sent
      tab is the store's list (as captured when the effect ran) with the sender
      rewritten again. Any failed request, or any item with a null sender, gives the
      error instead. */
  function FetchAll(global: Outcome<seq<Notification>>, following: Outcome<seq<Notification>>,
                    personal: Outcome<seq<Notification>>, sentInStore: seq<Notification>, now: int)
    : Result
  {
    if global.Failed? || following.Failed? || personal.Failed? then Error(FetchError)
    else
      var g := TransformAll(Dedup(global.value), now);
      var f := TransformAll(Dedup(following.value), now);
      var p := TransformAll(personal.value, now);
      var s := TransformAll(AsSentByYou(sentInStore), now);
      if g.Some? && f.Some? && p.Some? && s.Some? then Loaded(Tabs(g.value, f.value, p.value, s.value))
      else Error(FetchError)
  }

  datatype Result = Loaded(tabs: Tabs) | Error(message: string)

  /** When the fetch succeeds, each tab's count is the size of its deduplicated (or,
      for Personal and Sent, unfiltered) list, so Global and Following never count
      more than the server sent, and the Sent tab always renders as "You". */
  lemma FetchAllCounts(global: Outcome<seq<Notification>>, following: Outcome<seq<Notification>>,
                       personal: Outcome<seq<Notification>>, sentInStore: seq<Notification>, now: int)
    requires FetchAll(global, following, personal, sentInStore, now).Loaded?
    ensures var t := FetchAll(global, following, personal, sentInStore, now).tabs;
      TabCounts(t) == [("Global", |Dedup(global.value)|), ("Following", |Dedup(following.value)|),
                       ("Personal", |personal.value|), ("Sent", |sentInStore|)] &&
      |t.global| <= |global.value| && |t.following| <= |following.value| &&
      forall i :: 0 <= i < |t.sent| ==> t.sent[i].user == "You"
  {
    var s := AsSentByYou(sentInStore);
    assert forall i :: 0 <= i < |s| ==> s[i].sender == Some(You);
  }
}
