/** The toast queue (client/src/stores/toastStore.js). Ids come from the clock and
    a random number in the source; here the caller supplies the fresh id. */
module Toasts {
  import opened Common
  import Seqs

  datatype Toast = Toast(id: int, message: string, kind: string, duration: int)

  const DefaultKind := "success"
  const DefaultDuration := 3000

  /** `toasts.filter(t => t.id !== id)`. */
  function WithoutId(ts: seq<Toast>, id: int): seq<Toast> {
    Seqs.Filter(ts, (t: Toast) => t.id != id)
  }

  /** Removal drops every toast with the id and keeps every other toast, in order:
      it distributes over concatenation and leaves a list without the id as is. */
  lemma RemovalSpec(a: seq<Toast>, b: seq<Toast>, id: int)
    ensures forall i :: 0 <= i < |WithoutId(a, id)| ==> WithoutId(a, id)[i].id != id
    ensures forall i :: 0 <= i < |a| && a[i].id != id ==> a[i] in WithoutId(a, id)
    ensures WithoutId(a + b, id) == WithoutId(a, id) + WithoutId(b, id)
    ensures Seqs.IsSubsequence(WithoutId(a, id), a)
  {
    Seqs.FilterAppend(a, b, (t: Toast) => t.id != id);
    Seqs.FilterSubsequence(a, (t: Toast) => t.id != id);
  }

  /** Removing an id that no toast carries leaves the queue unchanged. */
  lemma RemoveAbsent(ts: seq<Toast>, id: int)
    requires forall i :: 0 <= i < |ts| ==> ts[i].id != id
    ensures WithoutId(ts, id) == ts
  {
    Seqs.FilterAll(ts, (t: Toast) => t.id != id);
  }

  /** Adding a toast and removing it by its id restores the queue, provided the id
      was fresh. */
  lemma AddThenRemove(ts: seq<Toast>, t: Toast)
    requires forall i :: 0 <= i < |ts| ==> ts[i].id != t.id
    ensures WithoutId(ts + [t], t.id) == ts
  {
    RemovalSpec(ts, [t], t.id);
    RemoveAbsent(ts, t.id);
  }

  class ToastStore {
    var toasts: seq<Toast>

    /** The queue starts empty. */
    constructor ()
      ensures toasts == []
    {
      toasts := [];
    }

    /** `addToast(message, type = "success", duration = 3000)`: appends exactly one
        toast at the end, returns its id, and leaves the earlier toasts as they were.
        An absent kind or duration takes the default. */
    method AddToast(message: string, kind: Option<string>, duration: Option<int>, freshId: int)
      returns (id: int)
      modifies this
      ensures id == freshId
      ensures |toasts| == |old(toasts)| + 1 && toasts[..|old(toasts)|] == old(toasts)
      ensures toasts[|toasts| - 1] == Toast(freshId, message,
                                            if kind.Some? then kind.value else DefaultKind,
                                            if duration.Some? then duration.value else DefaultDuration)
    {
      var t := Toast(freshId, message,
                     if kind.Some? then kind.value else DefaultKind,
                     if duration.Some? then duration.value else DefaultDuration);
      toasts := toasts + [t];
      id := freshId;
    }

    /** `removeToast(id)`: every toast with that id goes, the rest stay in order. */
    method RemoveToast(id: int)
      modifies this
      ensures toasts == WithoutId(old(toasts), id)
    {
      toasts := WithoutId(toasts, id);
    }

    /** `clearAllToasts()`. */
    method ClearAllToasts()
      modifies this
      ensures toasts == []
    {
      toasts := [];
    }

    /** `showSuccess(message, duration)`: a toast of kind "success". */
    method ShowSuccess(message: string, duration: Option<int>, freshId: int) returns (id: int)
      modifies this
      ensures id == freshId
      ensures toasts == old(toasts) + [Toast(freshId, message, "success",
                                             if duration.Some? then duration.value else DefaultDuration)]
    {
      id := AddToast(message, Some("success"), duration, freshId);
    }

    /** `showError(message, duration)`: a toast of kind "error". */
    method ShowError(message: string, duration: Option<int>, freshId: int) returns (id: int)
      modifies this
      ensures id == freshId
      ensures toasts == old(toasts) + [Toast(freshId, message, "error",
                                             if duration.Some? then duration.value else DefaultDuration)]
    {
      id := AddToast(message, Some("error"), duration, freshId);
    }

    /** `showWarning(message, duration)`: a toast of kind "warning". */
    method ShowWarning(message: string, duration: Option<int>, freshId: int) returns (id: int)
      modifies this
      ensures id == freshId
      ensures toasts == old(toasts) + [Toast(freshId, message, "warning",
                                             if duration.Some? then duration.value else DefaultDuration)]
    {
      id := AddToast(message, Some("warning"), duration, freshId);
    }

    /** `showInfo(message, duration)`: a toast of kind "info". */
    method ShowInfo(message: string, duration: Option<int>, freshId: int) returns (id: int)
      modifies this
      ensures id == freshId
      ensures toasts == old(toasts) + [Toast(freshId, message, "info",
                                             if duration.Some? then duration.value else DefaultDuration)]
    {
      id := AddToast(message, Some("info"), duration, freshId);
    }
  }
}
