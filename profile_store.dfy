/** The persisted profile store (client/src/stores/profileStore.js). A fetch is two
    steps: the synchronous part up to the request, and the completion when the
    request settles. Several fetches may be outstanding; each completion applies
    its own outcome. */
module Profile {
  import opened Common
  import opened Http
  import opened FormData
  import Auth
  import Seqs

  /** The profile body returned by the server, as far as the store is concerned. */
  datatype User = User(id: int, username: string)

  const NoTokenMessage := "No access token found."
  const NoUserMessage := "User not found. Please log in again."
  const ExpiredMessage := "Session expired or unauthorized. Please log in again."
  const DefaultFetchMessage := "Failed to fetch profile."

  /** The error text a failed fetch leaves in the store: the session-expired text for
      401 and 403; otherwise the response's `detail` when it has one; a response
      without detail keeps the default; without a response, `error.message` when
      non-empty, else the default. It is never empty, so the UI always shows it. */
  function FetchErrorMessage(e: HttpError): (msg: string)
    ensures msg != ""
    ensures HasStatus(e, 401) || HasStatus(e, 403) ==> msg == ExpiredMessage
    ensures e.response.Some? && !HasStatus(e, 401) && !HasStatus(e, 403) ==>
              msg == (if Present(e.response.value.detail) then e.response.value.detail.value else DefaultFetchMessage)
    ensures e.response.None? ==> msg == (if e.message != "" then e.message else DefaultFetchMessage)
  {
    match e.response
    case Some(r) =>
      if r.status == 401 || r.status == 403 then ExpiredMessage
      else if Present(r.detail) then r.detail.value
      else DefaultFetchMessage
    case None =>
      if e.message != "" then e.message else DefaultFetchMessage
  }

  /** `value !== null && value !== undefined && value !== ''`. */
  predicate Sendable(v: Value) {
    v != Null && v != Undefined && v != Text("")
  }

  /** The PATCH body of updateProfile: the entries whose value is sendable, in order. */
  function UpdateBody(form: Entries): Entries {
    Seqs.Filter(form, (e: (string, Value)) => Sendable(e.1))
  }

  /** The body holds exactly the sendable entries of the form, in their order. */
  lemma UpdateBodySpec(form: Entries)
    ensures forall i :: 0 <= i < |UpdateBody(form)| ==> UpdateBody(form)[i] in form && Sendable(UpdateBody(form)[i].1)
    ensures forall i :: 0 <= i < |form| && Sendable(form[i].1) ==> form[i] in UpdateBody(form)
    ensures Seqs.IsSubsequence(UpdateBody(form), form)
  {
    Seqs.FilterSubsequence(form, (e: (string, Value)) => Sendable(e.1));
  }

  /** What the persistence layer writes: only the user. */
  datatype Snapshot = Snapshot(user: Option<User>)

  class ProfileStore {
    var user: Option<User>
    var loading: bool
    var error: Option<string>
    /** The PATCH bodies sent so far, oldest first. */
    var sentUpdates: seq<Entries>
    /** Number of profile requests issued and not yet settled. */
    ghost var pending: nat

    /** The initial state. */
    constructor ()
      ensures user == None && !loading && error == None && sentUpdates == [] && pending == 0
    {
      user, loading, error, sentUpdates := None, false, None, [];
      pending := 0;
    }

    /** A store rebuilt from a snapshot: the user comes back, the rest starts fresh. */
    constructor Rehydrate(s: Snapshot)
      ensures Persist() == s && !loading && error == None && sentUpdates == [] && pending == 0
    {
      user, loading, error, sentUpdates := s.user, false, None, [];
      pending := 0;
    }

    /** The persisted part of the state: only the user. */
    function Persist(): Snapshot
      reads this
    {
      Snapshot(user)
    }

    /** The synchronous part of fetchProfile. Without a usable token it records the
        no-token error and issues no request; otherwise loading is set, the error
        cleared and one request issued. */
    method BeginFetch(auth: Auth.AuthStore) returns (requested: bool)
      modifies this
      ensures requested == Present(auth.accessToken)
      ensures !requested ==> user == old(user) && !loading && error == Some(NoTokenMessage) && pending == old(pending)
      ensures requested ==> user == old(user) && loading && error == None && pending == old(pending) + 1
      ensures sentUpdates == old(sentUpdates)
    {
      if !Present(auth.accessToken) {
        error, loading := Some(NoTokenMessage), false;
        requested := false;
        return;
      }
      loading, error := true, None;
      pending := pending + 1;
      requested := true;
    }

    /** A profile request settles. Success installs the body as the user. A 401 or
        403 clears both tokens and the user. Every failure records
        FetchErrorMessage; loading ends false either way. */
    method FinishFetch(auth: Auth.AuthStore, outcome: Outcome<User>)
      requires pending > 0
      modifies this, auth
      ensures pending == old(pending) - 1 && !loading && sentUpdates == old(sentUpdates)
      ensures outcome.Done? ==> user == Some(outcome.value) && error == old(error) && unchanged(auth)
      ensures outcome.Failed? ==> error == Some(FetchErrorMessage(outcome.error))
      ensures outcome.Failed? && (HasStatus(outcome.error, 401) || HasStatus(outcome.error, 403)) ==>
                user == None && auth.accessToken == None && auth.refreshToken == None
      ensures outcome.Failed? && !HasStatus(outcome.error, 401) && !HasStatus(outcome.error, 403) ==>
                user == old(user) && unchanged(auth)
    {
      pending := pending - 1;
      match outcome
      case Done(u) =>
        user, loading := Some(u), false;
      case Failed(e) =>
        if HasStatus(e, 401) || HasStatus(e, 403) {
          auth.SetTokens(None, None);
          user := None;
        }
        error, loading := Some(FetchErrorMessage(e)), false;
    }

    /** updateProfile. Without a token, or without a user, only the matching error is
        recorded and nothing is sent. Otherwise the body UpdateBody(form) is sent;
        when the PATCH succeeds the profile is fetched again (with refetch as that
        request's outcome); a failed PATCH only alerts and leaves the store alone. */
    method UpdateProfile(auth: Auth.AuthStore, form: Entries, patchSucceeded: bool, refetch: Outcome<User>)
      returns (body: Option<Entries>)
      modifies this, auth
      ensures !Present(old(auth.accessToken)) ==>
                body == None && error == Some(NoTokenMessage) && unchanged(auth) &&
                user == old(user) && loading == old(loading) && sentUpdates == old(sentUpdates)
      ensures Present(old(auth.accessToken)) && old(user).None? ==>
                body == None && error == Some(NoUserMessage) && unchanged(auth) &&
                user == old(user) && loading == old(loading) && sentUpdates == old(sentUpdates)
      ensures Present(old(auth.accessToken)) && old(user).Some? ==>
                body == Some(UpdateBody(form)) && sentUpdates == old(sentUpdates) + [UpdateBody(form)]
      ensures Present(old(auth.accessToken)) && old(user).Some? && !patchSucceeded ==>
                user == old(user) && error == old(error) && loading == old(loading) && unchanged(auth)
      ensures Present(old(auth.accessToken)) && old(user).Some? && patchSucceeded ==> !loading
      ensures Present(old(auth.accessToken)) && old(user).Some? && patchSucceeded && refetch.Done? ==>
                user == Some(refetch.value) && error == None && unchanged(auth)
      ensures Present(old(auth.accessToken)) && old(user).Some? && patchSucceeded && refetch.Failed? ==>
                error == Some(FetchErrorMessage(refetch.error))
      ensures Present(old(auth.accessToken)) && old(user).Some? && patchSucceeded && refetch.Failed? &&
              (HasStatus(refetch.error, 401) || HasStatus(refetch.error, 403)) ==>
                user == None && auth.accessToken == None && auth.refreshToken == None
      ensures Present(old(auth.accessToken)) && old(user).Some? && patchSucceeded && refetch.Failed? &&
              !HasStatus(refetch.error, 401) && !HasStatus(refetch.error, 403) ==>
                user == old(user) && unchanged(auth)
      ensures pending == old(pending)
    {
      if !Present(auth.accessToken) {
        error := Some(NoTokenMessage);
        return None;
      }
      if user.None? {
        error := Some(NoUserMessage);
        return None;
      }
      var data := UpdateBody(form);
      sentUpdates := sentUpdates + [data];
      body := Some(data);
      if patchSucceeded {
        var requested := BeginFetch(auth);
        FinishFetch(auth, refetch);
      }
    }

    /** clearProfile(): user and error become null. */
    method ClearProfile()
      modifies this
      ensures user == None && error == None && loading == old(loading) && sentUpdates == old(sentUpdates)
    {
      user, error := None, None;
    }
  }
}
