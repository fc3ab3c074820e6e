/** The persisted token store (client/src/stores/authStore.js). */
module Auth {
  import opened Common

  /** What the persistence layer writes: only the two tokens. */
  datatype Snapshot = Snapshot(accessToken: Option<string>, refreshToken: Option<string>)

  class AuthStore {
    var accessToken: Option<string>
    var refreshToken: Option<string>

    /** A fresh store holds no tokens. */
    constructor ()
      ensures accessToken == None && refreshToken == None
    {
      accessToken, refreshToken := None, None;
    }

    /** A store rebuilt from a persisted snapshot. */
    constructor Rehydrate(s: Snapshot)
      ensures Persist() == s
    {
      accessToken, refreshToken := s.accessToken, s.refreshToken;
    }

    /** `setTokens({access, refresh})`: both tokens take exactly the given pair. */
    method SetTokens(access: Option<string>, refresh: Option<string>)
      modifies this
      ensures accessToken == access && refreshToken == refresh
    {
      accessToken, refreshToken := access, refresh;
    }

    /** `clearTokens()`: both tokens become null. */
    method ClearTokens()
      modifies this
      ensures accessToken == None && refreshToken == None
    {
      accessToken, refreshToken := None, None;
    }

    /** The persisted part of the state: exactly the two tokens, so rehydrating
        the snapshot gives back a store with the same tokens. */
    function Persist(): (s: Snapshot)
      reads this
    {
      Snapshot(accessToken, refreshToken)
    }
  }
}
