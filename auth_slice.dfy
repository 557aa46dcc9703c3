/** frontend/src/features/auth/authSlice.js: the signed-in user and the
    reducer cases of the login, register and logout thunks. The user read
    from local storage at start-up is a constructor parameter; the storage
    writes themselves are I/O. */
module AuthSlice {
  import opened Common
  import opened Thunks

  /** loginUser and registerUser share every reducer case. */
  datatype CredentialsThunk = LoginUser | RegisterUser

  class AuthState {
    var userInfo: Option<UserInfo>
    var loading: bool
    var error: Option<string>
    var success: bool

    /** A success always has a user beside it and nothing loading. */
    ghost predicate Valid()
      reads this
    {
      success ==> userInfo.Some? && !loading
    }

    constructor (stored: Option<UserInfo>)
      ensures userInfo == stored && !loading && error.None? && !success
      ensures Valid()
    {
      userInfo, loading, error, success := stored, false, None, false;
    }

    /** `clearAuthError`: clears the error and the success flag, keeps the user. */
    method ClearAuthError()
      modifies this
      ensures error.None? && !success
      ensures userInfo == old(userInfo) && loading == old(loading)
      ensures Valid()
    {
      error := None;
      success := false;
    }

    /** Login or register pending: loading, no error, no success; the user
      stays as it was. */
    method CredentialsPending(t: CredentialsThunk)
      modifies this
      ensures loading && error.None? && !success
      ensures userInfo == old(userInfo)
      ensures Valid()
    {
      loading := true;
      error := None;
      success := false;
    }

    /** Login or register fulfilled: the returned user, and success. */
    method CredentialsFulfilled(t: CredentialsThunk, payload: UserInfo)
      modifies this
      ensures !loading && userInfo == Some(payload) && success
      ensures error == old(error)
      ensures Valid()
    {
      loading := false;
      userInfo := Some(payload);
      success := true;
    }

    /** Login or register rejected: signed out, the error recorded. */
    method CredentialsRejected(t: CredentialsThunk, err: string)
      modifies this
      ensures !loading && error == Some(err) && userInfo.None? && !success
      ensures Valid()
    {
      loading := false;
      error := Some(err);
      userInfo := None;
      success := false;
    }

    /** logoutUser.fulfilled: signed out, nothing loading, no error, no success. */
    method LogoutFulfilled()
      modifies this
      ensures userInfo.None? && !loading && error.None? && !success
      ensures Valid()
    {
      userInfo := None;
      loading := false;
      error := None;
      success := false;
    }
  }
}
