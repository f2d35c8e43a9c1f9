/** services/authService.ts: the in-memory access-token cache beside the
    Firebase user, and the mapping of sign-in error codes to messages. The
    Firebase popup and sign-out calls are foreign; their outcomes are inputs. */
module Auth {
  import opened Common

  /** The Firebase `User` fields the service reads. */
  datatype User = User(uid: string, email: Option<string>, displayName: Option<string>, photoURL: Option<string>)

  /** `AuthUser`: the user plus the Drive access token of this sign-in. */
  datatype AuthUser = AuthUser(uid: string, email: Option<string>, displayName: Option<string>, photoURL: Option<string>, accessToken: Option<string>)

  /** What `signInWithPopup` resolves with: the user and, through
      `credentialFromResult`, maybe a credential carrying an access token. */
  datatype PopupResult = PopupResult(user: User, credentialToken: Option<string>)

  /** A Firebase `AuthError`: its `code` and `message`. */
  datatype AuthError = AuthError(code: string, message: string)

  const DefaultSignInMessage := "Authentication failed"
  const UnauthorizedDomainMessage := "This domain is not authorized. Please add it to Firebase Console > Authentication > Settings > Authorized domains"
  const OperationNotAllowedMessage := "Google Sign-In is not enabled. Please enable it in Firebase Console > Authentication > Sign-in method"
  const PopupBlockedMessage := "Popup was blocked by browser. Please allow popups for this site and try again."
  const PopupClosedMessage := "Sign-in cancelled. Please try again."
  const SignOutFailedPrefix := "Sign-out failed: "

  /** The message `signInWithGoogle` throws for a failed popup sign-in. */
  function SignInErrorMessage(error: AuthError): (m: string)
    ensures error.code == "auth/unauthorized-domain" ==> m == UnauthorizedDomainMessage
    ensures error.code == "auth/operation-not-allowed" ==> m == OperationNotAllowedMessage
    ensures error.code == "auth/popup-blocked" ==> m == PopupBlockedMessage
    ensures error.code == "auth/popup-closed-by-user" ==> m == PopupClosedMessage
    ensures error.code !in KnownCodes() ==> m == (if error.message != "" then error.message else DefaultSignInMessage)
  {
    if error.code == "auth/unauthorized-domain" then UnauthorizedDomainMessage
    else if error.code == "auth/operation-not-allowed" then OperationNotAllowedMessage
    else if error.code == "auth/popup-blocked" then PopupBlockedMessage
    else if error.code == "auth/popup-closed-by-user" then PopupClosedMessage
    else if error.message != "" then error.message
    else DefaultSignInMessage
  }

  function KnownCodes(): set<string> {
    {"auth/unauthorized-domain", "auth/operation-not-allowed", "auth/popup-blocked", "auth/popup-closed-by-user"}
  }

  /** A failed sign-in is never reported with an empty message, and a known
      code's fixed message wins over whatever Firebase said. */
  lemma SignInMessageNeverEmpty(error: AuthError)
    ensures SignInErrorMessage(error) != ""
    ensures error.code in KnownCodes() ==> SignInErrorMessage(error) == SignInErrorMessage(AuthError(error.code, ""))
  {
  }

  /** The Firebase `auth` object's current user and the module-level
      `cachedAccessToken`, which starts out null. */
  class Session {
    var currentUser: Option<User>
    var cachedAccessToken: Option<string>

    constructor ()
      ensures currentUser == None && cachedAccessToken == None
    {
      currentUser := None;
      cachedAccessToken := None;
    }

    /** `cacheAccessToken(token)`: overwrites the cache, null included. */
    method CacheAccessToken(token: Option<string>)
      modifies this
      ensures cachedAccessToken == token
      ensures currentUser == old(currentUser)
    {
      cachedAccessToken := token;
    }

    /** `getDriveAccessToken()`: the cached token, provided a user is signed
        in and the cache holds a non-empty string; null otherwise. */
    function GetDriveAccessToken(): (t: Option<string>)
      reads this
      ensures currentUser.None? ==> t == None
      ensures currentUser.Some? && Truthy(cachedAccessToken) ==> t == cachedAccessToken
      ensures !Truthy(cachedAccessToken) ==> t == None
      ensures t.Some? <==> currentUser.Some? && Truthy(cachedAccessToken)
    {
      if currentUser.None? then None
      else if Truthy(cachedAccessToken) then cachedAccessToken
      else None
    }

    /** `signInWithGoogle()` given the outcome of the popup. On success the
        user is signed in and the credential's token (null when missing or
        empty) is cached; on failure nothing changes and the mapped
        message is thrown. */
    method SignInWithGoogle(popup: Result<PopupResult, AuthError>) returns (r: Outcome<AuthUser>)
      modifies this
      ensures popup.Err? ==>
        && r == Err(SignInErrorMessage(popup.error))
        && currentUser == old(currentUser) && cachedAccessToken == old(cachedAccessToken)
      ensures popup.Ok? ==>
        var token := if Truthy(popup.value.credentialToken) then popup.value.credentialToken else None;
        var user := popup.value.user;
        && currentUser == Some(user)
        && cachedAccessToken == token
        && r == Ok(AuthUser(user.uid, user.email, user.displayName, user.photoURL, token))
        && GetDriveAccessToken() == token
    {
      if popup.Err? {
        return Err(SignInErrorMessage(popup.error));
      }
      currentUser := Some(popup.value.user);
      var accessToken := if Truthy(popup.value.credentialToken) then popup.value.credentialToken else None;
      CacheAccessToken(accessToken);
      var user := popup.value.user;
      r := Ok(AuthUser(user.uid, user.email, user.displayName, user.photoURL, accessToken));
    }

    /** `signOut()` given the outcome of Firebase's sign-out, which either
        resolves or rejects with a message. The cache is cleared only after a
        successful sign-out. */
    method SignOut(firebase: Outcome<()>) returns (r: Outcome<()>)
      modifies this
      ensures firebase.Ok? ==>
        && r == Ok(()) && currentUser == None && cachedAccessToken == None
        && GetDriveAccessToken() == None
      ensures firebase.Err? ==>
        && r == Err(SignOutFailedPrefix + firebase.error)
        && currentUser == old(currentUser) && cachedAccessToken == old(cachedAccessToken)
    {
      if firebase.Err? {
        return Err(SignOutFailedPrefix + firebase.error);
      }
      currentUser := None;
      CacheAccessToken(None);
      r := Ok(());
    }
  }
}
