/**
 * The client's authentication context: the signed-in user it holds, the two `localStorage`
 * entries it keeps, the sign-up flow with its error messages, and the `useAuth` guard.
 * Firebase Auth appears as the set of account uids and as the outcomes of its calls.
 */
module AuthContext {
  import opened Wrappers
  import MeRoute

  const TokenKey: string := "gym_auth_token"
  const UserKey: string := "gym_user"

  /** The message shown for a failed account creation, by Firebase error code. */
  function SignupErrorMessage(code: Option<string>): (message: string)
    ensures code == Some("auth/email-already-in-use") ==> message == "This email is already in use."
    ensures code == Some("auth/weak-password") ==> message == "Password should be at least 6 characters."
    ensures code == Some("auth/invalid-email") ==> message == "Invalid email address."
    ensures code !in {Some("auth/email-already-in-use"), Some("auth/weak-password"), Some("auth/invalid-email")} ==>
      message == "An error occurred during signup."
  {
    if code == Some("auth/email-already-in-use") then "This email is already in use."
    else if code == Some("auth/weak-password") then "Password should be at least 6 characters."
    else if code == Some("auth/invalid-email") then "Invalid email address."
    else "An error occurred during signup."
  }

  /** Every code yields a message, and the four messages are told apart. */
  lemma SignupMessagesDistinct(c1: Option<string>, c2: Option<string>)
    requires c1 in {Some("auth/email-already-in-use"), Some("auth/weak-password"), Some("auth/invalid-email")}
    requires c1 != c2
    ensures SignupErrorMessage(c1) != SignupErrorMessage(c2)
    ensures SignupErrorMessage(c1) != ""
  {
  }

  /** What `signup` resolves to. */
  datatype SignupResult = SignupResult(success: bool, error: Option<string>)

  /** How account creation ended: a new account with its uid, or an error with its code. */
  datatype Creation = Created(uid: string) | CreationFailed(code: Option<string>)

  /** How the profile request to `/api/auth/register` ended. */
  datatype Registration = Registered | Refused | RequestThrew

  /** The user the context exposes: the `/api/auth/me` view with the ID token added. */
  datatype ClientUser = ClientUser(profile: MeRoute.MeView, token: string)

  /** How the `/api/auth/me` request made on a sign-in ended. */
  datatype MeCall = MeOk(view: MeRoute.MeView) | MeRefused | MeThrew

  class AuthProvider {
    var user: Option<ClientUser>
    var isLoading: bool
    var storage: map<string, string>
    var accounts: set<string>

    constructor (storage: map<string, string>, accounts: set<string>)
      ensures user.None? && isLoading
      ensures this.storage == storage && this.accounts == accounts
    {
      user := None;
      isLoading := true;
      this.storage := storage;
      this.accounts := accounts;
    }

    /**
     * `signup(name, email, password)`. A refused profile request deletes the account just made;
     * a request that throws leaves it in place and reports a generic error.
     */
    method Signup(creation: Creation, registration: Registration) returns (result: SignupResult)
      requires creation.Created? ==> creation.uid !in accounts
      modifies this
      ensures user == old(user) && isLoading == old(isLoading) && storage == old(storage)
      ensures creation.CreationFailed? ==>
        result == SignupResult(false, Some(SignupErrorMessage(creation.code))) && accounts == old(accounts)
      ensures creation.Created? && registration.Registered? ==>
        result == SignupResult(true, None) && accounts == old(accounts) + {creation.uid}
      ensures creation.Created? && registration.Refused? ==>
        result == SignupResult(false, Some("Failed to create user profile")) && accounts == old(accounts)
      ensures creation.Created? && registration.RequestThrew? ==>
        result == SignupResult(false, Some("An error occurred during signup.")) && accounts == old(accounts) + {creation.uid}
      ensures result.success <==> creation.Created? && registration.Registered?
      ensures !result.success ==> result.error.Some? && result.error.value != ""
    {
      if creation.CreationFailed? {
        return SignupResult(false, Some(SignupErrorMessage(creation.code)));
      }
      var uid := creation.uid;
      accounts := accounts + {uid};
      match registration {
        case Registered =>
          return SignupResult(true, None);
        case Refused =>
          accounts := accounts - {uid};
          return SignupResult(false, Some("Failed to create user profile"));
        case RequestThrew =>
          return SignupResult(false, Some(SignupErrorMessage(None)));
      }
    }

    /**
     * The `onAuthStateChanged` listener. `signedIn` is the Firebase user's ID token, or `None`
     * on sign-out; `me` is how the profile request ended.
     */
    method OnAuthStateChanged(signedIn: Option<string>, me: MeCall)
      modifies this
      ensures !isLoading && accounts == old(accounts)
      ensures signedIn.None? ==>
        && user.None?
        && TokenKey !in storage && UserKey !in storage
        && storage == old(storage) - {TokenKey, UserKey}
      ensures signedIn.Some? && me.MeOk? ==>
        && user == Some(ClientUser(me.view, signedIn.value))
        && storage == old(storage)[TokenKey := signedIn.value]
      ensures signedIn.Some? && !me.MeOk? ==> user == old(user) && storage == old(storage)
    {
      match signedIn {
        case None =>
          user := None;
          storage := storage - {TokenKey, UserKey};
        case Some(token) =>
          if me.MeOk? {
            user := Some(ClientUser(me.view, token));
            storage := storage[TokenKey := token];
          }
      }
      isLoading := false;
    }
  }

  datatype Result<T> = Success(value: T) | Failure(error: string)

  /** `useAuth()`: the context when a provider is above the caller, else the thrown error. */
  function UseAuth<T>(context: Option<T>): (r: Result<T>)
    ensures context.Some? <==> r.Success?
    ensures r.Success? ==> r.value == context.value
    ensures r.Failure? ==> r.error == "useAuth must be used within an AuthProvider"
  {
    match context
    case Some(c) => Success(c)
    case None => Failure("useAuth must be used within an AuthProvider")
  }
}
