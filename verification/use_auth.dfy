/**
 * The authentication provider: the remote auth client is an oracle whose replies are
 * parameters, `localStorage` is a map from key to text, and every call made to the remote
 * client is appended to a log. The provider keeps two flags in storage to end a session
 * that was not "remembered" 24 hours after it began.
 */
module UseAuth {
  import opened Wrappers
  import opened JsText
  import opened JsNumber

  const TemporaryKey := "temporary_session"
  const LoginTimeKey := "login_time"
  /** 24 * 60 * 60 * 1000 milliseconds. */
  const OneDay := 86400000
  const ProductionUrl := "https://finanza-fluxo.lovable.app"
  const UpdatePasswordPath := "/update-password"
  const ResetFailedText := "Erro ao enviar email de recuperação"
  const ServerUnreachableText := "Erro ao conectar com o servidor"

  type Storage = map<string, string>

  /** The auth-state events the listener distinguishes; every other event is `OtherEvent`. */
  datatype AuthEvent = SignedIn | TokenRefreshed | SignedOut | OtherEvent

  /** A call made to the remote auth client, with the arguments it was given. */
  datatype AuthCall =
    | SignUpCall(email: string, password: string, fullName: Option<string>, emailRedirect: string)
    | SignInCall(email: string, password: string)
    | SignOutCall
    | ResetCall(email: string, redirectUrl: string)

  /** The reply of the password-reset endpoint: no reply at all, or a status and its `error` text. */
  datatype ResetResponse = Unreachable | Replied(ok: bool, error: string)

  /** The storage with both session flags removed. */
  function Cleared(st: Storage): (r: Storage)
    ensures TemporaryKey !in r && LoginTimeKey !in r
    ensures forall k :: k in r ==> k in st && r[k] == st[k]
    ensures forall k :: k in st && k != TemporaryKey && k != LoginTimeKey ==> k in r
  {
    st - {TemporaryKey, LoginTimeKey}
  }

  /**
   * The storage `signIn` leaves: both flags are cleared before trying, and a successful
   * sign-in without "remember me" marks the session temporary, starting at `now`.
   */
  function AfterSignIn(st: Storage, succeeded: bool, rememberMe: bool, now: nat): (r: Storage)
    ensures TemporaryKey in r <==> succeeded && !rememberMe
    ensures LoginTimeKey in r <==> succeeded && !rememberMe
    ensures TemporaryKey in r ==> r[TemporaryKey] == "true" && r[LoginTimeKey] == NatToString(now)
    ensures forall k :: k != TemporaryKey && k != LoginTimeKey ==> (k in r <==> k in st)
    ensures forall k :: k in r && k != TemporaryKey && k != LoginTimeKey ==> r[k] == st[k]
  {
    var cleared := Cleared(st);
    if succeeded && !rememberMe then cleared[TemporaryKey := "true"][LoginTimeKey := NatToString(now)]
    else cleared
  }

  /**
   * Whether the listener ends the session on SIGNED_IN or TOKEN_REFRESHED: the session is
   * temporary, a login time is stored, and more than a day has passed since it. A login time
   * that does not parse gives NaN, and NaN is never greater than a day.
   */
  function Expired(st: Storage, now: int): (expired: bool)
    ensures expired ==> TemporaryKey in st && st[TemporaryKey] == "true"
    ensures expired ==> LoginTimeKey in st && ParseInt(st[LoginTimeKey]).Finite?
  {
    && TemporaryKey in st && st[TemporaryKey] == "true"
    && LoginTimeKey in st && st[LoginTimeKey] != ""
    && match ParseInt(st[LoginTimeKey])
       case NaN => false
       case Finite(t) => (now as real) - t > OneDay as real
  }

  /**
   * A session begun by a successful sign-in without "remember me" at `signedInAt` is ended
   * at `now` exactly when strictly more than a day has passed; a remembered or failed
   * sign-in leaves nothing that could expire.
   */
  lemma SignInExpiry(st: Storage, succeeded: bool, rememberMe: bool, signedInAt: nat, now: int)
    ensures Expired(AfterSignIn(st, succeeded, rememberMe, signedInAt), now)
        <==> succeeded && !rememberMe && now - signedInAt > OneDay
  {
    var r := AfterSignIn(st, succeeded, rememberMe, signedInAt);
    if succeeded && !rememberMe {
      var text := NatToString(signedInAt);
      NatToStringValue(signedInAt);
      ParseIntDigits(text);
      assert ParseInt(r[LoginTimeKey]) == Finite(signedInAt as real);
    }
  }

  /** The `redirectUrl` sent with a reset request: production on localhost, else the origin. */
  function ResetRedirect(hostname: string, origin: string): (url: string)
    ensures |url| >= |UpdatePasswordPath| && url[|url| - |UpdatePasswordPath|..] == UpdatePasswordPath
    ensures url[..|url| - |UpdatePasswordPath|] == if hostname == "localhost" then ProductionUrl else origin
  {
    var base := if hostname == "localhost" then ProductionUrl else origin;
    base + UpdatePasswordPath
  }

  /**
   * The error `resetPassword` reports: none exactly when the endpoint replied with success,
   * its own error text (or a default when that is empty) on a failed reply, and a fixed text
   * when the endpoint could not be reached. Every reported error has a message.
   */
  function ResetError(response: ResetResponse): (error: Option<string>)
    ensures error.None? <==> response.Replied? && response.ok
    ensures error.Some? ==> error.value != ""
    ensures response.Replied? && !response.ok && response.error != "" ==> error == Some(response.error)
  {
    match response
    case Unreachable => Some(ServerUnreachableText)
    case Replied(ok, e) =>
      if ok then None else if e != "" then Some(e) else Some(ResetFailedText)
  }

  /** The provider's state: storage, whether a session is held, `loading`, and the calls made. */
  class AuthProvider {
    var storage: Storage
    var hasSession: bool
    var loading: bool
    var calls: seq<AuthCall>

    constructor (storage0: Storage)
      ensures storage == storage0 && !hasSession && loading && calls == []
    {
      storage := storage0;
      hasSession := false;
      loading := true;
      calls := [];
    }

    /**
     * The auth-state listener: it records the session, then on SIGNED_IN or TOKEN_REFRESHED
     * signs an expired temporary session out, and on SIGNED_OUT removes both flags.
     */
    method OnAuthStateChange(event: AuthEvent, session: bool, now: int)
      modifies this
      ensures hasSession == session && !loading
      ensures event == SignedIn || event == TokenRefreshed ==>
        storage == old(storage) && calls == old(calls) + (if Expired(old(storage), now) then [SignOutCall] else [])
      ensures event == SignedOut ==> storage == Cleared(old(storage)) && calls == old(calls)
      ensures event == OtherEvent ==> storage == old(storage) && calls == old(calls)
    {
      hasSession := session;
      loading := false;
      if event == SignedIn || event == TokenRefreshed {
        if TemporaryKey in storage && storage[TemporaryKey] == "true" {
          if LoginTimeKey in storage && storage[LoginTimeKey] != "" {
            var loginTime := ParseInt(storage[LoginTimeKey]);
            if loginTime.Finite? && (now as real) - loginTime.v > OneDay as real {
              calls := calls + [SignOutCall];
              return;
            }
          }
        }
      }
      if event == SignedOut {
        storage := storage - {TemporaryKey};
        storage := storage - {LoginTimeKey};
      }
    }

    /** The initial `getSession` check on mount. */
    method OnInitialSession(session: bool)
      modifies this
      ensures hasSession == session && !loading
      ensures storage == old(storage) && calls == old(calls)
    {
      hasSession := session;
      loading := false;
    }

    /** `signUp`: the e-mail is trimmed and confirmation links lead to the origin's root. */
    method SignUp(email: string, password: string, fullName: Option<string>, origin: string, reply: Option<string>)
      returns (error: Option<string>)
      modifies this
      ensures calls == old(calls) + [SignUpCall(Trim(email), password, fullName, origin + "/")]
      ensures error == reply
      ensures storage == old(storage) && hasSession == old(hasSession) && loading == old(loading)
    {
      calls := calls + [SignUpCall(Trim(email), password, fullName, origin + "/")];
      error := reply;
    }

    /**
     * `signIn`: clears both flags, signs in with the trimmed e-mail, and on success without
     * "remember me" marks the session temporary from `now`.
     */
    method SignIn(email: string, password: string, rememberMe: bool, reply: Option<string>, now: nat)
      returns (error: Option<string>)
      modifies this
      ensures storage == AfterSignIn(old(storage), reply.None?, rememberMe, now)
      ensures calls == old(calls) + [SignInCall(Trim(email), password)]
      ensures error == reply
      ensures hasSession == old(hasSession) && loading == old(loading)
    {
      storage := Cleared(storage);
      calls := calls + [SignInCall(Trim(email), password)];
      error := reply;
      if error.None? {
        if !rememberMe {
          storage := storage[TemporaryKey := "true"];
          storage := storage[LoginTimeKey := NatToString(now)];
        }
      }
    }

    /** `signOut`: both flags are removed before the remote sign-out. */
    method SignOut()
      modifies this
      ensures storage == Cleared(old(storage))
      ensures calls == old(calls) + [SignOutCall]
      ensures hasSession == old(hasSession) && loading == old(loading)
    {
      storage := storage - {TemporaryKey};
      storage := storage - {LoginTimeKey};
      calls := calls + [SignOutCall];
    }

    /** `resetPassword`: posts the trimmed e-mail and the redirect URL, and reports the reply. */
    method ResetPassword(email: string, hostname: string, origin: string, response: ResetResponse)
      returns (error: Option<string>)
      modifies this
      ensures calls == old(calls) + [ResetCall(Trim(email), ResetRedirect(hostname, origin))]
      ensures error == ResetError(response)
      ensures storage == old(storage) && hasSession == old(hasSession) && loading == old(loading)
    {
      var productionUrl := ProductionUrl;
      var redirectUrl := if hostname == "localhost" then productionUrl else origin;
      calls := calls + [ResetCall(Trim(email), redirectUrl + UpdatePasswordPath)];
      match response {
        case Unreachable =>
          error := Some(ServerUnreachableText);
        case Replied(ok, e) =>
          if !ok {
            error := Some(if e != "" then e else ResetFailedText);
          } else {
            error := None;
          }
      }
    }
  }
}
