/**
 * The session provider: the signed-in user, the last error message, and the
 * browser's key/value storage where the token and the serialised user live.
 * `JSON.stringify` and `JSON.parse` of a user are the parameters `encode` and
 * `decode`; `decode` gives None when parsing fails.
 */
module Auth {
  import opened Types
  import Text

  const TokenKey := "token"
  const UserKey := "user"

  /** The body of a login: `{ email, password }`. */
  datatype Credentials = Credentials(email: string, password: string)

  /** The decoded reply of login and verify: `token` and `user` on success, `error` otherwise. */
  datatype AuthReply = AuthReply(token: string, user: User, error: Option<string>)

  /** The decoded reply of resend: only `error` is read. */
  datatype ErrorReply = ErrorReply(error: Option<string>)

  /** The decoded reply of register: its `errors` array when present. */
  datatype RegisterReply = RegisterReply(errors: Option<seq<string>>)

  /** The sign-up form as the modal passes it to register. */
  datatype RegisterForm = RegisterForm(
    email: string, password: string, confirmPassword: string, firstName: string, lastName: string)

  /** The `user` object of the register request, under its wire names
      first_name, last_name, email, password and password_confirmation. */
  datatype RegistrationUser = RegistrationUser(
    firstName: string, lastName: string, email: string, password: string, passwordConfirmation: string)

  /** The register request body: `{ user: { ... } }`. */
  datatype RegistrationPayload = RegistrationPayload(user: RegistrationUser)

  /** The register request body built from the form. */
  function PayloadOf(form: RegisterForm): (p: RegistrationPayload)
    ensures p.user.passwordConfirmation == form.confirmPassword
    ensures p.user.password == form.password && p.user.email == form.email
    ensures p.user.firstName == form.firstName && p.user.lastName == form.lastName
  {
    RegistrationPayload(RegistrationUser(
      form.firstName, form.lastName, form.email, form.password, form.confirmPassword))
  }

  /** No field of the form is lost: distinct forms give distinct payloads. */
  lemma PayloadOfInjective(f: RegisterForm, g: RegisterForm)
    requires PayloadOf(f) == PayloadOf(g)
    ensures f == g
  {
  }

  /** `err.message` as the catch blocks store it: an `Error`'s message, nothing otherwise. */
  function MessageOf(t: Thrown): Option<string>
  {
    match t
    case Error(m) => Some(m)
    case NonError => None
  }

  /** What login or verify rethrows when it does not succeed: the transport's own throw, or
      `new Error(result.error || fallback)` for an error status. */
  function AuthFailure(reply: Outcome<AuthReply>, fallback: string): Thrown
  {
    match reply
    case Threw(t) => t
    case Resolved(_, r) => Error(OrElse(r.error, fallback))
  }

  /** What resend rethrows when it does not succeed. */
  function ResendFailure(reply: Outcome<ErrorReply>): Thrown
  {
    match reply
    case Threw(t) => t
    case Resolved(_, r) => Error(OrElse(r.error, "Resend failed"))
  }

  /** The message register throws for an error status: the `errors` joined with ", ",
      or "Registration failed" when there is no `errors` array. */
  function RegisterFailureMessage(errors: Option<seq<string>>): (m: string)
    ensures errors.None? ==> m == "Registration failed"
    ensures errors.Some? && |errors.value| == 1 ==> m == errors.value[0]
    ensures errors.Some? ==> m == Text.Join(errors.value, ", ")
    ensures errors == Some([]) ==> m == ""
    ensures errors.Some? && |errors.value| >= 1 ==>
      |m| == Text.TotalLength(errors.value) + (|errors.value| - 1) * 2
  {
    match errors
    case None => "Registration failed"
    case Some(es) =>
      if es == [] then Text.Join(es, ", ")  // an empty array is truthy: the message is ""
      else
        Text.JoinLength(es, ", ");
        Text.Join(es, ", ")
  }

  /** A stored value counts only when present and non-empty (`localStorage.getItem(k)` is truthy). */
  predicate Truthy(storage: map<string, string>, key: string)
  {
    key in storage && storage[key] != ""
  }

  class Session {
    var user: Option<User>
    var error: Option<string>
    var loading: bool
    var storage: map<string, string>

    constructor (storage: map<string, string>)
      ensures user.None? && error.None? && loading && this.storage == storage
    {
      user := None;
      error := None;
      loading := true;
      this.storage := storage;
    }

    /** The mount effect: restore the user when both the user and the token are stored;
        when the stored user does not parse, forget both keys. */
    method Restore(decode: string -> Option<User>)
      modifies this
      ensures error == old(error) && !loading
      ensures Truthy(old(storage), UserKey) && Truthy(old(storage), TokenKey) &&
              decode(old(storage)[UserKey]).Some? ==>
        user == decode(old(storage)[UserKey]) && storage == old(storage)
      ensures Truthy(old(storage), UserKey) && Truthy(old(storage), TokenKey) &&
              decode(old(storage)[UserKey]).None? ==>
        user == old(user) && storage == old(storage) - {UserKey, TokenKey}
      ensures !(Truthy(old(storage), UserKey) && Truthy(old(storage), TokenKey)) ==>
        user == old(user) && storage == old(storage)
    {
      if Truthy(storage, UserKey) && Truthy(storage, TokenKey) {
        var parsed := decode(storage[UserKey]);
        match parsed {
          case Some(u) => user := Some(u);
          case None =>
            storage := storage - {UserKey};
            storage := storage - {TokenKey};
        }
      }
      loading := false;
    }

    /** Shared by login and verify: on an ok reply store the token and the user and sign in;
        otherwise record the message and rethrow. */
    method SignIn(reply: Outcome<AuthReply>, fallback: string, encode: User -> string)
      returns (thrown: Option<Thrown>)
      modifies this
      ensures loading == old(loading)
      ensures thrown.None? <==> reply.Resolved? && reply.ok
      ensures thrown.None? ==>
        user == Some(reply.body.user) && error.None? &&
        storage == old(storage)[TokenKey := reply.body.token][UserKey := encode(reply.body.user)]
      ensures thrown.Some? ==>
        thrown.value == AuthFailure(reply, fallback) && error == MessageOf(thrown.value) &&
        user == old(user) && storage == old(storage)
    {
      error := None;
      match reply {
        case Threw(t) =>
          error := MessageOf(t);
          thrown := Some(t);
        case Resolved(ok, r) =>
          if !ok {
            var failure := Error(OrElse(r.error, fallback));
            error := MessageOf(failure);
            thrown := Some(failure);
          } else {
            storage := storage[TokenKey := r.token];
            storage := storage[UserKey := encode(r.user)];
            user := Some(r.user);
            thrown := None;
          }
      }
    }

    /** POST /auth/login. */
    method Login(credentials: Credentials, reply: Outcome<AuthReply>, encode: User -> string)
      returns (thrown: Option<Thrown>)
      modifies this
      ensures loading == old(loading)
      ensures thrown.None? <==> reply.Resolved? && reply.ok
      ensures thrown.None? ==>
        user == Some(reply.body.user) && error.None? &&
        storage == old(storage)[TokenKey := reply.body.token][UserKey := encode(reply.body.user)]
      ensures thrown.Some? ==>
        thrown.value == AuthFailure(reply, "Login failed") && error == MessageOf(thrown.value) &&
        user == old(user) && storage == old(storage)
    {
      thrown := SignIn(reply, "Login failed", encode);
    }

    /** POST /auth/verify: a verified code signs the user in exactly as a login does. */
    method VerifyOtp(email: string, otp: string, reply: Outcome<AuthReply>, encode: User -> string)
      returns (thrown: Option<Thrown>)
      modifies this
      ensures loading == old(loading)
      ensures thrown.None? <==> reply.Resolved? && reply.ok
      ensures thrown.None? ==>
        user == Some(reply.body.user) && error.None? &&
        storage == old(storage)[TokenKey := reply.body.token][UserKey := encode(reply.body.user)]
      ensures thrown.Some? ==>
        thrown.value == AuthFailure(reply, "Verification failed") && error == MessageOf(thrown.value) &&
        user == old(user) && storage == old(storage)
    {
      thrown := SignIn(reply, "Verification failed", encode);
    }

    /** POST /auth/register with the wrapped payload. A success returns the reply and does
        not sign in (the account still awaits its emailed code). */
    method Register(form: RegisterForm, reply: Outcome<RegisterReply>)
      returns (payload: RegistrationPayload, thrown: Option<Thrown>, result: Option<RegisterReply>)
      modifies this
      ensures payload == PayloadOf(form)
      ensures user == old(user) && storage == old(storage) && loading == old(loading)
      ensures thrown.None? <==> reply.Resolved? && reply.ok
      ensures thrown.None? ==> result == Some(reply.body) && error.None?
      ensures reply.Threw? ==> thrown == Some(reply.cause)
      ensures reply.Resolved? && !reply.ok ==>
        thrown == Some(Error(RegisterFailureMessage(reply.body.errors)))
      ensures thrown.Some? ==> result.None? && error == MessageOf(thrown.value)
    {
      error := None;
      payload := PayloadOf(form);
      result := None;
      match reply {
        case Threw(t) =>
          error := MessageOf(t);
          thrown := Some(t);
        case Resolved(ok, r) =>
          if !ok {
            var failure := Error(RegisterFailureMessage(r.errors));
            error := MessageOf(failure);
            thrown := Some(failure);
          } else {
            thrown := None;
            result := Some(r);
          }
      }
    }

    /** POST /auth/resend: never touches the user or the storage. */
    method ResendOtp(email: string, reply: Outcome<ErrorReply>) returns (thrown: Option<Thrown>)
      modifies this
      ensures user == old(user) && storage == old(storage) && loading == old(loading)
      ensures thrown.None? <==> reply.Resolved? && reply.ok
      ensures thrown.None? ==> error.None?
      ensures thrown.Some? ==> thrown.value == ResendFailure(reply) && error == MessageOf(thrown.value)
    {
      error := None;
      match reply {
        case Threw(t) =>
          error := MessageOf(t);
          thrown := Some(t);
        case Resolved(ok, r) =>
          if !ok {
            var failure := Error(OrElse(r.error, "Resend failed"));
            error := MessageOf(failure);
            thrown := Some(failure);
          } else {
            thrown := None;
          }
      }
    }

    /** Forget the token and the user, and sign out. */
    method Logout()
      modifies this
      ensures user.None? && error == old(error) && loading == old(loading)
      ensures storage == old(storage) - {TokenKey, UserKey}
      ensures storage.Keys == old(storage).Keys - {TokenKey, UserKey}
    {
      storage := storage - {TokenKey};
      storage := storage - {UserKey};
      user := None;
    }
  }

  /** A login survives a reload: a fresh session over the storage it leaves restores the same
      user, provided the user's serialisation parses back to it. */
  method LoginThenReload(storage: map<string, string>, credentials: Credentials, reply: AuthReply,
                         encode: User -> string, decode: string -> Option<User>)
    returns (signedIn: Option<User>, restored: Option<User>)
    requires reply.token != "" && encode(reply.user) != ""
    requires decode(encode(reply.user)) == Some(reply.user)
    ensures signedIn == Some(reply.user) && restored == signedIn
  {
    var session := new Session(storage);
    var _ := session.Login(credentials, Resolved(true, reply), encode);
    signedIn := session.user;
    var reloaded := new Session(session.storage);
    reloaded.Restore(decode);
    restored := reloaded.user;
  }

  /** A logout survives a reload: nothing is restored from the storage it leaves. */
  method LogoutThenReload(storage: map<string, string>, decode: string -> Option<User>)
    returns (restored: Option<User>)
    ensures restored.None?
  {
    var session := new Session(storage);
    session.Logout();
    var reloaded := new Session(session.storage);
    reloaded.Restore(decode);
    restored := reloaded.user;
  }
}
