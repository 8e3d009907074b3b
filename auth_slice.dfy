/** The `auth` slice: the session state, its reducer cases, and the three
    thunks `login`, `logout` and `initializeAuth`, each run as its payload
    step followed by its reducer case. The login request itself is the
    parameter `posted`: the outcome of `HttpService.post('Auth/Login', …)`. */
module SessionSlice {
  import opened Wrappers
  import opened Browser
  import opened Jwt
  import opened ErrorHandling

  /** `SerializableError` */
  datatype SerializableError = SerializableError(message: string, status: Option<int>, errorMessages: Option<seq<string>>)

  datatype AuthState = AuthState(user: Option<User>, token: Option<string>, isAuthenticated: bool, error: Option<SerializableError>)

  /** `initialState`: nobody signed in, no error. */
  const InitialState := AuthState(None, None, false, None)

  /** `response.data.data.token` of the login response; None when the
      field is `undefined` or `null`. */
  datatype LoginBody = LoginBody(token: Option<string>)

  datatype LoginPayload = LoginPayload(token: string, user: User)

  /** How a thunk's payload step settles. */
  datatype ThunkOutcome<T> = Fulfilled(payload: T) | Rejected(reason: SerializableError)

  const TokenMissingText := "Token alınamadı"
  const GenericFailure := "Bir hata oluştu"

  /** The rejection of a login whose response carries no token. */
  const TokenMissing := SerializableError(TokenMissingText, None, Some([TokenMissingText]))

  /** The error `login.rejected` records when the action has no payload. */
  const LoginFailed := SerializableError("Giriş başarısız", None, None)

  /** `error.message || 'Bir hata oluştu'` */
  function OwnMessage(err: ApiError): (m: string) {
    if err.message != "" then err.message else GenericFailure
  }

  /** `error.response?.data?.message` */
  function ServerMessage(err: ApiError): (m: Option<string>) {
    if err.response.Some? && err.response.value.data.Some? then err.response.value.data.value.message else None
  }

  /** The value login's `catch` rejects with. Its message is never empty:
      the server's message, else the error's own, else a generic text. The
      status is the response's, if there was one. The list is the server's
      `ErrorMessages` when it sent one (even an empty one), else the single
      own message. */
  function RejectValue(err: ApiError): (r: SerializableError)
    ensures r.message != ""
    ensures r.status.Some? <==> err.response.Some?
    ensures err.response.Some? ==> r.status == Some(err.response.value.status)
    ensures r.errorMessages.Some?
    ensures err.response.None? ==> r.message == OwnMessage(err) && r.errorMessages == Some([r.message])
    ensures ServerMessage(err).Some? && ServerMessage(err).value != "" ==> r.message == ServerMessage(err).value
    ensures !(ServerMessage(err).Some? && ServerMessage(err).value != "") ==> r.message == OwnMessage(err)
    ensures err.response.Some? ==> r.errorMessages == Some(ServerMessages(err.response.value).GetOr([OwnMessage(err)]))
  {
    var server := ServerMessage(err);
    var message := if server.Some? && server.value != "" then server.value else OwnMessage(err);
    var status := if err.response.Some? then Some(err.response.value.status) else None;
    var listed := if err.response.Some? then ServerMessages(err.response.value) else None;
    SerializableError(message, status, Some(listed.GetOr([OwnMessage(err)])))
  }

  /** The token the login response carries, `''` standing for a falsy one. */
  function BodyToken(body: LoginBody): (t: string) {
    body.token.GetOr("")
  }

  /** How the login thunk settles. It is fulfilled exactly when the request
      succeeded with a non-empty token that decodes, and then carries that
      token and the user built from its claims; every rejection carries a
      non-empty message. */
  function LoginOutcome(posted: Result<LoginBody, ApiError>, decode: Decoder): (o: ThunkOutcome<LoginPayload>)
    ensures o.Fulfilled? <==> posted.Ok? && BodyToken(posted.value) != "" && decode(BodyToken(posted.value)).Ok?
    ensures o.Fulfilled? ==>
      o.payload.token == BodyToken(posted.value) && o.payload.token != ""
      && o.payload.user == UserOf(decode(o.payload.token).value)
    ensures o.Rejected? ==> o.reason.message != ""
    ensures posted.Err? ==> o == Rejected(RejectValue(posted.error))
    ensures posted.Ok? && BodyToken(posted.value) == "" ==> o == Rejected(TokenMissing)
    ensures posted.Ok? && BodyToken(posted.value) != "" && decode(BodyToken(posted.value)).Err? ==>
      o == Rejected(RejectValue(ApiError(decode(BodyToken(posted.value)).error, None)))
  {
    match posted
    case Err(err) => Rejected(RejectValue(err))
    case Ok(body) =>
      var t := BodyToken(body);
      if t == "" then Rejected(TokenMissing)
      else
        match decode(t)
        case Ok(claims) => Fulfilled(LoginPayload(t, UserOf(claims)))
        case Err(message) => Rejected(RejectValue(ApiError(message, None)))
  }

  /** An empty token is rejected with the same text as message and as the
      only listed message. */
  lemma EmptyTokenRejection(decode: Decoder)
    ensures LoginOutcome(Ok(LoginBody(Some(""))), decode) == LoginOutcome(Ok(LoginBody(None)), decode)
    ensures var o := LoginOutcome(Ok(LoginBody(None)), decode);
      o.Rejected? && o.reason.message == TokenMissingText && o.reason.errorMessages == Some([TokenMissingText])
  {
  }

  /** A login refused by the server keeps the server's status. */
  lemma RefusedLoginKeepsStatus(err: ApiError, decode: Decoder)
    requires err.response.Some?
    ensures LoginOutcome(Err(err), decode).Rejected?
    ensures LoginOutcome(Err(err), decode).reason.status == Some(err.response.value.status)
  {
  }

  /** The restore payload for the raw stored value: the token and its user
      exactly when the value is non-empty and decodes. `exp` plays no part. */
  function InitializePayload(stored: Option<string>, decode: Decoder): (p: Option<LoginPayload>)
    ensures p.Some? <==> stored.Some? && stored.value != "" && decode(stored.value).Ok?
    ensures p.Some? ==> p.value.token == stored.value && p.value.user == UserOf(decode(stored.value).value)
  {
    if stored.Some? && stored.value != "" then
      match decode(stored.value)
      case Ok(claims) => Some(LoginPayload(stored.value, UserOf(claims)))
      case Err(_) => None
    else None
  }

  /** Restoring never looks at the expiry: an expired token is restored
      exactly like a live one. */
  lemma RestoreIgnoresExpiry(t: string, decode: Decoder, now: int)
    requires t != "" && decode(t).Ok?
    requires Expired(now, decode(t).value)
    ensures InitializePayload(Some(t), decode) == Some(LoginPayload(t, UserOf(decode(t).value)))
  {
  }

  /** `getStorageItem`: the stored value, or null without a window. */
  method GetStorageItem(storage: LocalStorage, key: string) returns (r: Option<string>)
    ensures storage.hasWindow ==> r == storage.Lookup(key)
    ensures !storage.hasWindow ==> r == None
  {
    if storage.hasWindow {
      r := storage.GetItem(key);
    } else {
      r := None;
    }
  }

  /** `setStorageItem`: a no-op without a window. */
  method SetStorageItem(storage: LocalStorage, key: string, value: string)
    modifies storage
    ensures storage.items == if storage.hasWindow then old(storage.items)[key := value] else old(storage.items)
  {
    if storage.hasWindow {
      storage.SetItem(key, value);
    }
  }

  /** `removeStorageItem`: a no-op without a window. */
  method RemoveStorageItem(storage: LocalStorage, key: string)
    modifies storage
    ensures storage.items == if storage.hasWindow then old(storage.items) - {key} else old(storage.items)
  {
    if storage.hasWindow {
      storage.RemoveItem(key);
    }
  }

  /** Storing a value and reading it back gives the value; after removing
      it the read gives null. Without a window both reads give null. */
  method StorageRoundTrip(storage: LocalStorage, t: string) returns (afterSet: Option<string>, afterRemove: Option<string>)
    modifies storage
    ensures afterSet == (if storage.hasWindow then Some(t) else None)
    ensures afterRemove == None
  {
    SetStorageItem(storage, TokenKey, t);
    afterSet := GetStorageItem(storage, TokenKey);
    RemoveStorageItem(storage, TokenKey);
    afterRemove := GetStorageItem(storage, TokenKey);
  }

  /** The login thunk's payload step. With a non-empty token it stores the
      token before decoding it, so a decoding failure leaves the token in
      storage (the rejected case removes it again). */
  method LoginThunk(storage: LocalStorage, posted: Result<LoginBody, ApiError>, decode: Decoder)
      returns (o: ThunkOutcome<LoginPayload>)
    modifies storage
    ensures o == LoginOutcome(posted, decode)
    ensures storage.items ==
      if posted.Ok? && BodyToken(posted.value) != "" then
        (if storage.hasWindow then old(storage.items)[TokenKey := BodyToken(posted.value)] else old(storage.items))
      else old(storage.items)
  {
    if posted.Err? {
      return Rejected(RejectValue(posted.error));
    }
    var token := BodyToken(posted.value);
    if token == "" {
      return Rejected(TokenMissing);
    }
    SetStorageItem(storage, TokenKey, token);
    var decoded := decode(token);
    if decoded.Err? {
      return Rejected(RejectValue(ApiError(decoded.error, None)));
    }
    o := Fulfilled(LoginPayload(token, UserOf(decoded.value)));
  }

  /** The logout thunk's payload step. */
  method LogoutThunk(storage: LocalStorage) returns (done: bool)
    modifies storage
    ensures done
    ensures storage.items == if storage.hasWindow then old(storage.items) - {TokenKey} else old(storage.items)
  {
    RemoveStorageItem(storage, TokenKey);
    done := true;
  }

  /** The initializeAuth thunk's payload step: a stored value that is
      present but does not decode is removed. */
  method InitializeAuthThunk(storage: LocalStorage, decode: Decoder) returns (p: Option<LoginPayload>)
    modifies storage
    ensures var stored := if storage.hasWindow then old(storage.Lookup(TokenKey)) else None;
      && p == InitializePayload(stored, decode)
      && storage.items ==
           if stored.Some? && stored.value != "" && decode(stored.value).Err? then old(storage.items) - {TokenKey}
           else old(storage.items)
  {
    var token := GetStorageItem(storage, TokenKey);
    if token.Some? && token.value != "" {
      var decoded := decode(token.value);
      if decoded.Ok? {
        return Some(LoginPayload(token.value, UserOf(decoded.value)));
      }
      RemoveStorageItem(storage, TokenKey);
    }
    p := None;
  }

  /** The slice's state, updated in place by the reducer cases. */
  class AuthSlice {
    const storage: LocalStorage
    var user: Option<User>
    var token: Option<string>
    var isAuthenticated: bool
    var error: Option<SerializableError>

    function State(): (s: AuthState)
      reads this
    {
      AuthState(user, token, isAuthenticated, error)
    }

    /** token set, user set and isAuthenticated always agree. */
    predicate Consistent()
      reads this
    {
      (token.Some? <==> user.Some?) && (user.Some? <==> isAuthenticated)
    }

    /** Consistent, and a held token is never the empty string. */
    predicate Valid()
      reads this
    {
      Consistent() && (token.Some? ==> token.value != "")
    }

    constructor (storage: LocalStorage)
      ensures this.storage == storage
      ensures State() == InitialState && Valid()
    {
      this.storage := storage;
      user := None;
      token := None;
      isAuthenticated := false;
      error := None;
    }

    /** `clearError` */
    method ClearError()
      modifies this
      ensures State() == old(State()).(error := None)
      ensures old(Valid()) ==> Valid()
    {
      error := None;
    }

    /** `login.pending`: only the error is cleared. */
    method LoginPending()
      modifies this
      ensures State() == old(State()).(error := None)
      ensures old(Valid()) ==> Valid()
    {
      error := None;
    }

    /** `login.fulfilled` */
    method LoginFulfilled(p: LoginPayload)
      modifies this
      ensures State() == AuthState(Some(p.user), Some(p.token), true, None)
      ensures Consistent()
    {
      token := Some(p.token);
      user := Some(p.user);
      isAuthenticated := true;
      error := None;
    }

    /** `login.rejected`: signs out, records the payload (or a generic
        error) and removes the stored token. */
    method LoginRejected(payload: Option<SerializableError>)
      modifies this, storage
      ensures State() == AuthState(None, None, false, Some(payload.GetOr(LoginFailed)))
      ensures Valid()
      ensures storage.items == if storage.hasWindow then old(storage.items) - {TokenKey} else old(storage.items)
    {
      token := None;
      user := None;
      isAuthenticated := false;
      error := Some(payload.GetOr(LoginFailed));
      RemoveStorageItem(storage, TokenKey);
    }

    /** `logout.fulfilled`: back to the initial state. */
    method LogoutFulfilled()
      modifies this
      ensures State() == InitialState && Valid()
    {
      token := None;
      user := None;
      isAuthenticated := false;
      error := None;
    }

    /** `initializeAuth.fulfilled`: a payload signs in (the error is kept);
        a null payload changes nothing. */
    method InitializeAuthFulfilled(p: Option<LoginPayload>)
      modifies this
      ensures p.Some? ==> State() == old(State()).(user := Some(p.value.user), token := Some(p.value.token), isAuthenticated := true)
      ensures p.None? ==> State() == old(State())
      ensures p.Some? || old(Consistent()) ==> Consistent()
    {
      if p.Some? {
        token := Some(p.value.token);
        user := Some(p.value.user);
        isAuthenticated := true;
      }
    }

    /** `dispatch(login(credentials))`: pending, the payload step, then the
        fulfilled or rejected case. On success the token is stored and the
        user signed in; on any failure the state is signed out with the
        rejection as its error and no token is left in storage. */
    method Login(posted: Result<LoginBody, ApiError>, decode: Decoder) returns (o: ThunkOutcome<LoginPayload>)
      modifies this, storage
      ensures Valid()
      ensures o == LoginOutcome(posted, decode)
      ensures o.Fulfilled? ==>
        && State() == AuthState(Some(o.payload.user), Some(o.payload.token), true, None)
        && storage.items == if storage.hasWindow then old(storage.items)[TokenKey := o.payload.token] else old(storage.items)
      ensures o.Rejected? ==>
        && State() == AuthState(None, None, false, Some(o.reason))
        && storage.items == if storage.hasWindow then old(storage.items) - {TokenKey} else old(storage.items)
    {
      LoginPending();
      o := LoginThunk(storage, posted, decode);
      match o {
        case Fulfilled(p) =>
          LoginFulfilled(p);
        case Rejected(reason) =>
          LoginRejected(Some(reason));
      }
    }

    /** `dispatch(logout())`: storage loses the token and the state is the
        initial one. */
    method Logout()
      modifies this, storage
      ensures Valid()
      ensures State() == InitialState
      ensures storage.items == if storage.hasWindow then old(storage.items) - {TokenKey} else old(storage.items)
    {
      var _ := LogoutThunk(storage);
      LogoutFulfilled();
    }

    /** `dispatch(initializeAuth())`: with a stored token that decodes the
        user is signed in from its claims (whatever its `exp`); otherwise
        the state is unchanged, and a token that does not decode is removed. */
    method InitializeAuth(decode: Decoder) returns (p: Option<LoginPayload>)
      requires Valid()
      modifies this, storage
      ensures Valid()
      ensures var stored := if storage.hasWindow then old(storage.Lookup(TokenKey)) else None;
        && p == InitializePayload(stored, decode)
        && storage.items ==
             if stored.Some? && stored.value != "" && decode(stored.value).Err? then old(storage.items) - {TokenKey}
             else old(storage.items)
      ensures p.Some? ==> State() == old(State()).(user := Some(p.value.user), token := Some(p.value.token), isAuthenticated := true)
      ensures p.None? ==> State() == old(State())
    {
      p := InitializeAuthThunk(storage, decode);
      InitializeAuthFulfilled(p);
    }
  }

  /** Logging out twice ends exactly where logging out once does. */
  method LogoutTwice(slice: AuthSlice)
    modifies slice, slice.storage
    ensures slice.State() == InitialState
    ensures slice.storage.items ==
      if slice.storage.hasWindow then old(slice.storage.items) - {TokenKey} else old(slice.storage.items)
  {
    slice.Logout();
    slice.Logout();
  }
}
