/** `AuthService`: the lazy expiry check over the stored token. The clock
    is the parameter `now` (whole epoch seconds), `jwtDecode` the parameter
    `decode`, and Next's `redirect(path)` an event appended to `redirects`. */
module Authentication {
  import opened Wrappers
  import opened Browser
  import opened Jwt

  const LoginPath := "/login"

  /** The stored token is a live session at time `now`: present, non-empty,
      decodable and not past its `exp`. */
  predicate LiveToken(t: string, decode: Decoder, now: int) {
    t != "" && decode(t).Ok? && !Expired(now, decode(t).value)
  }

  /** A token whose `exp` is exactly `now` is still live; one second later
      it is not. */
  lemma LiveUntilExp(t: string, decode: Decoder, now: int)
    requires t != "" && decode(t).Ok? && decode(t).value.exp == Some(now)
    ensures LiveToken(t, decode, now)
    ensures !LiveToken(t, decode, now + 1)
  {
    ExpiryBoundary(decode(t).value, now, now + 1);
  }

  class AuthService {
    const storage: LocalStorage
    var token: string
    var user: User
    /** Every `redirect(path)` issued, in order. */
    var redirects: seq<string>

    constructor (storage: LocalStorage)
      ensures this.storage == storage
      ensures token == "" && user == DefaultUser && redirects == []
    {
      this.storage := storage;
      token := "";
      user := DefaultUser;
      redirects := [];
    }

    /** True exactly when a window exists and the stored token is live; a
        true answer also caches the token and the user decoded from it. A
        missing or empty token only redirects to the login page; a token
        that does not decode or has expired logs out. */
    method IsAuthenticated(decode: Decoder, now: int) returns (ok: bool)
      modifies this, storage
      ensures !storage.hasWindow ==> !ok && unchanged(this) && unchanged(storage)
      ensures storage.hasWindow ==> (ok <==> LiveToken(StoredToken(old(storage.items)), decode, now))
      ensures ok ==>
        && token == StoredToken(old(storage.items))
        && user == UserOf(decode(token).value)
        && storage.items == old(storage.items)
        && redirects == old(redirects)
      ensures storage.hasWindow && StoredToken(old(storage.items)) == "" ==>
        && token == ""
        && user == old(user)
        && storage.items == old(storage.items)
        && redirects == old(redirects) + [LoginPath]
      ensures storage.hasWindow && StoredToken(old(storage.items)) != "" && !ok ==>
        && token == ""
        && user == DefaultUser
        && storage.items == old(storage.items) - {TokenKey}
        && redirects == old(redirects) + [LoginPath]
    {
      if !storage.hasWindow {
        return false;
      }
      var stored := storage.GetItem(TokenKey);
      token := stored.GetOr("");
      if token == "" {
        redirects := redirects + [LoginPath];
        return false;
      }
      var decoded := decode(token);
      if decoded.Err? {
        Logout();
        return false;
      }
      if Expired(now, decoded.value) {
        Logout();
        return false;
      }
      user := UserOf(decoded.value);
      return true;
    }

    /** `localStorage.getItem('token') ?? ''`. The read is not guarded by a
        window check, so without a window it throws (None here). */
    method GetToken() returns (r: Option<string>)
      ensures storage.hasWindow ==> r == Some(StoredToken(storage.items))
      ensures !storage.hasWindow ==> r == None
    {
      if !storage.hasWindow {
        return None;
      }
      var stored := storage.GetItem(TokenKey);
      r := Some(stored.GetOr(""));
    }

    /** The user cached by the last successful check (or the default). */
    method GetUser() returns (u: User)
      ensures u == user
    {
      u := user;
    }

    /** Removes the stored token, resets both fields and redirects to the
        login page; without a window nothing happens. */
    method Logout()
      modifies this, storage
      ensures !storage.hasWindow ==> unchanged(this) && unchanged(storage)
      ensures storage.hasWindow ==>
        && storage.items == old(storage.items) - {TokenKey}
        && token == ""
        && user == DefaultUser
        && redirects == old(redirects) + [LoginPath]
    {
      if !storage.hasWindow {
        return;
      }
      storage.RemoveItem(TokenKey);
      token := "";
      user := DefaultUser;
      redirects := redirects + [LoginPath];
    }
  }

  /** A token that is live at one check and past its `exp` at the next is
      rejected by the second check, which also clears the store, without
      any restart. */
  method ExpiryDuringSession(auth: AuthService, decode: Decoder, t: string, exp: int, firstNow: int, laterNow: int)
      returns (first: bool, second: bool)
    requires auth.storage.hasWindow
    requires StoredToken(auth.storage.items) == t && t != ""
    requires decode(t).Ok? && decode(t).value.exp == Some(exp)
    requires firstNow <= exp < laterNow
    modifies auth, auth.storage
    ensures first && !second
    ensures TokenKey !in auth.storage.items
    ensures auth.token == "" && auth.user == DefaultUser
  {
    first := auth.IsAuthenticated(decode, firstNow);
    second := auth.IsAuthenticated(decode, laterNow);
  }
}
