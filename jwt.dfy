/** The claim set a session token carries, the user record built from it,
    and the expiry test. Decoding itself (base64 and JSON inside the
    `jwt-decode` library) is not modelled: a decoder is any function from
    the token to its claims or to the message of the error it throws. */
module Jwt {
  import opened Wrappers

  /** A claim as read from the decoded JSON payload. The source reads
      claims without checking that they are present, so a claim may be
      `undefined` (Missing). */
  datatype ClaimValue = Missing | Num(n: int) | Str(s: string)

  /** The claims `Id`, `Name`, `Email`, `UserName` and `exp` (epoch seconds;
      None when the token has no `exp`). */
  datatype Claims = Claims(
    id: ClaimValue,
    name: ClaimValue,
    email: ClaimValue,
    userName: ClaimValue,
    exp: Option<int>)

  /** `jwtDecode`: the claims, or the message of the error it throws. */
  type Decoder = string -> Result<Claims, string>

  /** The user record (`UserModel`) of both the slice and the service. */
  datatype User = User(id: ClaimValue, name: ClaimValue, email: ClaimValue, userName: ClaimValue)

  /** `new UserModel()`: id 0 and empty strings. */
  const DefaultUser := User(Num(0), Str(""), Str(""), Str(""))

  /** The user record built field by field from the claims. */
  function UserOf(c: Claims): (u: User)
    ensures u.id == c.id && u.name == c.name && u.email == c.email && u.userName == c.userName
  {
    User(c.id, c.name, c.email, c.userName)
  }

  /** `now > decoded.exp`, with `now` in whole epoch seconds. Comparing a
      number with an absent `exp` (undefined) is false in JavaScript, so a
      token without `exp` never counts as expired. */
  predicate Expired(now: int, c: Claims): (e: bool)
    ensures e ==> c.exp.Some?
    ensures c.exp.Some? ==> (e <==> c.exp.value < now)
  {
    c.exp.Some? && now > c.exp.value
  }

  /** Expiry is strict: a token is still valid in the second named by its
      `exp`, expired from the next second on, and stays expired. */
  lemma ExpiryBoundary(c: Claims, now: int, later: int)
    requires c.exp == Some(now)
    requires now < later
    ensures !Expired(now, c)
    ensures Expired(later, c)
  {
  }

  lemma ExpiredStaysExpired(c: Claims, now: int, later: int)
    requires Expired(now, c)
    requires now <= later
    ensures Expired(later, c)
  {
  }
}
