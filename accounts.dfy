/** User accounts: the user document, the single-document queries the auth
    handlers run against the user store, and login. */
module Accounts {
  import opened Types

  type Email = string
  type Password = string
  type Token = string

  /** A user document. A cleared token or expiry (`undefined` in the store) is None.
      The password is compared by equality; the hashing in front of it is not modelled. */
  datatype User = User(
    email: Email,
    password: Password,
    name: string,
    warehouseName: string,
    isVerified: bool,
    verificationToken: Option<Token>,
    verificationTokenExpires: Option<Time>,
    resetPasswordToken: Option<Token>,
    resetPasswordExpires: Option<Time>)

  /** How long a verification link stays valid: 24 hours. */
  const VerificationLifetime: int := 86400000
  /** How long a password-reset link stays valid: 1 hour. */
  const ResetLifetime: int := 3600000

  /** The filter documents the handlers pass to `User.findOne`. */
  datatype Query =
    | ByEmail(email: Email)
    | ByVerificationToken(token: Token, now: Time)
    | ByResetToken(token: Token, now: Time)

  /** Whether a user document satisfies a filter. A token filter matches only
      a stored token equal to the one presented whose expiry is later than now. */
  predicate Matches(q: Query, u: User)
  {
    match q
    case ByEmail(e) => u.email == e
    case ByVerificationToken(t, now) =>
      u.verificationToken == Some(t) && u.verificationTokenExpires.Some? && u.verificationTokenExpires.value > now
    case ByResetToken(t, now) =>
      u.resetPasswordToken == Some(t) && u.resetPasswordExpires.Some? && u.resetPasswordExpires.value > now
  }

  /** `i` is the first user in store order that satisfies `q`. */
  ghost predicate IsFirst(users: seq<User>, q: Query, i: int)
  {
    0 <= i < |users| && Matches(q, users[i]) && forall j :: 0 <= j < i ==> !Matches(q, users[j])
  }

  ghost predicate NoMatch(users: seq<User>, q: Query)
  {
    forall j :: 0 <= j < |users| ==> !Matches(q, users[j])
  }

  /** `findOne`: the first user in store order that satisfies the filter, if any. */
  function FindOne(users: seq<User>, q: Query): (r: Option<UserId>)
    ensures r.Some? ==> IsFirst(users, q, r.value)
    ensures r.None? <==> NoMatch(users, q)
  {
    if users == [] then None
    else if Matches(q, users[0]) then Some(0)
    else match FindOne(users[1..], q)
      case None => None
      case Some(i) => Some(i + 1)
  }

  datatype LoginError = InvalidCredentials | EmailNotVerified

  /** POST /api/auth/login. Success stands for issuing a session token for the
      returned user; the token itself (a signed JWT) is not modelled. */
  function Login(users: seq<User>, email: Email, password: Password): (r: Result<UserId, LoginError>)
    ensures r == Err(InvalidCredentials) <==>
              NoMatch(users, ByEmail(email)) ||
              exists i :: IsFirst(users, ByEmail(email), i) && users[i].password != password
    ensures r == Err(EmailNotVerified) <==>
              exists i :: IsFirst(users, ByEmail(email), i) && users[i].password == password && !users[i].isVerified
    ensures r.Ok? <==>
              exists i :: IsFirst(users, ByEmail(email), i) && users[i].password == password && users[i].isVerified
    ensures r.Ok? ==> IsFirst(users, ByEmail(email), r.value)
  {
    match FindOne(users, ByEmail(email))
    case None => Err(InvalidCredentials)
    case Some(i) =>
      FirstIsUnique(users, ByEmail(email), i);
      if users[i].password != password then Err(InvalidCredentials)
      else if !users[i].isVerified then Err(EmailNotVerified)
      else Ok(i)
  }

  /** No other user is the first match. */
  lemma FirstIsUnique(users: seq<User>, q: Query, i: int)
    requires IsFirst(users, q, i)
    ensures forall j :: IsFirst(users, q, j) ==> j == i
  {
  }

  /** Tokens of one kind are held by at most one user: the property that makes
      each token single-use. Tokens come from a random generator, so the store
      keeps this as long as every new token is fresh. */
  ghost predicate VerificationTokensDistinct(users: seq<User>)
  {
    forall i, j :: 0 <= i < j < |users| && users[i].verificationToken.Some? ==>
      users[i].verificationToken != users[j].verificationToken
  }

  ghost predicate ResetTokensDistinct(users: seq<User>)
  {
    forall i, j :: 0 <= i < j < |users| && users[i].resetPasswordToken.Some? ==>
      users[i].resetPasswordToken != users[j].resetPasswordToken
  }

  /** No user holds `t` as a verification token, whatever the time. */
  ghost predicate VerificationTokenUnused(users: seq<User>, t: Token)
  {
    forall j :: 0 <= j < |users| ==> users[j].verificationToken != Some(t)
  }

  ghost predicate ResetTokenUnused(users: seq<User>, t: Token)
  {
    forall j :: 0 <= j < |users| ==> users[j].resetPasswordToken != Some(t)
  }

  /** An unused token matches nobody at any time. */
  lemma UnusedTokenNeverMatches(users: seq<User>, t: Token, now: Time)
    ensures VerificationTokenUnused(users, t) ==> FindOne(users, ByVerificationToken(t, now)) == None
    ensures ResetTokenUnused(users, t) ==> FindOne(users, ByResetToken(t, now)) == None
  {
  }
}
