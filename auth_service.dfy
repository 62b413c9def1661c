/**
 * The API's authentication service (internal/service/auth.go): user
 * registration, login, refresh-token rotation in the key/value store,
 * logout and token validation.
 *
 * Signed tokens and password hashes are symbolic: a token is the claims it
 * carries with the algorithm and key that signed it, and a hash records the
 * password it was made from. Times are whole seconds.
 */
module AuthService {
  import opened Common
  import opened Numeric

  const KEY_PREFIX: string := "refresh_token:"
  const ACCESS: string := "access"
  const REFRESH: string := "refresh"
  const BEARER: string := "Bearer"

  datatype AuthError =
    | InvalidCredentials
    | UserExists
    | InvalidToken
    | TokenExpired
    | UserNotFound
    | Failure(message: string)

  /** A bcrypt hash, standing for the password it was generated from. */
  datatype PasswordHash = Bcrypt(password: string)

  /** `bcrypt.CompareHashAndPassword` succeeds exactly for the hashed password. */
  predicate HashMatches(h: PasswordHash, password: string) {
    h.password == password
  }

  datatype User = User(id: int, username: string, email: string, passwordHash: PasswordHash)

  datatype Claims = Claims(userId: int, username: string, tokenType: string, expiresAt: int, issuedAt: int, subject: string)

  /** The signing methods a token header can name. */
  datatype Alg = HS256 | HS384 | HS512 | RS256 | ES256 | NoAlg

  predicate IsHmac(a: Alg) {
    a == HS256 || a == HS384 || a == HS512
  }

  /** A token string: well-formed and signed, or not a token at all. */
  datatype Token = Signed(claims: Claims, alg: Alg, key: string) | Malformed(text: string)

  datatype AuthResponse = AuthResponse(accessToken: Token, refreshToken: Token, expiresIn: int, tokenType: string)

  /** The key/value store key of a user's refresh token: `refresh_token:<id>`. */
  function RefreshKey(userId: int): (k: string)
    ensures KEY_PREFIX <= k
  {
    KEY_PREFIX + FormatInt(userId)
  }

  /** Different users never share a refresh-token key. */
  lemma RefreshKeyInjective(a: int, b: int)
    requires RefreshKey(a) == RefreshKey(b)
    ensures a == b
  {
    assert FormatInt(a) == RefreshKey(a)[|KEY_PREFIX|..];
    assert FormatInt(b) == RefreshKey(b)[|KEY_PREFIX|..];
    FormatIntInjective(a, b);
  }

  /** A token of the given type, issued at `now` for `lifetime` seconds and signed HS256 with `secret`. */
  function Issue(user: User, tokenType: string, lifetime: int, now: int, secret: string): (t: Token)
    ensures t.Signed? && t.alg == HS256 && t.key == secret
    ensures t.claims.userId == user.id && t.claims.tokenType == tokenType
    ensures t.claims.expiresAt - t.claims.issuedAt == lifetime
  {
    Signed(Claims(user.id, user.username, tokenType, now + lifetime, now, FormatInt(user.id)), HS256, secret)
  }

  /**
   * `validateToken`: anything not signed by an HMAC method with the secret
   * is an invalid token; a signed token at or past its expiry has expired.
   */
  function ValidateToken(t: Token, secret: string, now: int): (r: Result<Claims, AuthError>)
    ensures r.Ok? <==> t.Signed? && IsHmac(t.alg) && t.key == secret && now < t.claims.expiresAt
    ensures r.Ok? ==> r.value == t.claims
    ensures r.Err? ==> r.error == InvalidToken || r.error == TokenExpired
    ensures r == Err(TokenExpired) <==> t.Signed? && IsHmac(t.alg) && t.key == secret && now >= t.claims.expiresAt
  {
    match t
    case Malformed(_) => Err(InvalidToken)
    case Signed(claims, alg, key) =>
      if !IsHmac(alg) then Err(InvalidToken)
      else if key != secret then Err(InvalidToken)
      else if now >= claims.expiresAt then Err(TokenExpired)
      else Ok(claims)
  }

  /** `ValidateAccessToken`: a valid token that is also of type "access". */
  function ValidateAccessToken(t: Token, secret: string, now: int): (r: Result<Claims, AuthError>)
    ensures r.Ok? <==> ValidateToken(t, secret, now).Ok? && t.claims.tokenType == ACCESS
    ensures r.Ok? ==> r.value == t.claims
    ensures ValidateToken(t, secret, now).Err? ==> r == ValidateToken(t, secret, now)
  {
    var v := ValidateToken(t, secret, now);
    if v.Err? then v
    else if v.value.tokenType != ACCESS then Err(InvalidToken)
    else v
  }

  /** A token this service issued validates to its own claims until, and only until, it expires. */
  lemma IssuedTokenValidates(user: User, tokenType: string, lifetime: int, issuedAt: int, secret: string, now: int)
    ensures var t := Issue(user, tokenType, lifetime, issuedAt, secret);
      && (now < issuedAt + lifetime ==> ValidateToken(t, secret, now) == Ok(t.claims))
      && (now >= issuedAt + lifetime ==> ValidateToken(t, secret, now) == Err(TokenExpired))
  {
  }

  /** A refresh token is never accepted as an access token. */
  lemma RefreshTokenIsNotAccess(user: User, lifetime: int, issuedAt: int, secret: string, now: int)
    ensures ValidateAccessToken(Issue(user, REFRESH, lifetime, issuedAt, secret), secret, now).Err?
  {
  }

  /** The first user with this username (the column is unique). */
  function FindByUsername(users: seq<User>, username: string): (r: Option<User>)
    ensures r.Some? ==> r.value in users && r.value.username == username
    ensures r.None? <==> forall i :: 0 <= i < |users| ==> users[i].username != username
    decreases |users|
  {
    if users == [] then None
    else if users[0].username == username then Some(users[0])
    else FindByUsername(users[1..], username)
  }

  /** The user with this id, if any. */
  function FindById(users: seq<User>, id: int): (r: Option<User>)
    ensures r.Some? ==> r.value in users && r.value.id == id
    ensures r.None? <==> forall i :: 0 <= i < |users| ==> users[i].id != id
    decreases |users|
  {
    if users == [] then None
    else if users[0].id == id then Some(users[0])
    else FindById(users[1..], id)
  }

  /**
   * The checks `Refresh` makes before issuing new tokens, in order: the
   * token validates, it is a refresh token, the store holds exactly it
   * under its user's key, and the user exists.
   */
  function RefreshDecision(store: map<string, Token>, users: seq<User>, t: Token, secret: string, now: int): (r: Result<User, AuthError>)
    ensures r.Ok? ==>
      && ValidateToken(t, secret, now).Ok? && t.claims.tokenType == REFRESH
      && RefreshKey(t.claims.userId) in store && store[RefreshKey(t.claims.userId)] == t
      && r.value.id == t.claims.userId && r.value in users
    ensures ValidateToken(t, secret, now).Err? ==> r == Err(ValidateToken(t, secret, now).error)
    ensures ValidateToken(t, secret, now).Ok? && t.claims.tokenType != REFRESH ==> r == Err(InvalidToken)
    ensures ValidateToken(t, secret, now).Ok? && t.claims.tokenType == REFRESH ==>
      (RefreshKey(t.claims.userId) !in store || store[RefreshKey(t.claims.userId)] != t ==> r == Err(InvalidToken))
    ensures r.Ok? <==>
      && ValidateToken(t, secret, now).Ok? && t.claims.tokenType == REFRESH
      && RefreshKey(t.claims.userId) in store && store[RefreshKey(t.claims.userId)] == t
      && FindById(users, t.claims.userId).Some?
  {
    var v := ValidateToken(t, secret, now);
    if v.Err? then Err(v.error)
    else if v.value.tokenType != REFRESH then Err(InvalidToken)
    else
      var key := RefreshKey(v.value.userId);
      if key !in store || store[key] != t then Err(InvalidToken)
      else
        var user := FindById(users, v.value.userId);
        if user.Some? then Ok(user.value) else Err(UserNotFound)
  }

  /** Well-formed user table: ids are positions, usernames and emails unique. */
  ghost predicate UsersValid(users: seq<User>) {
    && (forall i :: 0 <= i < |users| ==> users[i].id == i + 1)
    && (forall i, j :: 0 <= i < j < |users| ==> users[i].username != users[j].username)
    && (forall i, j :: 0 <= i < j < |users| ==> users[i].email != users[j].email)
  }

  /** In a well-formed table the user with id `id` is the one at position `id - 1`. */
  lemma FindByIdPosition(users: seq<User>, id: int)
    requires UsersValid(users)
    ensures 1 <= id <= |users| ==> FindById(users, id) == Some(users[id - 1])
    ensures id < 1 || |users| < id ==> FindById(users, id).None?
  {
    var r := FindById(users, id);
    if r.Some? {
      var j :| 0 <= j < |users| && users[j] == r.value;
      assert users[j].id == j + 1;
    }
  }

  /**
   * The refresh token `Login` stores for a registered user is accepted by
   * `Refresh` for that user until it expires.
   */
  lemma StoredRefreshTokenAccepted(store: map<string, Token>, users: seq<User>, user: User, lifetime: int,
                                   issuedAt: int, secret: string, now: int)
    requires UsersValid(users) && user in users
    requires now < issuedAt + lifetime
    ensures var t := Issue(user, REFRESH, lifetime, issuedAt, secret);
      RefreshDecision(store[RefreshKey(user.id) := t], users, t, secret, now) == Ok(user)
  {
    var j :| 0 <= j < |users| && users[j] == user;
    FindByIdPosition(users, user.id);
  }

  /**
   * Rotation: once a refresh has stored its new token, presenting the old
   * one again succeeds only if it is the very token just stored.
   */
  lemma RotationRejectsOldToken(store: map<string, Token>, users: seq<User>, presented: Token, secret: string,
                                now: int, lifetime: int, later: int)
    requires RefreshDecision(store, users, presented, secret, now).Ok?
    ensures var user := RefreshDecision(store, users, presented, secret, now).value;
      var rotated := Issue(user, REFRESH, lifetime, now, secret);
      RefreshDecision(store[RefreshKey(user.id) := rotated], users, presented, secret, later).Ok? ==> rotated == presented
  {
  }

  /**
   * The exception: two refresh tokens for one user issued in the same
   * second with the same lifetime are the same token, so within that second
   * rotation leaves the presented token valid.
   */
  lemma SameSecondRotationKeepsToken(store: map<string, Token>, users: seq<User>, user: User, lifetime: int,
                                     now: int, secret: string)
    requires UsersValid(users) && user in users
    requires RefreshDecision(store, users, Issue(user, REFRESH, lifetime, now, secret), secret, now).Ok?
    ensures var presented := Issue(user, REFRESH, lifetime, now, secret);
      var rotated := Issue(RefreshDecision(store, users, presented, secret, now).value, REFRESH, lifetime, now, secret);
      && rotated == presented
      && RefreshDecision(store[RefreshKey(user.id) := rotated], users, presented, secret, now).Ok?
  {
  }

  /** After logout no refresh token of that user is accepted. */
  lemma LogoutBlocksRefresh(store: map<string, Token>, users: seq<User>, userId: int, t: Token, secret: string, now: int)
    requires t.Signed? && t.claims.userId == userId
    ensures RefreshDecision(store - {RefreshKey(userId)}, users, t, secret, now).Err?
  {
  }

  /** Logging one user out leaves every other user's refresh token in place. */
  lemma {:induction false} LogoutLeavesOthers(store: map<string, Token>, a: int, b: int)
    requires a != b
    ensures RefreshKey(b) in store ==>
      RefreshKey(b) in store - {RefreshKey(a)} && (store - {RefreshKey(a)})[RefreshKey(b)] == store[RefreshKey(b)]
  {
    if RefreshKey(a) == RefreshKey(b) {
      RefreshKeyInjective(a, b);
    }
  }

  class Service {
    const secret: string
    const accessLifetime: int
    const refreshLifetime: int
    /** The users table, in id order. */
    var users: seq<User>
    /** The key/value store holding each user's current refresh token. */
    var store: map<string, Token>

    ghost predicate Valid()
      reads this
    {
      UsersValid(users)
    }

    constructor (secret: string, accessLifetime: int, refreshLifetime: int)
      ensures Valid() && users == [] && store == map[]
      ensures this.secret == secret && this.accessLifetime == accessLifetime && this.refreshLifetime == refreshLifetime
    {
      this.secret := secret;
      this.accessLifetime := accessLifetime;
      this.refreshLifetime := refreshLifetime;
      users := [];
      store := map[];
    }

    /**
     * `Register`: the username is checked first, then the email; either
     * taken gives `UserExists` and nothing is created. `hashFault` is an
     * error from bcrypt, if any.
     */
    method Register(username: string, email: string, password: string, hashFault: Option<string>)
      returns (r: Result<User, AuthError>)
      requires Valid()
      modifies this
      ensures Valid() && store == old(store)
      ensures (exists i :: 0 <= i < |old(users)| && old(users)[i].username == username) ==>
        r == Err(UserExists) && users == old(users)
      ensures (exists i :: 0 <= i < |old(users)| && old(users)[i].email == email) ==>
        r == Err(UserExists) && users == old(users)
      ensures r.Err? ==> users == old(users)
      ensures r.Ok? <==>
        && (forall i :: 0 <= i < |old(users)| ==> old(users)[i].username != username && old(users)[i].email != email)
        && hashFault.None?
      ensures r.Ok? ==> r.value == User(|old(users)| + 1, username, email, Bcrypt(password)) && users == old(users) + [r.value]
    {
      var i := 0;
      while i < |users|
        invariant 0 <= i <= |users|
        invariant forall k :: 0 <= k < i ==> users[k].username != username
      {
        if users[i].username == username {
          return Err(UserExists);
        }
        i := i + 1;
      }
      i := 0;
      while i < |users|
        invariant 0 <= i <= |users|
        invariant forall k :: 0 <= k < i ==> users[k].email != email
      {
        if users[i].email == email {
          return Err(UserExists);
        }
        i := i + 1;
      }
      if hashFault.Some? {
        return Err(Failure(hashFault.value));
      }
      var user := User(|users| + 1, username, email, Bcrypt(password));
      users := users + [user];
      r := Ok(user);
    }

    /**
     * `Login`: an unknown username and a wrong password are the same
     * error; on success the refresh token replaces the user's stored one.
     */
    method Login(username: string, password: string, now: int, storeFault: Option<string>)
      returns (r: Result<AuthResponse, AuthError>)
      modifies this
      ensures users == old(users)
      ensures FindByUsername(users, username).None? ==> r == Err(InvalidCredentials) && store == old(store)
      ensures FindByUsername(users, username).Some? && !HashMatches(FindByUsername(users, username).value.passwordHash, password) ==>
        r == Err(InvalidCredentials) && store == old(store)
      ensures r.Err? ==> store == old(store)
      ensures r.Ok? <==>
        FindByUsername(users, username).Some? && HashMatches(FindByUsername(users, username).value.passwordHash, password)
        && storeFault.None?
      ensures r.Ok? ==>
        var user := FindByUsername(users, username).value;
        && r.value == AuthResponse(Issue(user, ACCESS, accessLifetime, now, secret),
                                   Issue(user, REFRESH, refreshLifetime, now, secret), accessLifetime, BEARER)
        && store == old(store)[RefreshKey(user.id) := r.value.refreshToken]
    {
      var found := FindByUsername(users, username);
      if found.None? {
        return Err(InvalidCredentials);
      }
      var user := found.value;
      if !HashMatches(user.passwordHash, password) {
        return Err(InvalidCredentials);
      }
      var access := Issue(user, ACCESS, accessLifetime, now, secret);
      var refresh := Issue(user, REFRESH, refreshLifetime, now, secret);
      if storeFault.Some? {
        return Err(Failure(storeFault.value));
      }
      store := store[RefreshKey(user.id) := refresh];
      r := Ok(AuthResponse(access, refresh, accessLifetime, BEARER));
    }

    /** `Refresh`: checks the presented token against the store, then rotates it. */
    method Refresh(t: Token, now: int, storeFault: Option<string>) returns (r: Result<AuthResponse, AuthError>)
      modifies this
      ensures users == old(users)
      ensures RefreshDecision(old(store), users, t, secret, now).Err? ==>
        r == Err(RefreshDecision(old(store), users, t, secret, now).error) && store == old(store)
      ensures RefreshDecision(old(store), users, t, secret, now).Ok? && storeFault.Some? ==>
        r == Err(Failure(storeFault.value)) && store == old(store)
      ensures RefreshDecision(old(store), users, t, secret, now).Ok? && storeFault.None? ==>
        var user := RefreshDecision(old(store), users, t, secret, now).value;
        && r == Ok(AuthResponse(Issue(user, ACCESS, accessLifetime, now, secret),
                                Issue(user, REFRESH, refreshLifetime, now, secret), accessLifetime, BEARER))
        && store == old(store)[RefreshKey(user.id) := r.value.refreshToken]
    {
      var claims := ValidateToken(t, secret, now);
      if claims.Err? {
        return Err(claims.error);
      }
      if claims.value.tokenType != REFRESH {
        return Err(InvalidToken);
      }
      var key := RefreshKey(claims.value.userId);
      if key !in store {
        return Err(InvalidToken);
      }
      if store[key] != t {
        return Err(InvalidToken);
      }
      var found := FindById(users, claims.value.userId);
      if found.None? {
        return Err(UserNotFound);
      }
      var user := found.value;
      var access := Issue(user, ACCESS, accessLifetime, now, secret);
      var refresh := Issue(user, REFRESH, refreshLifetime, now, secret);
      if storeFault.Some? {
        return Err(Failure(storeFault.value));
      }
      store := store[key := refresh];
      r := Ok(AuthResponse(access, refresh, accessLifetime, BEARER));
    }

    /** `Logout`: deletes the user's stored refresh token; deleting a missing key is not an error. */
    method Logout(userId: int, storeFault: Option<string>) returns (r: Option<AuthError>)
      modifies this
      ensures users == old(users)
      ensures storeFault.Some? ==> r == Some(Failure(storeFault.value)) && store == old(store)
      ensures storeFault.None? ==> r.None? && store == old(store) - {RefreshKey(userId)}
    {
      if storeFault.Some? {
        return Some(Failure(storeFault.value));
      }
      store := store - {RefreshKey(userId)};
      r := None;
    }
  }
}
