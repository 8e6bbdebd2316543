/** internal/service/auth_service.go on the user and refresh token tables. */
module Auth {
  import opened Basics

  /** SHA-256 of a refresh token and bcrypt of a salted password, as injective functions. */
  datatype TokenHash = Sha256(token: string)

  datatype PasswordHash = Bcrypt(password: string, salt: string) {
    predicate Matches(attempt: string) {
      attempt == password
    }
  }

  datatype User = User(username: string, email: string, password: PasswordHash, active: bool, lastLogin: Option<int>)

  datatype RefreshRow = RefreshRow(userId: nat, hash: TokenHash, expiresAt: int)

  /** users[id] is the row with that id; rows are never removed. */
  datatype Tables = Tables(users: seq<User>, tokens: seq<RefreshRow>)

  datatype AccessToken = AccessToken(sub: nat, expires: int)

  datatype TokenPair = TokenPair(access: AccessToken, refresh: string)

  datatype AuthError =
    | InvalidCredentials | AccountDisabled | InvalidRefreshToken | RefreshTokenExpired
    | NoSuchUser | IncorrectPassword | Duplicate

  // ---- The repository ----

  /** The first user of that name. */
  predicate IsNamed(users: seq<User>, id: nat, username: string) {
    id < |users| && users[id].username == username && forall i :: 0 <= i < id ==> users[i].username != username
  }

  function UserByName(users: seq<User>, username: string): (id: nat)
    ensures id <= |users| && (id < |users| ==> users[id].username == username)
    ensures forall i :: 0 <= i < id ==> users[i].username != username
    ensures forall i: nat :: IsNamed(users, i, username) ==> i == id
  {
    if users == [] || users[0].username == username then 0 else 1 + UserByName(users[1..], username)
  }

  function FindToken(tokens: seq<RefreshRow>, hash: TokenHash): (row: Option<RefreshRow>)
    ensures row.Some? ==> row.value in tokens && row.value.hash == hash
    ensures row.None? ==> forall r :: r in tokens ==> r.hash != hash
  {
    if tokens == [] then None
    else if tokens[0].hash == hash then Some(tokens[0])
    else FindToken(tokens[1..], hash)
  }

  function DeleteToken(tokens: seq<RefreshRow>, hash: TokenHash): (rest: seq<RefreshRow>)
    ensures forall r :: r in rest <==> r in tokens && r.hash != hash
  {
    if tokens == [] then []
    else (if tokens[0].hash == hash then [] else [tokens[0]]) + DeleteToken(tokens[1..], hash)
  }

  function DeleteUserTokens(tokens: seq<RefreshRow>, userId: nat): (rest: seq<RefreshRow>)
    ensures forall r :: r in rest <==> r in tokens && r.userId != userId
  {
    if tokens == [] then []
    else (if tokens[0].userId == userId then [] else [tokens[0]]) + DeleteUserTokens(tokens[1..], userId)
  }

  /** The unique indexes on username and email. */
  predicate Taken(users: seq<User>, username: string, email: string, except: nat) {
    exists i :: 0 <= i < |users| && i != except && (users[i].username == username || users[i].email == email)
  }

  // ---- The operations on values ----

  function Issue(t: Tables, userId: nat, now: int, random: string, cfg: TTL): (Tables, TokenPair) {
    (t.(tokens := t.tokens + [RefreshRow(userId, Sha256(random), now + cfg.refresh)]),
     TokenPair(AccessToken(userId, now + cfg.access), random))
  }

  datatype TTL = TTL(access: int, refresh: int)

  function Login(t: Tables, username: string, password: string, now: int, random: string, cfg: TTL)
    : (Tables, Result<TokenPair, AuthError>)
  {
    var id := UserByName(t.users, username);
    if id == |t.users| then (t, Failure(InvalidCredentials))
    else if !t.users[id].active then (t, Failure(AccountDisabled))
    else if !t.users[id].password.Matches(password) then (t, Failure(InvalidCredentials))
    else
      var (t', pair) := Issue(t.(users := t.users[id := t.users[id].(lastLogin := Some(now))]), id, now, random, cfg);
      (t', Success(pair))
  }

  function Refresh(t: Tables, token: string, now: int, random: string, cfg: TTL): (Tables, Result<TokenPair, AuthError>) {
    match FindToken(t.tokens, Sha256(token))
    case None => (t, Failure(InvalidRefreshToken))
    case Some(row) =>
      var rest := t.(tokens := DeleteToken(t.tokens, Sha256(token)));
      if now > row.expiresAt then (rest, Failure(RefreshTokenExpired))
      else if row.userId >= |t.users| then (rest, Failure(NoSuchUser))
      else var (t', pair) := Issue(rest, row.userId, now, random, cfg); (t', Success(pair))
  }

  function Logout(t: Tables, token: string): Tables {
    t.(tokens := DeleteToken(t.tokens, Sha256(token)))
  }

  function ChangePassword(t: Tables, userId: nat, oldPassword: string, newPassword: string, salt: string)
    : (Tables, Option<AuthError>)
  {
    if userId >= |t.users| then (t, Some(NoSuchUser))
    else if !t.users[userId].password.Matches(oldPassword) then (t, Some(IncorrectPassword))
    else
      (Tables(t.users[userId := t.users[userId].(password := Bcrypt(newPassword, salt))],
              DeleteUserTokens(t.tokens, userId)), None)
  }

  function Register(t: Tables, username: string, email: string, password: string, salt: string)
    : (Tables, Result<nat, AuthError>)
  {
    if Taken(t.users, username, email, |t.users|) then (t, Failure(Duplicate))
    else (t.(users := t.users + [User(username, email, Bcrypt(password, salt), true, None)]), Success(|t.users|))
  }

  function UpdateUser(t: Tables, id: nat, username: Option<string>, email: Option<string>, active: Option<bool>)
    : (Tables, Option<AuthError>)
  {
    if id >= |t.users| then (t, Some(NoSuchUser))
    else
      var u := t.users[id];
      var v := u.(username := if username.Some? then username.value else u.username,
                  email := if email.Some? then email.value else u.email,
                  active := if active.Some? then active.value else u.active);
      if Taken(t.users, v.username, v.email, id) then (t, Some(Duplicate)) else (t.(users := t.users[id := v]), None)
  }

  function DeleteUser(t: Tables, id: nat): Tables {
    if id < |t.users| then t.(users := t.users[id := t.users[id].(active := false)]) else t
  }

  // ---- The service ----

  /** The pair is this user's, with both expiries counted from `now`. */
  predicate IsPairFor(pair: TokenPair, userId: nat, now: int, random: string, cfg: TTL) {
    pair.access.sub == userId && pair.access.expires == now + cfg.access && pair.refresh == random
  }

  class AuthService {
    var users: seq<User>
    var tokens: seq<RefreshRow>
    const cfg: TTL

    constructor (cfg: TTL)
      ensures Rows() == Tables([], []) && this.cfg == cfg
    {
      users, tokens := [], [];
      this.cfg := cfg;
    }

    function Rows(): Tables
      reads this
    {
      Tables(users, tokens)
    }

    method GenerateTokenPair(userId: nat, now: int, random: string) returns (pair: TokenPair)
      modifies this
      ensures (Rows(), pair) == Issue(old(Rows()), userId, now, random, cfg)
      ensures IsPairFor(pair, userId, now, random, cfg) && users == old(users)
      ensures tokens == old(tokens) + [RefreshRow(userId, Sha256(pair.refresh), now + cfg.refresh)]
    {
      var access := AccessToken(userId, now + cfg.access);
      tokens := tokens + [RefreshRow(userId, Sha256(random), now + cfg.refresh)];
      pair := TokenPair(access, random);
    }

    method LogIn(username: string, password: string, now: int, random: string)
        returns (r: Result<TokenPair, AuthError>)
      modifies this
      ensures (Rows(), r) == Login(old(Rows()), username, password, now, random, cfg)
      ensures r.Success? <==> exists id: nat :: IsNamed(old(users), id, username) && old(users)[id].active
                                           && old(users)[id].password.password == password
      ensures r.Success? ==>
                var id := r.value.access.sub;
                && IsNamed(old(users), id, username) && IsPairFor(r.value, id, now, random, cfg)
                && users == old(users)[id := old(users)[id].(lastLogin := Some(now))]
                && tokens == old(tokens) + [RefreshRow(id, Sha256(r.value.refresh), now + cfg.refresh)]
      ensures r.Failure? ==> users == old(users) && tokens == old(tokens)
      ensures r == Failure(AccountDisabled) <==>
              exists id: nat :: IsNamed(old(users), id, username) && !old(users)[id].active
    {
      var id := UserByName(users, username);
      if id == |users| {
        return Failure(InvalidCredentials);
      }
      if !users[id].active {
        return Failure(AccountDisabled);
      }
      if !users[id].password.Matches(password) {
        return Failure(InvalidCredentials);
      }
      users := users[id := users[id].(lastLogin := Some(now))];
      var pair := GenerateTokenPair(id, now, random);
      r := Success(pair);
    }

    method RefreshToken(token: string, now: int, random: string) returns (r: Result<TokenPair, AuthError>)
      modifies this
      ensures (Rows(), r) == Refresh(old(Rows()), token, now, random, cfg)
      ensures users == old(users)
      ensures (forall row :: row in old(tokens) ==> row.hash != Sha256(token)) ==>
                r == Failure(InvalidRefreshToken) && tokens == old(tokens)
      ensures r.Failure? ==>
                forall row :: row in tokens <==> row in old(tokens) && row.hash != Sha256(token)
      ensures r.Success? ==>
                var id := r.value.access.sub;
                var issued := RefreshRow(id, Sha256(r.value.refresh), now + cfg.refresh);
                && IsPairFor(r.value, id, now, random, cfg)
                && (exists row :: row in old(tokens) && row.hash == Sha256(token) && row.userId == id
                                  && now <= row.expiresAt)
                && forall row :: row in tokens <==> (row in old(tokens) && row.hash != Sha256(token)) || row == issued
    {
      var hash := Sha256(token);
      var stored := FindToken(tokens, hash);
      if stored.None? {
        return Failure(InvalidRefreshToken);
      }
      if now > stored.value.expiresAt {
        tokens := DeleteToken(tokens, hash);
        return Failure(RefreshTokenExpired);
      }
      tokens := DeleteToken(tokens, hash);
      if stored.value.userId >= |users| {
        return Failure(NoSuchUser);
      }
      var pair := GenerateTokenPair(stored.value.userId, now, random);
      r := Success(pair);
    }

    method LogOut(token: string)
      modifies this`tokens
      ensures Rows() == Logout(old(Rows()), token)
      ensures forall row :: row in tokens <==> row in old(tokens) && row.hash != Sha256(token)
    {
      tokens := DeleteToken(tokens, Sha256(token));
    }

    method SetPassword(userId: nat, oldPassword: string, newPassword: string, salt: string)
        returns (error: Option<AuthError>)
      modifies this
      ensures (Rows(), error) == ChangePassword(old(Rows()), userId, oldPassword, newPassword, salt)
      ensures error.None? <==> userId < |old(users)| && old(users)[userId].password.password == oldPassword
      ensures error.None? ==>
                && users == old(users)[userId := old(users)[userId].(password := Bcrypt(newPassword, salt))]
                && forall row :: row in tokens <==> row in old(tokens) && row.userId != userId
      ensures error.Some? ==> users == old(users) && tokens == old(tokens)
    {
      if userId >= |users| {
        return Some(NoSuchUser);
      }
      var user := users[userId];
      if !user.password.Matches(oldPassword) {
        return Some(IncorrectPassword);
      }
      users := users[userId := user.(password := Bcrypt(newPassword, salt))];
      tokens := DeleteUserTokens(tokens, userId);
      error := None;
    }
  }
}
