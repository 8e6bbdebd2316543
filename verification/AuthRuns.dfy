/** Runs of the authentication service, one request after the other: which refresh tokens are accepted. */
module AuthRuns {
  import opened Basics
  import opened Auth

  datatype Request =
    | SignUp(username: string, email: string, password: string, salt: string)
    | SignIn(username: string, password: string, now: int, random: string)
    | Rotate(token: string, now: int, random: string)
    | SignOut(token: string)
    | NewPassword(userId: nat, oldPassword: string, newPassword: string, salt: string)
    | EditUser(userId: nat, newName: Option<string>, newEmail: Option<string>, active: Option<bool>)
    | Disable(userId: nat)

  /** The tables with their history: the owner of every token handed out, and for each user the successful
      logins since the last successful password change. */
  datatype History = History(t: Tables, owner: map<string, nat>, logins: map<nat, nat>)

  function LoginsOf(h: History, userId: nat): nat {
    if userId in h.logins then h.logins[userId] else 0
  }

  /** Random tokens never repeat. */
  predicate Possible(h: History, q: Request) {
    match q
    case SignIn(_, _, _, random) => random !in h.owner
    case Rotate(_, _, random) => random !in h.owner
    case _ => true
  }

  function Serve(h: History, q: Request, cfg: TTL): History {
    match q
    case SignUp(username, email, password, salt) => h.(t := Register(h.t, username, email, password, salt).0)
    case SignIn(username, password, now, random) =>
      var (t, r) := Login(h.t, username, password, now, random, cfg);
      if r.Failure? then h.(t := t)
      else
        var id := r.value.access.sub;
        History(t, h.owner[random := id], h.logins[id := LoginsOf(h, id) + 1])
    case Rotate(token, now, random) =>
      var (t, r) := Refresh(h.t, token, now, random, cfg);
      if r.Failure? then h.(t := t) else h.(t := t, owner := h.owner[random := r.value.access.sub])
    case SignOut(token) => h.(t := Logout(h.t, token))
    case NewPassword(id, oldPassword, newPassword, salt) =>
      var (t, error) := ChangePassword(h.t, id, oldPassword, newPassword, salt);
      if error.Some? then h.(t := t) else h.(t := t, logins := h.logins[id := 0])
    case EditUser(id, username, email, active) => h.(t := UpdateUser(h.t, id, username, email, active).0)
    case Disable(id) => h.(t := DeleteUser(h.t, id))
  }

  ghost predicate PossibleRun(h: History, requests: seq<Request>, cfg: TTL)
    decreases requests
  {
    requests == [] || (Possible(h, requests[0]) && PossibleRun(Serve(h, requests[0], cfg), requests[1..], cfg))
  }

  function ServeAll(h: History, requests: seq<Request>, cfg: TTL): History
    decreases requests
  {
    if requests == [] then h else ServeAll(Serve(h, requests[0], cfg), requests[1..], cfg)
  }

  const NOTHING := History(Tables([], []), map[], map[])

  /** The service answers a rotation of this token, at this time, with a new pair. */
  predicate Accepts(h: History, token: string, now: int, cfg: TTL) {
    Refresh(h.t, token, now, "", cfg).1.Success?
  }

  // ---- The invariant ----

  predicate OwnedBy(row: RefreshRow, owner: map<string, nat>) {
    row.hash.token in owner && owner[row.hash.token] == row.userId
  }

  function Stored(tokens: seq<RefreshRow>, userId: nat): nat {
    if tokens == [] then 0 else (if tokens[0].userId == userId then 1 else 0) + Stored(tokens[1..], userId)
  }

  ghost predicate HistoryOk(h: History) {
    && (forall row :: row in h.t.tokens ==> OwnedBy(row, h.owner))
    && (forall token :: token in h.owner ==> h.owner[token] < |h.t.users|)
    && (forall id :: Stored(h.t.tokens, id) <= LoginsOf(h, id))
  }

  // ---- Counting stored tokens ----

  lemma {:induction false} StoredAppend(tokens: seq<RefreshRow>, row: RefreshRow, userId: nat)
    ensures Stored(tokens + [row], userId) == Stored(tokens, userId) + if row.userId == userId then 1 else 0
  {
    if tokens != [] {
      assert (tokens + [row])[1..] == tokens[1..] + [row];
      StoredAppend(tokens[1..], row, userId);
    } else {
      assert (tokens + [row])[1..] == [];
    }
  }

  lemma HeadAndRest(row: RefreshRow, rest: seq<RefreshRow>)
    ensures ([row] + rest)[1..] == rest && [] + rest == rest
  {}

  /** Deleting a stored token takes at least its own row from its owner's count, and adds to nobody's. */
  lemma {:induction false} StoredAfterDelete(tokens: seq<RefreshRow>, hash: TokenHash, userId: nat)
    ensures Stored(DeleteToken(tokens, hash), userId) <= Stored(tokens, userId)
    ensures FindToken(tokens, hash).Some? && FindToken(tokens, hash).value.userId == userId ==>
              Stored(DeleteToken(tokens, hash), userId) < Stored(tokens, userId)
  {
    if tokens != [] {
      StoredAfterDelete(tokens[1..], hash, userId);
      HeadAndRest(tokens[0], DeleteToken(tokens[1..], hash));
    }
  }

  lemma {:induction false} StoredAfterPurge(tokens: seq<RefreshRow>, purged: nat, userId: nat)
    ensures Stored(DeleteUserTokens(tokens, purged), userId) == if userId == purged then 0 else Stored(tokens, userId)
  {
    if tokens != [] {
      StoredAfterPurge(tokens[1..], purged, userId);
      HeadAndRest(tokens[0], DeleteUserTokens(tokens[1..], purged));
    }
  }

  // ---- Each request keeps the invariant ----

  lemma DeleteKeeps(h: History, token: string)
    requires HistoryOk(h)
    ensures HistoryOk(h.(t := Logout(h.t, token)))
  {
    forall id ensures Stored(Logout(h.t, token).tokens, id) <= LoginsOf(h, id) {
      StoredAfterDelete(h.t.tokens, Sha256(token), id);
    }
  }

  lemma IssueKeeps(h: History, id: nat, random: string, expiresAt: int, logins: map<nat, nat>)
    requires HistoryOk(h) && random !in h.owner && id < |h.t.users|
    requires forall u :: LoginsOf(h.(logins := logins), u)
                         >= Stored(h.t.tokens, u) + if u == id then 1 else 0
    ensures HistoryOk(History(h.t.(tokens := h.t.tokens + [RefreshRow(id, Sha256(random), expiresAt)]),
                              h.owner[random := id], logins))
  {
    var row := RefreshRow(id, Sha256(random), expiresAt);
    forall u ensures Stored(h.t.tokens + [row], u) == Stored(h.t.tokens, u) + if u == id then 1 else 0 {
      StoredAppend(h.t.tokens, row, u);
    }
    forall r | r in h.t.tokens ensures r.hash != Sha256(random) {
      assert OwnedBy(r, h.owner);
    }
  }

  lemma LoginKeeps(h: History, q: Request, cfg: TTL)
    requires q.SignIn? && HistoryOk(h) && Possible(h, q)
    ensures HistoryOk(Serve(h, q, cfg))
  {
    var (t, r) := Login(h.t, q.username, q.password, q.now, q.random, cfg);
    if r.Success? {
      var id := r.value.access.sub;
      IssueKeeps(h.(t := Tables(t.users, h.t.tokens)), id, q.random, q.now + cfg.refresh,
                 h.logins[id := LoginsOf(h, id) + 1]);
    }
  }

  lemma RotateKeeps(h: History, q: Request, cfg: TTL)
    requires q.Rotate? && HistoryOk(h) && Possible(h, q)
    ensures HistoryOk(Serve(h, q, cfg))
  {
    var found := FindToken(h.t.tokens, Sha256(q.token));
    DeleteKeeps(h, q.token);
    if Refresh(h.t, q.token, q.now, q.random, cfg).1.Success? {
      var id := found.value.userId;
      forall u ensures Stored(Logout(h.t, q.token).tokens, u) + (if u == id then 1 else 0) <= LoginsOf(h, u) {
        StoredAfterDelete(h.t.tokens, Sha256(q.token), u);
      }
      IssueKeeps(h.(t := Logout(h.t, q.token)), id, q.random, q.now + cfg.refresh, h.logins);
    }
  }

  lemma NewPasswordKeeps(h: History, q: Request, cfg: TTL)
    requires q.NewPassword? && HistoryOk(h)
    ensures HistoryOk(Serve(h, q, cfg))
  {
    forall u ensures Stored(DeleteUserTokens(h.t.tokens, q.userId), u)
                     == if u == q.userId then 0 else Stored(h.t.tokens, u)
    {
      StoredAfterPurge(h.t.tokens, q.userId, u);
    }
  }

  lemma ServeKeeps(h: History, q: Request, cfg: TTL)
    requires HistoryOk(h) && Possible(h, q)
    ensures HistoryOk(Serve(h, q, cfg))
  {
    match q
    case SignIn(_, _, _, _) => LoginKeeps(h, q, cfg);
    case Rotate(_, _, _) => RotateKeeps(h, q, cfg);
    case SignOut(token) => DeleteKeeps(h, token);
    case NewPassword(_, _, _, _) => NewPasswordKeeps(h, q, cfg);
    case _ =>
  }

  lemma {:induction false} ServeAllKeeps(h: History, requests: seq<Request>, cfg: TTL)
    requires HistoryOk(h) && PossibleRun(h, requests, cfg)
    ensures HistoryOk(ServeAll(h, requests, cfg))
    decreases requests
  {
    if requests != [] {
      ServeKeeps(h, requests[0], cfg);
      ServeAllKeeps(Serve(h, requests[0], cfg), requests[1..], cfg);
    }
  }

  // ---- Spent tokens ----

  /** A token that was handed out and is no longer stored. */
  predicate Spent(h: History, token: string) {
    token in h.owner && FindToken(h.t.tokens, Sha256(token)).None?
  }

  lemma ServeKeepsSpent(h: History, q: Request, cfg: TTL, token: string)
    requires HistoryOk(h) && Possible(h, q) && Spent(h, token)
    ensures Spent(Serve(h, q, cfg), token)
    ensures h.owner[token] == Serve(h, q, cfg).owner[token]
  {
    var h' := Serve(h, q, cfg);
    forall row | row in h'.t.tokens ensures row.hash != Sha256(token) {}
  }

  lemma {:induction false} SpentForEver(h: History, requests: seq<Request>, cfg: TTL, token: string)
    requires HistoryOk(h) && PossibleRun(h, requests, cfg) && Spent(h, token)
    ensures Spent(ServeAll(h, requests, cfg), token)
    decreases requests
  {
    if requests != [] {
      ServeKeepsSpent(h, requests[0], cfg, token);
      ServeKeeps(h, requests[0], cfg);
      SpentForEver(Serve(h, requests[0], cfg), requests[1..], cfg, token);
    }
  }

  lemma {:induction false} SplitRun(h: History, a: seq<Request>, b: seq<Request>, cfg: TTL)
    requires PossibleRun(h, a + b, cfg)
    ensures PossibleRun(h, a, cfg) && PossibleRun(ServeAll(h, a, cfg), b, cfg)
    ensures ServeAll(h, a + b, cfg) == ServeAll(ServeAll(h, a, cfg), b, cfg)
    decreases a
  {
    if a == [] {
      assert a + b == b;
    } else {
      assert (a + b)[1..] == a[1..] + b;
      SplitRun(Serve(h, a[0], cfg), a[1..], b, cfg);
    }
  }

  /** A refresh token is accepted at most once: after any run, once a rotation of it has been answered with a
      new pair, no continuation accepts it again, at any time. */
  lemma AcceptedOnce(before: seq<Request>, token: string, now: int, random: string, after: seq<Request>,
                     later: int, cfg: TTL)
    requires PossibleRun(NOTHING, before + ([Rotate(token, now, random)] + after), cfg)
    requires Accepts(ServeAll(NOTHING, before, cfg), token, now, cfg)
    ensures !Accepts(ServeAll(NOTHING, before + ([Rotate(token, now, random)] + after), cfg), token, later, cfg)
  {
    SplitRun(NOTHING, before, [Rotate(token, now, random)] + after, cfg);
    var h := ServeAll(NOTHING, before, cfg);
    ServeAllKeeps(NOTHING, before, cfg);
    var q := Rotate(token, now, random);
    assert ([q] + after)[1..] == after && ([q] + after)[0] == q;
    var row := FindToken(h.t.tokens, Sha256(token)).value;
    assert OwnedBy(row, h.owner);
    var h' := Serve(h, q, cfg);
    assert Spent(h', token);
    ServeKeeps(h, q, cfg);
    SpentForEver(h', after, cfg, token);
  }

  /** A successful password change ends every session: no token handed out to the user before it is accepted
      after it. */
  lemma PasswordChangeRevokes(before: seq<Request>, q: Request, after: seq<Request>, token: string, later: int, cfg: TTL)
    requires q.NewPassword? && PossibleRun(NOTHING, before + ([q] + after), cfg)
    requires var h := ServeAll(NOTHING, before, cfg);
             && ChangePassword(h.t, q.userId, q.oldPassword, q.newPassword, q.salt).1.None?
             && token in h.owner && h.owner[token] == q.userId
    ensures !Accepts(ServeAll(NOTHING, before + ([q] + after), cfg), token, later, cfg)
  {
    SplitRun(NOTHING, before, [q] + after, cfg);
    var h := ServeAll(NOTHING, before, cfg);
    ServeAllKeeps(NOTHING, before, cfg);
    assert ([q] + after)[1..] == after && ([q] + after)[0] == q;
    var h' := Serve(h, q, cfg);
    forall row | row in h'.t.tokens ensures row.hash != Sha256(token) {
      assert OwnedBy(row, h.owner);
    }
    assert Spent(h', token);
    ServeKeeps(h, q, cfg);
    SpentForEver(h', after, cfg, token);
  }

  /** A user's stored tokens never exceed the successful logins since the last password change. */
  lemma StoredAtMostLogins(requests: seq<Request>, cfg: TTL, userId: nat)
    requires PossibleRun(NOTHING, requests, cfg)
    ensures var h := ServeAll(NOTHING, requests, cfg); Stored(h.t.tokens, userId) <= LoginsOf(h, userId)
  {
    ServeAllKeeps(NOTHING, requests, cfg);
  }

  /** In any history, a token is accepted exactly when its row is still stored and has not expired; whether the
      account has been disabled meanwhile plays no part, unlike at login. */
  lemma AcceptedIff(requests: seq<Request>, token: string, now: int, disabled: nat, cfg: TTL)
    requires PossibleRun(NOTHING, requests, cfg)
    ensures var h := ServeAll(NOTHING, requests, cfg);
            var row := FindToken(h.t.tokens, Sha256(token));
            && (Accepts(h, token, now, cfg) <==> row.Some? && now <= row.value.expiresAt)
            && (Accepts(Serve(h, Disable(disabled), cfg), token, now, cfg) <==> Accepts(h, token, now, cfg))
  {
    ServeAllKeeps(NOTHING, requests, cfg);
    var h := ServeAll(NOTHING, requests, cfg);
    var row := FindToken(h.t.tokens, Sha256(token));
    if row.Some? {
      assert OwnedBy(row.value, h.owner);
    }
  }
}
