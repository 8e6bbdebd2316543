/** Which logins succeed, over runs of the authentication service: the password decides, until it is replaced. */
module AuthLogins {
  import opened Basics
  import opened Auth
  import opened AuthRuns

  // ---- One login ----

  /** The login of this name hands the new token to user `id`. */
  predicate SignsIn(h: History, id: nat, username: string, password: string, now: int, random: string, cfg: TTL) {
    var h' := Serve(h, SignIn(username, password, now, random), cfg);
    random in h'.owner && h'.owner[random] == id
  }

  /** A login hands out a token exactly to the first user of that name, if active and given the password. */
  lemma SignsInIff(h: History, id: nat, username: string, password: string, now: int, random: string, cfg: TTL)
    requires random !in h.owner
    ensures SignsIn(h, id, username, password, now, random, cfg)
            <==> IsNamed(h.t.users, id, username) && h.t.users[id].active && h.t.users[id].password.password == password
  {}

  // ---- Names and passwords over runs ----

  predicate UniqueNames(users: seq<User>) {
    forall i, j :: 0 <= i < j < |users| ==> users[i].username != users[j].username
  }

  lemma ServeKeepsNames(h: History, q: Request, cfg: TTL)
    requires UniqueNames(h.t.users)
    ensures UniqueNames(Serve(h, q, cfg).t.users)
  {}

  lemma {:induction false} ServeAllKeepsNames(h: History, requests: seq<Request>, cfg: TTL)
    requires UniqueNames(h.t.users)
    ensures UniqueNames(ServeAll(h, requests, cfg).t.users)
    decreases requests
  {
    if requests != [] {
      ServeKeepsNames(h, requests[0], cfg);
      ServeAllKeepsNames(Serve(h, requests[0], cfg), requests[1..], cfg);
    }
  }

  /** A password change by someone who knows the password. */
  predicate Replaces(q: Request, id: nat, password: string) {
    q.NewPassword? && q.userId == id && q.oldPassword == password
  }

  predicate HasPassword(h: History, id: nat, password: string) {
    id < |h.t.users| && h.t.users[id].password.password == password
  }

  lemma ServeKeepsPassword(h: History, q: Request, cfg: TTL, id: nat, password: string)
    requires HasPassword(h, id, password) && !Replaces(q, id, password)
    ensures HasPassword(Serve(h, q, cfg), id, password)
  {}

  lemma {:induction false} ServeAllKeepsPassword(h: History, requests: seq<Request>, cfg: TTL, id: nat, password: string)
    requires HasPassword(h, id, password) && forall q :: q in requests ==> !Replaces(q, id, password)
    ensures HasPassword(ServeAll(h, requests, cfg), id, password)
    decreases requests
  {
    if requests != [] {
      ServeKeepsPassword(h, requests[0], cfg, id, password);
      ServeAllKeepsPassword(Serve(h, requests[0], cfg), requests[1..], cfg, id, password);
    }
  }

  /** The user logs in under the name of the moment exactly while active and exactly with this password. */
  ghost predicate OnlyOpensWith(h: History, id: nat, password: string, cfg: TTL) {
    id < |h.t.users| &&
    forall attempt, now, random :: random !in h.owner ==>
      (SignsIn(h, id, h.t.users[id].username, attempt, now, random, cfg)
       <==> h.t.users[id].active && attempt == password)
  }

  lemma PasswordOpens(h: History, id: nat, password: string, cfg: TTL)
    requires UniqueNames(h.t.users) && HasPassword(h, id, password)
    ensures OnlyOpensWith(h, id, password, cfg)
  {
    forall attempt, now, random | random !in h.owner
      ensures SignsIn(h, id, h.t.users[id].username, attempt, now, random, cfg)
              <==> h.t.users[id].active && attempt == password
    {
      SignsInIff(h, id, h.t.users[id].username, attempt, now, random, cfg);
    }
  }

  /** After a successful password change, and until someone who knows the new password changes it again, the user's
      logins succeed exactly with the new password. */
  lemma NewPasswordOpens(before: seq<Request>, q: Request, after: seq<Request>, cfg: TTL)
    requires q.NewPassword? && PossibleRun(NOTHING, before + ([q] + after), cfg)
    requires HasPassword(ServeAll(NOTHING, before, cfg), q.userId, q.oldPassword)
    requires forall r :: r in after ==> !Replaces(r, q.userId, q.newPassword)
    ensures OnlyOpensWith(ServeAll(NOTHING, before + ([q] + after), cfg), q.userId, q.newPassword, cfg)
  {
    SplitRun(NOTHING, before, [q] + after, cfg);
    var h := ServeAll(NOTHING, before, cfg);
    assert ([q] + after)[0] == q && ([q] + after)[1..] == after;
    ServeAllKeepsPassword(Serve(h, q, cfg), after, cfg, q.userId, q.newPassword);
    ServeAllKeepsNames(NOTHING, before + ([q] + after), cfg);
    PasswordOpens(ServeAll(NOTHING, before + ([q] + after), cfg), q.userId, q.newPassword, cfg);
  }

  /** A sign-up under a free name and address creates an active account, and until its password is replaced its
      logins succeed exactly with the password it signed up with. */
  lemma SignUpOpens(before: seq<Request>, q: Request, after: seq<Request>, cfg: TTL)
    requires q.SignUp? && PossibleRun(NOTHING, before + ([q] + after), cfg)
    requires forall u :: u in ServeAll(NOTHING, before, cfg).t.users ==> u.username != q.username && u.email != q.email
    requires forall r :: r in after ==> !Replaces(r, |ServeAll(NOTHING, before, cfg).t.users|, q.password)
    ensures var h, id := ServeAll(NOTHING, before, cfg), |ServeAll(NOTHING, before, cfg).t.users|;
            && |Serve(h, q, cfg).t.users| == id + 1 && Serve(h, q, cfg).t.users[id].active
            && Serve(h, q, cfg).t.users[id].username == q.username
            && OnlyOpensWith(ServeAll(NOTHING, before + ([q] + after), cfg), id, q.password, cfg)
  {
    SplitRun(NOTHING, before, [q] + after, cfg);
    var h := ServeAll(NOTHING, before, cfg);
    var id := |h.t.users|;
    assert ([q] + after)[0] == q && ([q] + after)[1..] == after;
    assert !Taken(h.t.users, q.username, q.email, id);
    ServeAllKeepsPassword(Serve(h, q, cfg), after, cfg, id, q.password);
    ServeAllKeepsNames(NOTHING, before + ([q] + after), cfg);
    PasswordOpens(ServeAll(NOTHING, before + ([q] + after), cfg), id, q.password, cfg);
  }

  // ---- Disabled accounts ----

  predicate Enables(q: Request, id: nat) {
    q.EditUser? && q.userId == id && q.active == Some(true)
  }

  predicate Inactive(h: History, id: nat) {
    id < |h.t.users| && !h.t.users[id].active
  }

  lemma ServeKeepsInactive(h: History, q: Request, cfg: TTL, id: nat)
    requires Inactive(h, id) && !Enables(q, id)
    ensures Inactive(Serve(h, q, cfg), id)
  {}

  lemma {:induction false} ServeAllKeepsInactive(h: History, requests: seq<Request>, cfg: TTL, id: nat)
    requires Inactive(h, id) && forall q :: q in requests ==> !Enables(q, id)
    ensures Inactive(ServeAll(h, requests, cfg), id)
    decreases requests
  {
    if requests != [] {
      ServeKeepsInactive(h, requests[0], cfg, id);
      ServeAllKeepsInactive(Serve(h, requests[0], cfg), requests[1..], cfg, id);
    }
  }

  /** Until a disabled account is enabled again no login, under any name and with any password, opens it. */
  lemma DisabledStaysShut(before: seq<Request>, id: nat, after: seq<Request>, username: string, password: string,
                          now: int, random: string, cfg: TTL)
    requires PossibleRun(NOTHING, before + ([Disable(id)] + after), cfg)
    requires id < |ServeAll(NOTHING, before, cfg).t.users|
    requires forall q :: q in after ==> !Enables(q, id)
    requires random !in ServeAll(NOTHING, before + ([Disable(id)] + after), cfg).owner
    ensures !SignsIn(ServeAll(NOTHING, before + ([Disable(id)] + after), cfg), id, username, password, now, random, cfg)
  {
    var q := Disable(id);
    SplitRun(NOTHING, before, [q] + after, cfg);
    assert ([q] + after)[0] == q && ([q] + after)[1..] == after;
    ServeAllKeepsInactive(Serve(ServeAll(NOTHING, before, cfg), q, cfg), after, cfg, id);
    SignsInIff(ServeAll(NOTHING, before + ([q] + after), cfg), id, username, password, now, random, cfg);
  }

  /** An edit takes over the fields it gives, unless another account has the name or the address. */
  lemma EditTakes(h: History, q: Request, cfg: TTL)
    requires q.EditUser? && q.userId < |h.t.users|
    ensures var user, h' := h.t.users[q.userId], Serve(h, q, cfg);
            var name := if q.newName.Some? then q.newName.value else user.username;
            var email := if q.newEmail.Some? then q.newEmail.value else user.email;
            var active := if q.active.Some? then q.active.value else user.active;
            var edited := user.(username := name, email := email, active := active);
            h' == if forall i :: 0 <= i < |h.t.users| && i != q.userId ==>
                       h.t.users[i].username != name && h.t.users[i].email != email
                  then h.(t := h.t.(users := h.t.users[q.userId := edited]))
                  else h
  {}

  // ---- Signing out ----

  lemma {:induction false} OtherStaysFound(tokens: seq<RefreshRow>, deleted: TokenHash, other: TokenHash)
    requires deleted != other
    ensures FindToken(DeleteToken(tokens, deleted), other) == FindToken(tokens, other)
  {
    if tokens != [] {
      OtherStaysFound(tokens[1..], deleted, other);
      HeadAndRest(tokens[0], DeleteToken(tokens[1..], deleted));
    }
  }

  /** A token that was signed out is never accepted again, and no other token is affected. */
  lemma SignOutRevokes(before: seq<Request>, token: string, after: seq<Request>, later: int, other: string, cfg: TTL)
    requires PossibleRun(NOTHING, before + ([SignOut(token)] + after), cfg)
    requires token in ServeAll(NOTHING, before, cfg).owner && other != token
    ensures !Accepts(ServeAll(NOTHING, before + ([SignOut(token)] + after), cfg), token, later, cfg)
    ensures var h := ServeAll(NOTHING, before, cfg);
            Accepts(Serve(h, SignOut(token), cfg), other, later, cfg) <==> Accepts(h, other, later, cfg)
  {
    var q := SignOut(token);
    SplitRun(NOTHING, before, [q] + after, cfg);
    var h := ServeAll(NOTHING, before, cfg);
    ServeAllKeeps(NOTHING, before, cfg);
    assert ([q] + after)[0] == q && ([q] + after)[1..] == after;
    var h' := Serve(h, q, cfg);
    assert Spent(h', token);
    ServeKeeps(h, q, cfg);
    SpentForEver(h', after, cfg, token);
    OtherStaysFound(h.t.tokens, Sha256(token), Sha256(other));
  }
}
