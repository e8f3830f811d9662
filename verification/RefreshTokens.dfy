/** Refresh-token rotation with reuse detection (server/internal/dashboard/handlers/auth.go over the
    refresh_tokens statements of server/internal/storage/postgres.go). */
module RefreshTokens {
  import opened Sequences

  /** The opaque cookie value; its SHA-256 hash, the store's lookup key, is taken as injective. */
  type Secret = nat

  datatype Token = Token(user: string, expiresAt: int, revokedAt: Option<int>)

  type Tokens = map<Secret, Token>

  const LIFETIME := 7 * 24 * 3600

  datatype Response =
    | MissingCookie | LookupFailed | InvalidToken | ReuseDetected | Expired
    | UserNotFound | OrgNotFound | IssueFailed
    | Refreshed(issued: Secret) | LoggedOut

  datatype CookieChange = KeepCookie | ClearCookie | SetCookie(value: Secret)

  /** What one handler call meets: the clock, whether the token query succeeds, the two lookups, whether
      the revocation write and the signing and generation of the new pair succeed, and the secret drawn. */
  datatype Circumstances = Circumstances(
    now: int, lookupOk: bool, userFound: bool, orgFound: bool, revokeOk: bool, issueOk: bool, drawn: Secret)

  datatype Outcome = Outcome(tokens: Tokens, response: Response, cookie: CookieChange)

  // ---------------------------------------------------------------- store statements

  /** UPDATE ... SET revoked_at = now() WHERE id = $1. */
  function Revoke(tokens: Tokens, t: Secret, now: int): Tokens {
    if t in tokens then tokens[t := tokens[t].(revokedAt := Some(now))] else tokens
  }

  /** UPDATE ... WHERE user_id = $1 AND revoked_at IS NULL. */
  function RevokeAll(tokens: Tokens, user: string, now: int): Tokens {
    map t | t in tokens ::
      if tokens[t].user == user && tokens[t].revokedAt.None? then tokens[t].(revokedAt := Some(now)) else tokens[t]
  }

  /** INSERT of a fresh token; the hash column is unique. */
  function Issue(tokens: Tokens, user: string, c: Circumstances): Option<Tokens> {
    if c.issueOk && c.drawn !in tokens then Some(tokens[c.drawn := Token(user, c.now + LIFETIME, None)]) else None
  }

  // ---------------------------------------------------------------- handlers

  function Refresh(tokens: Tokens, cookie: Option<Secret>, c: Circumstances): Outcome {
    match cookie
    case None => Outcome(tokens, MissingCookie, KeepCookie)
    case Some(t) =>
      if !c.lookupOk then Outcome(tokens, LookupFailed, KeepCookie)
      else if t !in tokens then Outcome(tokens, InvalidToken, KeepCookie)
      else if tokens[t].revokedAt.Some? then
        Outcome(if c.revokeOk then RevokeAll(tokens, tokens[t].user, c.now) else tokens, ReuseDetected, ClearCookie)
      else if c.now > tokens[t].expiresAt then Outcome(tokens, Expired, KeepCookie)
      else
        var spent := if c.revokeOk then Revoke(tokens, t, c.now) else tokens;
        if !c.userFound then Outcome(spent, UserNotFound, KeepCookie)
        else if !c.orgFound then Outcome(spent, OrgNotFound, KeepCookie)
        else
          match Issue(spent, tokens[t].user, c)
          case None => Outcome(spent, IssueFailed, KeepCookie)
          case Some(tokens') => Outcome(tokens', Refreshed(c.drawn), SetCookie(c.drawn))
  }

  function Logout(tokens: Tokens, cookie: Option<Secret>, c: Circumstances): Outcome {
    Outcome(if cookie.Some? && c.lookupOk && c.revokeOk then Revoke(tokens, cookie.value, c.now) else tokens, LoggedOut, ClearCookie)
  }

  function Login(tokens: Tokens, user: string, c: Circumstances): Outcome {
    match Issue(tokens, user, c)
    case None => Outcome(tokens, IssueFailed, KeepCookie)
    case Some(tokens') => Outcome(tokens', Refreshed(c.drawn), SetCookie(c.drawn))
  }

  /** The handlers over a store they update step by step. */
  class AuthHandler {
    var tokens: Tokens

    constructor ()
      ensures tokens == map[]
    {
      tokens := map[];
    }

    method RevokeRefreshToken(t: Secret, c: Circumstances)
      modifies this
      ensures tokens == if c.revokeOk then Revoke(old(tokens), t, c.now) else old(tokens)
    {
      if c.revokeOk && t in tokens {
        tokens := tokens[t := tokens[t].(revokedAt := Some(c.now))];
      }
    }

    method RevokeAllUserTokens(user: string, c: Circumstances)
      modifies this
      ensures tokens == if c.revokeOk then RevokeAll(old(tokens), user, c.now) else old(tokens)
    {
      if c.revokeOk {
        tokens := RevokeAll(tokens, user, c.now);
      }
    }

    method IssueTokenPair(user: string, c: Circumstances) returns (issued: Option<Secret>)
      modifies this
      ensures match Issue(old(tokens), user, c)
              case None => issued == None && tokens == old(tokens)
              case Some(tokens') => issued == Some(c.drawn) && tokens == tokens'
      ensures issued.Some? <==> c.issueOk && c.drawn !in old(tokens)
      ensures issued.Some? ==> tokens.Keys == old(tokens).Keys + {issued.value}
      ensures issued.Some? ==>
        && tokens[issued.value].user == user && tokens[issued.value].revokedAt == None
        && tokens[issued.value].expiresAt == c.now + 7 * 24 * 3600
      ensures forall t :: t in old(tokens) ==> t in tokens && tokens[t] == old(tokens)[t]
    {
      if !c.issueOk || c.drawn in tokens {
        return None;
      }
      tokens := tokens[c.drawn := Token(user, c.now + LIFETIME, None)];
      issued := Some(c.drawn);
    }

    method HandleRefresh(cookie: Option<Secret>, c: Circumstances) returns (response: Response, change: CookieChange)
      modifies this
      ensures Outcome(tokens, response, change) == Refresh(old(tokens), cookie, c)
    {
      if cookie.None? {
        return MissingCookie, KeepCookie;
      }
      var t := cookie.value;
      if !c.lookupOk {
        return LookupFailed, KeepCookie;
      }
      if t !in tokens {
        return InvalidToken, KeepCookie;
      }
      var stored := tokens[t];
      if stored.revokedAt.Some? {
        RevokeAllUserTokens(stored.user, c);
        return ReuseDetected, ClearCookie;
      }
      if c.now > stored.expiresAt {
        return Expired, KeepCookie;
      }
      RevokeRefreshToken(t, c);
      if !c.userFound {
        return UserNotFound, KeepCookie;
      }
      if !c.orgFound {
        return OrgNotFound, KeepCookie;
      }
      var issued := IssueTokenPair(stored.user, c);
      if issued.None? {
        return IssueFailed, KeepCookie;
      }
      return Refreshed(issued.value), SetCookie(issued.value);
    }

    method HandleLogout(cookie: Option<Secret>, c: Circumstances) returns (response: Response, change: CookieChange)
      modifies this
      ensures Outcome(tokens, response, change) == Logout(old(tokens), cookie, c)
    {
      if cookie.Some? && c.lookupOk && cookie.value in tokens {
        RevokeRefreshToken(cookie.value, c);
      }
      return LoggedOut, ClearCookie;
    }
  }

  // ---------------------------------------------------------------- runs

  datatype Op =
    | DoLogin(user: string, c: Circumstances)
    | DoRefresh(cookie: Option<Secret>, c: Circumstances)
    | DoLogout(cookie: Option<Secret>, c: Circumstances)

  function Apply(tokens: Tokens, op: Op): Outcome {
    match op
    case DoLogin(user, c) => Login(tokens, user, c)
    case DoRefresh(cookie, c) => Refresh(tokens, cookie, c)
    case DoLogout(cookie, c) => Logout(tokens, cookie, c)
  }

  /** The store after a run from the empty store, one handler at a time. */
  function Exec(ops: seq<Op>): Tokens {
    if ops == [] then map[] else Apply(Exec(ops[..|ops| - 1]), ops[|ops| - 1]).tokens
  }

  ghost predicate Live(tokens: Tokens, t: Secret) {
    t in tokens && tokens[t].revokedAt.None?
  }

  function LiveOf(tokens: Tokens, user: string): set<Secret> {
    set t | t in tokens && tokens[t].user == user && tokens[t].revokedAt.None?
  }

  ghost predicate Spent(tokens: Tokens, t: Secret) {
    t in tokens && tokens[t].revokedAt.Some?
  }

  ghost predicate RevocationsSucceed(ops: seq<Op>) {
    forall i :: 0 <= i < |ops| ==> ops[i].c.revokeOk
  }

  /** Operation `i` of the run refreshed token `t` successfully. */
  ghost predicate SucceedsAt(ops: seq<Op>, i: nat, t: Secret)
    requires i < |ops|
  {
    ops[i].DoRefresh? && ops[i].cookie == Some(t) && Apply(Exec(ops[..i]), ops[i]).response.Refreshed?
  }

  function Logins(ops: seq<Op>, user: string): nat {
    if ops == [] then 0
    else
      var n := |ops| - 1;
      Logins(ops[..n], user) +
      (if ops[n].DoLogin? && ops[n].user == user && Apply(Exec(ops[..n]), ops[n]).response.Refreshed? then 1 else 0)
  }

  /** One step keeps every token, its owner and its revocation. */
  lemma StepKeepsRevocation(tokens: Tokens, op: Op, t: Secret)
    requires t in tokens
    ensures var tokens' := Apply(tokens, op).tokens;
            t in tokens' && tokens'[t].user == tokens[t].user && (Spent(tokens, t) ==> Spent(tokens', t))
  {
  }

  lemma ExecStep(ops: seq<Op>, i: nat)
    requires i < |ops|
    ensures Exec(ops[..i + 1]) == Apply(Exec(ops[..i]), ops[i]).tokens
  {
    assert ops[..i + 1][..i] == ops[..i];
  }

  /** Revocation is permanent. */
  lemma {:induction false} RevocationPermanent(ops: seq<Op>, i: nat, j: nat, t: Secret)
    requires i <= j <= |ops| && Spent(Exec(ops[..i]), t)
    ensures Spent(Exec(ops[..j]), t)
    decreases j - i
  {
    if i < j {
      RevocationPermanent(ops, i, j - 1, t);
      ExecStep(ops, j - 1);
      StepKeepsRevocation(Exec(ops[..j - 1]), ops[j - 1], t);
    }
  }

  /** No token is refreshed twice. */
  lemma AtMostOneSuccess(ops: seq<Op>, i: nat, j: nat, t: Secret)
    requires RevocationsSucceed(ops) && i < j < |ops|
    requires SucceedsAt(ops, i, t)
    ensures !SucceedsAt(ops, j, t)
  {
    ExecStep(ops, i);
    RevocationPermanent(ops, i + 1, j, t);
  }

  /** A user's live tokens never outnumber that user's logins. */
  lemma {:induction false} LiveTokensBounded(ops: seq<Op>, user: string)
    requires RevocationsSucceed(ops)
    ensures |LiveOf(Exec(ops), user)| <= Logins(ops, user)
  {
    if ops == [] {
      assert LiveOf(map[], user) == {};
    } else {
      var n := |ops| - 1;
      LiveTokensBounded(ops[..n], user);
      LiveStep(Exec(ops[..n]), ops[n], user);
    }
  }

  lemma LiveAfterRevoke(tokens: Tokens, t: Secret, now: int, user: string)
    ensures LiveOf(Revoke(tokens, t, now), user) == LiveOf(tokens, user) - {t}
  {
  }

  lemma LiveAfterRevokeAll(tokens: Tokens, owner: string, now: int, user: string)
    ensures LiveOf(RevokeAll(tokens, owner, now), user) == if user == owner then {} else LiveOf(tokens, user)
  {
  }

  lemma LiveAfterIssue(tokens: Tokens, owner: string, c: Circumstances, user: string)
    requires Issue(tokens, owner, c).Some?
    ensures LiveOf(Issue(tokens, owner, c).value, user) == LiveOf(tokens, user) + (if user == owner then {c.drawn} else {})
  {
  }

  lemma LiveStep(tokens: Tokens, op: Op, user: string)
    requires op.c.revokeOk
    ensures |LiveOf(Apply(tokens, op).tokens, user)| <= |LiveOf(tokens, user)| +
              (if op.DoLogin? && op.user == user && Apply(tokens, op).response.Refreshed? then 1 else 0)
  {
    match op {
      case DoLogin(owner, c) =>
        if Issue(tokens, owner, c).Some? {
          LiveAfterIssue(tokens, owner, c, user);
        }
      case DoLogout(cookie, c) =>
        if cookie.Some? {
          LiveAfterRevoke(tokens, cookie.value, c.now, user);
        }
      case DoRefresh(cookie, c) =>
        if cookie.Some? && cookie.value in tokens {
          RefreshLive(tokens, cookie.value, c, user);
        }
    }
  }

  /** A refresh swaps the presented token for the new one, or only takes tokens away. */
  lemma RefreshLive(tokens: Tokens, t: Secret, c: Circumstances, user: string)
    requires t in tokens && c.revokeOk
    ensures |LiveOf(Refresh(tokens, Some(t), c).tokens, user)| <= |LiveOf(tokens, user)|
  {
    var owner, spent := tokens[t].user, Revoke(tokens, t, c.now);
    LiveAfterRevoke(tokens, t, c.now, user);
    LiveAfterRevokeAll(tokens, owner, c.now, user);
    if Issue(spent, owner, c).Some? {
      LiveAfterIssue(spent, owner, c, user);
      if user == owner && tokens[t].revokedAt.None? {
        assert t in LiveOf(tokens, user);
      }
    }
  }

  /** Presenting a revoked token: the request fails, its owner is left without a live token, and every
      token of every other user is untouched. */
  lemma ReuseRevokesOwnerOnly(tokens: Tokens, t: Secret, c: Circumstances)
    requires Spent(tokens, t) && c.lookupOk && c.revokeOk
    ensures var o := Refresh(tokens, Some(t), c);
            && o.response == ReuseDetected && o.cookie == ClearCookie
            && LiveOf(o.tokens, tokens[t].user) == {}
            && o.tokens.Keys == tokens.Keys
            && (forall x :: x in tokens && tokens[x].user != tokens[t].user ==> o.tokens[x] == tokens[x])
            && (forall x :: x in tokens && Live(tokens, x) && tokens[x].user == tokens[t].user ==>
                  o.tokens[x] == tokens[x].(revokedAt := Some(c.now)))
            && (forall x :: x in tokens && Spent(tokens, x) ==> o.tokens[x] == tokens[x])
  {
  }

  /** A refresh whose token query succeeds answers "reuse" exactly for a known, revoked token. */
  lemma ReuseIff(tokens: Tokens, cookie: Option<Secret>, c: Circumstances)
    ensures Refresh(tokens, cookie, c).response == ReuseDetected <==> c.lookupOk && cookie.Some? && Spent(tokens, cookie.value)
  {
  }

  /** What revokes a live token: its logout, its refresh before it expires (whatever the answer then is), or
      the reuse of a revoked token of the same user. The write must succeed. */
  lemma RevokesIff(tokens: Tokens, op: Op, t: Secret)
    requires Live(tokens, t)
    ensures Spent(Apply(tokens, op).tokens, t) <==>
            && op.c.lookupOk && op.c.revokeOk
            && (|| (op.DoLogout? && op.cookie == Some(t))
                || (op.DoRefresh? && op.cookie == Some(t) && op.c.now <= tokens[t].expiresAt)
                || (op.DoRefresh? && op.cookie.Some? && Spent(tokens, op.cookie.value) &&
                    tokens[op.cookie.value].user == tokens[t].user))
  {
  }

  /** A token that appears is live, is the one answered and set as the cookie, belongs to the user who logged in
      or presented a live unexpired token, and lives for seven days. */
  lemma NewTokensLive(tokens: Tokens, op: Op, t: Secret)
    requires t !in tokens && t in Apply(tokens, op).tokens
    ensures Live(Apply(tokens, op).tokens, t)
    ensures Apply(tokens, op).response == Refreshed(t) && Apply(tokens, op).cookie == SetCookie(t)
    ensures Apply(tokens, op).tokens[t].expiresAt == op.c.now + 7 * 24 * 3600
    ensures op.DoLogin? || op.DoRefresh?
    ensures op.DoLogin? ==> Apply(tokens, op).tokens[t].user == op.user
    ensures op.DoRefresh? ==>
              && op.cookie.Some? && Live(tokens, op.cookie.value) && op.c.now <= tokens[op.cookie.value].expiresAt
              && op.c.lookupOk && op.c.userFound && op.c.orgFound
              && Apply(tokens, op).tokens[t].user == tokens[op.cookie.value].user
  {
  }

  /** A login succeeds exactly when signing and storing the new pair do. */
  lemma LoginIff(tokens: Tokens, user: string, c: Circumstances)
    ensures Login(tokens, user, c).response.Refreshed? <==> c.issueOk && c.drawn !in tokens
    ensures Login(tokens, user, c).response.Refreshed? ==> Login(tokens, user, c).tokens.Keys == tokens.Keys + {c.drawn}
    ensures !Login(tokens, user, c).response.Refreshed? ==> Login(tokens, user, c) == Outcome(tokens, IssueFailed, KeepCookie)
  {
  }

  /** A refresh succeeds exactly when the token is live and unexpired and every lookup and the issuing succeed. */
  lemma RefreshedIff(tokens: Tokens, cookie: Option<Secret>, c: Circumstances)
    ensures Refresh(tokens, cookie, c).response.Refreshed? <==>
            && cookie.Some? && c.lookupOk && Live(tokens, cookie.value) && c.now <= tokens[cookie.value].expiresAt
            && c.userFound && c.orgFound && c.issueOk && c.drawn !in tokens
    ensures Refresh(tokens, cookie, c).response.Refreshed? ==> c.drawn in Refresh(tokens, cookie, c).tokens
  {
  }

  /** After a successful refresh the old token is live exactly when its revocation write failed: the
      handler logs that failure and goes on. */
  lemma OldTokenLiveIff(tokens: Tokens, t: Secret, c: Circumstances)
    requires Refresh(tokens, Some(t), c).response.Refreshed?
    ensures Live(Refresh(tokens, Some(t), c).tokens, t) <==> !c.revokeOk
  {
  }

  /** So rotation needs the write: one login and two refreshes of the same token, the first without it. */
  lemma FailedRevocationAllowsSecondRefresh()
    ensures var c1 := Circumstances(0, true, true, true, true, true, 1);
            var c2 := Circumstances(1, true, true, true, false, true, 2);
            var c3 := Circumstances(2, true, true, true, true, true, 3);
            var ops := [DoLogin("u", c1), DoRefresh(Some(1), c2), DoRefresh(Some(1), c3)];
            SucceedsAt(ops, 1, 1) && SucceedsAt(ops, 2, 1)
  {
    var c1 := Circumstances(0, true, true, true, true, true, 1);
    var c2 := Circumstances(1, true, true, true, false, true, 2);
    var c3 := Circumstances(2, true, true, true, true, true, 3);
    var ops := [DoLogin("u", c1), DoRefresh(Some(1), c2), DoRefresh(Some(1), c3)];
    assert Exec(ops[..0]) == map[];
    ExecStep(ops, 0);
    ExecStep(ops, 1);
  }
}
