/** Refresh handlers that overlap: the check, the revocation and the issue of one `HandleRefresh` call
    (server/internal/dashboard/handlers/auth.go) are separate statements without a transaction. */
module RefreshRaces {
  import opened Sequences
  import opened RefreshTokens

  /** Where a call stands that found its token unrevoked and unexpired: before its revocation write, after
      it, or answered. */
  datatype Stage = Checked | Written | Succeeded | Refused

  datatype Handler = Handler(token: Secret, stage: Stage)

  datatype State = State(tokens: Tokens, handlers: seq<Handler>)

  const START := State(map[], [])

  /** Calls that end at their lookup change nothing and are not steps. A call that found a revoked token
      revokes all tokens of its user, at any later time; the token found stays revoked meanwhile. */
  datatype Step =
    | Check(t: Secret, c: Circumstances)
    | Write(h: nat, c: Circumstances)
    | Finish(h: nat, c: Circumstances)
    | Reuse(t: Secret, c: Circumstances)
    | SignIn(user: string, c: Circumstances)
    | SignOut(t: Secret, c: Circumstances)

  predicate Enabled(s: State, a: Step) {
    match a
    case Check(t, c) => c.lookupOk && t in s.tokens && s.tokens[t].revokedAt.None? && c.now <= s.tokens[t].expiresAt
    case Write(h, _) => h < |s.handlers| && s.handlers[h].stage == Checked
    case Finish(h, _) => h < |s.handlers| && s.handlers[h].stage == Written && s.handlers[h].token in s.tokens
    case Reuse(t, _) => t in s.tokens && s.tokens[t].revokedAt.Some?
    case SignIn(_, _) => true
    case SignOut(_, _) => true
  }

  function Moved(s: State, h: nat, stage: Stage): seq<Handler>
    requires h < |s.handlers|
  {
    s.handlers[h := s.handlers[h].(stage := stage)]
  }

  /** The new pair of a finishing call. */
  function Pair(s: State, t: Secret, c: Circumstances): Option<Tokens>
    requires t in s.tokens
  {
    if c.userFound && c.orgFound then Issue(s.tokens, s.tokens[t].user, c) else None
  }

  function Do(s: State, a: Step): State
    requires Enabled(s, a)
  {
    match a
    case Check(t, _) => s.(handlers := s.handlers + [Handler(t, Checked)])
    case Write(h, c) =>
      State(if c.revokeOk then Revoke(s.tokens, s.handlers[h].token, c.now) else s.tokens, Moved(s, h, Written))
    case Finish(h, c) =>
      (match Pair(s, s.handlers[h].token, c)
       case None => s.(handlers := Moved(s, h, Refused))
       case Some(tokens') => State(tokens', Moved(s, h, Succeeded)))
    case Reuse(t, c) => s.(tokens := if c.revokeOk then RevokeAll(s.tokens, s.tokens[t].user, c.now) else s.tokens)
    case SignIn(user, c) => s.(tokens := Login(s.tokens, user, c).tokens)
    case SignOut(t, c) => s.(tokens := Logout(s.tokens, Some(t), c).tokens)
  }

  ghost predicate Next(s: State, s': State) {
    exists a :: Enabled(s, a) && s' == Do(s, a)
  }

  ghost predicate Path(path: seq<State>) {
    path != [] && forall i :: 0 <= i < |path| - 1 ==> Next(path[i], path[i + 1])
  }

  ghost predicate Reaches(s: State, t: State) {
    exists path :: Path(path) && path[0] == s && path[|path| - 1] == t
  }

  lemma ReachesSelf(s: State)
    ensures Reaches(s, s)
  {
    assert Path([s]);
  }

  lemma ReachesNext(s: State, t: State, a: Step)
    requires Reaches(s, t) && Enabled(t, a)
    ensures Reaches(s, Do(t, a))
  {
    var path :| Path(path) && path[0] == s && path[|path| - 1] == t;
    var longer := path + [Do(t, a)];
    assert Next(t, Do(t, a));
    assert forall i :: 0 <= i < |path| ==> longer[i] == path[i];
    assert Path(longer);
  }

  // ---------------------------------------------------------------- successes with one token

  /** How many calls answered success to `t`. */
  function Successes(handlers: seq<Handler>, t: Secret): nat {
    if handlers == [] then 0 else (if handlers[0] == Handler(t, Succeeded) then 1 else 0) + Successes(handlers[1..], t)
  }

  lemma {:induction false} SuccessesMoved(handlers: seq<Handler>, h: nat, x: Handler, t: Secret)
    requires h < |handlers| && handlers[h] != Handler(t, Succeeded)
    ensures Successes(handlers[h := x], t) == Successes(handlers, t) + if x == Handler(t, Succeeded) then 1 else 0
  {
    if h == 0 {
      assert handlers[h := x][1..] == handlers[1..];
    } else {
      assert handlers[h := x][1..] == handlers[1..][h - 1 := x];
      SuccessesMoved(handlers[1..], h - 1, x, t);
    }
  }

  lemma {:induction false} SuccessesMore(handlers: seq<Handler>, x: Handler, t: Secret)
    ensures Successes(handlers + [x], t) == Successes(handlers, t) + if x == Handler(t, Succeeded) then 1 else 0
  {
    if handlers == [] {
      assert [] + [x] == [x] && [x][1..] == [];
    } else {
      assert (handlers + [x])[1..] == handlers[1..] + [x];
      SuccessesMore(handlers[1..], x, t);
    }
  }

  /** The call has passed its check of `t` and is not answered yet. */
  predicate Holds(h: Handler, t: Secret) {
    h.token == t && (h.stage == Checked || h.stage == Written)
  }

  ghost predicate Held(s: State, t: Secret) {
    exists h :: 0 <= h < |s.handlers| && Holds(s.handlers[h], t)
  }

  lemma TokensMove(s: State, a: Step, t: Secret)
    requires Spent(s.tokens, t) && Enabled(s, a)
    ensures Spent(Do(s, a).tokens, t)
  {
  }

  lemma UnheldStays(s: State, a: Step, t: Secret)
    requires Spent(s.tokens, t) && !Held(s, t) && Enabled(s, a)
    ensures !Held(Do(s, a), t) && Successes(Do(s, a).handlers, t) == Successes(s.handlers, t)
  {
    var s' := Do(s, a);
    match a {
      case Check(u, _) =>
        SuccessesMore(s.handlers, Handler(u, Checked), t);
        assert forall h :: 0 <= h < |s.handlers| ==> s'.handlers[h] == s.handlers[h];
      case Write(h, _) => MovedElsewhere(s, s', h, Written, t);
      case Finish(h, _) => MovedElsewhere(s, s', h, s'.handlers[h].stage, t);
      case _ => assert s'.handlers == s.handlers;
    }
  }

  /** A handler of another token moves. */
  lemma MovedElsewhere(s: State, s': State, h: nat, stage: Stage, t: Secret)
    requires !Held(s, t) && h < |s.handlers| && (s.handlers[h].stage == Checked || s.handlers[h].stage == Written)
    requires s'.handlers == Moved(s, h, stage)
    ensures !Held(s', t) && Successes(s'.handlers, t) == Successes(s.handlers, t)
  {
    assert !Holds(s.handlers[h], t);
    SuccessesMoved(s.handlers, h, s'.handlers[h], t);
    assert forall g :: 0 <= g < |s.handlers| && g != h ==> s'.handlers[g] == s.handlers[g];
  }

  lemma {:induction false} UnheldOnPath(path: seq<State>, t: Secret)
    requires Path(path) && Spent(path[0].tokens, t) && !Held(path[0], t)
    ensures Spent(path[|path| - 1].tokens, t) && !Held(path[|path| - 1], t)
    ensures Successes(path[|path| - 1].handlers, t) == Successes(path[0].handlers, t)
    decreases |path|
  {
    var n := |path| - 1;
    if n > 0 {
      UnheldOnPath(path[..n], t);
      assert path[..n][n - 1] == path[n - 1];
      assert Next(path[n - 1], path[n - 1 + 1]);
      var a :| Enabled(path[n - 1], a) && path[n] == Do(path[n - 1], a);
      TokensMove(path[n - 1], a, t);
      UnheldStays(path[n - 1], a, t);
    }
  }

  /** There is always a secret nobody has. */
  lemma FreshSecret(tokens: Tokens) returns (d: Secret)
    ensures d !in tokens
  {
    d := Above(tokens.Keys);
  }

  lemma {:induction false} Above(keys: set<nat>) returns (b: nat)
    ensures forall k :: k in keys ==> k < b
    decreases |keys|
  {
    if keys == {} {
      b := 0;
    } else {
      var k :| k in keys;
      var rest := Above(keys - {k});
      b := if rest > k then rest else k + 1;
      forall x | x in keys ensures x < b {
        assert x == k || x in keys - {k};
      }
    }
  }

  lemma HolderWrites(origin: State, s: State, h: nat, t: Secret) returns (s': State)
    requires Reaches(origin, s) && h < |s.handlers| && Holds(s.handlers[h], t) && t in s.tokens
    ensures Reaches(origin, s') && |s'.handlers| == |s.handlers| && s'.handlers[h] == Handler(t, Written) && t in s'.tokens
    ensures Successes(s'.handlers, t) == Successes(s.handlers, t)
  {
    if s.handlers[h].stage == Written {
      s' := s;
    } else {
      var c := Circumstances(0, true, true, true, true, true, 0);
      ReachesNext(origin, s, Write(h, c));
      s' := Do(s, Write(h, c));
      SuccessesMoved(s.handlers, h, s'.handlers[h], t);
    }
  }

  lemma HolderSucceeds(origin: State, s: State, h: nat, t: Secret) returns (s': State)
    requires Reaches(origin, s) && h < |s.handlers| && s.handlers[h] == Handler(t, Written) && t in s.tokens
    ensures Reaches(origin, s') && Successes(s'.handlers, t) == Successes(s.handlers, t) + 1
  {
    var d := FreshSecret(s.tokens);
    var c := Circumstances(0, true, true, true, true, true, d);
    ReachesNext(origin, s, Finish(h, c));
    s' := Do(s, Finish(h, c));
    SuccessesMoved(s.handlers, h, s'.handlers[h], t);
  }

  /** Once a token is revoked, one more success with it can follow exactly when some call that checked it
      before is still unanswered. */
  lemma AnotherSuccessIff(s: State, t: Secret)
    requires Spent(s.tokens, t)
    ensures (exists s' :: Reaches(s, s') && Successes(s'.handlers, t) > Successes(s.handlers, t)) <==> Held(s, t)
  {
    if s' :| Reaches(s, s') && Successes(s'.handlers, t) > Successes(s.handlers, t) {
      var path :| Path(path) && path[0] == s && path[|path| - 1] == s';
      if !Held(s, t) {
        UnheldOnPath(path, t);
      }
    }
    if h :| 0 <= h < |s.handlers| && Holds(s.handlers[h], t) {
      ReachesSelf(s);
      var s1 := HolderWrites(s, s, h, t);
      var s2 := HolderSucceeds(s, s1, h, t);
    }
  }

  /** Two calls that check one token before either revokes it both succeed, although every write does: a run
      from the empty store. */
  lemma OverlappingCallsBothSucceed(user: string) returns (s: State, t: Secret)
    ensures Reaches(START, s) && Successes(s.handlers, t) == 2
  {
    t := 0;
    var c := Circumstances(0, true, true, true, true, true, t);
    ReachesSelf(START);
    ReachesNext(START, START, SignIn(user, c));
    var s0 := Do(START, SignIn(user, c));
    ReachesNext(START, s0, Check(t, c));
    var s1 := Do(s0, Check(t, c));
    ReachesNext(START, s1, Check(t, c));
    var s2 := Do(s1, Check(t, c));
    assert s2.handlers == [Handler(t, Checked), Handler(t, Checked)];
    SuccessesMore([], Handler(t, Checked), t);
    SuccessesMore([Handler(t, Checked)], Handler(t, Checked), t);
    s := BothSucceed(s2, t);
  }

  lemma BothSucceed(s: State, t: Secret) returns (s': State)
    requires Reaches(START, s) && t in s.tokens && s.handlers == [Handler(t, Checked), Handler(t, Checked)]
    requires Successes(s.handlers, t) == 0
    ensures Reaches(START, s') && Successes(s'.handlers, t) == 2
  {
    var c := Circumstances(0, true, true, true, true, true, 0);
    ReachesNext(START, s, Write(0, c));
    var s1 := Do(s, Write(0, c));
    SuccessesMoved(s.handlers, 0, s1.handlers[0], t);
    ReachesNext(START, s1, Write(1, c));
    var s2 := Do(s1, Write(1, c));
    SuccessesMoved(s1.handlers, 1, s2.handlers[1], t);
    s' := FinishBoth(s2, t);
  }

  lemma FinishBoth(s: State, t: Secret) returns (s': State)
    requires Reaches(START, s) && t in s.tokens && s.handlers == [Handler(t, Written), Handler(t, Written)]
    requires Successes(s.handlers, t) == 0
    ensures Reaches(START, s') && Successes(s'.handlers, t) == 2
  {
    var d := FreshSecret(s.tokens);
    var c := Circumstances(0, true, true, true, true, true, d);
    ReachesNext(START, s, Finish(0, c));
    var s1 := Do(s, Finish(0, c));
    SuccessesMoved(s.handlers, 0, s1.handlers[0], t);
    s' := HolderSucceeds(START, s1, 1, t);
  }

  /** A call with nothing in between is the handler of the sequential model. */
  lemma RefreshIsAPath(s: State, t: Secret, c: Circumstances) returns (s': State)
    requires Enabled(s, Check(t, c))
    ensures Reaches(s, s') && s'.tokens == Refresh(s.tokens, Some(t), c).tokens
    ensures |s'.handlers| == |s.handlers| + 1 && s'.handlers[|s.handlers|].token == t
    ensures s'.handlers[|s.handlers|].stage == Succeeded <==> Refresh(s.tokens, Some(t), c).response.Refreshed?
  {
    var h := |s.handlers|;
    ReachesSelf(s);
    ReachesNext(s, s, Check(t, c));
    var s1 := Do(s, Check(t, c));
    ReachesNext(s, s1, Write(h, c));
    var s2 := Do(s1, Write(h, c));
    ReachesNext(s, s2, Finish(h, c));
    s' := Do(s2, Finish(h, c));
  }
}
