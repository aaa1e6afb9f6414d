/**
 The other direction of the protocol's guarantee: whoever controls the API key gets the grade. For
 every account, token and challenge there is a run in which renaming the key earns Verified, and
 the same run without the renaming earns nothing.
 */
module ElevationCompleteness {
  import opened Wrappers
  import opened ElevationStore
  import opened Elevation

  ghost predicate Reaches(run: seq<Action>, s: State) {
    IsRun(run) && StateAfter(run) == s
  }

  lemma Extend(run: seq<Action>, s: State, a: Action)
    requires Reaches(run, s) && Enabled(s, a)
    ensures Reaches(run + [a], Next(s, a))
  {
    assert (run + [a])[..|run|] == run;
  }

  /** No call is in progress, and all call and challenge ids from the given one on are new. */
  predicate Idle(s: State, p: Pid) {
    && s.challenges == map[] && s.solves == map[] && s.auths == map[]
    && forall q | q in s.started :: q < p
  }

  /** A challenge call that nothing disturbs. */
  lemma Challenged(run: seq<Action>, s: State, p: Pid, token: string, c: Challenge, seconds: int)
    returns (run': seq<Action>, t: State)
    requires Reaches(run, s) && Idle(s, p) && c.id !in s.usedIds
    requires token in s.keys && s.keys[token].accountId == c.accountId && s.keys[token].tokenId == c.tokenId
    ensures Reaches(run', t) && Idle(t, p + 1)
    ensures run' == run + [BeginChallenge(p, token, seconds), ChallengeAccount(p), ChallengeToken(p),
                           ChallengeRegister(p, c.id, c.test)]
    ensures t.store == Register(s.store, c, seconds, s.now)
    ensures t.keys == s.keys && t.now == s.now && t.released == s.released
  {
    hide Reaches, Register;
    Extend(run, s, BeginChallenge(p, token, seconds));
    var s1 := Next(s, BeginChallenge(p, token, seconds));
    Extend(run + [BeginChallenge(p, token, seconds)], s1, ChallengeAccount(p));
    var s2 := Next(s1, ChallengeAccount(p));
    Extend(run + [BeginChallenge(p, token, seconds)] + [ChallengeAccount(p)], s2, ChallengeToken(p));
    var s3 := Next(s2, ChallengeToken(p));
    run' := run + [BeginChallenge(p, token, seconds)] + [ChallengeAccount(p)] + [ChallengeToken(p)];
    Extend(run', s3, ChallengeRegister(p, c.id, c.test));
    run' := run' + [ChallengeRegister(p, c.id, c.test)];
    t := Next(s3, ChallengeRegister(p, c.id, c.test));
  }

  /** A solve that nothing disturbs, up to its verdict. */
  lemma Asked(run: seq<Action>, s: State, p: Pid, token: string, c: Challenge) returns (run': seq<Action>, t: State)
    requires Reaches(run, s) && Idle(s, p) && Read(s.store, c.id, s.now) == Some(c) && Parses(c)
    requires token in s.keys
    ensures Reaches(run', t) && t.challenges == map[] && t.auths == map[]
    ensures run' == run + [SolveRead(p, c.id, token), SolveUnlink(p), SolveAccount(p), SolveName(p)]
    ensures forall q | q in t.started :: q <= p
    ensures t.solves == map[p := SolveCall(c, token, true, Some(s.keys[token].accountId), Some(s.keys[token].name))]
    ensures t.keys == s.keys && t.released == s.released
  {
    hide Reaches, Parses, Read;
    Extend(run, s, SolveRead(p, c.id, token));
    var s1 := Next(s, SolveRead(p, c.id, token));
    run' := run + [SolveRead(p, c.id, token)];
    Extend(run', s1, SolveUnlink(p));
    var s2 := Next(s1, SolveUnlink(p));
    run' := run' + [SolveUnlink(p)];
    Extend(run', s2, SolveAccount(p));
    var s3 := Next(s2, SolveAccount(p));
    run' := run' + [SolveAccount(p)];
    Extend(run', s3, SolveName(p));
    t := Next(s3, SolveName(p));
    run' := run' + [SolveName(p)];
    assert t.solves == map[p := SolveCall(c, token, true, Some(s.keys[token].accountId), Some(s.keys[token].name))];
  }

  /**
   An undisturbed solve of a live challenge issues the passport exactly when the key it is given
   belongs to the challenged account and is named as the challenge asks.
   */
  lemma Solved(run: seq<Action>, s: State, p: Pid, token: string, c: Challenge) returns (run': seq<Action>, t: State)
    requires Reaches(run, s) && Idle(s, p) && Read(s.store, c.id, s.now) == Some(c) && Parses(c)
    requires token in s.keys
    ensures Reaches(run', t) && Idle(t, p + 1) && t.keys == s.keys
    ensures run' == run + [SolveRead(p, c.id, token), SolveUnlink(p), SolveAccount(p), SolveName(p), SolveFinish(p)]
    ensures t.released == s.released + if s.keys[token].accountId == c.accountId && s.keys[token].name == c.test
                                       then {Mac(c.accountId, c.tokenId)} else {}
  {
    var u;
    run', u := Asked(run, s, p, token, c);
    hide Reaches, Read, Parses;
    Extend(run', u, SolveFinish(p));
    run' := run' + [SolveFinish(p)];
    t := Next(u, SolveFinish(p));
  }

  /** An authentication that nothing disturbs grades the signature for the key's account and token. */
  lemma AuthenticatedAs(run: seq<Action>, s: State, p: Pid, token: string, signature: Signature)
    returns (run': seq<Action>, t: State)
    requires Reaches(run, s) && Idle(s, p) && token in s.keys && (signature.Other? || signature in s.released)
    ensures Reaches(run', t) && t.log != []
    ensures run' == run + [BeginAuth(p, token, signature), AuthAccount(p), AuthToken(p), AuthFinish(p)]
    ensures var key := s.keys[token];
            t.log[|t.log| - 1] == Graded(p, token, key.accountId, key.tokenId,
                                         if signature == Mac(key.accountId, key.tokenId) then Verified
                                         else Authenticated)
  {
    hide Reaches;
    Extend(run, s, BeginAuth(p, token, signature));
    var s1 := Next(s, BeginAuth(p, token, signature));
    run' := run + [BeginAuth(p, token, signature)];
    Extend(run', s1, AuthAccount(p));
    var s2 := Next(s1, AuthAccount(p));
    run' := run' + [AuthAccount(p)];
    Extend(run', s2, AuthToken(p));
    var s3 := Next(s2, AuthToken(p));
    run' := run' + [AuthToken(p)];
    Extend(run', s3, AuthFinish(p));
    t := Next(s3, AuthFinish(p));
    run' := run' + [AuthFinish(p)];
  }

  lemma Rekey(run: seq<Action>, s: State, p: Pid, token: string, key: ApiKey) returns (run': seq<Action>, t: State)
    requires Reaches(run, s) && Idle(s, p)
    ensures Reaches(run', t) && Idle(t, p) && t == s.(keys := map[token := key])
    ensures run' == run + [ChangeKeys(map[token := key])]
  {
    hide Reaches;
    Extend(run, s, ChangeKeys(map[token := key]));
    run', t := run + [ChangeKeys(map[token := key])], s.(keys := map[token := key]);
  }

  /** A challenge for the key, a new name for it, a solve, and all that in time. */
  function Renaming(token: string, oldName: string, newName: string, c: Challenge, seconds: int): seq<Action> {
    [ChangeKeys(map[token := ApiKey(c.accountId, c.tokenId, oldName)]),
     BeginChallenge(0, token, seconds), ChallengeAccount(0), ChallengeToken(0), ChallengeRegister(0, c.id, c.test),
     ChangeKeys(map[token := ApiKey(c.accountId, c.tokenId, newName)]),
     SolveRead(1, c.id, token), SolveUnlink(1), SolveAccount(1), SolveName(1), SolveFinish(1)]
  }

  lemma RenamedInTime(token: string, oldName: string, newName: string, c: Challenge, seconds: int) returns (s: State)
    requires Parses(c) && seconds > 0
    ensures Reaches(Renaming(token, oldName, newName, c, seconds), s)
    ensures Idle(s, 2) && s.keys == map[token := ApiKey(c.accountId, c.tokenId, newName)]
    ensures s.released == if newName == c.test then {Mac(c.accountId, c.tokenId)} else {}
  {
    assert Reaches([], INITIAL) && Idle(INITIAL, 0);
    hide Parses, Reaches;
    var run;
    run, s := Rekey([], INITIAL, 0, token, ApiKey(c.accountId, c.tokenId, oldName));
    run, s := Challenged(run, s, 0, token, c, seconds);
    run, s := Rekey(run, s, 1, token, ApiKey(c.accountId, c.tokenId, newName));
    run, s := Solved(run, s, 1, token, c);
    assert run == Renaming(token, oldName, newName, c, seconds);
  }

  /**
   For all accounts and tokens: renaming the key as the challenge asks, within its time, releases the
   signature that earns the grade, and any other name releases none.
   */
  lemma RenamedKeyIsVerified(token: string, oldName: string, newName: string, id: string, account: Guid, tokenId: Guid,
                             test: string, seconds: int)
    returns (run: seq<Action>)
    requires account.WellFormed() && tokenId.WellFormed() && seconds > 0
    ensures run == Renaming(token, oldName, newName, Challenge(id, account.Text(), tokenId.Text(), test), seconds)
    ensures IsRun(run)
    ensures newName != test ==> StateAfter(run).released == {}
    ensures newName == test ==>
              var signature := Mac(account.Text(), tokenId.Text());
              var run' := run + [BeginAuth(2, token, signature), AuthAccount(2), AuthToken(2), AuthFinish(2)];
              IsRun(run') && Graded(2, token, account.Text(), tokenId.Text(), Verified) in StateAfter(run').log
  {
    var c := Challenge(id, account.Text(), tokenId.Text(), test);
    TextIsGuid(account);
    TextIsGuid(tokenId);
    hide IsGuid, Guid.Text, Renaming;
    run := Renaming(token, oldName, newName, c, seconds);
    var s := RenamedInTime(token, oldName, newName, c, seconds);
    if newName == test {
      var run', t := AuthenticatedAs(run, s, 2, token, Mac(c.accountId, c.tokenId));
    }
  }
}
