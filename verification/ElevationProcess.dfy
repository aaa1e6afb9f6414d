/**
 The elevation calls as one object that is updated in place, a method for each of their steps. The
 object is always the result of a run of the step system, so that whatever holds of all runs holds
 of it.
 */
module ElevationProcess {
  import opened Wrappers
  import opened ElevationStore
  import opened Elevation
  import opened ElevationCausality

  class Process {
    const store: Store
    var now: int
    var keys: map<string, ApiKey> // what the game's API would answer
    var usedIds: set<string>
    var started: set<Pid>
    var challenges: map<Pid, ChallengeCall>
    var solves: map<Pid, SolveCall>
    var auths: map<Pid, AuthCall>
    var released: set<Signature>
    ghost var log: Log
    ghost var run: seq<Action>

    ghost function Abs(): State
      reads this, store
    {
      State(now, keys, store.challenges, usedIds, started, challenges, solves, auths, released, log)
    }

    /** The object is where its run has led. */
    ghost predicate Valid()
      reads this, store
    {
      IsRun(run) && Abs() == StateAfter(run)
    }

    constructor ()
      ensures Valid() && run == [] && fresh(store)
    {
      store := new Store();
      now, keys, usedIds, started := 0, map[], {}, {};
      challenges, solves, auths, released := map[], map[], map[], {};
      log, run := [], [];
    }

    ghost method Record(before: State, a: Action)
      requires IsRun(run) && before == StateAfter(run) && Enabled(before, a) && Abs() == Next(before, a)
      modifies this`run
      ensures Valid() && run == old(run) + [a]
    {
      assert (run + [a])[..|run|] == run;
      run := run + [a];
    }

    // ---- The world ----

    method Wait(ms: nat)
      requires Valid()
      modifies this
      ensures Valid() && run == old(run) + [Tick(ms)]
    {
      ghost var before := Abs();
      now := now + ms;
      Record(before, Tick(ms));
    }

    method KeysChange(newKeys: map<string, ApiKey>)
      requires Valid()
      modifies this
      ensures Valid() && run == old(run) + [ChangeKeys(newKeys)]
    {
      ghost var before := Abs();
      keys := newKeys;
      Record(before, ChangeKeys(newKeys));
    }

    // ---- Challenge ----

    method Challenge(p: Pid, token: string, seconds: int)
      requires Valid() && p !in started
      modifies this
      ensures Valid() && run == old(run) + [BeginChallenge(p, token, seconds)]
    {
      ghost var before := Abs();
      started, challenges := started + {p}, challenges[p := ChallengeCall(token, seconds, None, None)];
      Record(before, BeginChallenge(p, token, seconds));
    }

    /** The account behind the token, or the end of the call. */
    method ChallengeAsksAccount(p: Pid) returns (ok: bool)
      requires Valid() && Enabled(Abs(), ChallengeAccount(p))
      modifies this
      ensures Valid() && run == old(run) + [ChallengeAccount(p)] && ok == (p in challenges)
    {
      ghost var before := Abs();
      var c := challenges[p];
      ok := c.token in keys;
      if ok {
        var accountId := keys[c.token].accountId;
        challenges := challenges[p := c.(accountId := Some(accountId))];
        log := log + [ChallengeSawAccount(p, c.token, accountId)];
      } else {
        challenges := challenges - {p};
      }
      Record(before, ChallengeAccount(p));
    }

    method ChallengeAsksToken(p: Pid) returns (ok: bool)
      requires Valid() && Enabled(Abs(), ChallengeToken(p))
      modifies this
      ensures Valid() && run == old(run) + [ChallengeToken(p)] && ok == (p in challenges)
    {
      ghost var before := Abs();
      var c := challenges[p];
      ok := c.token in keys;
      if ok {
        var tokenId := keys[c.token].tokenId;
        challenges := challenges[p := c.(tokenId := Some(tokenId))];
        log := log + [ChallengeSawToken(p, c.token, tokenId)];
      } else {
        challenges := challenges - {p};
      }
      Record(before, ChallengeToken(p));
    }

    /** The challenge is stored under a new id and handed out. */
    method ChallengeRegisters(p: Pid, id: string, test: string) returns (puzzle: (string, string))
      requires Valid() && Enabled(Abs(), ChallengeRegister(p, id, test))
      modifies this, store
      ensures Valid() && run == old(run) + [ChallengeRegister(p, id, test)] && puzzle == (id, test)
    {
      ghost var before := Abs();
      var c := challenges[p];
      var challenge := ElevationStore.Challenge(id, c.accountId.value, c.tokenId.value, test);
      store.RegisterChallenge(challenge, c.seconds, now);
      usedIds, challenges := usedIds + {id}, challenges - {p};
      log := log + [Registered(p, challenge, now + 1000 * c.seconds)];
      puzzle := (id, test);
      Record(before, ChallengeRegister(p, id, test));
    }

    // ---- Solve ----

    /** A challenge that is missing, late or malformed ends the solve. */
    method Solve(p: Pid, id: string, token: string) returns (ok: bool)
      requires Valid() && p !in started
      modifies this
      ensures Valid() && run == old(run) + [SolveRead(p, id, token)]
      ensures var found := Read(store.challenges, id, now);
              && (ok <==> found.Some? && SpellsGuid(found.value.accountId) && SpellsGuid(found.value.tokenId))
              && solves == if ok then old(solves)[p := SolveCall(found.value, token, false, None, None)]
                           else old(solves)
    {
      hide Parses, SpellsGuid;
      ghost var before := Abs();
      var found := store.ReadChallenge(id, now);
      ok := found.Some?;
      started := started + {p};
      if ok {
        solves := solves[p := SolveCall(found.value, token, false, None, None)];
        log := log + [ReadChallenge(p, id, found.value, now)];
      }
      Record(before, SolveRead(p, id, token));
    }

    method SolveUnlinks(p: Pid)
      requires Valid() && Enabled(Abs(), SolveUnlink(p))
      modifies this, store
      ensures Valid() && run == old(run) + [SolveUnlink(p)]
    {
      ghost var before := Abs();
      var c := solves[p];
      store.UnlinkChallenge(c.challenge.id);
      solves := solves[p := c.(unlinked := true)];
      log := log + [Unlinked(p, c.challenge.id)];
      Record(before, SolveUnlink(p));
    }

    method SolveAsksAccount(p: Pid) returns (ok: bool)
      requires Valid() && Enabled(Abs(), SolveAccount(p))
      modifies this
      ensures Valid() && run == old(run) + [SolveAccount(p)] && ok == (p in solves)
    {
      ghost var before := Abs();
      var c := solves[p];
      ok := c.token in keys;
      if ok {
        var accountId := keys[c.token].accountId;
        solves := solves[p := c.(accountId := Some(accountId))];
        log := log + [SawAccount(p, c.token, accountId)];
      } else {
        solves := solves - {p};
      }
      Record(before, SolveAccount(p));
    }

    method SolveAsksName(p: Pid) returns (ok: bool)
      requires Valid() && Enabled(Abs(), SolveName(p))
      modifies this
      ensures Valid() && run == old(run) + [SolveName(p)] && ok == (p in solves)
    {
      ghost var before := Abs();
      var c := solves[p];
      ok := c.token in keys;
      if ok {
        var name := keys[c.token].name;
        solves := solves[p := c.(name := Some(name))];
        log := log + [SawName(p, c.token, name)];
      } else {
        solves := solves - {p};
      }
      Record(before, SolveName(p));
    }

    /** The verdict: a passport for the challenge's account and token, or none. */
    method SolveEnds(p: Pid) returns (passport: Option<Passport>)
      requires Valid() && Enabled(Abs(), SolveFinish(p))
      modifies this
      ensures Valid() && run == old(run) + [SolveFinish(p)]
      ensures var (c, accountId, name) := (old(solves[p].challenge), old(solves[p].accountId), old(solves[p].name));
              && (passport.Some? <==> accountId == Some(c.accountId) && name == Some(c.test))
              && (passport.Some? ==> passport.value == Passport(c.accountId, c.tokenId, Mac(c.accountId, c.tokenId)))
              && released == old(released) + if passport.Some? then {passport.value.signature} else {}
    {
      ghost var before := Abs();
      var c := solves[p];
      passport := None;
      solves := solves - {p};
      if SolutionHolds(c.challenge, c.accountId.value, c.name.value) {
        var signature := SignElevation(c.challenge.accountId, c.challenge.tokenId);
        var issued := Passport(c.challenge.accountId, c.challenge.tokenId, signature);
        passport := Some(issued);
        released := released + {signature};
        log := log + [Issued(p, c.challenge.id, issued)];
      }
      Record(before, SolveFinish(p));
    }

    // ---- Authenticate ----

    method Authenticate(p: Pid, token: string, signature: Signature)
      requires Valid() && Enabled(Abs(), BeginAuth(p, token, signature))
      modifies this
      ensures Valid() && run == old(run) + [BeginAuth(p, token, signature)]
    {
      ghost var before := Abs();
      started, auths := started + {p}, auths[p := AuthCall(token, signature, None, None)];
      Record(before, BeginAuth(p, token, signature));
    }

    method AuthenticateAsksAccount(p: Pid) returns (ok: bool)
      requires Valid() && Enabled(Abs(), AuthAccount(p))
      modifies this
      ensures Valid() && run == old(run) + [AuthAccount(p)] && ok == (p in auths)
    {
      ghost var before := Abs();
      var c := auths[p];
      ok := c.token in keys;
      if ok {
        var accountId := keys[c.token].accountId;
        auths := auths[p := c.(accountId := Some(accountId))];
        log := log + [AuthSawAccount(p, c.token, accountId)];
      } else {
        auths := auths - {p};
      }
      Record(before, AuthAccount(p));
    }

    method AuthenticateAsksToken(p: Pid) returns (ok: bool)
      requires Valid() && Enabled(Abs(), AuthToken(p))
      modifies this
      ensures Valid() && run == old(run) + [AuthToken(p)] && ok == (p in auths)
    {
      ghost var before := Abs();
      var c := auths[p];
      ok := c.token in keys;
      if ok {
        var tokenId := keys[c.token].tokenId;
        auths := auths[p := c.(tokenId := Some(tokenId))];
        log := log + [AuthSawToken(p, c.token, tokenId)];
      } else {
        auths := auths - {p};
      }
      Record(before, AuthToken(p));
    }

    method AuthenticateEnds(p: Pid) returns (level: AuthenticationLevel)
      requires Valid() && Enabled(Abs(), AuthFinish(p))
      modifies this
      ensures Valid() && run == old(run) + [AuthFinish(p)]
      ensures log != [] && log[|log| - 1].Graded? && log[|log| - 1].pid == p && log[|log| - 1].level == level
    {
      ghost var before := Abs();
      var c := auths[p];
      level := GetAuthenticationLevel(Passport(c.accountId.value, c.tokenId.value, c.signature));
      auths := auths - {p};
      log := log + [Graded(p, c.token, c.accountId.value, c.tokenId.value, level)];
      Record(before, AuthFinish(p));
    }

    /** What every run keeps holds of the object. */
    lemma Holds()
      requires Valid()
      ensures Inv(Abs())
    {
      RunKeepsInv(run);
    }
  }
}
