/**
 What the elevation protocol guarantees over every run: nobody is graded Verified without a solved
 challenge for exactly that account and token, and a consumed challenge is gone for good.
 */
module ElevationCausality {
  import opened Wrappers
  import opened ElevationStore
  import opened Elevation

  // ---- Causes ----

  /** A solve reads once, and only a challenge that is registered, unexpired and not yet unlinked. */
  ghost predicate ReadCaused(past: Log, pid: Pid, id: string, challenge: Challenge, at: int) {
    && challenge.id == id
    && (forall i, c, n :: ReadChallenge(pid, i, c, n) !in past)
    && Parses(challenge)
    && (exists c, deadline :: Registered(c, challenge, deadline) in past && at < deadline)
    && (forall q :: Unlinked(q, id) !in past)
  }

  /** A registered challenge carries a new id and what the API said about the caller's token. */
  ghost predicate RegisterCaused(past: Log, pid: Pid, challenge: Challenge) {
    && (exists token :: ChallengeSawAccount(pid, token, challenge.accountId) in past
                        && ChallengeSawToken(pid, token, challenge.tokenId) in past)
    && (forall c, other, deadline :: Registered(c, other, deadline) in past ==> other.id != challenge.id)
  }

  /**
   A passport was issued after its solve had read and unlinked a challenge and had seen, for one
   token, the challenge's account and a key named like the challenge's test.
   */
  ghost predicate IssueCaused(past: Log, pid: Pid, id: string, passport: Passport) {
    exists challenge, at, token :: SolvedBy(past, pid, id, challenge, at, token)
      && passport == Passport(challenge.accountId, challenge.tokenId, Mac(challenge.accountId, challenge.tokenId))
  }

  predicate SolvedBy(past: Log, pid: Pid, id: string, challenge: Challenge, at: int, token: string) {
    && ReadChallenge(pid, id, challenge, at) in past
    && Unlinked(pid, id) in past
    && SawAccount(pid, token, challenge.accountId) in past
    && SawName(pid, token, challenge.test) in past
  }

  /** A grade is about what the API said of the token; Verified needs a passport issued for it. */
  ghost predicate GradeCaused(past: Log, pid: Pid, token: string, accountId: string, tokenId: string,
                              level: AuthenticationLevel) {
    && AuthSawAccount(pid, token, accountId) in past
    && AuthSawToken(pid, token, tokenId) in past
    && (level.Verified? ==> exists q, id ::
          Issued(q, id, Passport(accountId, tokenId, Mac(accountId, tokenId))) in past)
  }

  /** The solve has read a challenge and unlinked it. */
  ghost predicate HasUnlinked(past: Log, pid: Pid) {
    exists id, challenge, at :: ReadChallenge(pid, id, challenge, at) in past && Unlinked(pid, id) in past
  }

  ghost predicate Caused(past: Log, e: Event) {
    match e
    case Registered(pid, challenge, _) => RegisterCaused(past, pid, challenge)
    case ReadChallenge(pid, id, challenge, at) => ReadCaused(past, pid, id, challenge, at)
    case Unlinked(pid, id) => exists challenge, at :: ReadChallenge(pid, id, challenge, at) in past
    case SawAccount(pid, _, _) => HasUnlinked(past, pid)
    case SawName(pid, _, _) => HasUnlinked(past, pid)
    case Issued(pid, id, passport) => IssueCaused(past, pid, id, passport)
    case Graded(pid, token, accountId, tokenId, level) => GradeCaused(past, pid, token, accountId, tokenId, level)
    case _ => true
  }

  /** Every event of the log has its causes before it. */
  ghost predicate WellCaused(log: Log) {
    log == [] || (WellCaused(log[..|log| - 1]) && Caused(log[..|log| - 1], log[|log| - 1]))
  }

  lemma {:induction false} CauseOf(log: Log, i: nat)
    requires WellCaused(log) && i < |log|
    ensures WellCaused(log[..i]) && Caused(log[..i], log[i])
  {
    hide Caused;
    if i < |log| - 1 {
      CauseOf(log[..|log| - 1], i);
      assert log[..|log| - 1][..i] == log[..i];
    }
  }

  lemma CausedAppend(log: Log, e: Event)
    requires WellCaused(log) && Caused(log, e)
    ensures WellCaused(log + [e])
  {
    hide Caused;
    assert (log + [e])[..|log|] == log;
  }

  // ---- The invariant ----

  /** What is stored was registered, and nobody has unlinked it. */
  ghost predicate StoreInv(s: State) {
    && (forall id | id in s.store ::
          && s.store[id].challenge.id == id
          && id in s.usedIds
          && (exists c :: Registered(c, s.store[id].challenge, s.store[id].deadline) in s.log)
          && (forall q :: Unlinked(q, id) !in s.log))
    && (forall c, challenge, deadline :: Registered(c, challenge, deadline) in s.log ==> challenge.id in s.usedIds)
    && (forall q, id :: Unlinked(q, id) in s.log ==> id in s.usedIds)
  }

  /** The locals of the running calls are what the log says they saw. */
  ghost predicate ChallengesInv(s: State) {
    forall p | p in s.challenges :: ChallengeOk(s.log, p, s.challenges[p])
  }

  ghost predicate ChallengeOk(log: Log, p: Pid, c: ChallengeCall) {
    && (c.accountId.Some? ==> ChallengeSawAccount(p, c.token, c.accountId.value) in log)
    && (c.tokenId.Some? ==> ChallengeSawToken(p, c.token, c.tokenId.value) in log)
  }

  ghost predicate SolvesInv(s: State) {
    forall p | p in s.solves :: SolveOk(s.log, s.usedIds, p, s.solves[p])
  }

  ghost predicate SolveOk(log: Log, usedIds: set<string>, p: Pid, c: SolveCall) {
    && (exists at :: ReadChallenge(p, c.challenge.id, c.challenge, at) in log)
    && c.challenge.id in usedIds
    && (c.unlinked ==> Unlinked(p, c.challenge.id) in log)
    && (c.accountId.Some? ==> c.unlinked && SawAccount(p, c.token, c.accountId.value) in log)
    && (c.name.Some? ==> c.unlinked && SawName(p, c.token, c.name.value) in log)
  }

  /** A signature that somebody holds was issued for its account and token. */
  ghost predicate Earned(log: Log, signature: Signature) {
    signature.Mac? &&
    exists q, id :: Issued(q, id, Passport(signature.accountId, signature.tokenId, signature)) in log
  }

  ghost predicate AuthsInv(s: State) {
    && (forall signature | signature in s.released :: Earned(s.log, signature))
    && (forall p | p in s.auths :: AuthOk(s.log, p, s.auths[p]))
  }

  ghost predicate AuthOk(log: Log, p: Pid, c: AuthCall) {
    && (c.signature.Other? || Earned(log, c.signature))
    && (c.accountId.Some? ==> AuthSawAccount(p, c.token, c.accountId.value) in log)
    && (c.tokenId.Some? ==> AuthSawToken(p, c.token, c.tokenId.value) in log)
  }

  /** Whoever has read a challenge has been started. */
  ghost predicate StartedInv(s: State) {
    forall p, id, challenge, at :: ReadChallenge(p, id, challenge, at) in s.log ==> p in s.started
  }

  ghost predicate Inv(s: State) {
    WellCaused(s.log) && StoreInv(s) && ChallengesInv(s) && SolvesInv(s) && AuthsInv(s) && StartedInv(s)
  }

  // ---- Preservation ----

  /** Calls that a step does not touch keep their facts as the log and the ids grow. */
  lemma LogGrows(s: State, e: Event, usedIds: set<string>)
    requires ChallengesInv(s) && SolvesInv(s) && AuthsInv(s) && s.usedIds <= usedIds
    ensures forall p | p in s.challenges :: ChallengeOk(s.log + [e], p, s.challenges[p])
    ensures forall p | p in s.solves :: SolveOk(s.log + [e], usedIds, p, s.solves[p])
    ensures forall p | p in s.auths :: AuthOk(s.log + [e], p, s.auths[p])
    ensures forall signature | signature in s.released :: Earned(s.log + [e], signature)
  {
    forall signature | Earned(s.log, signature)
      ensures Earned(s.log + [e], signature)
    {
      var q, id :| Issued(q, id, Passport(signature.accountId, signature.tokenId, signature)) in s.log;
      assert Issued(q, id, Passport(signature.accountId, signature.tokenId, signature)) in s.log + [e];
    }
    forall p | p in s.solves
      ensures SolveOk(s.log + [e], usedIds, p, s.solves[p])
    {
      var c := s.solves[p];
      assert SolveOk(s.log, s.usedIds, p, c);
      var at :| ReadChallenge(p, c.challenge.id, c.challenge, at) in s.log;
      assert ReadChallenge(p, c.challenge.id, c.challenge, at) in s.log + [e];
    }
    forall p | p in s.challenges
      ensures ChallengeOk(s.log + [e], p, s.challenges[p])
    {
      assert ChallengeOk(s.log, p, s.challenges[p]);
    }
    forall p | p in s.auths
      ensures AuthOk(s.log + [e], p, s.auths[p])
    {
      assert AuthOk(s.log, p, s.auths[p]);
    }
  }

  /** The store's facts survive any event that neither registers nor unlinks. */
  lemma StoreKept(s: State, e: Event)
    requires StoreInv(s) && !e.Registered? && !e.Unlinked?
    ensures StoreInv(s.(log := s.log + [e]))
  {
    forall id | id in s.store
      ensures exists c :: Registered(c, s.store[id].challenge, s.store[id].deadline) in s.log + [e]
    {
      var c :| Registered(c, s.store[id].challenge, s.store[id].deadline) in s.log;
      assert Registered(c, s.store[id].challenge, s.store[id].deadline) in s.log + [e];
    }
  }

  /** The calls of t are those of s or have facts of their own. */
  ghost predicate CallsOk(s: State, t: State) {
    && (forall p | p in t.challenges ::
          (p in s.challenges && t.challenges[p] == s.challenges[p]) || ChallengeOk(t.log, p, t.challenges[p]))
    && (forall p | p in t.solves ::
          (p in s.solves && t.solves[p] == s.solves[p]) || SolveOk(t.log, t.usedIds, p, t.solves[p]))
    && (forall p | p in t.auths :: (p in s.auths && t.auths[p] == s.auths[p]) || AuthOk(t.log, p, t.auths[p]))
    && (forall signature | signature in t.released :: signature in s.released || Earned(t.log, signature))
  }

  lemma ChallengeChanged(s: State, t: State, p: Pid, c: ChallengeCall)
    requires t.challenges == s.challenges[p := c] && ChallengeOk(t.log, p, c)
    requires t.solves == s.solves && t.auths == s.auths && t.released == s.released
    ensures CallsOk(s, t)
  {
    hide ChallengeOk, SolveOk, AuthOk, Earned;
  }

  lemma SolveChanged(s: State, t: State, p: Pid, c: SolveCall)
    requires t.solves == s.solves[p := c] && SolveOk(t.log, t.usedIds, p, c)
    requires t.challenges == s.challenges && t.auths == s.auths && t.released == s.released
    ensures CallsOk(s, t)
  {
    hide ChallengeOk, SolveOk, AuthOk, Earned;
  }

  lemma AuthChanged(s: State, t: State, p: Pid, c: AuthCall)
    requires t.auths == s.auths[p := c] && AuthOk(t.log, p, c)
    requires t.challenges == s.challenges && t.solves == s.solves && t.released == s.released
    ensures CallsOk(s, t)
  {
    hide ChallengeOk, SolveOk, AuthOk, Earned;
  }

  /** A step that logs nothing. */
  lemma Quiet(s: State, t: State)
    requires Inv(s) && CallsOk(s, t)
    requires t.log == s.log && t.store == s.store && t.usedIds == s.usedIds && s.started <= t.started
    ensures Inv(t)
  {
    hide WellCaused, SolveOk, AuthOk, ChallengeOk, Earned;
  }

  /** A step that logs one event. */
  lemma Logged(s: State, t: State, e: Event)
    requires Inv(s) && CallsOk(s, t)
    requires t.log == s.log + [e] && Caused(s.log, e)
    requires s.usedIds <= t.usedIds && StoreInv(t)
    requires s.started <= t.started && (e.ReadChallenge? ==> e.pid in t.started)
    ensures Inv(t)
  {
    CausedAppend(s.log, e);
    LogGrows(s, e, t.usedIds);
    assert StartedInv(t);
    CallsKept(s, t, e);
    hide *;
    Together(t);
  }

  lemma Together(t: State)
    requires WellCaused(t.log) && StoreInv(t) && ChallengesInv(t) && SolvesInv(t) && AuthsInv(t) && StartedInv(t)
    ensures Inv(t)
  {
  }

  lemma CallsKept(s: State, t: State, e: Event)
    requires CallsOk(s, t) && t.log == s.log + [e]
    requires forall p | p in s.challenges :: ChallengeOk(s.log + [e], p, s.challenges[p])
    requires forall p | p in s.solves :: SolveOk(s.log + [e], t.usedIds, p, s.solves[p])
    requires forall p | p in s.auths :: AuthOk(s.log + [e], p, s.auths[p])
    requires forall signature | signature in s.released :: Earned(s.log + [e], signature)
    ensures ChallengesInv(t) && SolvesInv(t) && AuthsInv(t)
  {
    hide SolveOk, AuthOk, ChallengeOk, Earned;
  }

  lemma StoreStays(s: State, t: State, e: Event)
    requires StoreInv(s) && !e.Registered? && !e.Unlinked?
    requires t.log == s.log + [e] && t.store == s.store && t.usedIds == s.usedIds
    ensures StoreInv(t)
  {
    StoreKept(s, e);
  }

  lemma BeginStep(s: State, a: Action)
    requires Inv(s) && Enabled(s, a) && (a.BeginChallenge? || a.BeginAuth?)
    ensures Inv(Next(s, a))
  {
    hide WellCaused, SolveOk, StoreInv, StartedInv;
    var t := Next(s, a);
    if a.BeginChallenge? {
      ChallengeChanged(s, t, a.pid, ChallengeCall(a.token, a.seconds, None, None));
    } else {
      AuthChanged(s, t, a.pid, AuthCall(a.token, a.signature, None, None));
    }
    hide CallsOk;
    Quiet(s, t);
  }

  /** A call whose token the API refuses is dropped; nothing else changes. */
  lemma RefusedStep(s: State, a: Action)
    requires Inv(s) && Enabled(s, a) && Next(s, a).log == s.log
    requires a.ChallengeAccount? || a.ChallengeToken? || a.SolveAccount? || a.SolveName? || a.AuthAccount?
             || a.AuthToken?
    ensures Inv(Next(s, a))
  {
    hide Next, Enabled, Inv, FewerCalls;
    var t := Next(s, a);
    if a.ChallengeAccount? || a.ChallengeToken? {
      ChallengeDropped(s, a);
    } else if a.SolveAccount? || a.SolveName? {
      SolveDropped(s, a);
    } else {
      AuthDropped(s, a);
    }
    CallsDropped(s, t);
    hide CallsOk;
    Quiet(s, t);
  }

  /** Parts of s, call by call. */
  ghost predicate FewerCalls(s: State, t: State) {
    && (forall p | p in t.challenges :: p in s.challenges && t.challenges[p] == s.challenges[p])
    && (forall p | p in t.solves :: p in s.solves && t.solves[p] == s.solves[p])
    && (forall p | p in t.auths :: p in s.auths && t.auths[p] == s.auths[p])
    && t.released == s.released
  }

  ghost predicate SameButFewerCalls(s: State, t: State) {
    && FewerCalls(s, t)
    && t.log == s.log && t.store == s.store && t.usedIds == s.usedIds && t.started == s.started
  }

  lemma ChallengeDropped(s: State, a: Action)
    requires Enabled(s, a) && Next(s, a).log == s.log && (a.ChallengeAccount? || a.ChallengeToken?)
    ensures SameButFewerCalls(s, Next(s, a))
  {
    assert Next(s, a) == s.(challenges := s.challenges - {a.pid});
  }

  lemma SolveDropped(s: State, a: Action)
    requires Enabled(s, a) && Next(s, a).log == s.log && (a.SolveAccount? || a.SolveName?)
    ensures SameButFewerCalls(s, Next(s, a))
  {
    assert Next(s, a) == s.(solves := s.solves - {a.pid});
  }

  lemma AuthDropped(s: State, a: Action)
    requires Enabled(s, a) && Next(s, a).log == s.log && (a.AuthAccount? || a.AuthToken?)
    ensures SameButFewerCalls(s, Next(s, a))
  {
    assert Next(s, a) == s.(auths := s.auths - {a.pid});
  }

  lemma CallsDropped(s: State, t: State)
    requires FewerCalls(s, t)
    ensures CallsOk(s, t)
  {
    hide ChallengeOk, SolveOk, AuthOk, Earned;
  }

  lemma ChallengeStep(s: State, a: Action)
    requires Inv(s) && Enabled(s, a) && (a.ChallengeAccount? || a.ChallengeToken?)
    ensures Inv(Next(s, a))
  {
    hide WellCaused, SolveOk, AuthOk, Earned, StoreInv, StartedInv;
    var t := Next(s, a);
    if t.log == s.log {
      RefusedStep(s, a);
    } else {
      var c := s.challenges[a.pid];
      var e := if a.ChallengeAccount? then ChallengeSawAccount(a.pid, c.token, s.keys[c.token].accountId)
               else ChallengeSawToken(a.pid, c.token, s.keys[c.token].tokenId);
      assert t == s.(challenges := s.challenges[a.pid := t.challenges[a.pid]], log := s.log + [e]);
      assert ChallengeOk(t.log, a.pid, t.challenges[a.pid]) by {
        assert ChallengeOk(s.log, a.pid, c);
      }
      hide Next, ChallengeNext, ChallengeOk;
      ChallengeChanged(s, t, a.pid, t.challenges[a.pid]);
      StoreStays(s, t, e);
      hide CallsOk;
      Logged(s, t, e);
    }
  }

  lemma RegisterStep(s: State, a: Action)
    requires Inv(s) && Enabled(s, a) && a.ChallengeRegister?
    ensures Inv(Next(s, a))
  {
    var t := Next(s, a);
    var c := s.challenges[a.pid];
    var challenge := Challenge(a.id, c.accountId.value, c.tokenId.value, a.test);
    var e := Registered(a.pid, challenge, s.now + 1000 * c.seconds);
    assert t.log == s.log + [e];
    assert Caused(s.log, e) by {
      assert ChallengeOk(s.log, a.pid, c);
    }
    RegisterKeepsStore(s, t, challenge, a.pid, c.seconds);
    hide WellCaused, SolveOk, AuthOk, ChallengeOk, Earned, Caused, StoreInv;
    Logged(s, t, e);
  }

  lemma RegisterKeepsStore(s: State, t: State, challenge: Challenge, p: Pid, seconds: int)
    requires StoreInv(s) && challenge.id !in s.usedIds
    requires t.store == Register(s.store, challenge, seconds, s.now) && t.usedIds == s.usedIds + {challenge.id}
    requires t.log == s.log + [Registered(p, challenge, s.now + 1000 * seconds)]
    ensures StoreInv(t)
  {
    forall id | id in s.store
      ensures exists c :: Registered(c, s.store[id].challenge, s.store[id].deadline) in t.log
    {
      var c :| Registered(c, s.store[id].challenge, s.store[id].deadline) in s.log;
      assert Registered(c, s.store[id].challenge, s.store[id].deadline) in t.log;
    }
    assert Registered(p, challenge, s.now + 1000 * seconds) in t.log;
  }

  lemma ReadIsCaused(s: State, p: Pid, id: string)
    requires StoreInv(s) && StartedInv(s) && p !in s.started
    requires id in s.store && s.now < s.store[id].deadline && Parses(s.store[id].challenge)
    ensures Caused(s.log, ReadChallenge(p, id, s.store[id].challenge, s.now))
  {
    hide Parses;
  }

  lemma ReadStep(s: State, a: Action)
    requires Inv(s) && Enabled(s, a) && a.SolveRead?
    ensures Inv(Next(s, a))
  {
    hide WellCaused, AuthOk, ChallengeOk, Earned, Parses, SolveOk;
    var t := Next(s, a);
    if t.log == s.log {
      hide StoreInv, StartedInv;
      Quiet(s, t);
    } else {
      var challenge := s.store[a.id].challenge;
      var e := ReadChallenge(a.pid, a.id, challenge, s.now);
      var c := SolveCall(challenge, a.token, false, None, None);
      assert t == s.(started := t.started, solves := s.solves[a.pid := c], log := s.log + [e]);
      assert e.pid in t.started;
      ReadIsCaused(s, a.pid, a.id);
      JustRead(s, t, a.pid, a.id, c);
      hide Next, SolveNext;
      SolveChanged(s, t, a.pid, c);
      StoreStays(s, t, e);
      hide StoreInv, StartedInv, Caused, CallsOk;
      Logged(s, t, e);
    }
  }

  lemma JustRead(s: State, t: State, p: Pid, id: string, c: SolveCall)
    requires StoreInv(s) && id in s.store && t.usedIds == s.usedIds
    requires c.challenge == s.store[id].challenge && !c.unlinked && c.accountId.None? && c.name.None?
    requires t.log == s.log + [ReadChallenge(p, id, c.challenge, s.now)]
    ensures SolveOk(t.log, t.usedIds, p, c)
  {
    assert ReadChallenge(p, id, c.challenge, s.now) in t.log;
  }

  lemma UnlinkStep(s: State, a: Action)
    requires Inv(s) && Enabled(s, a) && a.SolveUnlink?
    ensures Inv(Next(s, a))
  {
    hide WellCaused, AuthOk, ChallengeOk, Earned;
    var t := Next(s, a);
    var c := s.solves[a.pid];
    var e := Unlinked(a.pid, c.challenge.id);
    assert t.log == s.log + [e];
    assert SolveOk(s.log, s.usedIds, a.pid, c);
    assert Caused(s.log, e);
    assert SolveOk(t.log, t.usedIds, a.pid, t.solves[a.pid]) by {
      var at :| ReadChallenge(a.pid, c.challenge.id, c.challenge, at) in s.log;
      assert ReadChallenge(a.pid, c.challenge.id, c.challenge, at) in t.log;
      assert e in t.log;
    }
    UnlinkKeepsStore(s, t, e);
    hide SolveOk, StoreInv, Caused;
    SolveChanged(s, t, a.pid, t.solves[a.pid]);
    hide CallsOk;
    Logged(s, t, e);
  }

  lemma UnlinkKeepsStore(s: State, t: State, e: Event)
    requires StoreInv(s) && e.Unlinked? && e.id in s.usedIds
    requires t.store == Unlink(s.store, e.id) && t.usedIds == s.usedIds && t.log == s.log + [e]
    ensures StoreInv(t)
  {
    forall id | id in t.store
      ensures exists c :: Registered(c, t.store[id].challenge, t.store[id].deadline) in t.log
    {
      var c :| Registered(c, s.store[id].challenge, s.store[id].deadline) in s.log;
      assert Registered(c, s.store[id].challenge, s.store[id].deadline) in t.log;
    }
  }

  lemma SolveAccountStep(s: State, a: Action)
    requires Inv(s) && Enabled(s, a) && a.SolveAccount?
    ensures Inv(Next(s, a))
  {
    hide WellCaused, AuthOk, ChallengeOk, Earned, StoreInv, StartedInv;
    var t := Next(s, a);
    if t.log == s.log {
      RefusedStep(s, a);
    } else {
      var c := s.solves[a.pid];
      var e := SawAccount(a.pid, c.token, s.keys[c.token].accountId);
      assert t == s.(solves := s.solves[a.pid := t.solves[a.pid]], log := s.log + [e]);
      assert SolveOk(s.log, s.usedIds, a.pid, c);
      var at :| ReadChallenge(a.pid, c.challenge.id, c.challenge, at) in s.log;
      assert Caused(s.log, e);
      StoreStays(s, t, e);
      assert SolveOk(t.log, t.usedIds, a.pid, t.solves[a.pid]) by {
        assert ReadChallenge(a.pid, c.challenge.id, c.challenge, at) in t.log;
        assert e in t.log;
      }
      hide Next, SolveNext, SolveOk, Caused;
      SolveChanged(s, t, a.pid, t.solves[a.pid]);
      hide CallsOk;
      Logged(s, t, e);
    }
  }

  lemma SolveNameStep(s: State, a: Action)
    requires Inv(s) && Enabled(s, a) && a.SolveName?
    ensures Inv(Next(s, a))
  {
    hide WellCaused, AuthOk, ChallengeOk, Earned, StoreInv, StartedInv;
    var t := Next(s, a);
    if t.log == s.log {
      RefusedStep(s, a);
    } else {
      var c := s.solves[a.pid];
      var e := SawName(a.pid, c.token, s.keys[c.token].name);
      assert t == s.(solves := s.solves[a.pid := t.solves[a.pid]], log := s.log + [e]);
      assert SolveOk(s.log, s.usedIds, a.pid, c);
      var at :| ReadChallenge(a.pid, c.challenge.id, c.challenge, at) in s.log;
      assert Caused(s.log, e);
      StoreStays(s, t, e);
      assert SolveOk(t.log, t.usedIds, a.pid, t.solves[a.pid]) by {
        assert ReadChallenge(a.pid, c.challenge.id, c.challenge, at) in t.log;
        assert e in t.log;
      }
      hide Next, SolveNext, SolveOk, Caused;
      SolveChanged(s, t, a.pid, t.solves[a.pid]);
      hide CallsOk;
      Logged(s, t, e);
    }
  }

  lemma FinishStep(s: State, a: Action)
    requires Inv(s) && Enabled(s, a) && a.SolveFinish?
    ensures Inv(Next(s, a))
  {
    hide WellCaused, AuthOk, ChallengeOk, StoreInv;
    var t := Next(s, a);
    if t.log == s.log {
      hide SolveOk, Earned;
      Quiet(s, t);
    } else {
      var c := s.solves[a.pid];
      var signature := Mac(c.challenge.accountId, c.challenge.tokenId);
      var passport := Passport(c.challenge.accountId, c.challenge.tokenId, signature);
      var e := Issued(a.pid, c.challenge.id, passport);
      assert t.log == s.log + [e];
      assert IssueCaused(s.log, a.pid, c.challenge.id, passport) by {
        assert SolveOk(s.log, s.usedIds, a.pid, c);
        var at :| ReadChallenge(a.pid, c.challenge.id, c.challenge, at) in s.log;
        assert SolvedBy(s.log, a.pid, c.challenge.id, c.challenge, at, c.token);
      }
      StoreStays(s, t, e);
      assert Earned(t.log, signature) by {
        assert e in t.log;
      }
      assert Caused(s.log, e);
      hide SolveOk, Earned, Caused, IssueCaused;
      Logged(s, t, e);
    }
  }

  lemma AuthStep(s: State, a: Action)
    requires Inv(s) && Enabled(s, a) && (a.AuthAccount? || a.AuthToken?)
    ensures Inv(Next(s, a))
  {
    hide WellCaused, SolveOk, ChallengeOk, Earned, StoreInv, StartedInv;
    var t := Next(s, a);
    if t.log == s.log {
      RefusedStep(s, a);
    } else {
      var c := s.auths[a.pid];
      var e := if a.AuthAccount? then AuthSawAccount(a.pid, c.token, s.keys[c.token].accountId)
               else AuthSawToken(a.pid, c.token, s.keys[c.token].tokenId);
      assert t == s.(auths := s.auths[a.pid := t.auths[a.pid]], log := s.log + [e]);
      assert Caused(s.log, e);
      LogGrows(s, e, s.usedIds);
      assert AuthOk(t.log, a.pid, t.auths[a.pid]) by {
        assert AuthOk(t.log, a.pid, c);
        assert e in t.log;
      }
      hide Next, AuthNext, AuthOk, Caused;
      AuthChanged(s, t, a.pid, t.auths[a.pid]);
      StoreStays(s, t, e);
      hide CallsOk;
      Logged(s, t, e);
    }
  }

  lemma GradeStep(s: State, a: Action)
    requires Inv(s) && Enabled(s, a) && a.AuthFinish?
    ensures Inv(Next(s, a))
  {
    hide WellCaused, SolveOk, ChallengeOk, StoreInv;
    var t := Next(s, a);
    var c := s.auths[a.pid];
    var e := t.log[|s.log|];
    assert t.log == s.log + [e];
    assert Caused(s.log, e) by {
      assert AuthOk(s.log, a.pid, c);
    }
    StoreStays(s, t, e);
    hide AuthOk, Earned, Caused;
    Logged(s, t, e);
  }

  lemma Step(s: State, a: Action)
    requires Inv(s) && Enabled(s, a)
    ensures Inv(Next(s, a))
  {
    hide WellCaused, StoreInv, SolveOk, AuthOk, ChallengeOk, Earned;
    match a {
      case Tick(_) => Quiet(s, Next(s, a));
      case ChangeKeys(_) => Quiet(s, Next(s, a));
      case BeginChallenge(_, _, _) => BeginStep(s, a);
      case ChallengeAccount(_) => ChallengeStep(s, a);
      case ChallengeToken(_) => ChallengeStep(s, a);
      case ChallengeRegister(_, _, _) => RegisterStep(s, a);
      case SolveRead(_, _, _) => ReadStep(s, a);
      case SolveUnlink(_) => UnlinkStep(s, a);
      case SolveAccount(_) => SolveAccountStep(s, a);
      case SolveName(_) => SolveNameStep(s, a);
      case SolveFinish(_) => FinishStep(s, a);
      case BeginAuth(_, _, _) => BeginStep(s, a);
      case AuthAccount(_) => AuthStep(s, a);
      case AuthToken(_) => AuthStep(s, a);
      case AuthFinish(_) => GradeStep(s, a);
    }
  }

  lemma {:induction false} RunKeepsInv(run: seq<Action>)
    requires IsRun(run)
    ensures Inv(StateAfter(run))
  {
    if run == [] {
      assert Inv(INITIAL);
    } else {
      RunKeepsInv(run[..|run| - 1]);
      hide Inv, Next, Enabled;
      Step(StateAfter(run[..|run| - 1]), run[|run| - 1]);
    }
  }
}
