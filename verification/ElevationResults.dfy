/** The guarantees of the elevation protocol, over every run. */
module ElevationResults {
  import opened ElevationStore
  import opened Elevation
  import opened ElevationCausality

  /** One event happens before another. */
  ghost predicate Precedes(log: Log, e: Event, f: Event) {
    exists i, j | 0 <= i < j < |log| :: log[i] == e && log[j] == f
  }

  lemma PastPrecedes(log: Log, j: nat, e: Event)
    requires j < |log| && e in log[..j]
    ensures Precedes(log, e, log[j])
  {
    var i :| 0 <= i < j && log[..j][i] == e;
    assert log[i] == e;
  }

  lemma EarlierIsPast(log: Log)
    ensures forall i, j | 0 <= i < j < |log| :: log[i] in log[..j]
  {
    forall i, j | 0 <= i < j < |log|
      ensures log[i] in log[..j]
    {
      assert log[..j][i] == log[i];
    }
  }

  // ---- Verified is earned ----

  /** A solve q of a challenge, with the key that answered it, that earned a passport before the grade. */
  datatype Story = Story(solver: Pid, challenge: Challenge, challenger: Pid, deadline: int, at: int, key: string)

  function ReadOf(y: Story): Event {
    ReadChallenge(y.solver, y.challenge.id, y.challenge, y.at)
  }

  function UnlinkOf(y: Story): Event {
    Unlinked(y.solver, y.challenge.id)
  }

  function IssueOf(y: Story): Event {
    Issued(y.solver, y.challenge.id,
           Passport(y.challenge.accountId, y.challenge.tokenId, Mac(y.challenge.accountId, y.challenge.tokenId)))
  }

  /**
   The challenge was registered for exactly this account and token, was read before its deadline, and
   was then unlinked. Only then did the solver see, for one key, the challenge's account and the
   challenge's test as its name; only then was the passport issued; and only then the grade given.
   */
  ghost predicate Justifies(log: Log, y: Story, grade: Event)
    requires grade.Graded?
  {
    && y.challenge.accountId == grade.accountId
    && y.challenge.tokenId == grade.tokenId
    && y.at < y.deadline
    && Precedes(log, Registered(y.challenger, y.challenge, y.deadline), ReadOf(y))
    && Precedes(log, ReadOf(y), UnlinkOf(y))
    && Precedes(log, UnlinkOf(y), SawAccount(y.solver, y.key, grade.accountId))
    && Precedes(log, UnlinkOf(y), SawName(y.solver, y.key, y.challenge.test))
    && Precedes(log, SawAccount(y.solver, y.key, grade.accountId), IssueOf(y))
    && Precedes(log, SawName(y.solver, y.key, y.challenge.test), IssueOf(y))
    && Precedes(log, IssueOf(y), grade)
  }

  /** A solve reads once. */
  lemma OneRead(log: Log, p: Pid, id1: string, c1: Challenge, n1: int, id2: string, c2: Challenge, n2: int)
    requires WellCaused(log)
    requires ReadChallenge(p, id1, c1, n1) in log && ReadChallenge(p, id2, c2, n2) in log
    ensures id1 == id2 && c1 == c2 && n1 == n2
  {
    var i :| 0 <= i < |log| && log[i] == ReadChallenge(p, id1, c1, n1);
    var j :| 0 <= j < |log| && log[j] == ReadChallenge(p, id2, c2, n2);
    CauseOf(log, i);
    CauseOf(log, j);
    hide WellCaused;
    EarlierIsPast(log);
  }

  /** What a solver saw, it saw after it had unlinked its challenge. */
  lemma SeenAfterUnlink(log: Log, p: Pid, id: string, c: Challenge, at: int, seen: Event)
    requires WellCaused(log) && ReadChallenge(p, id, c, at) in log
    requires seen in log && (seen.SawAccount? || seen.SawName?) && seen.pid == p
    ensures Precedes(log, Unlinked(p, id), seen)
  {
    var j :| 0 <= j < |log| && log[j] == seen;
    CauseOf(log, j);
    var id2, c2, n2 :| ReadChallenge(p, id2, c2, n2) in log[..j] && Unlinked(p, id2) in log[..j];
    hide WellCaused, Precedes;
    assert ReadChallenge(p, id2, c2, n2) in log;
    OneRead(log, p, id, c, at, id2, c2, n2);
    PastPrecedes(log, j, Unlinked(p, id));
  }

  lemma UnlinkedAfterRead(log: Log, p: Pid, id: string, c: Challenge, at: int)
    requires WellCaused(log) && ReadChallenge(p, id, c, at) in log && Unlinked(p, id) in log
    ensures Precedes(log, ReadChallenge(p, id, c, at), Unlinked(p, id))
  {
    var j :| 0 <= j < |log| && log[j] == Unlinked(p, id);
    CauseOf(log, j);
    var c2, n2 :| ReadChallenge(p, id, c2, n2) in log[..j];
    hide WellCaused, Precedes;
    assert ReadChallenge(p, id, c2, n2) in log;
    OneRead(log, p, id, c, at, id, c2, n2);
    PastPrecedes(log, j, ReadChallenge(p, id, c, at));
  }

  lemma RegisteredBeforeRead(log: Log, p: Pid, id: string, c: Challenge, at: int)
    returns (challenger: Pid, deadline: int)
    requires WellCaused(log) && ReadChallenge(p, id, c, at) in log
    ensures at < deadline && c.id == id
    ensures Precedes(log, Registered(challenger, c, deadline), ReadChallenge(p, id, c, at))
  {
    var j :| 0 <= j < |log| && log[j] == ReadChallenge(p, id, c, at);
    CauseOf(log, j);
    challenger, deadline :| Registered(challenger, c, deadline) in log[..j] && at < deadline;
    PastPrecedes(log, j, Registered(challenger, c, deadline));
  }

  /** The part of a story up to the passport. */
  ghost predicate Earns(log: Log, y: Story) {
    && y.at < y.deadline
    && Precedes(log, Registered(y.challenger, y.challenge, y.deadline), ReadOf(y))
    && Precedes(log, ReadOf(y), UnlinkOf(y))
    && Precedes(log, UnlinkOf(y), SawAccount(y.solver, y.key, y.challenge.accountId))
    && Precedes(log, UnlinkOf(y), SawName(y.solver, y.key, y.challenge.test))
    && Precedes(log, SawAccount(y.solver, y.key, y.challenge.accountId), IssueOf(y))
    && Precedes(log, SawName(y.solver, y.key, y.challenge.test), IssueOf(y))
  }

  lemma IssueIsEarned(log: Log, w: nat) returns (y: Story)
    requires WellCaused(log) && w < |log| && log[w].Issued?
    ensures Earns(log, y) && IssueOf(y) == log[w]
  {
    var q, id, passport := log[w].pid, log[w].id, log[w].passport;
    CauseOf(log, w);
    var challenge, at, key :| SolvedBy(log[..w], q, id, challenge, at, key)
      && passport == Passport(challenge.accountId, challenge.tokenId, Mac(challenge.accountId, challenge.tokenId));
    hide *;
    InWhole(log, w);
    var challenger, deadline := RegisteredBeforeRead(log, q, id, challenge, at);
    y := Story(q, challenge, challenger, deadline, at, key);
    PastPrecedes(log, w, SawAccount(q, key, challenge.accountId));
    PastPrecedes(log, w, SawName(q, key, challenge.test));
    UnlinkedAfterRead(log, q, id, challenge, at);
    SeenAfterUnlink(log, q, id, challenge, at, SawAccount(q, key, challenge.accountId));
    SeenAfterUnlink(log, q, id, challenge, at, SawName(q, key, challenge.test));
    Assemble(log, y, id, log[w]);
  }

  lemma Assemble(log: Log, y: Story, id: string, issue: Event)
    requires y.challenge.id == id && y.at < y.deadline
    requires issue == Issued(y.solver, id, Passport(y.challenge.accountId, y.challenge.tokenId,
                                                    Mac(y.challenge.accountId, y.challenge.tokenId)))
    requires Precedes(log, Registered(y.challenger, y.challenge, y.deadline),
                      ReadChallenge(y.solver, id, y.challenge, y.at))
    requires Precedes(log, ReadChallenge(y.solver, id, y.challenge, y.at), Unlinked(y.solver, id))
    requires Precedes(log, Unlinked(y.solver, id), SawAccount(y.solver, y.key, y.challenge.accountId))
    requires Precedes(log, Unlinked(y.solver, id), SawName(y.solver, y.key, y.challenge.test))
    requires Precedes(log, SawAccount(y.solver, y.key, y.challenge.accountId), issue)
    requires Precedes(log, SawName(y.solver, y.key, y.challenge.test), issue)
    ensures Earns(log, y) && IssueOf(y) == issue
  {
    hide Precedes;
  }

  /** Over every run, a grade of Verified has its story. */
  lemma VerifiedIsEarned(run: seq<Action>, i: nat) returns (y: Story)
    requires IsRun(run) && i < |StateAfter(run).log|
    requires StateAfter(run).log[i].Graded? && StateAfter(run).log[i].level.Verified?
    ensures Justifies(StateAfter(run).log, y, StateAfter(run).log[i])
  {
    RunKeepsInv(run);
    var log, grade := StateAfter(run).log, StateAfter(run).log[i];
    hide IsRun, StateAfter, StoreInv, SolvesInv, ChallengesInv, AuthsInv, StartedInv;
    var passport := Passport(grade.accountId, grade.tokenId, Mac(grade.accountId, grade.tokenId));
    CauseOf(log, i);
    var q, id :| Issued(q, id, passport) in log[..i];
    hide WellCaused, Precedes, Caused;
    PastPrecedes(log, i, Issued(q, id, passport));
    var w :| 0 <= w < i && log[..i][w] == Issued(q, id, passport);
    y := IssueIsEarned(log, w);
  }

  lemma InWhole(log: Log, n: nat)
    requires n <= |log|
    ensures forall e | e in log[..n] :: e in log
  {
  }

  // ---- Consumption ----

  /** Once a challenge is unlinked, no solve reads it any more. */
  lemma ConsumedForGood(run: seq<Action>, i: nat, j: nat)
    requires IsRun(run) && i < j < |StateAfter(run).log|
    requires StateAfter(run).log[i].Unlinked? && StateAfter(run).log[j].ReadChallenge?
    ensures StateAfter(run).log[i].id != StateAfter(run).log[j].id
  {
    RunKeepsInv(run);
    var log := StateAfter(run).log;
    hide IsRun, StateAfter;
    CauseOf(log, j);
    hide WellCaused;
    assert log[..j][i] == log[i];
  }

  lemma SolversHaveStarted(s: State)
    requires SolvesInv(s) && StartedInv(s)
    ensures s.solves.Keys <= s.started
  {
    forall p | p in s.solves
      ensures p in s.started
    {
      assert SolveOk(s.log, s.usedIds, p, s.solves[p]);
      var at :| ReadChallenge(p, s.solves[p].challenge.id, s.solves[p].challenge, at) in s.log;
    }
  }

  /** A solve of a consumed challenge fails at its first step, whatever the earlier verdict was. */
  lemma LateSolveFails(run: seq<Action>, a: Action, q: Pid)
    requires IsRun(run) && a.SolveRead? && Enabled(StateAfter(run), a)
    requires Unlinked(q, a.id) in StateAfter(run).log
    ensures var (s, t) := (StateAfter(run), Next(StateAfter(run), a));
            a.pid !in t.solves && t == s.(started := s.started + {a.pid})
  {
    RunKeepsInv(run);
    var s := StateAfter(run);
    hide IsRun, StateAfter;
    assert a.id !in s.store;
    SolversHaveStarted(s);
  }

  lemma RegisteredOnce(log: Log, p: Pid, c: Challenge, n: int, q: Pid, d: Challenge, m: int)
    requires WellCaused(log) && Registered(p, c, n) in log && Registered(q, d, m) in log
    requires c.id == d.id
    ensures c == d
  {
    var i :| 0 <= i < |log| && log[i] == Registered(p, c, n);
    var j :| 0 <= j < |log| && log[j] == Registered(q, d, m);
    CauseOf(log, i);
    CauseOf(log, j);
    hide WellCaused;
    EarlierIsPast(log);
  }

  /** The challenge behind an issued passport. */
  lemma IssuedFrom(log: Log, p: Pid, id: string, passport: Passport)
    returns (c: Challenge, challenger: Pid, deadline: int)
    requires WellCaused(log) && Issued(p, id, passport) in log
    ensures c.id == id && Registered(challenger, c, deadline) in log
    ensures passport == Passport(c.accountId, c.tokenId, Mac(c.accountId, c.tokenId))
  {
    var w :| 0 <= w < |log| && log[w] == Issued(p, id, passport);
    CauseOf(log, w);
    var challenge, at, key :| SolvedBy(log[..w], p, id, challenge, at, key)
      && passport == Passport(challenge.accountId, challenge.tokenId, Mac(challenge.accountId, challenge.tokenId));
    InWhole(log, w);
    hide WellCaused;
    challenger, deadline := RegisteredBeforeRead(log, p, id, challenge, at);
    c := challenge;
  }

  /** Solves of one challenge that overlap can issue only one and the same passport. */
  lemma OverlappingPassportsAgree(run: seq<Action>, p: Pid, x: Passport, q: Pid, y: Passport, id: string)
    requires IsRun(run)
    requires Issued(p, id, x) in StateAfter(run).log && Issued(q, id, y) in StateAfter(run).log
    ensures x == y
  {
    RunKeepsInv(run);
    var log := StateAfter(run).log;
    hide IsRun, StateAfter, WellCaused;
    var c, cp, cn := IssuedFrom(log, p, id, x);
    var d, dp, dn := IssuedFrom(log, q, id, y);
    RegisteredOnce(log, cp, c, cn, dp, d, dn);
  }

  /** Every issued passport passes verification and is worth the grade Verified. */
  lemma IssuedPassportsVerify(run: seq<Action>, p: Pid, id: string, passport: Passport)
    requires IsRun(run) && Issued(p, id, passport) in StateAfter(run).log
    ensures Verify(passport).valid && GetAuthenticationLevel(passport) == Verified
  {
    RunKeepsInv(run);
    var c, challenger, deadline := IssuedFrom(StateAfter(run).log, p, id, passport);
  }

  /** A passport verifies for no other account and no other token. */
  lemma PassportsDoNotTransfer(run: seq<Action>, p: Pid, id: string, passport: Passport, accountId: string,
                               tokenId: string)
    requires IsRun(run) && Issued(p, id, passport) in StateAfter(run).log
    ensures Verify(Passport(accountId, tokenId, passport.signature)).valid
            <==> accountId == passport.accountId && tokenId == passport.tokenId
  {
    RunKeepsInv(run);
    var c, challenger, deadline := IssuedFrom(StateAfter(run).log, p, id, passport);
  }
}
