/**
 The elevation protocol as a step system: challenge, solve and authenticate calls run as
 processes that take one step per remote command, in any order, while time passes and the API
 keys behind the tokens change at will.

 Cryptography is ideal: a signature is the term Mac(account, token id), which nobody can produce
 but the service, and digests are equal exactly when their texts are. A caller may present any
 text that is not a signature of the service, and any signature that the service has issued.
 */
module Elevation {
  import opened Wrappers
  import opened ElevationStore

  datatype Signature = Mac(accountId: string, tokenId: string) | Other(text: string)

  datatype Passport = Passport(accountId: string, tokenId: string, signature: Signature)

  datatype PassportValidation = PassportValidation(accountId: string, tokenId: string, valid: bool)

  datatype AuthenticationLevel = Authenticated | Verified

  datatype Digest = Sha256(preimage: string)

  // ---- The expressions of the services ----

  function SignElevation(accountId: string, tokenId: string): Signature {
    Mac(accountId, tokenId)
  }

  function IsSignatureValid(accountId: string, tokenId: string, signature: Signature): bool {
    signature == Mac(accountId, tokenId)
  }

  function Verify(passport: Passport): PassportValidation {
    PassportValidation(passport.accountId, passport.tokenId,
                       IsSignatureValid(passport.accountId, passport.tokenId, passport.signature))
  }

  function GetAuthenticationLevel(passport: Passport): AuthenticationLevel {
    if Verify(passport).valid then Verified else Authenticated
  }

  /** The comparison at the end of a solve, on digests. */
  predicate SolutionHolds(challenge: Challenge, accountId: string, name: string) {
    && Sha256(challenge.accountId) == Sha256(accountId)
    && Sha256(challenge.test) == Sha256(name)
  }

  // ---- Processes and state ----

  /** What the game's API answers for a token at one moment. */
  datatype ApiKey = ApiKey(accountId: string, tokenId: string, name: string)

  /** A challenge call reads the account, then the token, then registers. */
  datatype ChallengeCall = ChallengeCall(
    token: string, seconds: int, accountId: Option<string>, tokenId: Option<string>)

  /** A solve unlinks its challenge and then asks for account and key name in either order. */
  datatype SolveCall = SolveCall(challenge: Challenge, token: string, unlinked: bool,
                                 accountId: Option<string>, name: Option<string>)

  datatype AuthCall = AuthCall(token: string, signature: Signature, accountId: Option<string>, tokenId: Option<string>)

  type Pid = nat

  datatype Event =
    | ChallengeSawAccount(pid: Pid, token: string, accountId: string)
    | ChallengeSawToken(pid: Pid, token: string, tokenId: string)
    | Registered(pid: Pid, challenge: Challenge, deadline: int)
    | ReadChallenge(pid: Pid, id: string, challenge: Challenge, at: int)
    | Unlinked(pid: Pid, id: string)
    | SawAccount(pid: Pid, token: string, accountId: string)
    | SawName(pid: Pid, token: string, name: string)
    | Issued(pid: Pid, id: string, passport: Passport)
    | AuthSawAccount(pid: Pid, token: string, accountId: string)
    | AuthSawToken(pid: Pid, token: string, tokenId: string)
    | Graded(pid: Pid, token: string, accountId: string, tokenId: string, level: AuthenticationLevel)

  type Log = seq<Event>

  datatype State = State(
    now: int,
    keys: map<string, ApiKey>,
    store: Challenges,
    usedIds: set<string>,
    started: set<Pid>,
    challenges: map<Pid, ChallengeCall>,
    solves: map<Pid, SolveCall>,
    auths: map<Pid, AuthCall>,
    released: set<Signature>,
    log: Log)

  const INITIAL := State(0, map[], map[], {}, {}, map[], map[], map[], {}, [])

  datatype Action =
    | Tick(ms: nat)
    | ChangeKeys(keys: map<string, ApiKey>)
    | BeginChallenge(pid: Pid, token: string, seconds: int)
    | ChallengeAccount(pid: Pid)
    | ChallengeToken(pid: Pid)
    | ChallengeRegister(pid: Pid, id: string, test: string)
    | SolveRead(pid: Pid, id: string, token: string)
    | SolveUnlink(pid: Pid)
    | SolveAccount(pid: Pid)
    | SolveName(pid: Pid)
    | SolveFinish(pid: Pid)
    | BeginAuth(pid: Pid, token: string, signature: Signature)
    | AuthAccount(pid: Pid)
    | AuthToken(pid: Pid)
    | AuthFinish(pid: Pid)

  /** Process ids are new, challenge ids are new, and signatures cannot be forged. */
  predicate Enabled(s: State, a: Action) {
    match a
    case Tick(_) => true
    case ChangeKeys(_) => true
    case BeginChallenge(p, _, _) => p !in s.started
    case ChallengeAccount(p) => p in s.challenges && s.challenges[p].accountId.None?
    case ChallengeToken(p) => p in s.challenges && s.challenges[p].accountId.Some? && s.challenges[p].tokenId.None?
    case ChallengeRegister(p, id, _) =>
      && p in s.challenges && s.challenges[p].accountId.Some? && s.challenges[p].tokenId.Some?
      && id !in s.usedIds
    case SolveRead(p, _, _) => p !in s.started
    case SolveUnlink(p) => p in s.solves && !s.solves[p].unlinked
    case SolveAccount(p) => p in s.solves && s.solves[p].unlinked && s.solves[p].accountId.None?
    case SolveName(p) => p in s.solves && s.solves[p].unlinked && s.solves[p].name.None?
    case SolveFinish(p) => p in s.solves && s.solves[p].accountId.Some? && s.solves[p].name.Some?
    case BeginAuth(p, _, signature) => p !in s.started && (signature.Other? || signature in s.released)
    case AuthAccount(p) => p in s.auths && s.auths[p].accountId.None?
    case AuthToken(p) => p in s.auths && s.auths[p].accountId.Some? && s.auths[p].tokenId.None?
    case AuthFinish(p) => p in s.auths && s.auths[p].accountId.Some? && s.auths[p].tokenId.Some?
  }

  // ---- Steps ----

  function ChallengeNext(s: State, a: Action): State
    requires Enabled(s, a)
    requires a.BeginChallenge? || a.ChallengeAccount? || a.ChallengeToken? || a.ChallengeRegister?
  {
    var p := a.pid;
    match a
    case BeginChallenge(_, token, seconds) =>
      s.(started := s.started + {p}, challenges := s.challenges[p := ChallengeCall(token, seconds, None, None)])
    case ChallengeAccount(_) =>
      var c := s.challenges[p];
      if c.token !in s.keys then s.(challenges := s.challenges - {p})
      else
        var accountId := s.keys[c.token].accountId;
        s.(challenges := s.challenges[p := c.(accountId := Some(accountId))],
           log := s.log + [ChallengeSawAccount(p, c.token, accountId)])
    case ChallengeToken(_) =>
      var c := s.challenges[p];
      if c.token !in s.keys then s.(challenges := s.challenges - {p})
      else
        var tokenId := s.keys[c.token].tokenId;
        s.(challenges := s.challenges[p := c.(tokenId := Some(tokenId))],
           log := s.log + [ChallengeSawToken(p, c.token, tokenId)])
    case ChallengeRegister(_, id, test) =>
      var c := s.challenges[p];
      var challenge := Challenge(id, c.accountId.value, c.tokenId.value, test);
      s.(store := Register(s.store, challenge, c.seconds, s.now),
         usedIds := s.usedIds + {id},
         challenges := s.challenges - {p},
         log := s.log + [Registered(p, challenge, s.now + 1000 * c.seconds)])
  }

  function SolveNext(s: State, a: Action): State
    requires Enabled(s, a)
    requires a.SolveRead? || a.SolveUnlink? || a.SolveAccount? || a.SolveName? || a.SolveFinish?
  {
    var p := a.pid;
    match a
    case SolveRead(_, id, token) =>
      var found := Read(s.store, id, s.now);
      if found.None? || !Parses(found.value) then s.(started := s.started + {p})
      else s.(started := s.started + {p},
              solves := s.solves[p := SolveCall(found.value, token, false, None, None)],
              log := s.log + [ReadChallenge(p, id, found.value, s.now)])
    case SolveUnlink(_) =>
      var c := s.solves[p];
      s.(store := Unlink(s.store, c.challenge.id),
         solves := s.solves[p := c.(unlinked := true)],
         log := s.log + [Unlinked(p, c.challenge.id)])
    case SolveAccount(_) =>
      var c := s.solves[p];
      if c.token !in s.keys then s.(solves := s.solves - {p})
      else
        var accountId := s.keys[c.token].accountId;
        s.(solves := s.solves[p := c.(accountId := Some(accountId))],
           log := s.log + [SawAccount(p, c.token, accountId)])
    case SolveName(_) =>
      var c := s.solves[p];
      if c.token !in s.keys then s.(solves := s.solves - {p})
      else
        var name := s.keys[c.token].name;
        s.(solves := s.solves[p := c.(name := Some(name))],
           log := s.log + [SawName(p, c.token, name)])
    case SolveFinish(_) =>
      var c := s.solves[p];
      var done := s.(solves := s.solves - {p});
      if !SolutionHolds(c.challenge, c.accountId.value, c.name.value) then done
      else
        var signature := SignElevation(c.challenge.accountId, c.challenge.tokenId);
        done.(released := s.released + {signature},
              log := s.log + [Issued(p, c.challenge.id,
                                     Passport(c.challenge.accountId, c.challenge.tokenId, signature))])
  }

  function AuthNext(s: State, a: Action): State
    requires Enabled(s, a)
    requires a.BeginAuth? || a.AuthAccount? || a.AuthToken? || a.AuthFinish?
  {
    var p := a.pid;
    match a
    case BeginAuth(_, token, signature) =>
      s.(started := s.started + {p}, auths := s.auths[p := AuthCall(token, signature, None, None)])
    case AuthAccount(_) =>
      var c := s.auths[p];
      if c.token !in s.keys then s.(auths := s.auths - {p})
      else
        var accountId := s.keys[c.token].accountId;
        s.(auths := s.auths[p := c.(accountId := Some(accountId))],
           log := s.log + [AuthSawAccount(p, c.token, accountId)])
    case AuthToken(_) =>
      var c := s.auths[p];
      if c.token !in s.keys then s.(auths := s.auths - {p})
      else
        var tokenId := s.keys[c.token].tokenId;
        s.(auths := s.auths[p := c.(tokenId := Some(tokenId))],
           log := s.log + [AuthSawToken(p, c.token, tokenId)])
    case AuthFinish(_) =>
      var c := s.auths[p];
      var level := GetAuthenticationLevel(Passport(c.accountId.value, c.tokenId.value, c.signature));
      s.(auths := s.auths - {p},
         log := s.log + [Graded(p, c.token, c.accountId.value, c.tokenId.value, level)])
  }

  function Next(s: State, a: Action): State
    requires Enabled(s, a)
  {
    match a
    case Tick(ms) => s.(now := s.now + ms)
    case ChangeKeys(keys) => s.(keys := keys)
    case BeginChallenge(_, _, _) => ChallengeNext(s, a)
    case ChallengeAccount(_) => ChallengeNext(s, a)
    case ChallengeToken(_) => ChallengeNext(s, a)
    case ChallengeRegister(_, _, _) => ChallengeNext(s, a)
    case SolveRead(_, _, _) => SolveNext(s, a)
    case SolveUnlink(_) => SolveNext(s, a)
    case SolveAccount(_) => SolveNext(s, a)
    case SolveName(_) => SolveNext(s, a)
    case SolveFinish(_) => SolveNext(s, a)
    case BeginAuth(_, _, _) => AuthNext(s, a)
    case AuthAccount(_) => AuthNext(s, a)
    case AuthToken(_) => AuthNext(s, a)
    case AuthFinish(_) => AuthNext(s, a)
  }

  // ---- Runs ----

  /** Every action is enabled where it happens. */
  ghost predicate IsRun(run: seq<Action>)
    decreases |run|, 0
  {
    run == [] || (IsRun(run[..|run| - 1]) && Enabled(StateAfter(run[..|run| - 1]), run[|run| - 1]))
  }

  ghost function StateAfter(run: seq<Action>): State
    requires IsRun(run)
    decreases |run|, 1
  {
    if run == [] then INITIAL else Next(StateAfter(run[..|run| - 1]), run[|run| - 1])
  }
}
