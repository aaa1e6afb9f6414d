/**
 The calls of the elevation service as they run when nothing interrupts them, on the challenge
 store that they update. What the game's API answers is a parameter; no answer is an error.
 */
module ElevationService {
  import opened Wrappers
  import opened ElevationStore
  import opened Elevation

  const TEST_API_KEY_NAME_PREFIX := "gwradar.com_verify_account_"

  datatype SolveResult = Granted(passport: Passport) | ChallengeExpired | BadToken | WrongSolution

  class Service {
    const store: Store

    constructor (store: Store)
      ensures this.store == store
    {
      this.store := store;
    }

    /** The challenge holds the account and token that were seen, under a new id, for the given time. */
    method Challenge(accountId: Option<string>, tokenId: Option<string>, id: string, suffix: string,
                     expirationSeconds: int, now: int) returns (puzzle: Option<(string, string)>)
      modifies store
      ensures puzzle == if accountId.Some? && tokenId.Some?
                        then Some((id, "gwradar.com_verify_account_" + suffix)) else None
      ensures puzzle.None? ==> store.challenges == old(store.challenges)
      ensures puzzle.Some? ==>
                forall later :: Read(store.challenges, id, later)
                  == if expirationSeconds > 0 && later < now + 1000 * expirationSeconds
                     then Some(ElevationStore.Challenge(id, accountId.value, tokenId.value, puzzle.value.1)) else None
      ensures forall other, later | other != id ::
              Read(store.challenges, other, later) == Read(old(store.challenges), other, later)
    {
      if accountId.None? || tokenId.None? {
        return None;
      }
      var test := TEST_API_KEY_NAME_PREFIX + suffix;
      store.RegisterChallenge(ElevationStore.Challenge(id, accountId.value, tokenId.value, test),
                              expirationSeconds, now);
      return Some((id, test));
    }

    /**
     A solve grants exactly to the challenged account under the asked name. Whatever the verdict, a
     challenge that was found is used up, and no other challenge is touched.
     */
    method Solve(id: string, accountId: Option<string>, name: Option<string>, now: int) returns (r: SolveResult)
      modifies store
      ensures var found := Read(old(store.challenges), id, now);
              var live := found.Some? && SpellsGuid(found.value.accountId) && SpellsGuid(found.value.tokenId);
              && (r.ChallengeExpired? <==> !live)
              && (r.Granted? <==> live && accountId == Some(found.value.accountId) && name == Some(found.value.test))
              && (r.Granted? ==> r.passport.accountId == found.value.accountId
                                 && r.passport.tokenId == found.value.tokenId
                                 && forall a, t :: Verify(Passport(a, t, r.passport.signature)).valid
                                                   <==> a == found.value.accountId && t == found.value.tokenId)
      ensures !r.ChallengeExpired? ==> (r.BadToken? <==> accountId.None? || name.None?)
      ensures r.ChallengeExpired? ==> store.challenges == old(store.challenges)
      ensures !r.ChallengeExpired? ==>
                && (forall later :: Read(store.challenges, id, later) == None)
                && (forall other, later | other != id ::
                      Read(store.challenges, other, later) == Read(old(store.challenges), other, later))
    {
      hide Parses, SpellsGuid;
      var challenge := store.ConsumeChallenge(id, now);
      if challenge.None? {
        return ChallengeExpired;
      }
      if accountId.None? || name.None? {
        return BadToken;
      }
      var c := challenge.value;
      if !SolutionHolds(c, accountId.value, name.value) {
        return WrongSolution;
      }
      return Granted(Passport(c.accountId, c.tokenId, SignElevation(c.accountId, c.tokenId)));
    }
  }
}
