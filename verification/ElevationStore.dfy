/**
 The challenge store of the Redis adapter: challenges are registered with a time to live and
 consumed by a read, a parse and a separate unlink.
 */
module ElevationStore {
  import opened Wrappers

  datatype Challenge = Challenge(id: string, accountId: string, tokenId: string, test: string)

  /** A stored challenge and the instant, in milliseconds, from which it is gone. */
  datatype Record = Record(challenge: Challenge, deadline: int)

  type Challenges = map<string, Record>

  predicate IsHex(c: char) {
    '0' <= c <= '9' || 'a' <= c <= 'f' || 'A' <= c <= 'F'
  }

  /** Groups of 8, 4, 4, 4 and 12 hexadecimal digits. */
  predicate IsGuid(s: string) {
    |s| == 36 && forall i | 0 <= i < 36 :: if i in {8, 13, 18, 23} then s[i] == '-' else IsHex(s[i])
  }

  /** A hexadecimal digit, in either case. */
  predicate IsHexDigit(c: char) {
    c in "0123456789abcdefABCDEF"
  }

  predicate HexDigits(s: string, count: nat) {
    |s| == count && forall i | 0 <= i < |s| :: IsHexDigit(s[i])
  }

  /** A text in five groups between dashes. */
  datatype Guid = Guid(a: string, b: string, c: string, d: string, e: string) {
    predicate WellFormed() {
      HexDigits(a, 8) && HexDigits(b, 4) && HexDigits(c, 4) && HexDigits(d, 4) && HexDigits(e, 12)
    }

    function Text(): string {
      a + "-" + b + "-" + c + "-" + d + "-" + e
    }
  }

  ghost predicate SpellsGuid(s: string) {
    exists g: Guid :: g.WellFormed() && g.Text() == s
  }

  lemma HexIsSpelledOut(c: char)
    ensures IsHex(c) <==> IsHexDigit(c)
  {
    var digits, lower, upper := "0123456789", "abcdef", "ABCDEF";
    assert digits + lower + upper == "0123456789abcdefABCDEF";
    if '0' <= c <= '9' {
      assert digits[c as int - '0' as int] == c;
    }
    if 'a' <= c <= 'f' {
      assert lower[c as int - 'a' as int] == c;
    }
    if 'A' <= c <= 'F' {
      assert upper[c as int - 'A' as int] == c;
    }
    assert c in "0123456789abcdefABCDEF" <==> c in digits || c in lower || c in upper;
  }

  lemma TextIsGuid(g: Guid)
    requires g.WellFormed()
    ensures IsGuid(g.Text())
  {
    hide IsHex, IsHexDigit;
    var s := g.Text();
    forall i | 0 <= i < 36
      ensures if i in {8, 13, 18, 23} then s[i] == '-' else IsHex(s[i])
    {
      HexIsSpelledOut(s[i]);
    }
  }

  lemma GroupsOf(s: string)
    requires IsGuid(s)
    ensures var g := Guid(s[..8], s[9..13], s[14..18], s[19..23], s[24..]); g.WellFormed() && g.Text() == s
  {
    hide IsHex, IsHexDigit;
    forall c
      ensures IsHex(c) <==> IsHexDigit(c)
    {
      HexIsSpelledOut(c);
    }
    assert s == s[..8] + "-" + s[9..13] + "-" + s[14..18] + "-" + s[19..23] + "-" + s[24..];
  }

  /** The schema takes exactly the texts of such groups of digits, here spelled out. */
  lemma GuidExactly(s: string)
    ensures IsGuid(s) <==> SpellsGuid(s)
  {
    if IsGuid(s) {
      GroupsOf(s);
    } else if g: Guid :| g.WellFormed() && g.Text() == s {
      TextIsGuid(g);
    }
  }

  /** The metadata schema. An absent challenge reads as an empty object and fails it too. */
  predicate Parses(challenge: Challenge) {
    IsGuid(challenge.accountId) && IsGuid(challenge.tokenId)
  }

  lemma ParsesExactly(challenge: Challenge)
    ensures Parses(challenge) <==> SpellsGuid(challenge.accountId) && SpellsGuid(challenge.tokenId)
  {
    hide IsGuid;
    GuidExactly(challenge.accountId);
    GuidExactly(challenge.tokenId);
  }

  // ---- The commands ----

  function Register(m: Challenges, challenge: Challenge, seconds: int, now: int): Challenges {
    if seconds <= 0 then m - {challenge.id}
    else m[challenge.id := Record(challenge, now + 1000 * seconds)]
  }

  function Read(m: Challenges, id: string, now: int): Option<Challenge> {
    if id in m && now < m[id].deadline then Some(m[id].challenge) else None
  }

  function Unlink(m: Challenges, id: string): Challenges {
    m - {id}
  }

  class Store {
    var challenges: Challenges

    constructor ()
      ensures challenges == map[]
    {
      challenges := map[];
    }

    method RegisterChallenge(challenge: Challenge, expirationSeconds: int, now: int)
      modifies this
      ensures challenges == Register(old(challenges), challenge, expirationSeconds, now)
      ensures forall later :: Read(challenges, challenge.id, later)
                              == if expirationSeconds > 0 && later < now + 1000 * expirationSeconds
                                 then Some(challenge) else None
      ensures forall id, later | id != challenge.id :: Read(challenges, id, later) == Read(old(challenges), id, later)
    {
      challenges := challenges[challenge.id := Record(challenge, 0)];
      if expirationSeconds <= 0 {
        challenges := challenges - {challenge.id};
      } else {
        challenges := challenges[challenge.id := Record(challenge, now + 1000 * expirationSeconds)];
      }
    }

    /** The read of a consumption: a challenge that is there, in time and well-formed. */
    method ReadChallenge(challengeId: string, now: int) returns (r: Option<Challenge>)
      ensures var found := Read(challenges, challengeId, now);
              && r == (if found.Some? && Parses(found.value) then found else None)
              && (r.Some? <==> found.Some? && SpellsGuid(found.value.accountId) && SpellsGuid(found.value.tokenId))
    {
      hide Parses, SpellsGuid;
      r := None;
      if challengeId in challenges && now < challenges[challengeId].deadline
         && Parses(challenges[challengeId].challenge) {
        r := Some(challenges[challengeId].challenge);
      }
      if challengeId in challenges {
        ParsesExactly(challenges[challengeId].challenge);
      }
    }

    /** Its unlink, which other steps may precede: no other challenge is touched. */
    method UnlinkChallenge(challengeId: string)
      modifies this
      ensures challenges == Unlink(old(challenges), challengeId)
      ensures forall later :: Read(challenges, challengeId, later) == None
      ensures forall id, later | id != challengeId :: Read(challenges, id, later) == Read(old(challenges), id, later)
    {
      challenges := challenges - {challengeId};
    }

    /**
     Consumption that nothing interrupts. A challenge that does not parse stays in the store;
     one that is returned can never be returned again.
     */
    method ConsumeChallenge(challengeId: string, now: int) returns (r: Option<Challenge>)
      modifies this
      ensures var found := Read(old(challenges), challengeId, now);
              && r == (if found.Some? && Parses(found.value) then found else None)
              && (r.Some? <==> found.Some? && SpellsGuid(found.value.accountId) && SpellsGuid(found.value.tokenId))
      ensures r.Some? ==> challenges == Unlink(old(challenges), challengeId)
      ensures r.Some? ==> forall later :: Read(challenges, challengeId, later) == None
      ensures r.None? ==> challenges == old(challenges)
    {
      hide Parses, SpellsGuid;
      r := ReadChallenge(challengeId, now);
      if r.Some? {
        UnlinkChallenge(challengeId);
      }
    }
  }
}
