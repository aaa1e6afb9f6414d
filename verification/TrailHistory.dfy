/**
 Trails as sets of scored members, the batch view over a whole history, and the proof that the
 incremental store, which throws data away at every call, agrees with the batch view.
 */
module TrailHistory {
  import opened Coordinates

  type Member = m: seq<byte> | |m| == 8 witness [0, 0, 0, 0, 0, 0, 0, 0]

  /** A packed coordinate with the time of a visit as its score. */
  datatype Entry = Entry(score: nat, member: Member)

  /** The order of a sorted set: by score, then by bytes. */
  predicate Before(a: Entry, b: Entry) {
    a.score < b.score || (a.score == b.score && LexLess(a.member, b.member))
  }

  lemma BeforeIsTotal(a: Entry, b: Entry)
    ensures Before(a, b) ==> !Before(b, a) && a != b
    ensures a == b || Before(a, b) || Before(b, a)
    ensures a != b && a.score == b.score ==> a.member != b.member
  {
    LexIsValueOrder(a.member, b.member);
    LexIsValueOrder(b.member, a.member);
  }

  lemma BeforeIsTransitive(a: Entry, b: Entry, c: Entry)
    requires Before(a, b) && Before(b, c)
    ensures Before(a, c)
  {
    LexIsValueOrder(a.member, b.member);
    LexIsValueOrder(b.member, c.member);
    LexIsValueOrder(a.member, c.member);
  }

  // ---- The commands, on sets ----

  function Above(s: set<Entry>, e: Entry): set<Entry> {
    set d | d in s && Before(e, d)
  }

  /** The newest n entries: those with fewer than n above them. */
  function Newest(s: set<Entry>, n: int): set<Entry> {
    set e | e in s && |Above(s, e)| < n
  }

  function After(s: set<Entry>, cut: int): set<Entry> {
    set e | e in s && e.score > cut
  }

  /** Adding a member gives it the new score in place of the old one. */
  function Scored(s: set<Entry>, member: Member, score: nat): set<Entry> {
    (set e | e in s && e.member != member) + {Entry(score, member)}
  }

  /** No member twice. */
  ghost predicate OncePerMember(s: set<Entry>) {
    forall d, e | d in s && e in s && d.member == e.member :: d == e
  }

  // ---- Counting above an entry ----

  lemma SubsetSize<T>(a: set<T>, b: set<T>)
    requires a <= b
    ensures |a| <= |b|
  {
    assert b == a + (b - a);
  }

  lemma {:induction false} Highest(s: set<Entry>) returns (top: Entry)
    requires s != {}
    ensures top in s && forall e | e in s :: !Before(top, e)
    decreases s
  {
    hide Before;
    var e :| e in s;
    var others := s - {e};
    BeforeIsTotal(e, e);
    if others == {} {
      assert s == {e};
      top := e;
    } else {
      top := Highest(others);
      BeforeIsTotal(e, top);
      if Before(top, e) {
        forall d | d in s
          ensures !Before(e, d)
        {
          if Before(e, d) {
            BeforeIsTransitive(top, e, d);
          }
        }
        top := e;
      }
    }
  }

  lemma {:induction false} Lowest(s: set<Entry>) returns (low: Entry)
    requires s != {}
    ensures low in s && forall e | e in s && e != low :: Before(low, e)
    decreases s
  {
    hide Before;
    var e :| e in s;
    var others := s - {e};
    if others == {} {
      assert s == {e};
      low := e;
    } else {
      low := Lowest(others);
      BeforeIsTotal(e, low);
      if Before(e, low) {
        forall d | d in s && d != e
          ensures Before(e, d)
        {
          if d != low {
            BeforeIsTransitive(e, low, d);
          }
        }
        low := e;
      }
    }
  }

  /** There are never more than n newest entries. */
  lemma NewestAreFew(s: set<Entry>, n: nat)
    ensures |Newest(s, n)| <= n
  {
    hide Before;
    if Newest(s, n) != {} {
      var low := Lowest(Newest(s, n));
      assert Newest(s, n) - {low} <= Above(s, low);
      SubsetSize(Newest(s, n) - {low}, Above(s, low));
    }
  }

  /** Cutting off old entries does not change what is above a younger one. */
  lemma AboveOfRecent(s: set<Entry>, cut: int, e: Entry)
    requires e.score > cut
    ensures Above(After(s, cut), e) == Above(s, e)
  {
  }

  /** Taking the newest and cutting by age commute. */
  lemma NewestOfRecent(s: set<Entry>, n: int, cut: int)
    ensures Newest(After(s, cut), n) == After(Newest(s, n), cut)
  {
    hide Above;
    forall e: Entry | e.score > cut
      ensures Above(After(s, cut), e) == Above(s, e)
    {
      AboveOfRecent(s, cut, e);
    }
  }

  /** The higher an entry, the fewer are above it. */
  lemma HigherHasFewerAbove(s: set<Entry>, low: Entry, high: Entry)
    requires Before(low, high)
    ensures Above(s, high) <= Above(s, low) && |Above(s, high)| <= |Above(s, low)|
  {
    hide Before;
    forall d | d in s && Before(high, d)
      ensures Before(low, d)
    {
      BeforeIsTransitive(low, high, d);
    }
    SubsetSize(Above(s, high), Above(s, low));
  }

  /** Trimming to the newest n never turns n or more entries above a bar into fewer than n. */
  lemma TrimmingKeepsEnough(s: set<Entry>, n: int, bar: Entry)
    requires |Above(s, bar)| >= n
    ensures |Above(Newest(s, n), bar)| >= n
  {
    hide Before;
    var kept := Newest(s, n);
    var lost := Above(s, bar) - kept;
    if lost == {} {
      forall d | d in Above(s, bar)
        ensures d in kept
      {
        assert d !in lost;
      }
      assert Above(kept, bar) == Above(s, bar);
    } else {
      var top := Highest(lost);
      HigherHasFewerAbove(s, bar, top);
      forall d | d in Above(s, top)
        ensures d in Above(kept, bar)
      {
        assert d in Above(s, bar);
        assert d !in lost;
      }
      SubsetSize(Above(s, top), Above(kept, bar));
    }
  }

  // ---- One call on the kept data is one call on all data ----

  /** The entry just written: what is above it is what was above it, for data not younger than it. */
  lemma AboveTheNewEntry(s: set<Entry>, member: Member, t: nat)
    requires forall e | e in s :: e.score <= t
    ensures Above(Scored(s, member, t), Entry(t, member)) == Above(s, Entry(t, member))
  {
    hide Before;
    var e := Entry(t, member);
    forall d | d in s && d.member == member
      ensures !Before(e, d)
    {
      BeforeIsTotal(d, e);
      if d != e {
        YoungerIsNotBefore(d, e);
      }
    }
    BeforeIsTotal(e, e);
  }

  lemma YoungerIsNotBefore(d: Entry, e: Entry)
    requires d.score < e.score
    ensures Before(d, e) && !Before(e, d)
  {
  }

  /** Rescoring a member to a later time lowers nobody's count. */
  lemma RescoringRaisesCounts(s: set<Entry>, member: Member, t: nat, e: Entry)
    requires OncePerMember(s)
    requires forall d | d in s :: d.score <= t
    requires e.member != member
    ensures |Above(s, e)| <= |Above(Scored(s, member, t), e)|
  {
    var latest := Entry(t, member);
    var before, later := Above(s, e), Above(Scored(s, member, t), e);
    if stale :| stale in before && stale.member == member {
      assert latest in later by {
        BeforeIsTotal(stale, latest);
        if stale != latest {
          BeforeIsTransitive(e, stale, latest);
        }
      }
      assert before - {stale} <= later - {latest};
      SubsetSize(before - {stale}, later - {latest});
    } else {
      SubsetSize(before, later);
    }
  }

  /** The heart of the refinement: the kept entries suffice to tell the newest n after one more visit. */
  lemma OneVisit(all: set<Entry>, kept: set<Entry>, member: Member, t: nat, n: int, window: int, now: int, e: Entry)
    requires OncePerMember(all)
    requires forall d | d in all :: d.score <= now
    requires now <= t && n >= 1 && window >= 1
    requires kept == Newest(After(all, now - window), n)
    requires e.score > t - window
    ensures e in Newest(Scored(kept, member, t), n) <==> e in Newest(Scored(all, member, t), n)
  {
    if e.member == member {
      VisitedMember(all, kept, member, t, n, window, now);
    } else if e in kept {
      KeptMember(all, kept, member, t, n, window, now, e);
    } else {
      DroppedMember(all, kept, member, t, n, window, now, e);
    }
  }

  lemma ScoredSubset(kept: set<Entry>, all: set<Entry>, member: Member, t: nat, e: Entry)
    requires kept <= all
    ensures Above(Scored(kept, member, t), e) <= Above(Scored(all, member, t), e)
    ensures |Above(Scored(kept, member, t), e)| <= |Above(Scored(all, member, t), e)|
  {
    hide Before;
    SubsetSize(Above(Scored(kept, member, t), e), Above(Scored(all, member, t), e));
  }

  lemma VisitedMember(all: set<Entry>, kept: set<Entry>, member: Member, t: nat, n: int, window: int, now: int)
    requires forall d | d in all :: d.score <= now
    requires now <= t && window >= 1
    requires kept == Newest(After(all, now - window), n)
    ensures Entry(t, member) in Newest(Scored(kept, member, t), n)
            <==> Entry(t, member) in Newest(Scored(all, member, t), n)
  {
    hide Before;
    var e := Entry(t, member);
    ScoredSubset(kept, all, member, t, e);
    AboveTheNewEntry(all, member, t);
    AboveTheNewEntry(kept, member, t);
    AboveOfRecent(all, now - window, e);
    if |Above(all, e)| >= n {
      TrimmingKeepsEnough(After(all, now - window), n, e);
    }
  }

  lemma KeptMember(all: set<Entry>, kept: set<Entry>, member: Member, t: nat, n: int, window: int, now: int, e: Entry)
    requires now <= t
    requires kept == Newest(After(all, now - window), n)
    requires e in kept && e.member != member && e.score > t - window
    ensures e in Newest(Scored(kept, member, t), n) <==> e in Newest(Scored(all, member, t), n)
  {
    hide Before;
    var recent := After(all, now - window);
    ScoredSubset(kept, all, member, t, e);
    forall d | d in Above(Scored(all, member, t), e)
      ensures d in Above(Scored(kept, member, t), e)
    {
      if d != Entry(t, member) {
        NotOlder(e, d);
        HigherHasFewerAbove(recent, e, d);
      }
    }
    SubsetSize(Above(Scored(all, member, t), e), Above(Scored(kept, member, t), e));
  }

  lemma NotOlder(e: Entry, d: Entry)
    requires Before(e, d)
    ensures e.score <= d.score
  {
  }

  lemma DroppedMember(all: set<Entry>, kept: set<Entry>, member: Member, t: nat, n: int, window: int, now: int,
                      e: Entry)
    requires OncePerMember(all)
    requires forall d | d in all :: d.score <= now
    requires now <= t
    requires kept == Newest(After(all, now - window), n)
    requires e !in kept && e.member != member && e.score > t - window
    ensures e !in Newest(Scored(kept, member, t), n) && e !in Newest(Scored(all, member, t), n)
  {
    hide Before;
    if e in all {
      AboveOfRecent(all, now - window, e);
      RescoringRaisesCounts(all, member, t, e);
    }
  }

  // ---- Histories ----

  datatype Visit = Visit(member: Member, time: nat)

  ghost predicate Chronological(h: seq<Visit>) {
    forall i, j | 0 <= i < j < |h| :: h[i].time <= h[j].time
  }

  /** No later visit to the same coordinate. */
  ghost predicate IsLastVisit(h: seq<Visit>, i: nat) {
    i < |h| && forall j | i < j < |h| :: h[j].member != h[i].member
  }

  /** Every coordinate of a history with the time of its last visit. */
  ghost function LastVisits(h: seq<Visit>): set<Entry> {
    set i: nat | i < |h| && IsLastVisit(h, i) :: Entry(h[i].time, h[i].member)
  }

  /**
   The trail configuration. Whether a key is already gone at the very instant of its deadline is
   left open: `expiresAtDeadline` stands for either answer.
   */
  datatype Config = Config(maxPoints: int, maxTimeMs: int, expiresAtDeadline: bool) {
    /** Seconds of life given to a trail at every call. */
    function Ttl(): int {
      maxTimeMs / 1000
    }

    predicate Lapsed(deadline: int, now: int) {
      now > deadline || (expiresAtDeadline && now == deadline)
    }
  }

  function Now(h: seq<Visit>): nat {
    if h == [] then 0 else h[|h| - 1].time
  }

  /** The batch view: of all last visits, those inside the window, and of these the newest. */
  ghost function Batch(cfg: Config, h: seq<Visit>): set<Entry> {
    if h == [] then {} else Newest(After(LastVisits(h), Now(h) - cfg.maxTimeMs), cfg.maxPoints)
  }

  /** What the store holds for one character. */
  datatype Trail = Trail(entries: set<Entry>, deadline: int)

  /** One call: forget a lapsed trail, add, set the deadline, trim by rank, trim by age. */
  function Add(cfg: Config, trail: Trail, visit: Visit): Trail {
    var alive := if cfg.Lapsed(trail.deadline, visit.time) then {} else trail.entries;
    var added := Scored(alive, visit.member, visit.time);
    if cfg.Ttl() <= 0 then Trail({}, visit.time)
    else Trail(After(Newest(added, cfg.maxPoints), visit.time - cfg.maxTimeMs), visit.time + 1000 * cfg.Ttl())
  }

  function Run(cfg: Config, h: seq<Visit>): Trail {
    if h == [] then Trail({}, 0) else Add(cfg, Run(cfg, h[..|h| - 1]), h[|h| - 1])
  }

  /** The visits since the trail last lapsed. */
  function SinceLapse(cfg: Config, h: seq<Visit>): seq<Visit> {
    if |h| <= 1 then h
    else
      var n := |h| - 1;
      if cfg.Lapsed(h[n - 1].time + 1000 * cfg.Ttl(), h[n].time) then [h[n]]
      else SinceLapse(cfg, h[..n]) + [h[n]]
  }

  // ---- Last visits, one visit at a time ----

  lemma LastVisitsGrow(h: seq<Visit>, v: Visit)
    ensures LastVisits(h + [v]) == Scored(LastVisits(h), v.member, v.time)
  {
    var g := h + [v];
    forall i: nat | i < |h|
      ensures IsLastVisit(g, i) <==> IsLastVisit(h, i) && h[i].member != v.member
    {
      assert g[|h|] == v;
      assert forall j | i < j < |h| :: g[j] == h[j];
    }
    forall e
      ensures e in LastVisits(g) <==> e in Scored(LastVisits(h), v.member, v.time)
    {
      if e in LastVisits(g) {
        var i: nat :| i < |g| && IsLastVisit(g, i) && e == Entry(g[i].time, g[i].member);
        assert i < |h| ==> IsLastVisit(h, i) && Entry(h[i].time, h[i].member) in LastVisits(h);
      }
      if e in LastVisits(h) && e.member != v.member {
        var i: nat :| i < |h| && IsLastVisit(h, i) && e == Entry(h[i].time, h[i].member);
        assert IsLastVisit(g, i) && g[i] == h[i];
      }
      assert IsLastVisit(g, |h|) && g[|h|] == v;
    }
  }

  lemma LastVisitsFacts(h: seq<Visit>)
    requires Chronological(h)
    ensures OncePerMember(LastVisits(h))
    ensures forall e | e in LastVisits(h) :: e.score <= Now(h)
    ensures h != [] ==> Entry(Now(h), h[|h| - 1].member) in LastVisits(h)
  {
    forall d, e | d in LastVisits(h) && e in LastVisits(h) && d.member == e.member
      ensures d == e
    {
      var i: nat :| i < |h| && IsLastVisit(h, i) && d == Entry(h[i].time, h[i].member);
      var j: nat :| j < |h| && IsLastVisit(h, j) && e == Entry(h[j].time, h[j].member);
      assert i == j;
    }
    if h != [] {
      assert IsLastVisit(h, |h| - 1);
    }
  }

  lemma SinceLapseFacts(cfg: Config, h: seq<Visit>)
    requires h != []
    ensures var s := SinceLapse(cfg, h); s != [] && s[|s| - 1] == h[|h| - 1] && Now(s) == Now(h)
  {
  }

  lemma {:induction false} SinceLapseChronological(cfg: Config, h: seq<Visit>)
    requires Chronological(h)
    ensures Chronological(SinceLapse(cfg, h))
  {
    if |h| > 1 {
      var n := |h| - 1;
      SinceLapseChronological(cfg, h[..n]);
      SinceLapseFacts(cfg, h[..n]);
    }
  }

  lemma NoVisits()
    ensures LastVisits([]) == {}
  {
  }

  // ---- Refinement ----

  /** One call keeps the agreement with the batch view of the visits since the last lapse. */
  lemma AddRefinesBatch(cfg: Config, h: seq<Visit>, v: Visit)
    requires cfg.maxPoints >= 1 && cfg.maxTimeMs >= 1
    requires Chronological(h + [v])
    ensures After(Newest(Scored(Batch(cfg, h), v.member, v.time), cfg.maxPoints), v.time - cfg.maxTimeMs)
            == Batch(cfg, h + [v])
  {
    hide Before, Above, Newest, Scored, LastVisits, OncePerMember;
    var n, t, window := cfg.maxPoints, v.time, cfg.maxTimeMs;
    var all, kept := LastVisits(h), Batch(cfg, h);
    assert Chronological(h) && Now(h) <= t by {
      assert forall i | 0 <= i < |h| :: (h + [v])[i] == h[i];
      assert (h + [v])[|h|] == v;
    }
    LastVisitsFacts(h);
    LastVisitsGrow(h, v);
    if h == [] {
      NoVisits();
      NewestOfNothing(n, Now(h) - window);
    }
    NewestOfRecent(Scored(all, v.member, t), n, t - window);
    forall e: Entry | e.score > t - window
      ensures e in Newest(Scored(kept, v.member, t), n) <==> e in Newest(Scored(all, v.member, t), n)
    {
      OneVisit(all, kept, v.member, t, n, window, Now(h), e);
    }
    assert After(Newest(Scored(kept, v.member, t), n), t - window)
        == After(Newest(Scored(all, v.member, t), n), t - window);
  }

  lemma NewestOfNothing(n: int, cut: int)
    ensures Newest(After({}, cut), n) == {}
  {
  }

  /** For every run: the stored trail is the batch view of the visits since the trail last lapsed. */
  lemma {:induction false} RunIsBatchSinceLapse(cfg: Config, h: seq<Visit>)
    requires cfg.maxPoints >= 1 && cfg.maxTimeMs >= 1000
    requires Chronological(h)
    ensures Run(cfg, h).entries == Batch(cfg, SinceLapse(cfg, h))
    ensures h != [] ==> Run(cfg, h).deadline == Now(h) + 1000 * cfg.Ttl()
  {
    EmptyBatch(cfg);
    if h != [] {
      var n := |h| - 1;
      var front, v := h[..n], h[n];
      RunIsBatchSinceLapse(cfg, front);
      SinceLapseChronological(cfg, h);
      hide Before, Above, Newest, Scored, LastVisits, After, Batch, Chronological;
      if n == 0 || cfg.Lapsed(h[n - 1].time + 1000 * cfg.Ttl(), v.time) {
        assert SinceLapse(cfg, h) == [] + [v];
        AddRefinesBatch(cfg, [], v);
        NoEntriesLeft(cfg, Run(cfg, front), v);
      } else {
        AddRefinesBatch(cfg, SinceLapse(cfg, front), v);
      }
    }
  }

  lemma NoEntriesLeft(cfg: Config, trail: Trail, v: Visit)
    requires cfg.Ttl() > 0
    requires cfg.Lapsed(trail.deadline, v.time) || trail.entries == {}
    ensures Add(cfg, trail, v).entries
            == After(Newest(Scored({}, v.member, v.time), cfg.maxPoints), v.time - cfg.maxTimeMs)
    ensures Add(cfg, trail, v).deadline == v.time + 1000 * cfg.Ttl()
  {
  }

  lemma EmptyBatch(cfg: Config)
    ensures Batch(cfg, []) == {}
  {
  }
}
