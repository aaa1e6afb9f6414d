/**
 When the incremental trail agrees with the batch view of its whole history, exactly; what key
 expiry can lose; and which of several visits at one instant survive.
 */
module TrailAgreement {
  import opened Coordinates
  import opened TrailHistory

  /** The stored trail is the batch view after every history. */
  ghost predicate Faithful(cfg: Config) {
    forall h: seq<Visit> | Chronological(h) :: Run(cfg, h).entries == Batch(cfg, h)
  }

  /**
   A trail can lapse only when everything in it has left the window: the window is of whole seconds, or a
   millisecond more where a key outlives its deadline.
   */
  predicate LapsesHarmlessly(cfg: Config) {
    cfg.maxTimeMs % 1000 <= if cfg.expiresAtDeadline then 0 else 1
  }

  // ---- What a lapse loses ----

  /** Entries that a lapse takes away are older than the window less one second. */
  lemma LostIsOld(cfg: Config, h: seq<Visit>, v: Visit, e: Entry)
    requires cfg.maxPoints >= 1 && cfg.maxTimeMs >= 1000
    requires Chronological(h) && h != []
    requires e in Run(cfg, h).entries && cfg.Lapsed(Run(cfg, h).deadline, v.time)
    ensures e.score < v.time - (cfg.maxTimeMs - 1000)
    ensures LapsesHarmlessly(cfg) ==> e.score <= v.time - cfg.maxTimeMs
  {
    RunIsBatchSinceLapse(cfg, h);
    SinceLapseChronological(cfg, h);
    SinceLapseFacts(cfg, h);
    LastVisitsFacts(SinceLapse(cfg, h));
    hide Above, Before, LastVisits;
    assert e in LastVisits(SinceLapse(cfg, h));
  }

  /** The same, seen by the next call: what it forgets, its trim by age would have dropped. */
  lemma HarmlessLapseIsInvisible(cfg: Config, h: seq<Visit>, v: Visit)
    requires cfg.maxPoints >= 1 && cfg.maxTimeMs >= 1000 && LapsesHarmlessly(cfg)
    requires Chronological(h) && h != []
    requires cfg.Lapsed(Run(cfg, h).deadline, v.time)
    ensures Add(cfg, Run(cfg, h), v).entries
            == After(Newest(Scored(Run(cfg, h).entries, v.member, v.time), cfg.maxPoints), v.time - cfg.maxTimeMs)
  {
    var kept := Run(cfg, h).entries;
    var latest := Entry(v.time, v.member);
    forall e | e in kept
      ensures e.score <= v.time - cfg.maxTimeMs
    {
      LostIsOld(cfg, h, v, e);
    }
    hide Run;
    forall e: Entry | e.score > v.time - cfg.maxTimeMs
      ensures e in Scored(kept, v.member, v.time) <==> e == latest
      ensures Above(Scored(kept, v.member, v.time), e) == Above(Scored({}, v.member, v.time), e)
    {
      OldIsNotAbove(kept, v, e, cfg.maxTimeMs);
    }
  }

  lemma OldIsNotAbove(kept: set<Entry>, v: Visit, e: Entry, window: int)
    requires forall d | d in kept :: d.score <= v.time - window
    requires e.score > v.time - window
    ensures e in Scored(kept, v.member, v.time) <==> e == Entry(v.time, v.member)
    ensures Above(Scored(kept, v.member, v.time), e) == Above(Scored({}, v.member, v.time), e)
  {
  }

  // ---- A lapse separates old from new ----

  /** One set is part of another, and whatever else the other holds is strictly older. */
  ghost predicate StrictlyYounger(kept: set<Entry>, all: set<Entry>) {
    kept <= all && forall d, e | d in all && d !in kept && e in kept :: d.score < e.score
  }

  lemma VisitAfterAll(all: set<Entry>, v: Visit)
    requires forall d | d in all :: d.score < v.time
    ensures Scored({}, v.member, v.time) == {Entry(v.time, v.member)}
    ensures StrictlyYounger({Entry(v.time, v.member)}, Scored(all, v.member, v.time))
  {
  }

  lemma VisitKeepsYounger(all: set<Entry>, kept: set<Entry>, v: Visit, top: Entry)
    requires StrictlyYounger(kept, all)
    requires top in kept && top.score <= v.time
    ensures StrictlyYounger(Scored(kept, v.member, v.time), Scored(all, v.member, v.time))
  {
    var all', kept' := Scored(all, v.member, v.time), Scored(kept, v.member, v.time);
    forall d, e | d in all' && d !in kept' && e in kept'
      ensures d.score < e.score
    {
      assert d in all && d !in kept;
      assert d.score < top.score;
    }
  }

  /** Splits the newest visit off a history of at least two. */
  lemma NewestVisit(cfg: Config, h: seq<Visit>) returns (front: seq<Visit>, v: Visit)
    requires |h| > 1 && Chronological(h)
    ensures h == front + [v] && front == h[..|h| - 1] && front != [] && v == h[|h| - 1]
    ensures Chronological(front) && Now(front) <= v.time == Now(h)
    ensures SinceLapse(cfg, h)
            == if cfg.Lapsed(Now(front) + 1000 * cfg.Ttl(), v.time) then [] + [v] else SinceLapse(cfg, front) + [v]
    ensures LastVisits(h) == Scored(LastVisits(front), v.member, v.time)
    ensures forall e | e in LastVisits(front) :: e.score <= Now(front)
  {
    front, v := h[..|h| - 1], h[|h| - 1];
    LastVisitsGrow(front, v);
    LastVisitsFacts(front);
  }

  /** The last visits since the lapse are last visits of the history, and all others are older. */
  lemma {:induction false} LapseSeparates(cfg: Config, h: seq<Visit>)
    requires cfg.maxTimeMs >= 1000 && Chronological(h)
    ensures StrictlyYounger(LastVisits(SinceLapse(cfg, h)), LastVisits(h))
  {
    if |h| > 1 {
      var front, v := NewestVisit(cfg, h);
      hide LastVisits, Scored, StrictlyYounger, SinceLapse, Chronological;
      LapseSeparates(cfg, front);
      if cfg.Lapsed(Now(front) + 1000 * cfg.Ttl(), v.time) {
        LastVisitsGrow([], v);
        NoVisits();
        VisitAfterAll(LastVisits(front), v);
      } else {
        var s := SinceLapse(cfg, front);
        LastVisitsGrow(s, v);
        SinceLapseFacts(cfg, front);
        SinceLapseChronological(cfg, front);
        LastVisitsFacts(s);
        VisitKeepsYounger(LastVisits(front), LastVisits(s), v, Entry(Now(s), s[|s| - 1].member));
      }
    } else {
      SinceLapseOfFew(cfg, h);
    }
  }

  lemma SinceLapseOfFew(cfg: Config, h: seq<Visit>)
    requires |h| <= 1
    ensures SinceLapse(cfg, h) == h
  {
  }

  lemma ScoredWindow(a: set<Entry>, b: set<Entry>, v: Visit, cut: int)
    requires After(a, cut) == After(b, cut)
    ensures After(Scored(a, v.member, v.time), cut) == After(Scored(b, v.member, v.time), cut)
  {
    forall e: Entry | e.score > cut
      ensures e in a <==> e in b
    {
      assert e in After(a, cut) <==> e in After(b, cut);
    }
  }

  /** With a harmless lapse, the window holds the same last visits with and without the older ones. */
  lemma {:induction false} WindowForgetsNothing(cfg: Config, h: seq<Visit>, cut: int)
    requires cfg.maxTimeMs >= 1000 && LapsesHarmlessly(cfg) && Chronological(h)
    requires cut >= Now(h) - cfg.maxTimeMs
    ensures After(LastVisits(h), cut) == After(LastVisits(SinceLapse(cfg, h)), cut)
  {
    if |h| > 1 {
      var front, v := NewestVisit(cfg, h);
      hide LastVisits, Scored, SinceLapse, Chronological;
      if cfg.Lapsed(Now(front) + 1000 * cfg.Ttl(), v.time) {
        LastVisitsGrow([], v);
        NoVisits();
        assert After(LastVisits(front), cut) == After({}, cut);
        ScoredWindow(LastVisits(front), {}, v, cut);
      } else {
        LastVisitsGrow(SinceLapse(cfg, front), v);
        WindowForgetsNothing(cfg, front, cut);
        ScoredWindow(LastVisits(front), LastVisits(SinceLapse(cfg, front)), v, cut);
      }
    } else {
      SinceLapseOfFew(cfg, h);
    }
  }

  // ---- Agreement, exactly ----

  lemma HarmlessAgrees(cfg: Config, h: seq<Visit>)
    requires cfg.maxPoints >= 1 && cfg.maxTimeMs >= 1000 && LapsesHarmlessly(cfg) && Chronological(h)
    ensures Run(cfg, h).entries == Batch(cfg, h)
  {
    hide Run, LastVisits, After, Newest, Above, Before;
    RunIsBatchSinceLapse(cfg, h);
    if h != [] {
      SinceLapseFacts(cfg, h);
      WindowForgetsNothing(cfg, h, Now(h) - cfg.maxTimeMs);
    }
  }

  /** Of a set and a strictly younger part of it, the single newest entry is the same. */
  lemma SingleNewest(all: set<Entry>, kept: set<Entry>)
    requires kept != {} && StrictlyYounger(kept, all)
    ensures Newest(all, 1) == Newest(kept, 1)
  {
    var some :| some in kept;
    forall e | e in kept
      ensures Above(all, e) == Above(kept, e)
    {
      forall d | d in all && d !in kept
        ensures !Before(e, d)
      {
        YoungerIsNotBefore(d, e);
      }
    }
    forall d | d in all && d !in kept
      ensures |Above(all, d)| >= 1
    {
      YoungerIsNotBefore(d, some);
      assert some in Above(all, d);
      SubsetSize({some}, Above(all, d));
    }
  }

  lemma SinglePointAgrees(cfg: Config, h: seq<Visit>)
    requires cfg.maxPoints == 1 && cfg.maxTimeMs >= 1000 && Chronological(h)
    ensures Run(cfg, h).entries == Batch(cfg, h)
  {
    hide Run, LastVisits, Newest, Above, Before, SinceLapse, Chronological;
    RunIsBatchSinceLapse(cfg, h);
    EmptyBatch(cfg);
    SinceLapseOfFew(cfg, []);
    if h != [] {
      var s, cut := SinceLapse(cfg, h), Now(h) - cfg.maxTimeMs;
      SinceLapseFacts(cfg, h);
      SinceLapseChronological(cfg, h);
      LapseSeparates(cfg, h);
      LastVisitsFacts(s);
      assert Entry(Now(h), h[|h| - 1].member) in After(LastVisits(s), cut);
      SingleNewest(After(LastVisits(h), cut), After(LastVisits(s), cut));
    }
  }

  /** The two coordinates of the counterexamples. */
  const ORIGIN: Member := [0, 0, 0, 0, 0, 0, 0, 0]
  const NEIGHBOUR: Member := [0, 0, 0, 0, 0, 0, 0, 1]

  lemma ShortWindowDisagrees(cfg: Config)
    requires cfg.maxPoints >= 1 && 1 <= cfg.maxTimeMs < 1000
    ensures !Faithful(cfg)
  {
    var v := Visit(ORIGIN, 0);
    var h := [v];
    LastVisitsGrow([], v);
    NoVisits();
    assert [] + [v] == h;
    assert Run(cfg, h).entries == {};
    var e := Entry(0, ORIGIN);
    var recent := After(LastVisits(h), Now(h) - cfg.maxTimeMs);
    BeforeIsTotal(e, e);
    assert recent == {e};
    assert Above(recent, e) == {};
    assert e in Batch(cfg, h);
    assert Chronological(h);
  }

  /** Two visits apart by the gap: the key has lapsed in between, but the window has not passed. */
  lemma LapsedVisitIsLost(cfg: Config, v: Visit, w: Visit)
    requires cfg.maxPoints >= 1 && cfg.maxTimeMs >= 1000 && Chronological([v, w]) && v.member != w.member
    requires cfg.Lapsed(v.time + 1000 * cfg.Ttl(), w.time)
    ensures Entry(v.time, v.member) !in Run(cfg, [v, w]).entries
  {
    var h := [v, w];
    assert h[..1] == [v];
    assert SinceLapse(cfg, h) == [w];
    hide Run, Chronological, LastVisits;
    RunIsBatchSinceLapse(cfg, h);
    TwoVisits(v, w);
  }

  lemma RecentVisitIsBatched(cfg: Config, v: Visit, w: Visit)
    requires cfg.maxPoints >= 2 && v.member != w.member && v.time > w.time - cfg.maxTimeMs
    ensures Entry(v.time, v.member) in Batch(cfg, [v, w])
  {
    var e, f, h := Entry(v.time, v.member), Entry(w.time, w.member), [v, w];
    TwoVisits(v, w);
    BeforeIsTotal(e, e);
    hide LastVisits, Before;
    var recent := After(LastVisits(h), Now(h) - cfg.maxTimeMs);
    assert e in recent;
    assert Above(recent, e) <= {f};
    SubsetSize(Above(recent, e), {f});
  }

  /** Two visits apart by more than the life of the key but less than the window. */
  lemma EarlyLapseDisagrees(cfg: Config)
    requires cfg.maxPoints >= 2 && cfg.maxTimeMs >= 1000 && !LapsesHarmlessly(cfg)
    ensures !Faithful(cfg)
  {
    var gap := 1000 * cfg.Ttl() + if cfg.expiresAtDeadline then 0 else 1;
    var v, w := Visit(ORIGIN, 0), Visit(NEIGHBOUR, gap);
    assert ORIGIN[7] != NEIGHBOUR[7];
    hide ORIGIN, NEIGHBOUR, Run, Batch;
    assert Chronological([v, w]);
    LapsedVisitIsLost(cfg, v, w);
    RecentVisitIsBatched(cfg, v, w);
  }

  lemma TwoVisits(v: Visit, w: Visit)
    requires v.member != w.member
    ensures LastVisits([v, w]) == {Entry(v.time, v.member), Entry(w.time, w.member)}
    ensures LastVisits([w]) == {Entry(w.time, w.member)}
  {
    LastVisitsGrow([], v);
    LastVisitsGrow([v], w);
    LastVisitsGrow([], w);
    NoVisits();
    assert [] + [v] == [v] && [v] + [w] == [v, w] && [] + [w] == [w];
    hide LastVisits;
    assert LastVisits([v]) == {Entry(v.time, v.member)};
  }

  /**
   The exact condition, on the configuration alone. With one stored point any window of a second
   or more will do; with more points the window must not outlast the life of the key.
   */
  lemma FaithfulExactly(cfg: Config)
    requires cfg.maxPoints >= 1 && cfg.maxTimeMs >= 1
    ensures Faithful(cfg) <==> cfg.maxTimeMs >= 1000 && (cfg.maxPoints == 1 || LapsesHarmlessly(cfg))
  {
    if cfg.maxTimeMs < 1000 {
      ShortWindowDisagrees(cfg);
    } else if cfg.maxPoints == 1 {
      forall h: seq<Visit> | Chronological(h)
        ensures Run(cfg, h).entries == Batch(cfg, h)
      {
        SinglePointAgrees(cfg, h);
      }
    } else if LapsesHarmlessly(cfg) {
      forall h: seq<Visit> | Chronological(h)
        ensures Run(cfg, h).entries == Batch(cfg, h)
      {
        HarmlessAgrees(cfg, h);
      }
    } else {
      EarlyLapseDisagrees(cfg);
    }
  }

  /** In particular a window of whole seconds is faithful, whichever way the deadline is read. */
  lemma WholeSecondsAreFaithful(cfg: Config)
    requires cfg.maxPoints >= 1 && cfg.maxTimeMs >= 1000 && cfg.maxTimeMs % 1000 == 0
    ensures Faithful(cfg)
  {
    assert cfg.maxTimeMs == 1000 * (cfg.maxTimeMs / 1000);
    FaithfulExactly(cfg);
  }

  // ---- What a reader sees ----

  /** What a reader finds of a trail at a later instant: a key that has lapsed holds nothing. */
  function Seen(cfg: Config, trail: Trail, later: int): set<Entry> {
    if cfg.Lapsed(trail.deadline, later) then {} else trail.entries
  }

  /** The key outlives its last call by the window, rounded down to seconds; then it is gone. */
  lemma KeyLivesForTheWindow(cfg: Config, h: seq<Visit>, later: int)
    requires cfg.maxPoints >= 1 && cfg.maxTimeMs >= 1000 && Chronological(h) && h != []
    ensures Run(cfg, h).deadline == Now(h) + cfg.maxTimeMs - cfg.maxTimeMs % 1000
    ensures later > Now(h) + cfg.maxTimeMs ==> cfg.Lapsed(Run(cfg, h).deadline, later)
    ensures later <= Now(h) + cfg.maxTimeMs - 1000 ==> !cfg.Lapsed(Run(cfg, h).deadline, later)
  {
    hide Run, Chronological;
    RunIsBatchSinceLapse(cfg, h);
  }

  /**
   With a window of whole seconds, a reader sees the batch view of the whole history until the window
   has passed since the last call, and nothing after that.
   */
  lemma ReadersSeeTheBatch(cfg: Config, h: seq<Visit>, later: int)
    requires cfg.maxPoints >= 1 && cfg.maxTimeMs >= 1000 && cfg.maxTimeMs % 1000 == 0 && Chronological(h) && h != []
    ensures later < Now(h) + cfg.maxTimeMs ==> Seen(cfg, Run(cfg, h), later) == Batch(cfg, h)
    ensures later > Now(h) + cfg.maxTimeMs ==> Seen(cfg, Run(cfg, h), later) == {}
    ensures later == Now(h) + cfg.maxTimeMs ==>
              Seen(cfg, Run(cfg, h), later) == if cfg.expiresAtDeadline then {} else Batch(cfg, h)
  {
    hide Run, Batch, Chronological;
    KeyLivesForTheWindow(cfg, h, later);
    WholeSecondsAreFaithful(cfg);
  }

  /** A window of less than a second expires the key at every call. */
  lemma ShortWindowKeepsNothing(cfg: Config, h: seq<Visit>)
    requires cfg.maxTimeMs < 1000
    ensures Run(cfg, h).entries == {}
  {
  }

  /**
   Whatever the window, a reader sees at most the configured number of points, each the last visit to
   its coordinate and inside the window of the last call.
   */
  lemma SeenIsRecent(cfg: Config, h: seq<Visit>, later: int)
    requires cfg.maxPoints >= 1 && Chronological(h)
    ensures var seen := Seen(cfg, Run(cfg, h), later);
            && |seen| <= cfg.maxPoints
            && (cfg.maxTimeMs < 1000 ==> seen == {})
            && forall e | e in seen :: e in LastVisits(h) && Now(h) - cfg.maxTimeMs < e.score <= Now(h)
  {
    hide Run, LastVisits, Above, Chronological, SinceLapse, StrictlyYounger, Before;
    if cfg.maxTimeMs < 1000 {
      ShortWindowKeepsNothing(cfg, h);
    } else if h == [] {
      RunIsBatchSinceLapse(cfg, h);
      EmptyBatch(cfg);
      SinceLapseOfFew(cfg, h);
    } else {
      RunIsBatchSinceLapse(cfg, h);
      var kept, cut := LastVisits(SinceLapse(cfg, h)), Now(h) - cfg.maxTimeMs;
      SinceLapseFacts(cfg, h);
      NewestAreFew(After(kept, cut), cfg.maxPoints);
      LapseSeparates(cfg, h);
      PartOf(kept, LastVisits(h));
      LastVisitsFacts(h);
    }
  }

  lemma PartOf(kept: set<Entry>, all: set<Entry>)
    requires StrictlyYounger(kept, all)
    ensures kept <= all
  {
  }

  // ---- Ties ----

  /** Other coordinates last visited at the very instant of the newest visit, and greater than it. */
  ghost function GreaterTies(h: seq<Visit>): set<Entry>
    requires h != []
  {
    set e | e in LastVisits(h) && e.score == Now(h) && LexLess(h[|h| - 1].member, e.member)
  }

  /** The newest visit among those since the lapse, which are younger than all others. */
  lemma NewestPoint(cfg: Config, h: seq<Visit>)
    requires cfg.maxPoints >= 1 && cfg.maxTimeMs >= 1000 && Chronological(h) && h != []
    ensures var (kept, e) := (LastVisits(SinceLapse(cfg, h)), Entry(Now(h), h[|h| - 1].member));
            && Run(cfg, h).entries == Newest(After(kept, Now(h) - cfg.maxTimeMs), cfg.maxPoints)
            && e in kept && StrictlyYounger(kept, LastVisits(h))
            && forall d | d in LastVisits(h) :: d.score <= e.score
  {
    hide LastVisits, SinceLapse, Run, Newest, StrictlyYounger, Chronological;
    RunIsBatchSinceLapse(cfg, h);
    SinceLapseFacts(cfg, h);
    SinceLapseChronological(cfg, h);
    LapseSeparates(cfg, h);
    LastVisitsFacts(SinceLapse(cfg, h));
    LastVisitsFacts(h);
  }

  /** The point just added survives its own call exactly when fewer than N greater ties exist. */
  lemma AddedPointSurvives(cfg: Config, h: seq<Visit>)
    requires cfg.maxPoints >= 1 && cfg.maxTimeMs >= 1000 && Chronological(h) && h != []
    ensures Entry(Now(h), h[|h| - 1].member) in Run(cfg, h).entries <==> |GreaterTies(h)| < cfg.maxPoints
  {
    hide LastVisits, Run, SinceLapse, Chronological, LexLess, Newest, Above, StrictlyYounger;
    var kept, cut := LastVisits(SinceLapse(cfg, h)), Now(h) - cfg.maxTimeMs;
    var e := Entry(Now(h), h[|h| - 1].member);
    NewestPoint(cfg, h);
    AboveOfRecent(kept, cut, e);
    TiesSinceLapse(kept, LastVisits(h), e);
    assert Above(kept, e) == GreaterTies(h);
    TopSurvives(After(kept, cut), e, cfg.maxPoints);
  }

  lemma TopSurvives(recent: set<Entry>, e: Entry, n: nat)
    requires e in recent
    ensures e in Newest(recent, n) <==> |Above(recent, e)| < n
  {
    hide Above;
  }

  lemma TiesSinceLapse(kept: set<Entry>, all: set<Entry>, e: Entry)
    requires StrictlyYounger(kept, all) && e in kept
    requires forall d | d in all :: d.score <= e.score
    ensures Above(kept, e) == set d | d in all && d.score == e.score && LexLess(e.member, d.member)
  {
    hide LexLess;
  }

  /** The same condition on coordinates: a tie is greater in x, or equal in x and greater in y. */
  lemma GreaterTieByCoordinates(h: seq<Visit>, x1: int, y1: int, x2: int, y2: int)
    requires IsUint32(x1) && IsUint32(y1) && IsUint32(x2) && IsUint32(y2)
    requires h != [] && h[|h| - 1].member == Packed(x1, y1)
    requires Entry(Now(h), Packed(x2, y2)) in LastVisits(h)
    ensures Entry(Now(h), Packed(x2, y2)) in GreaterTies(h) <==> x1 < x2 || (x1 == x2 && y1 < y2)
  {
    PackedOrder(x1, y1, x2, y2);
  }
}
