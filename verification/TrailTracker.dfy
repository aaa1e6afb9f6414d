/**
 The trail tracker of the Redis adapter. Each character has a sorted trail with a deadline; a set
 of live positions is kept beside the trails. Every trail is, at all times, the run of the
 character's whole history, which the tracker itself does not keep.
 */
module TrailTracker {
  import opened Coordinates
  import opened TrailHistory
  import TrailAgreement

  /** A trail as the server holds it: ascending by score and bytes, one entry per member. */
  datatype SortedTrail = SortedTrail(entries: seq<Entry>, deadline: int)

  ghost predicate Sorted(s: seq<Entry>) {
    && (forall i, j | 0 <= i < j < |s| :: Before(s[i], s[j]))
    && (forall i, j | 0 <= i < j < |s| :: s[i].member != s[j].member)
  }

  ghost function Elements(s: seq<Entry>): set<Entry> {
    set i | 0 <= i < |s| :: s[i]
  }

  // ---- The commands on a sorted trail ----

  /** The index of a member, or the length when it is missing. */
  method FindMember(entries: seq<Entry>, member: Member) returns (i: nat)
    ensures i <= |entries| && forall k | 0 <= k < i :: entries[k].member != member
    ensures i < |entries| ==> entries[i].member == member
  {
    i := 0;
    while i < |entries| && entries[i].member != member
      invariant i <= |entries|
      invariant forall k | 0 <= k < i :: entries[k].member != member
    {
      i := i + 1;
    }
  }

  /** The number of leading entries that belong before a new one. */
  method FindPlace(entries: seq<Entry>, added: Entry) returns (p: nat)
    ensures p <= |entries| && forall k | 0 <= k < p :: Before(entries[k], added)
    ensures p < |entries| ==> !Before(entries[p], added)
  {
    hide Before;
    p := 0;
    while p < |entries| && Before(entries[p], added)
      invariant p <= |entries|
      invariant forall k | 0 <= k < p :: Before(entries[k], added)
    {
      p := p + 1;
    }
  }

  method ZAdd(entries: seq<Entry>, score: nat, member: Member) returns (r: seq<Entry>)
    requires Sorted(entries)
    ensures Sorted(r) && Elements(r) == Scored(Elements(entries), member, score)
  {
    hide Before, Sorted, Elements;
    var i := FindMember(entries, member);
    var kept := entries;
    if i < |entries| {
      kept := entries[..i] + entries[i + 1..];
      WithoutOneSorted(entries, i);
      WithoutOneElements(entries, i);
    }
    MemberIsGone(entries, i, member, kept);
    var p := FindPlace(kept, Entry(score, member));
    InsertedSorted(kept, p, Entry(score, member));
    InsertedElements(kept, p, Entry(score, member));
    r := kept[..p] + [Entry(score, member)] + kept[p..];
  }

  lemma WithoutOneSorted(s: seq<Entry>, i: nat)
    requires Sorted(s) && i < |s|
    ensures Sorted(s[..i] + s[i + 1..])
  {
    hide Before;
    var kept := s[..i] + s[i + 1..];
    assert forall k | 0 <= k < |kept| :: kept[k] == s[if k < i then k else k + 1];
  }

  lemma WithoutOneElements(s: seq<Entry>, i: nat)
    requires Sorted(s) && i < |s|
    ensures Elements(s[..i] + s[i + 1..]) == Elements(s) - {s[i]}
  {
    hide Before;
    var kept := s[..i] + s[i + 1..];
    assert forall k | 0 <= k < |kept| :: kept[k] == s[if k < i then k else k + 1];
    forall e | e in Elements(s) && e != s[i]
      ensures e in Elements(kept)
    {
      var k :| 0 <= k < |s| && s[k] == e;
      assert kept[if k < i then k else k - 1] == e;
    }
  }

  lemma MemberIsGone(s: seq<Entry>, i: nat, member: Member, kept: seq<Entry>)
    requires Sorted(s) && i <= |s|
    requires i == |s| ==> kept == s && forall k | 0 <= k < |s| :: s[k].member != member
    requires i < |s| ==> s[i].member == member && Elements(kept) == Elements(s) - {s[i]}
    ensures Elements(kept) == set e | e in Elements(s) && e.member != member
    ensures forall k | 0 <= k < |kept| :: kept[k].member != member
  {
    hide Before;
    forall e | e in Elements(s) && i < |s| && e != s[i]
      ensures e.member != member
    {
      var k :| 0 <= k < |s| && s[k] == e;
    }
    forall k | 0 <= k < |kept|
      ensures kept[k].member != member
    {
      assert kept[k] in Elements(kept);
    }
  }

  lemma InsertedSorted(kept: seq<Entry>, p: nat, added: Entry)
    requires Sorted(kept) && p <= |kept|
    requires forall k | 0 <= k < |kept| :: kept[k].member != added.member
    requires forall k | 0 <= k < p :: Before(kept[k], added)
    requires p < |kept| ==> !Before(kept[p], added)
    ensures Sorted(kept[..p] + [added] + kept[p..])
  {
    hide Before;
    AllAfter(kept, p, added);
    var r := kept[..p] + [added] + kept[p..];
    assert forall k | 0 <= k < |r| :: r[k] == if k < p then kept[k] else if k == p then added else kept[k - 1];
  }

  lemma InsertedElements(kept: seq<Entry>, p: nat, added: Entry)
    requires p <= |kept|
    ensures Elements(kept[..p] + [added] + kept[p..]) == Elements(kept) + {added}
  {
    var r := kept[..p] + [added] + kept[p..];
    assert forall k | 0 <= k < |r| :: r[k] == if k < p then kept[k] else if k == p then added else kept[k - 1];
    forall e | e in Elements(kept)
      ensures e in Elements(r)
    {
      var k :| 0 <= k < |kept| && kept[k] == e;
      assert r[if k < p then k else k + 1] == e;
    }
    assert r[p] == added;
  }

  lemma AllAfter(kept: seq<Entry>, p: nat, added: Entry)
    requires Sorted(kept) && p <= |kept|
    requires p < |kept| ==> kept[p] != added && !Before(kept[p], added)
    ensures forall k | p <= k < |kept| :: Before(added, kept[k])
  {
    hide Before;
    forall k | p <= k < |kept|
      ensures Before(added, kept[k])
    {
      BeforeIsTotal(added, kept[p]);
      if p < k {
        BeforeIsTransitive(added, kept[p], kept[k]);
      }
    }
  }

  /** Removes the ranks from 0 to -(n + 1), counted from the end, so that at most n remain. */
  method ZRemRangeByRank(entries: seq<Entry>, n: nat) returns (r: seq<Entry>)
    requires Sorted(entries)
    ensures Sorted(r) && Elements(r) == Newest(Elements(entries), n)
    ensures |r| == (if |entries| <= n then |entries| else n) && r == entries[|entries| - |r|..]
  {
    var stop := |entries| - (n + 1);
    r := if 0 <= stop then entries[stop + 1..] else entries;
    SuffixIsNewest(entries, n, if 0 <= stop then stop + 1 else 0);
  }

  lemma {:induction false} ElementsCount(s: seq<Entry>)
    requires Sorted(s)
    ensures |Elements(s)| == |s|
  {
    hide Before;
    if s != [] {
      var n := |s| - 1;
      ElementsCount(s[..n]);
      assert Elements(s) == Elements(s[..n]) + {s[n]};
      assert s[n] !in Elements(s[..n]);
    }
  }

  lemma AboveIsSuffix(s: seq<Entry>, i: nat)
    requires Sorted(s) && i < |s|
    ensures |Above(Elements(s), s[i])| == |s| - 1 - i
  {
    forall k | 0 <= k < |s|
      ensures Before(s[i], s[k]) <==> i < k
    {
      BeforeIsTotal(s[k], s[i]);
    }
    hide Before;
    forall e
      ensures e in Above(Elements(s), s[i]) <==> e in Elements(s[i + 1..])
    {
      if e in Above(Elements(s), s[i]) {
        var k :| 0 <= k < |s| && s[k] == e;
        assert s[i + 1..][k - i - 1] == e;
      }
    }
    assert Above(Elements(s), s[i]) == Elements(s[i + 1..]);
    ElementsCount(s[i + 1..]);
  }

  lemma SuffixIsNewest(s: seq<Entry>, n: nat, from: nat)
    requires Sorted(s) && from == if |s| > n then |s| - n else 0
    ensures Sorted(s[from..]) && Elements(s[from..]) == Newest(Elements(s), n)
  {
    hide Before;
    forall e
      ensures e in Elements(s[from..]) <==> e in Newest(Elements(s), n)
    {
      if e in Newest(Elements(s), n) {
        var k :| 0 <= k < |s| && s[k] == e;
        AboveIsSuffix(s, k);
        assert s[from..][k - from] == e;
      }
      if e in Elements(s[from..]) {
        var k :| 0 <= k < |s[from..]| && s[from..][k] == e;
        AboveIsSuffix(s, from + k);
      }
    }
  }

  /** Removes the scores from 0 to max, both included. */
  method ZRemRangeByScore(entries: seq<Entry>, max: int) returns (r: seq<Entry>)
    requires Sorted(entries)
    ensures Sorted(r) && Elements(r) == After(Elements(entries), max)
    ensures |r| <= |entries| && r == entries[|entries| - |r|..]
    ensures forall k | 0 <= k < |entries| :: entries[k].score > max <==> k >= |entries| - |r|
  {
    var i := 0;
    while i < |entries| && entries[i].score <= max
      invariant i <= |entries|
      invariant forall k | 0 <= k < i :: entries[k].score <= max
    {
      i := i + 1;
    }
    r := entries[i..];
    forall k | i <= k < |entries|
      ensures entries[k].score > max
    {
      if i < k {
        NotOlder(entries[i], entries[k]);
      }
    }
    hide Before;
    forall e | e in After(Elements(entries), max)
      ensures e in Elements(r)
    {
      var k :| 0 <= k < |entries| && entries[k] == e;
      assert r[k - i] == e;
    }
  }

  // ---- The tracker ----

  /** A geospatial index accepts all longitudes, and latitudes up to a little beyond 85 degrees. */
  predicate IndexAccepts(p: LatLng) {
    -180.0 <= p.lng <= 180.0 && -85.05112878 <= p.lat <= 85.05112878
  }

  /** Positions on the map always enter the index, and so do those up to 3620 units above or below it. */
  lemma MapPositionsAccepted(x: int, y: int)
    ensures IndexAccepts(TyriaToLatLng(x as real, y as real)) <==> 0 <= x <= 81920 && -3620 <= y <= 118308
  {
    ScalesLinearly(x as real, y as real);
    hide TyriaToLatLng;
    var p := TyriaToLatLng(x as real, y as real);
    assert p.lat <= 85.05112878 <==> y as real <= 114688.0 + 716.8 * 5.05112878;
    assert p.lat >= -85.05112878 <==> y as real >= -716.8 * 5.05112878;
  }

  class Tracker {
    const cfg: Config
    var trails: map<string, SortedTrail>
    var positions: map<string, LatLng>
    ghost var history: map<string, seq<Visit>>

    ghost predicate Valid()
      reads this
    {
      && cfg.maxPoints >= 1
      && trails.Keys == history.Keys
      && forall name | name in trails :: TrailOf(name)
    }

    /** One character's trail is the run of that character's history. */
    ghost predicate TrailOf(name: string)
      reads this
      requires name in trails && name in history
    {
      && Sorted(trails[name].entries)
      && Trail(Elements(trails[name].entries), trails[name].deadline) == Run(cfg, history[name])
    }

    ghost function HistoryOf(name: string): seq<Visit>
      reads this
    {
      if name in history then history[name] else []
    }

    constructor (cfg: Config)
      requires cfg.maxPoints >= 1
      ensures Valid() && trails == map[] && positions == map[] && history == map[] && this.cfg == cfg
    {
      this.cfg := cfg;
      trails := map[];
      positions := map[];
      history := map[];
    }

    /**
     The five commands of one call. Coordinates that are no uint32 are refused before any command;
     a position the index refuses leaves the old one, while the other commands still take effect.
     */
    method AddDataPoint(characterName: string, x: int, y: int, timestamp: nat) returns (packed: bool)
      requires Valid()
      modifies this
      ensures Valid()
      ensures packed <==> IsUint32(x) && IsUint32(y)
      ensures !packed ==> trails == old(trails) && positions == old(positions) && history == old(history)
      ensures packed ==>
                && history == old(history)[characterName := old(HistoryOf(characterName)) + [Visit(Packed(x, y),
                   timestamp)]]
                && (forall name | name != characterName && name in trails ::
                      name in old(trails) && trails[name] == old(trails)[name])
                && characterName in trails
                && (cfg.maxTimeMs >= 1000 ==>
                      trails[characterName].deadline == timestamp + cfg.maxTimeMs - cfg.maxTimeMs % 1000)
                && (cfg.maxTimeMs < 1000 ==> trails[characterName].entries == [])
                && |trails[characterName].entries| <= cfg.maxPoints
                && (forall e | e in trails[characterName].entries :: e.score > timestamp - cfg.maxTimeMs)
                && positions == if IndexAccepts(TyriaToLatLng(x as real, y as real))
                                then old(positions)[characterName := TyriaToLatLng(x as real, y as real)]
                                else old(positions)
    {
      hide Run, Add, Sorted, Elements, TyriaToLatLng, IndexAccepts, Packed, Chronological;
      var buffer;
      packed, buffer := PackCoordinates(x, y);
      if packed {
        var member: Member := buffer[..];
        var converted := TyriaToLatLng(x as real, y as real);
        if IndexAccepts(converted) {
          positions := positions[characterName := converted];
        }
        var entries, deadline := [], 0;
        ghost var past := HistoryOf(characterName);
        EmptyTrail(cfg);
        if characterName in trails {
          assert TrailOf(characterName);
          entries, deadline := trails[characterName].entries, trails[characterName].deadline;
        }
        var next := AddToTrail(entries, deadline, member, timestamp);
        RunGrows(cfg, past, Visit(member, timestamp));
        trails := trails[characterName := next];
        history := history[characterName := past + [Visit(member, timestamp)]];
        forall name | name in trails
          ensures TrailOf(name)
        {
          assert name != characterName ==> old(TrailOf(name));
        }
      }
    }

    method AddToTrail(entries: seq<Entry>, deadline: int, member: Member, timestamp: nat) returns (next: SortedTrail)
      requires Sorted(entries) && cfg.maxPoints >= 1
      ensures Sorted(next.entries)
      ensures Trail(Elements(next.entries), next.deadline)
              == Add(cfg, Trail(Elements(entries), deadline), Visit(member, timestamp))
      ensures cfg.maxTimeMs >= 1000 ==> next.deadline == timestamp + cfg.maxTimeMs - cfg.maxTimeMs % 1000
      ensures cfg.maxTimeMs < 1000 ==> next.entries == []
      ensures |next.entries| <= cfg.maxPoints
      ensures forall e | e in next.entries :: e.score > timestamp - cfg.maxTimeMs
    {
      hide Sorted, Newest, After, Scored;
      NothingSorted();
      var alive := if cfg.Lapsed(deadline, timestamp) then [] else entries;
      var all := ZAdd(alive, timestamp, member);
      if cfg.maxTimeMs / 1000 <= 0 {
        return SortedTrail([], timestamp);
      }
      all := ZRemRangeByRank(all, cfg.maxPoints);
      all := ZRemRangeByScore(all, timestamp - cfg.maxTimeMs);
      next := SortedTrail(all, timestamp + 1000 * (cfg.maxTimeMs / 1000));
    }

    /** Removes one name from the live positions; the trails stay. */
    method RemoveCharacterPosition(characterName: string)
      requires Valid()
      modifies this`positions
      ensures Valid() && positions == old(positions) - {characterName}
    {
      positions := positions - {characterName};
    }

    /**
     What a reader of the trail gets to see after any sequence of calls whose clock was never set
     back: with a window of whole seconds, the batch view of everything the character ever sent.
     */
    lemma TrailIsBatch(name: string)
      requires Valid() && name in trails
      requires Chronological(history[name])
      requires cfg.maxTimeMs >= 1000 && cfg.maxTimeMs % 1000 == 0
      ensures Elements(trails[name].entries) == Batch(cfg, history[name])
    {
      hide Run, Batch, Elements;
      assert TrailOf(name);
      TrailAgreement.WholeSecondsAreFaithful(cfg);
    }
  }

  lemma EmptyTrail(cfg: Config)
    ensures Sorted([]) && Trail(Elements([]), 0) == Run(cfg, [])
  {
  }

  lemma NothingSorted()
    ensures Sorted([]) && Elements([]) == {}
  {
  }

  lemma RunGrows(cfg: Config, h: seq<Visit>, v: Visit)
    ensures Run(cfg, h + [v]) == Add(cfg, Run(cfg, h), v)
  {
    assert (h + [v])[..|h|] == h;
  }
}
