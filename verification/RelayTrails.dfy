/**
 The trails that the relay leaves. A point carries the time at which its command was issued, and the
 tracker's client executes in issue order, so the visits of every character are chronological in
 every interleaving: what a steady clock must give the trails, the relay gives them by itself.
 */
module RelayTrails {
  import opened Wrappers
  import opened HashStore
  import opened Positions
  import opened Relay
  import opened RelayAuthority
  import opened RelayClaims
  import opened RelayPending
  import opened RelayGhosts
  import opened RelayPaths
  import opened RelayDrain
  import C = Coordinates
  import T = TrailHistory
  import A = TrailAgreement

  /** When the handler last went on, which is when it issued the command it waits for. */
  ghost function IssuedAt(setup: Setup, run: seq<Action>, id: Hid): nat
    requires IsRun(setup, run)
    decreases |run|
  {
    if run == [] then 0
    else
      var before, a := run[..|run| - 1], run[|run| - 1];
      if a == DoResume(id) then StateAfter(setup, before).now else IssuedAt(setup, before, id)
  }

  /** The handler's point takes effect, under the name and at a coordinate that can be packed. */
  predicate Adds(s: State, a: Action, name: Name) {
    && a.DoEffect? && a.h in s.handlers && s.handlers[a.h].at.AwaitAddPoint? && Label(s.handlers[a.h]) == name
    && C.IsUint32(s.handlers[a.h].msg.x) && C.IsUint32(s.handlers[a.h].msg.y)
  }

  /** The visits that a run has left for a character. */
  ghost function Visits(setup: Setup, run: seq<Action>, name: Name): seq<T.Visit>
    requires IsRun(setup, run)
    decreases |run|
  {
    if run == [] then []
    else
      var before, a := run[..|run| - 1], run[|run| - 1];
      var s := StateAfter(setup, before);
      if Adds(s, a, name) then
        var m := s.handlers[a.h].msg;
        Visits(setup, before, name) + [T.Visit(C.Packed(m.x, m.y), IssuedAt(setup, before, a.h))]
      else Visits(setup, before, name)
  }

  // ---- Order ----

  predicate Pending(s: State, id: Hid) {
    id in s.handlers && AtPoint(s.handlers[id])
  }

  lemma AheadOfAppended(ids: seq<Hid>, id: Hid, a: Hid, b: Hid)
    requires id !in ids && Ahead(ids + [id], a, b)
    ensures Ahead(ids, a, b) || b == id
  {
    var more := ids + [id];
    var i, j :| 0 <= i < j < |more| && more[i] == a && more[j] == b;
    if j < |ids| {
      assert ids[i] == a && ids[j] == b;
    }
  }

  lemma {:induction false} AheadBefore(ids: seq<Hid>, id: Hid, a: Hid, b: Hid)
    requires Ahead(Without(ids, id), a, b)
    ensures Ahead(ids, a, b)
  {
    if ids != [] {
      var rest := Without(ids[1..], id);
      AheadInTail(ids, a, b);
      if ids[0] == id {
        AheadBefore(ids[1..], id, a, b);
      } else {
        assert ([ids[0]] + rest)[1..] == rest;
        AheadInTail([ids[0]] + rest, a, b);
        WithoutMembers(ids[1..], id);
        if Ahead(rest, a, b) {
          AheadBefore(ids[1..], id, a, b);
        }
      }
    }
  }

  lemma OneIsAhead(ids: seq<Hid>, a: Hid, b: Hid)
    requires a in ids && b in ids && a != b
    ensures Ahead(ids, a, b) || Ahead(ids, b, a)
  {
    var i :| 0 <= i < |ids| && ids[i] == a;
    var j :| 0 <= j < |ids| && ids[j] == b;
    if i < j {
      assert Ahead(ids, a, b);
    } else {
      assert Ahead(ids, b, a);
    }
  }

  /** Points are pending in the order in which they were, with at most one more, at the end. */
  ghost predicate OrderGrows(s: State, t: State, last: Option<Hid>) {
    && (forall x: Hid | Pending(t, x) :: Pending(s, x) || last == Some(x))
    && (forall x: Hid, y: Hid | Pending(t, x) && Pending(t, y) && Ahead(t.issued, x, y) ::
          last == Some(y) || (last != Some(x) && Ahead(s.issued, x, y)))
  }

  lemma ResumeOrder(s: State, id: Hid)
    requires IssuedOk(s.issued, s.handlers) && id in s.handlers && s.handlers[id].ready
    ensures OrderGrows(s, Resume(s, id), Some(id))
  {
    var t := Resume(s, id);
    ResumeGoesOn(s, id);
    hide Resume, NextAwait, CacheAfter, CommandOf, SameJob, Ahead;
    assert id !in s.issued;
    forall x, y | Pending(t, x) && Pending(t, y) && Ahead(t.issued, x, y) && y != id
      ensures x != id && Ahead(s.issued, x, y)
    {
      if t.issued != s.issued {
        AheadOfAppended(s.issued, id, x, y);
      }
      AheadIsMember(s.issued, x, y);
    }
  }

  lemma AheadIsMember(ids: seq<Hid>, a: Hid, b: Hid)
    requires Ahead(ids, a, b)
    ensures a in ids && b in ids
  {
  }

  lemma EffectOrder(s: State, id: Hid)
    requires id in s.handlers && !OnConnectionStore(s.handlers[id].at)
    ensures OrderGrows(s, Effect(s, id), None) && !Pending(Effect(s, id), id)
  {
    var t := Effect(s, id);
    EffectServes(s, id);
    hide Effect, Beside, Served, LiveAfter, Without, Ahead;
    forall x, y | Ahead(t.issued, x, y)
      ensures Ahead(s.issued, x, y)
    {
      AheadBefore(s.issued, id, x, y);
    }
  }

  lemma DeliverOrder(s: State)
    requires QueueOk(s.queue, s.handlers) && s.queue != []
    ensures OrderGrows(s, Deliver(s), None)
  {
    HeadIsQueued(s);
    DeliverShape(s);
    hide Deliver, QueueOk, Ahead, AllowedIn, CommandOf;
    assert Replied(s).ready;
  }

  lemma ReceiveOrder(s: State, id: Hid, key: Key, msg: Message)
    requires id !in s.handlers && id !in s.issued
    ensures OrderGrows(s, Receive(s, id, key, msg), None)
  {
    var t := Receive(s, id, key, msg);
    ReceiveShape(s, id, key, msg);
    StartedIsNoPoint(s.cache, key, msg);
    hide Receive, Started, Ahead;
    forall x, y | Pending(t, x) && Pending(t, y) && Ahead(t.issued, x, y)
      ensures Ahead(s.issued, x, y)
    {
      if t.issued != s.issued {
        AheadOfAppended(s.issued, id, x, y);
      }
    }
  }

  lemma StartedIsNoPoint(cache: map<Key, Name>, key: Key, msg: Message)
    ensures !AtPoint(Started(cache, key, msg))
  {
  }

  lemma StepOrder(s: State, a: Action)
    requires Sound(s) && Enabled(s, a)
    ensures OrderGrows(s, Next(s, a), if a.DoResume? then Some(a.h) else None)
    ensures a.DoEffect? ==> !Pending(Next(s, a), a.h)
  {
    hide Inv, ClaimsInv, QueueFull, Receive, Resume, Deliver, Effect, InTurn, OrderGrows, SameRelay;
    match a {
      case DoReceive(h, key, msg) =>
        assert !Outstanding(s.handlers, h);
        ReceiveOrder(s, h, key, msg);
      case DoResume(h) => ResumeOrder(s, h);
      case DoDeliver =>
        QueueOfSound(s);
        DeliverOrder(s);
      case DoEffect(h) => EffectOrder(s, h);
      case _ =>
        OthersShape(s, a);
        hide Next;
        SameOrder(s, Next(s, a));
    }
  }

  lemma QueueOfSound(s: State)
    requires Sound(s)
    ensures QueueOk(s.queue, s.handlers)
  {
  }

  lemma SameOrder(s: State, t: State)
    requires SameRelay(s, t)
    ensures OrderGrows(s, t, None)
  {
    hide Ahead;
  }

  lemma TimePasses(s: State, a: Action)
    requires Enabled(s, a)
    ensures s.now <= Next(s, a).now
  {
    hide Resume, PositionOf, Label, CommandOf, Waiting, Switches, HSet, CurrentName, Persist, Del, ExpireSome, Purge,
         Executed, AllowedIn, UsersAfter, LiveAfter, Wake, Without, InTurn, TakesAway, LetsExpire, LetsLapse, NextClose;
    if a.DoResume? {
      ResumeGoesOn(s, a.h);
      hide NextAwait, CacheAfter, SameJob;
    }
  }

  // ---- The invariant ----

  /** Points are issued, and visits left, in the order of their times. */
  ghost predicate InOrder(setup: Setup, run: seq<Action>)
    requires IsRun(setup, run)
  {
    var s := StateAfter(setup, run);
    && (forall id | Pending(s, id) :: IssuedAt(setup, run, id) <= s.now)
    && (forall x, y | Pending(s, x) && Pending(s, y) && Ahead(s.issued, x, y) ::
          IssuedAt(setup, run, x) <= IssuedAt(setup, run, y))
    && (forall name :: VisitsInOrder(setup, run, name))
  }

  ghost predicate VisitsInOrder(setup: Setup, run: seq<Action>, name: Name)
    requires IsRun(setup, run)
  {
    var s, visits := StateAfter(setup, run), Visits(setup, run, name);
    && T.Chronological(visits)
    && (visits != [] ==> T.Now(visits) <= s.now
                         && forall id | Pending(s, id) :: T.Now(visits) <= IssuedAt(setup, run, id))
  }

  /** A step keeps the order of the times of issue: what is issued now is issued last. */
  lemma IssuesStep(setup: Setup, run: seq<Action>)
    requires IsRun(setup, run) && run != [] && InOrder(setup, run[..|run| - 1])
    ensures var s := StateAfter(setup, run);
            && (forall id | Pending(s, id) :: IssuedAt(setup, run, id) <= s.now)
            && (forall x, y | Pending(s, x) && Pending(s, y) && Ahead(s.issued, x, y) ::
                  IssuedAt(setup, run, x) <= IssuedAt(setup, run, y))
  {
    var before, a := run[..|run| - 1], run[|run| - 1];
    var s, t := StateAfter(setup, before), StateAfter(setup, run);
    SoundRun(setup, before);
    StepOrder(s, a);
    TimePasses(s, a);
    hide Sound, Next, Enabled, InTurn, Ahead, Label, VisitsInOrder;
    forall id | Pending(t, id)
      ensures IssuedAt(setup, run, id) <= t.now
    {
    }
    forall x, y | Pending(t, x) && Pending(t, y) && Ahead(t.issued, x, y)
      ensures IssuedAt(setup, run, x) <= IssuedAt(setup, run, y)
    {
    }
  }

  /** A step of the run: what is issued now is issued last, and what takes effect was issued first. */
  lemma InOrderStep(setup: Setup, run: seq<Action>)
    requires IsRun(setup, run) && run != [] && InOrder(setup, run[..|run| - 1])
    ensures InOrder(setup, run)
  {
    IssuesStep(setup, run);
    hide Ahead, VisitsInOrder, IssuedAt;
    forall name
      ensures VisitsInOrder(setup, run, name)
    {
      VisitsStep(setup, run, name);
    }
  }

  /** A point that takes effect was issued before those that are still pending. */
  lemma EffectIsEarliest(setup: Setup, run: seq<Action>, id: Hid, other: Hid)
    requires IsRun(setup, run) && InOrder(setup, run)
    requires var s := StateAfter(setup, run);
             && Enabled(s, DoEffect(id)) && s.handlers[id].at.AwaitAddPoint? && Pending(s, other)
    ensures IssuedAt(setup, run, id) <= IssuedAt(setup, run, other)
  {
    var s := StateAfter(setup, run);
    SoundRun(setup, run);
    if other != id {
      assert Outstanding(s.handlers, id) && Outstanding(s.handlers, other);
      assert id in s.issued && other in s.issued;
      OneIsAhead(s.issued, id, other);
      InTurnIsFirst(s, id, other);
      hide Ahead, InTurn;
    }
  }

  lemma ChronologicalOn(h: seq<T.Visit>, v: T.Visit)
    requires T.Chronological(h) && (h != [] ==> T.Now(h) <= v.time)
    ensures T.Chronological(h + [v]) && T.Now(h + [v]) == v.time
  {
    var more := h + [v];
    forall i, j | 0 <= i < j < |more|
      ensures more[i].time <= more[j].time
    {
      if j == |h| {
        assert h[i].time <= h[|h| - 1].time;
      }
    }
  }

  lemma VisitsStep(setup: Setup, run: seq<Action>, name: Name)
    requires IsRun(setup, run) && run != [] && InOrder(setup, run[..|run| - 1])
    ensures VisitsInOrder(setup, run, name)
  {
    var before, a := run[..|run| - 1], run[|run| - 1];
    var s, t := StateAfter(setup, before), StateAfter(setup, run);
    assert VisitsInOrder(setup, before, name);
    SoundRun(setup, before);
    StepOrder(s, a);
    TimePasses(s, a);
    if Adds(s, a, name) {
      var m := s.handlers[a.h].msg;
      var v := T.Visit(C.Packed(m.x, m.y), IssuedAt(setup, before, a.h));
      assert Pending(s, a.h);
      ChronologicalOn(Visits(setup, before, name), v);
      forall id | Pending(t, id)
        ensures v.time <= IssuedAt(setup, run, id)
      {
        EffectIsEarliest(setup, before, a.h, id);
      }
    }
    hide Sound, Next, Enabled, InTurn, Ahead, Label, T.Chronological;
  }

  lemma {:induction false} RunIsInOrder(setup: Setup, run: seq<Action>)
    requires IsRun(setup, run)
    ensures InOrder(setup, run)
  {
    if run == [] {
      forall name
        ensures VisitsInOrder(setup, run, name)
      {
      }
    } else {
      RunIsInOrder(setup, run[..|run| - 1]);
      hide InOrder;
      InOrderStep(setup, run);
    }
  }

  // ---- Results ----

  /** A visit is the coordinate of a message whose point took effect under the name, at the time of its issue. */
  lemma VisitsAreMessages(setup: Setup, run: seq<Action>, id: Hid, name: Name)
    requires IsRun(setup, run) && Enabled(StateAfter(setup, run), DoEffect(id))
    ensures IsRun(setup, run + [DoEffect(id)])
    ensures var (h, visits, after) :=
              (StateAfter(setup, run).handlers[id], Visits(setup, run, name),
               Visits(setup, run + [DoEffect(id)], name));
            if h.at.AwaitAddPoint? && Label(h) == name && h.msg.x < 0x1_0000_0000 && h.msg.y < 0x1_0000_0000
            then && |after| == |visits| + 1 && after[..|visits|] == visits
                 && after[|visits|].time == IssuedAt(setup, run, id)
                 && C.UnpackCoordinates(after[|visits|].member) == Some(C.Coordinate(h.msg.x, h.msg.y))
            else after == visits
  {
    assert (run + [DoEffect(id)])[..|run|] == run;
    hide Effect, InTurn, Label, C.UnpackCoordinates, C.Packed;
    var h := StateAfter(setup, run).handlers[id];
    if C.IsUint32(h.msg.x) && C.IsUint32(h.msg.y) {
      C.UnpackInvertsPack(h.msg.x, h.msg.y);
    }
  }

  /** In every interleaving, the visits that a run leaves for a character are chronological. */
  lemma VisitsAreChronological(setup: Setup, run: seq<Action>, name: Name)
    requires IsRun(setup, run)
    ensures T.Chronological(Visits(setup, run, name))
  {
    RunIsInOrder(setup, run);
    assert VisitsInOrder(setup, run, name);
  }

  /**
   So with a window of whole seconds, the trail that the relay's calls leave for a character in any
   interleaving is the batch view of all the visits they have made.
   */
  lemma RelayTrailsAreBatch(setup: Setup, run: seq<Action>, cfg: T.Config, name: Name)
    requires IsRun(setup, run)
    requires cfg.maxPoints >= 1 && cfg.maxTimeMs >= 1000 && cfg.maxTimeMs % 1000 == 0
    ensures T.Run(cfg, Visits(setup, run, name)).entries == T.Batch(cfg, Visits(setup, run, name))
  {
    VisitsAreChronological(setup, run, name);
    hide T.Run, T.Batch, Visits;
    A.WholeSecondsAreFaithful(cfg);
  }

  /** And that is what a reader sees until the window has passed since the last visit, and nothing afterwards. */
  lemma RelayTrailsAreSeen(setup: Setup, run: seq<Action>, cfg: T.Config, name: Name, later: int)
    requires IsRun(setup, run) && Visits(setup, run, name) != []
    requires cfg.maxPoints >= 1 && cfg.maxTimeMs >= 1000 && cfg.maxTimeMs % 1000 == 0
    ensures var (visits, seen) := (Visits(setup, run, name), A.Seen(cfg, T.Run(cfg, Visits(setup, run, name)), later));
            && (later < T.Now(visits) + cfg.maxTimeMs ==> seen == T.Batch(cfg, visits))
            && (later > T.Now(visits) + cfg.maxTimeMs ==> seen == {})
  {
    VisitsAreChronological(setup, run, name);
    hide T.Run, T.Batch, Visits, A.Seen;
    A.ReadersSeeTheBatch(cfg, Visits(setup, run, name), later);
  }
}
