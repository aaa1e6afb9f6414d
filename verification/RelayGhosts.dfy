/**
 No ghosts. As long as the messages of one connection that can still write agree on the name, every
 live position and every user record that will not expire belongs to a connection, or is about to be
 released by a handler. Messages that do not switch may overlap freely, and so may those of different
 connections, upgrades and closes.
 */
module RelayGhosts {
  import opened Wrappers
  import opened HashStore
  import opened Positions
  import opened Relay
  import opened RelayAuthority
  import opened RelayAgreement
  import opened RelayPending
  import opened RelayClaims

  // ---- Messages that agree ----

  /** A reply that is there decides; one that is not can hold what the token lists. */
  predicate MayBeAdmitted(claims: map<Key, Claim>, h: Handler) {
    if h.ready then h.reply.Some? && Label(h) in h.reply.value else Lists(claims, h.key, Label(h))
  }

  /** The handler may still come to issue a point for its name. */
  predicate CanWrite(claims: map<Key, Claim>, cache: map<Key, Name>, h: Handler) {
    match h.at
    case AwaitAllowed => MayBeAdmitted(claims, h)
    case AwaitSetUser => true
    case AwaitPersistUser => true
    case AwaitAddPoint => false
    case _ => h.key in cache && cache[h.key] == Label(h)
  }

  /** The token of the connection lists no other character. */
  ghost predicate ListsOnly(claims: map<Key, Claim>, key: Key, name: Name) {
    forall other | Lists(claims, key, other) :: other == name || other == ""
  }

  /** The name is the current character of a connection that can have no other. */
  ghost predicate Anchored(claims: map<Key, Claim>, cache: map<Key, Name>, name: Name) {
    exists key :: key in cache && cache[key] == name && ListsOnly(claims, key, name)
  }

  /** Two handlers of a connection can write under different names, and the second one still asks for its own. */
  predicate Conflicting(claims: map<Key, Claim>, cache: map<Key, Name>, f: Handler, v: Handler) {
    && f.key == v.key && Label(f) != Label(v)
    && v.at.AwaitAllowed? && CanWrite(claims, cache, v) && CanWrite(claims, cache, f)
  }

  /** And the name that the second one would take from the connection may be left with nobody. */
  ghost predicate Harmful(claims: map<Key, Claim>, cache: map<Key, Name>, f: Handler, v: Handler) {
    Conflicting(claims, cache, f, v) && !Anchored(claims, cache, Label(f))
  }

  /** The handler that a message starts as. */
  function Started(cache: map<Key, Name>, key: Key, msg: Message): Handler {
    var h := Arriving(cache, key, msg);
    Waiting(h, if Switches(h) then AwaitAllowed else AwaitPublish)
  }

  /** The handler and those of its connection do each other no harm. */
  ghost predicate Agrees(claims: map<Key, Claim>, cache: map<Key, Name>, handlers: map<Hid, Handler>, h: Handler) {
    forall id | id in handlers && handlers[id].key == h.key ::
      !Harmful(claims, cache, h, handlers[id]) && !Harmful(claims, cache, handlers[id], h)
  }

  /** An arriving message agrees with those in flight. */
  ghost predicate Fits(s: State, a: Action) {
    a.DoReceive? && a.key != "" ==> Agrees(s.setup.claims, s.cache, s.handlers, Started(s.cache, a.key, a.msg))
  }

  ghost predicate AllFit(setup: Setup, run: seq<Action>)
    requires IsRun(setup, run)
  {
    run == [] || (AllFit(setup, run[..|run| - 1]) && Fits(StateAfter(setup, run[..|run| - 1]), run[|run| - 1]))
  }

  // ---- Who owns a name, and who is letting it go ----

  /** The current character of some connection. */
  ghost predicate Owned(cache: map<Key, Name>, name: Name) {
    exists key :: key in cache && cache[key] == name
  }

  /** The handler has switched away from the name, and has yet to remove its live position. */
  predicate Leaving(h: Handler, name: Name) {
    && Switches(h) && h.player == Some(name)
    && (h.at.AwaitSetCurrent? || h.at.AwaitPersistField? || h.at.AwaitKeepAlive?
        || (h.at.AwaitRemovePosition? && !h.ready))
  }

  /** The handler has switched away from the name, and has yet to let its user record expire. */
  predicate Releasing(h: Handler, name: Name) {
    && Switches(h) && h.player == Some(name)
    && (h.at.AwaitSetCurrent? || h.at.AwaitPersistField? || (h.at.AwaitKeepAlive? && !h.ready))
  }

  ghost predicate BeingLeft(handlers: map<Hid, Handler>, name: Name) {
    exists id :: id in handlers && Leaving(handlers[id], name)
  }

  ghost predicate BeingReleased(handlers: map<Hid, Handler>, name: Name) {
    exists id :: id in handlers && Releasing(handlers[id], name)
  }

  predicate Lasting(users: Hashes, name: Name) {
    name in users && users[name].deadline == None
  }

  ghost predicate LastsNoMore(users: Hashes, users': Hashes) {
    forall name | Lasting(users', name) :: Lasting(users, name)
  }

  ghost predicate NoGhosts(s: State) {
    forall name | name in s.live :: Owned(s.cache, name) || BeingLeft(s.handlers, name)
  }

  ghost predicate NoGhostUsers(s: State) {
    forall name | Lasting(s.users, name) :: Owned(s.cache, name) || BeingReleased(s.handlers, name)
  }

  // ---- The invariant ----

  /** The handlers of each connection do each other no harm. */
  ghost predicate InHarmony(s: State) {
    forall id | id in s.handlers :: Agrees(s.setup.claims, s.cache, s.handlers, s.handlers[id])
  }

  /** What a handler captured or passed still matches the cache. */
  ghost predicate Synced(claims: map<Key, Claim>, cache: map<Key, Name>, h: Handler) {
    && (BeforeBroadcast(h.at) ==> Switches(h))
    && (h.at.AwaitAllowed? && CanWrite(claims, cache, h) ==>
          || h.player == Player(cache, h.key)
          || (h.key in cache && (cache[h.key] == Label(h) || Anchored(claims, cache, cache[h.key]))))
    && (h.at.AwaitSetUser? || h.at.AwaitPersistUser? ==>
          (h.key in cache && cache[h.key] == Label(h)) || Anchored(claims, cache, Label(h)))
  }

  ghost predicate HandlersSynced(s: State) {
    forall id | id in s.handlers :: Synced(s.setup.claims, s.cache, s.handlers[id])
  }

  /** The handler's point is issued and has not taken effect. */
  predicate AtPoint(h: Handler) {
    h.at.AwaitAddPoint? && !h.ready
  }

  /** The one handler will remove what the other's point adds, and not before. */
  ghost predicate Covers(s: State, id: Hid, point: Hid)
    requires id in s.handlers && point in s.handlers
  {
    && Leaving(s.handlers[id], Label(s.handlers[point]))
    && (s.handlers[id].at.AwaitRemovePosition? ==> Ahead(s.issued, point, id))
  }

  ghost predicate Covered(s: State, point: Hid)
    requires point in s.handlers
  {
    exists id :: id in s.handlers && Covers(s, id, point)
  }

  ghost predicate PointsCovered(s: State) {
    forall id | id in s.handlers && AtPoint(s.handlers[id]) :: Owned(s.cache, Label(s.handlers[id])) || Covered(s, id)
  }

  ghost predicate GhostInv(s: State) {
    InHarmony(s) && HandlersSynced(s) && PointsCovered(s) && NoGhosts(s) && NoGhostUsers(s)
  }

  // ---- One handler changes, the cache stays ----

  ghost predicate Others(s: State, t: State, id: Hid) {
    forall w | w != id :: (w in t.handlers <==> w in s.handlers) && (w in s.handlers ==> t.handlers[w] == s.handlers[w])
  }

  ghost predicate KeepsOrder(s: State, t: State, id: Hid) {
    forall a, b | a != id && b != id && Ahead(s.issued, a, b) :: Ahead(t.issued, a, b)
  }

  /** The new state of the handler: in step, agreeing, and a new point is owned. */
  ghost predicate Arrives(t: State, id: Hid) {
    id in t.handlers ==>
      && Synced(t.setup.claims, t.cache, t.handlers[id])
      && Agrees(t.setup.claims, t.cache, t.handlers, t.handlers[id])
      && (AtPoint(t.handlers[id]) ==> Owned(t.cache, Label(t.handlers[id])))
  }

  /** What the handler stops witnessing is gone. */
  ghost predicate LetsGo(s: State, t: State, id: Hid) {
    id in s.handlers ==>
      && (forall name | Leaving(s.handlers[id], name) && name in t.live ::
            id in t.handlers && Leaving(t.handlers[id], name))
      && (forall name | Releasing(s.handlers[id], name) && Lasting(t.users, name) ::
            id in t.handlers && Releasing(t.handlers[id], name))
      && (forall point | point in s.handlers && point != id && AtPoint(s.handlers[point]) && Covers(s, id, point) ::
            id in t.handlers && point in t.handlers && Covers(t, id, point))
  }

  /** The live names and lasting users after a step were there before, or have a holder. */
  ghost predicate Gains(s: State, t: State) {
    && (forall name | name in t.live :: name in s.live || Owned(t.cache, name) || BeingLeft(t.handlers, name))
    && (forall name | Lasting(t.users, name) :: Lasting(s.users, name) || Owned(t.cache, name))
  }

  lemma NoGhostsKept(s: State, t: State, id: Hid)
    requires NoGhosts(s) && NoGhostUsers(s) && t.setup == s.setup && t.cache == s.cache && Others(s, t, id)
             && LetsGo(s, t, id) && Gains(s, t)
    ensures NoGhosts(t) && NoGhostUsers(t)
  {
    hide Leaving, Releasing, Lasting, Owned, Covers;
    forall name | name in t.live && !Owned(t.cache, name)
      ensures BeingLeft(t.handlers, name)
    {
      if name in s.live {
        var w :| w in s.handlers && Leaving(s.handlers[w], name);
        assert w in t.handlers && Leaving(t.handlers[w], name);
      }
    }
    forall name | Lasting(t.users, name) && !Owned(t.cache, name)
      ensures BeingReleased(t.handlers, name)
    {
      var w :| w in s.handlers && Releasing(s.handlers[w], name);
      assert w in t.handlers && Releasing(t.handlers[w], name);
    }
  }

  lemma PointsKept(s: State, t: State, id: Hid)
    requires PointsCovered(s) && t.setup == s.setup && t.cache == s.cache && Others(s, t, id) && LetsGo(s, t, id)
    requires KeepsOrder(s, t, id) && Arrives(t, id)
    ensures PointsCovered(t)
  {
    hide Leaving, Releasing, Lasting, Owned, Synced, Agrees, Label, Ahead;
    forall point | point in t.handlers && AtPoint(t.handlers[point]) && !Owned(t.cache, Label(t.handlers[point]))
      ensures Covered(t, point)
    {
      assert point != id && Covered(s, point);
      var w :| w in s.handlers && Covers(s, w, point);
      assert w in t.handlers && Covers(t, w, point);
    }
  }

  lemma HarmonyKept(s: State, t: State, id: Hid)
    requires InHarmony(s) && HandlersSynced(s) && t.setup == s.setup && t.cache == s.cache && Others(s, t, id)
             && Arrives(t, id)
    ensures InHarmony(t) && HandlersSynced(t)
  {
    hide CanWrite, Label, Owned, AtPoint;
    forall w | w in t.handlers
      ensures Agrees(t.setup.claims, t.cache, t.handlers, t.handlers[w])
              && Synced(t.setup.claims, t.cache, t.handlers[w])
    {
      assert w != id ==> Agrees(s.setup.claims, s.cache, s.handlers, s.handlers[w]);
      assert w != id ==> Synced(s.setup.claims, s.cache, s.handlers[w]);
      hide Synced;
    }
  }

  lemma HandlerMoves(s: State, t: State, id: Hid)
    requires GhostInv(s) && t.setup == s.setup && t.cache == s.cache && Others(s, t, id) && KeepsOrder(s, t, id)
    requires Arrives(t, id) && LetsGo(s, t, id) && Gains(s, t)
    ensures GhostInv(t)
  {
    hide InHarmony, HandlersSynced, PointsCovered, NoGhosts, NoGhostUsers, Others, KeepsOrder, Arrives, LetsGo, Gains;
    HarmonyKept(s, t, id);
    PointsKept(s, t, id);
    NoGhostsKept(s, t, id);
  }

  // ---- Segments that leave the cache alone ----

  /** The task is the same, and the handler can write at most what it could before. */
  predicate NoBolder(claims: map<Key, Claim>, cache: map<Key, Name>, h: Handler, h': Handler) {
    && h'.key == h.key && Label(h') == Label(h) && (h'.at.AwaitAllowed? ==> h.at.AwaitAllowed?)
    && (CanWrite(claims, cache, h') ==> CanWrite(claims, cache, h))
  }

  lemma StillAgrees(claims: map<Key, Claim>, cache: map<Key, Name>, handlers: map<Hid, Handler>, id: Hid, h': Handler)
    requires id in handlers && Agrees(claims, cache, handlers, handlers[id])
             && NoBolder(claims, cache, handlers[id], h')
    ensures Agrees(claims, cache, handlers[id := h'], h')
  {
    hide CanWrite, Label;
  }

  lemma UpdateIsOthers(s: State, t: State, id: Hid, h': Handler)
    requires t.handlers == s.handlers[id := h'] || t.handlers == s.handlers - {id}
    ensures Others(s, t, id)
  {
  }

  lemma OrderKept(s: State, t: State, id: Hid)
    requires t.issued == s.issued || t.issued == s.issued + [id] || t.issued == Without(s.issued, id)
    ensures KeepsOrder(s, t, id)
  {
    hide Ahead, Without;
    AppendKeepsOrder(s.issued, id);
    forall a, b | a != id && b != id && Ahead(s.issued, a, b)
      ensures Ahead(t.issued, a, b)
    {
      WithoutKeepsOrder(s.issued, id, a, b);
    }
  }

  /** The awaits of the handler's text that follow one another without a switch or a test between. */
  predicate Follows(at: Await, next: Await) {
    || (at.AwaitSetCurrent? && next.AwaitPersistField?)
    || (at.AwaitPersistField? && next.AwaitKeepAlive?)
    || (at.AwaitKeepAlive? && next.AwaitRemovePosition?)
    || (at.AwaitRemovePosition? && next.AwaitPublish?)
    || (at.AwaitPublish? && next.AwaitCount?)
    || (at.AwaitCount? && next.AwaitExpire?)
    || (at.AwaitSetUser? && next.AwaitPersistUser?)
    || (at.AwaitPersistUser? && next.AwaitAddPoint?)
  }

  /** What the handler's own step has to respect. */
  ghost predicate StepsTo(claims: map<Key, Claim>, cache: map<Key, Name>, h: Handler, h': Handler) {
    && NoBolder(claims, cache, h, h')
    && Synced(claims, cache, h')
    && (AtPoint(h') ==> (h'.key in cache && cache[h'.key] == Label(h')) || Anchored(claims, cache, Label(h')))
    && (forall name | Releasing(h, name) :: Releasing(h', name))
    && (forall name | Leaving(h, name) :: Leaving(h', name))
  }

  lemma WaitingSteps(claims: map<Key, Claim>, cache: map<Key, Name>, h: Handler, next: Await)
    requires Synced(claims, cache, h) && h.ready && Follows(h.at, next)
    ensures StepsTo(claims, cache, h, Waiting(h, next))
  {
    assert Switches(Waiting(h, next)) == Switches(h) && Label(Waiting(h, next)) == Label(h);
    hide Switches, Label, Player, MayBeAdmitted;
  }

  lemma PassingSteps(claims: map<Key, Claim>, cache: map<Key, Name>, h: Handler, fields: map<Field, Value>)
    requires Synced(claims, cache, h) && (h.at.AwaitCount? || h.at.AwaitExpire?) && h.key in cache
             && cache[h.key] == Label(h)
    ensures StepsTo(claims, cache, h, Waiting(h.(fields := fields), AwaitSetUser))
  {
    var h' := Waiting(h.(fields := fields), AwaitSetUser);
    assert Switches(h') == Switches(h) && Label(h') == Label(h);
    hide Switches, Label, Player, MayBeAdmitted;
  }

  /** Whoever covers a point goes on covering it, its own removal coming last. */
  lemma GoesOnCovering(s: State, t: State, id: Hid)
    requires IssuedOk(s.issued, s.handlers) && id in s.handlers && id in t.handlers && Others(s, t, id)
    requires forall name | Leaving(s.handlers[id], name) :: Leaving(t.handlers[id], name)
    requires s.handlers[id].at.AwaitRemovePosition? ==> t.issued == s.issued
    requires t.handlers[id].at.AwaitRemovePosition? && !s.handlers[id].at.AwaitRemovePosition?
             ==> t.issued == s.issued + [id]
    ensures forall point | point in s.handlers && point != id && AtPoint(s.handlers[point]) && Covers(s, id, point) ::
              point in t.handlers && Covers(t, id, point)
  {
    hide Leaving, Label, Ahead;
    AppendKeepsOrder(s.issued, id);
    forall point | point in s.handlers && point != id && AtPoint(s.handlers[point]) && Covers(s, id, point)
      ensures point in t.handlers && Covers(t, id, point)
    {
      assert Outstanding(s.handlers, point);
    }
  }

  lemma SegmentMoves(s: State, t: State, id: Hid, h': Handler)
    requires GhostInv(s) && IssuedOk(s.issued, s.handlers) && id in s.handlers
    requires t.setup == s.setup && t.cache == s.cache && t.live == s.live && t.users == s.users
             && t.handlers == s.handlers[id := h']
    requires StepsTo(s.setup.claims, s.cache, s.handlers[id], h')
    requires t.issued == s.issued
             || (t.issued == s.issued + [id] && (s.handlers[id].at.AwaitRemovePosition? ==> s.handlers[id].ready))
    requires h'.at.AwaitRemovePosition? && !s.handlers[id].at.AwaitRemovePosition? ==> t.issued == s.issued + [id]
    ensures GhostInv(t)
  {
    assert Agrees(s.setup.claims, s.cache, s.handlers, s.handlers[id]);
    StillAgrees(s.setup.claims, s.cache, s.handlers, id, h');
    UpdateIsOthers(s, t, id, h');
    OrderKept(s, t, id);
    hide InHarmony, HandlersSynced, PointsCovered, NoGhosts, NoGhostUsers;
    assert Arrives(t, id) by {
      hide Synced, Agrees, Label;
    }
    assert Gains(s, t) by {
      hide Owned;
    }
    LetsGoBySteps(s, t, id);
    hide StepsTo, Others, KeepsOrder, Arrives, LetsGo, Gains;
    HandlerMoves(s, t, id);
  }

  lemma LetsGoBySteps(s: State, t: State, id: Hid)
    requires IssuedOk(s.issued, s.handlers) && id in s.handlers && id in t.handlers && Others(s, t, id)
    requires StepsTo(s.setup.claims, s.cache, s.handlers[id], t.handlers[id])
    requires t.issued == s.issued
             || (t.issued == s.issued + [id] && (s.handlers[id].at.AwaitRemovePosition? ==> s.handlers[id].ready))
    requires t.handlers[id].at.AwaitRemovePosition? && !s.handlers[id].at.AwaitRemovePosition?
             ==> t.issued == s.issued + [id]
    ensures LetsGo(s, t, id)
  {
    if s.handlers[id].at.AwaitRemovePosition? && s.handlers[id].ready {
      assert forall name :: !Leaving(s.handlers[id], name);
    } else {
      GoesOnCovering(s, t, id);
    }
    hide Leaving, Releasing, Covers;
  }

  lemma HandlerEnds(s: State, t: State, id: Hid)
    requires GhostInv(s) && id in s.handlers
    requires t.setup == s.setup && t.cache == s.cache && t.handlers == s.handlers - {id} && t.issued == s.issued
    requires t.live == s.live && t.users == s.users
    requires forall name :: !Leaving(s.handlers[id], name) && !Releasing(s.handlers[id], name)
    ensures GhostInv(t)
  {
    UpdateIsOthers(s, t, id, s.handlers[id]);
    OrderKept(s, t, id);
    hide InHarmony, HandlersSynced, PointsCovered, NoGhosts, NoGhostUsers, Others, KeepsOrder, Leaving, Releasing,
         Label, Owned;
    HandlerMoves(s, t, id);
  }

  lemma ArrivingIsSynced(claims: map<Key, Claim>, cache: map<Key, Name>, key: Key, msg: Message)
    ensures Synced(claims, cache, Started(cache, key, msg)) && !AtPoint(Started(cache, key, msg))
  {
    hide Player, Label;
  }

  /** What a message starts as: not at all, or as its first handler. */
  lemma ReceiveShape(s: State, id: Hid, key: Key, msg: Message)
    requires id !in s.handlers
    ensures var t := Receive(s, id, key, msg);
            && t.setup == s.setup && t.cache == s.cache && t.live == s.live && t.users == s.users
            && if id in t.handlers
               then key != "" && t.handlers == s.handlers[id := Started(s.cache, key, msg)]
                    && (t.issued == s.issued || t.issued == s.issued + [id])
               else t.handlers == s.handlers && t.issued == s.issued
  {
    var t, h := s.(log := s.log + [Received(key, msg)]), Arriving(s.cache, key, msg);
    EnqueueShape(t, id, h, AwaitAllowed);
    StartBroadcastShape(t, id, h);
    hide Enqueue, StartBroadcast, Switches, Arriving;
  }

  lemma ReceiveKeeps(s: State, id: Hid, key: Key, msg: Message)
    requires GhostInv(s) && id !in s.handlers && Fits(s, DoReceive(id, key, msg))
    ensures GhostInv(Receive(s, id, key, msg))
  {
    var t, h := Receive(s, id, key, msg), Started(s.cache, key, msg);
    ReceiveShape(s, id, key, msg);
    ArrivingIsSynced(s.setup.claims, s.cache, key, msg);
    hide Receive, Started;
    if id in t.handlers {
      UpdateIsOthers(s, t, id, h);
      OrderKept(s, t, id);
      assert h.key == key by {
        assert Started(s.cache, key, msg).key == key;
      }
      hide InHarmony, HandlersSynced, PointsCovered, NoGhosts, NoGhostUsers, Others, KeepsOrder, Synced, CanWrite,
           Label, Owned;
      HandlerMoves(s, t, id);
    } else {
      hide Owned, Label, Covers, Agrees, Synced, Lasting;
    }
  }

  // ---- The switch ----

  lemma CachedNamesAreNonEmpty(s: State)
    requires Inv(s)
    ensures forall key | key in s.cache :: s.cache[key] != "" && key != ""
  {
  }

  lemma AnchoredIsOwned(claims: map<Key, Claim>, cache: map<Key, Name>, name: Name)
    requires Anchored(claims, cache, name)
    ensures Owned(cache, name)
  {
  }

  /** No switch takes an anchored name from the connection that holds it. */
  lemma AnchoredStays(claims: map<Key, Claim>, cache: map<Key, Name>, key: Key, other: Name, name: Name)
    requires Lists(claims, key, other) && other != "" && Anchored(claims, cache, name)
    ensures Anchored(claims, cache[key := other], name)
  {
    hide Lists;
    var k :| k in cache && cache[k] == name && ListsOnly(claims, k, name);
    assert cache[key := other][k] == name;
  }

  /** The handler is admitted: its connection's token lists its name. */
  predicate Admissible(s: State, t: State, id: Hid) {
    && id in s.handlers && id in t.handlers
    && var h := s.handlers[id];
       && h.at.AwaitAllowed? && Named(h.msg) && CanWrite(s.setup.claims, s.cache, h)
       && Lists(s.setup.claims, h.key, Label(h))
       && t.handlers[id] == Waiting(h, AwaitSetCurrent)
       && t.cache == s.cache[h.key := Label(h)] && t.setup == s.setup
  }

  /** The name that a switch displaces, if no other connection has it, is left to the handler. */
  lemma DisplacedIsLeft(s: State, t: State, id: Hid, name: Name)
    requires Admissible(s, t, id) && Synced(s.setup.claims, s.cache, s.handlers[id]) && Owned(s.cache, name)
    requires forall key | key in s.cache :: s.cache[key] != ""
    ensures Owned(t.cache, name) || (Leaving(t.handlers[id], name) && Releasing(t.handlers[id], name))
  {
    var h := s.handlers[id];
    var key :| key in s.cache && s.cache[key] == name;
    assert t.handlers[id].player == h.player && Switches(t.handlers[id]) == Switches(h);
    assert Label(h) != "";
    if key != h.key {
      assert t.cache[key] == name;
    } else if name == Label(h) {
      assert t.cache[h.key] == name;
    } else if Anchored(s.setup.claims, s.cache, name) {
      AnchoredStays(s.setup.claims, s.cache, h.key, Label(h), name);
      AnchoredIsOwned(s.setup.claims, t.cache, name);
    } else {
      hide Label, Switches, MayBeAdmitted, Anchored, Lists;
      assert h.player == Player(s.cache, h.key) == Some(name);
    }
  }

  /** What a switch of the connection changes for another of its handlers. */
  lemma SwitchSeen(claims: map<Key, Claim>, cache: map<Key, Name>, h: Handler, g: Handler)
    requires h.at.AwaitAllowed? && CanWrite(claims, cache, h) && Lists(claims, h.key, Label(h)) && Label(h) != ""
    requires Synced(claims, cache, g)
    requires g.key == h.key ==> !Harmful(claims, cache, h, g) && !Harmful(claims, cache, g, h)
    ensures Synced(claims, cache[h.key := Label(h)], g)
  {
    var cache' := cache[h.key := Label(h)];
    forall name | Anchored(claims, cache, name)
      ensures Anchored(claims, cache', name)
    {
      AnchoredStays(claims, cache, h.key, Label(h), name);
    }
    hide Label, Switches, MayBeAdmitted, Anchored, Lists;
  }

  lemma SwitchMade(claims: map<Key, Claim>, cache: map<Key, Name>, h: Handler)
    requires Synced(claims, cache, h) && h.at.AwaitAllowed?
    ensures Synced(claims, cache[h.key := Label(h)], Waiting(h, AwaitSetCurrent))
    ensures Label(Waiting(h, AwaitSetCurrent)) == Label(h)
  {
    hide MayBeAdmitted, Anchored;
  }

  /** Whoever can write after a switch could before, or has the switch's name. */
  lemma WritersAfterSwitch(claims: map<Key, Claim>, cache: map<Key, Name>, h: Handler, g: Handler)
    requires h.at.AwaitAllowed? && CanWrite(claims, cache[h.key := Label(h)], g)
    ensures CanWrite(claims, cache, g) || (g.key == h.key && Label(g) == Label(h))
    ensures g.at.AwaitAllowed? ==> CanWrite(claims, cache, g)
  {
    hide Label, MayBeAdmitted;
  }

  lemma SwitchDoesNoHarm(claims: map<Key, Claim>, cache: map<Key, Name>, h: Handler, f: Handler, v: Handler)
    requires h.at.AwaitAllowed? && CanWrite(claims, cache, h) && Lists(claims, h.key, Label(h)) && Label(h) != ""
    requires !Harmful(claims, cache, f, v)
    requires v.key == h.key ==> !Harmful(claims, cache, h, v)
    ensures !Harmful(claims, cache[h.key := Label(h)], f, v)
  {
    var cache' := cache[h.key := Label(h)];
    if Conflicting(claims, cache', f, v) {
      WritersAfterSwitch(claims, cache, h, f);
      WritersAfterSwitch(claims, cache, h, v);
      hide Label, CanWrite, Anchored, Lists;
      assert Anchored(claims, cache, Label(f));
      AnchoredStays(claims, cache, h.key, Label(h), Label(f));
    }
  }

  lemma SwitchKeepsHarmony(s: State, t: State, id: Hid)
    requires InHarmony(s) && HandlersSynced(s) && Others(s, t, id) && Admissible(s, t, id)
    ensures InHarmony(t) && HandlersSynced(t)
  {
    var claims, h := s.setup.claims, s.handlers[id];
    assert Label(h) != "";
    SwitchMade(claims, s.cache, h);
    assert Agrees(claims, s.cache, s.handlers, h) && Synced(claims, s.cache, h);
    hide Synced, Label, CanWrite, Lists, Harmful;
    forall w | w in t.handlers
      ensures Synced(claims, t.cache, t.handlers[w])
    {
      if w != id {
        SwitchSeen(claims, s.cache, h, s.handlers[w]);
      }
    }
    forall f, v | f in t.handlers && v in t.handlers && t.handlers[f].key == t.handlers[v].key
      ensures !Harmful(claims, t.cache, t.handlers[f], t.handlers[v])
    {
      NoHarmAfterSwitch(s, t, id, f, v);
    }
  }

  lemma NoHarmAfterSwitch(s: State, t: State, id: Hid, f: Hid, v: Hid)
    requires InHarmony(s) && Others(s, t, id) && Admissible(s, t, id)
    requires f in t.handlers && v in t.handlers && t.handlers[f].key == t.handlers[v].key
    ensures !Harmful(s.setup.claims, t.cache, t.handlers[f], t.handlers[v])
  {
    var claims, h := s.setup.claims, s.handlers[id];
    assert Agrees(claims, s.cache, s.handlers, h);
    assert f != id ==> Agrees(claims, s.cache, s.handlers, s.handlers[f]);
    assert Label(t.handlers[id]) == Label(h) && Label(h) != "";
    if v != id {
      SwitchDoesNoHarm(claims, s.cache, h, s.handlers[f], s.handlers[v]);
      assert CanWrite(claims, t.cache, h);
      hide Anchored, CanWrite, Label;
      SwitchedHarms(claims, t.cache, h, s.handlers[v]);
    }
  }

  /** The handler that switches is as harmful after it as before. */
  lemma SwitchedHarms(claims: map<Key, Claim>, cache': map<Key, Name>, h: Handler, v: Handler)
    requires h.at.AwaitAllowed? && CanWrite(claims, cache', h)
    ensures Harmful(claims, cache', Waiting(h, AwaitSetCurrent), v) ==> Harmful(claims, cache', h, v)
  {
    assert Label(Waiting(h, AwaitSetCurrent)) == Label(h);
    hide Label, MayBeAdmitted, Anchored;
  }

  /** A switch hands the old name from its connection to the handler. */
  lemma HandlerSwitches(s: State, t: State, id: Hid)
    requires GhostInv(s) && Admissible(s, t, id) && t.issued == s.issued && t.live == s.live && t.users == s.users
    requires t.handlers == s.handlers[id := t.handlers[id]]
    requires forall key | key in s.cache :: s.cache[key] != ""
    ensures GhostInv(t)
  {
    var h := s.handlers[id];
    UpdateIsOthers(s, t, id, t.handlers[id]);
    SwitchKeepsHarmony(s, t, id);
    assert Synced(s.setup.claims, s.cache, h);
    forall name | Owned(s.cache, name)
      ensures Owned(t.cache, name) || (Leaving(t.handlers[id], name) && Releasing(t.handlers[id], name))
    {
      DisplacedIsLeft(s, t, id, name);
    }
    assert forall name :: !Leaving(h, name) && !Releasing(h, name);
    hide InHarmony, HandlersSynced, Label, Lists, CanWrite;
    HoldersAfterSwitch(s, t, id);
  }

  lemma HoldersAfterSwitch(s: State, t: State, id: Hid)
    requires NoGhosts(s) && NoGhostUsers(s) && PointsCovered(s)
    requires id in s.handlers && id in t.handlers && Others(s, t, id)
    requires t.issued == s.issued && t.live == s.live && t.users == s.users
    requires forall name :: !Leaving(s.handlers[id], name) && !Releasing(s.handlers[id], name)
    requires t.handlers[id].at.AwaitSetCurrent?
    requires forall name | Owned(s.cache, name) ::
               Owned(t.cache, name) || (Leaving(t.handlers[id], name) && Releasing(t.handlers[id], name))
    ensures NoGhosts(t) && NoGhostUsers(t) && PointsCovered(t)
  {
    hide Leaving, Releasing, Owned, Lasting, Label, Ahead;
    forall name | name in t.live && !Owned(t.cache, name)
      ensures BeingLeft(t.handlers, name)
    {
      if !Owned(s.cache, name) {
        var w :| w in s.handlers && Leaving(s.handlers[w], name);
        assert w in t.handlers && Leaving(t.handlers[w], name);
      }
    }
    forall name | Lasting(t.users, name) && !Owned(t.cache, name)
      ensures BeingReleased(t.handlers, name)
    {
      if !Owned(s.cache, name) {
        var w :| w in s.handlers && Releasing(s.handlers[w], name);
        assert w in t.handlers && Releasing(t.handlers[w], name);
      }
    }
    forall point | point in t.handlers && AtPoint(t.handlers[point]) && !Owned(t.cache, Label(t.handlers[point]))
      ensures Covered(t, point)
    {
      if Owned(s.cache, Label(s.handlers[point])) {
        assert Covers(t, id, point);
      } else {
        var w :| w in s.handlers && Covers(s, w, point);
        assert w in t.handlers && Covers(t, w, point);
      }
    }
  }

  lemma AdmitSwitches(s: State, id: Hid)
    requires Inv(s) && ClaimsInv(s) && HandlersSynced(s)
    requires id in s.handlers && s.handlers[id].at.AwaitAllowed? && s.handlers[id].ready
    requires s.handlers[id].reply.Some? && Label(s.handlers[id]) in s.handlers[id].reply.value
    ensures var t := Admit(s, id, s.handlers[id]);
            && Admissible(s, t, id) && t.issued == s.issued && t.live == s.live && t.users == s.users
            && t.handlers == s.handlers[id := t.handlers[id]]
  {
    var h := s.handlers[id];
    assert Synced(s.setup.claims, s.cache, h);
    assert Named(h.msg);
    assert IsList(s.setup.claims, h.key, h.reply);
    hide Inv, Label, Enqueue, ClaimsInv, Synced, HandlersSynced, Named;
    EnqueueShape(s.(cache := s.cache[h.key := Label(h)], log := s.log + [Switched(h.key, Label(h))]),
                 id, h, AwaitSetCurrent);
  }

  lemma RefuseKeeps(s: State, id: Hid)
    requires GhostInv(s) && id in s.handlers && s.handlers[id].at.AwaitAllowed?
    ensures GhostInv(Finish(s, id))
  {
    hide GhostInv, Switches;
    HandlerEnds(s, Finish(s, id), id);
  }

  lemma AdmitKeeps(s: State, id: Hid)
    requires GhostInv(s) && Inv(s) && ClaimsInv(s)
    requires id in s.handlers && s.handlers[id].at.AwaitAllowed? && s.handlers[id].ready
    ensures GhostInv(Admit(s, id, s.handlers[id]))
  {
    assert HandlersSynced(s);
    CachedNamesAreNonEmpty(s);
    hide Inv, GhostInv, Label, ClaimsInv, HandlersSynced, Enqueue, Finish, Admissible;
    var h := s.handlers[id];
    if h.reply.None? || Label(h) !in h.reply.value {
      RefuseKeeps(s, id);
    } else {
      AdmitSwitches(s, id);
      hide Admit;
      HandlerSwitches(s, Admit(s, id, h), id);
    }
  }

  // ---- The other segments ----

  lemma EnqueueKeeps(s: State, id: Hid, next: Await)
    requires GhostInv(s) && IssuedOk(s.issued, s.handlers) && id in s.handlers && s.handlers[id].ready
    requires Follows(s.handlers[id].at, next) && OnConnectionStore(next)
    ensures GhostInv(Enqueue(s, id, s.handlers[id], next))
  {
    EnqueueShape(s, id, s.handlers[id], next);
    assert Synced(s.setup.claims, s.cache, s.handlers[id]);
    WaitingSteps(s.setup.claims, s.cache, s.handlers[id], next);
    hide GhostInv, Enqueue, StepsTo, IssuedOk;
    SegmentMoves(s, Enqueue(s, id, s.handlers[id], next), id, Waiting(s.handlers[id], next));
  }

  lemma IssueKeeps(s: State, id: Hid, next: Await)
    requires GhostInv(s) && IssuedOk(s.issued, s.handlers) && id in s.handlers && s.handlers[id].ready
    requires Follows(s.handlers[id].at, next)
    ensures GhostInv(Issue(s, id, s.handlers[id], next))
  {
    assert Synced(s.setup.claims, s.cache, s.handlers[id]);
    WaitingSteps(s.setup.claims, s.cache, s.handlers[id], next);
    hide GhostInv, StepsTo, IssuedOk;
    SegmentMoves(s, Issue(s, id, s.handlers[id], next), id, Waiting(s.handlers[id], next));
  }

  lemma StartBroadcastKeeps(s: State, id: Hid)
    requires GhostInv(s) && IssuedOk(s.issued, s.handlers) && id in s.handlers && s.handlers[id].ready
    requires s.handlers[id].at.AwaitRemovePosition?
    ensures GhostInv(StartBroadcast(s, id, s.handlers[id]))
  {
    StartBroadcastShape(s, id, s.handlers[id]);
    assert Synced(s.setup.claims, s.cache, s.handlers[id]);
    WaitingSteps(s.setup.claims, s.cache, s.handlers[id], AwaitPublish);
    hide GhostInv, StartBroadcast, StepsTo, IssuedOk;
    SegmentMoves(s, StartBroadcast(s, id, s.handlers[id]), id, Waiting(s.handlers[id], AwaitPublish));
  }

  lemma WritingKeeps(s: State, id: Hid, log: Log, fields: map<Field, Value>)
    requires GhostInv(s) && IssuedOk(s.issued, s.handlers) && id in s.handlers && s.handlers[id].ready
    requires s.handlers[id].at.AwaitCount? || s.handlers[id].at.AwaitExpire?
    requires var h := s.handlers[id]; h.key in s.cache && s.cache[h.key] == Label(h)
    ensures GhostInv(Issue(s.(log := log), id, s.handlers[id].(fields := fields), AwaitSetUser))
  {
    assert Synced(s.setup.claims, s.cache, s.handlers[id]);
    hide GhostInv, Label, IssuedOk, Synced;
    PassingSteps(s.setup.claims, s.cache, s.handlers[id], fields);
    hide StepsTo;
    SegmentMoves(s, Issue(s.(log := log), id, s.handlers[id].(fields := fields), AwaitSetUser), id,
                 Waiting(s.handlers[id].(fields := fields), AwaitSetUser));
  }

  lemma CheckAndWriteKeeps(s: State, id: Hid)
    requires GhostInv(s) && IssuedOk(s.issued, s.handlers) && id in s.handlers && s.handlers[id].ready
    requires s.handlers[id].at.AwaitCount? || s.handlers[id].at.AwaitExpire?
    ensures GhostInv(CheckAndWrite(s, id, s.handlers[id]))
  {
    hide GhostInv, UserFields, Label, IssuedOk, Issue;
    var h := s.handlers[id];
    if h.key in s.cache && s.cache[h.key] == Label(h) {
      var fields := UserFields(h.msg, h.key, s.now);
      WritingKeeps(s, id, s.log + [Wrote(h.key, Label(h), fields)], fields);
    } else {
      HandlerEnds(s, Finish(s, id), id);
    }
  }

  lemma FinishKeeps(s: State, id: Hid)
    requires GhostInv(s) && id in s.handlers && s.handlers[id].at.AwaitAddPoint?
    ensures GhostInv(Finish(s, id))
  {
    hide GhostInv;
    HandlerEnds(s, Finish(s, id), id);
  }

  lemma ResumeKeeps(s: State, id: Hid)
    requires GhostInv(s) && Inv(s) && ClaimsInv(s) && IssuedOk(s.issued, s.handlers)
    requires id in s.handlers && s.handlers[id].ready
    ensures GhostInv(Resume(s, id))
  {
    hide Inv, GhostInv, ClaimsInv, IssuedOk, Admit, CheckAndWrite, Enqueue, Issue, Finish, StartBroadcast;
    match s.handlers[id].at {
      case AwaitAllowed => AdmitKeeps(s, id);
      case AwaitSetCurrent => EnqueueKeeps(s, id, AwaitPersistField);
      case AwaitPersistField => IssueKeeps(s, id, AwaitKeepAlive);
      case AwaitKeepAlive => IssueKeeps(s, id, AwaitRemovePosition);
      case AwaitRemovePosition => StartBroadcastKeeps(s, id);
      case AwaitPublish => EnqueueKeeps(s, id, AwaitCount);
      case AwaitCount =>
        if s.setup.ttl.Some? {
          EnqueueKeeps(s, id, AwaitExpire);
        } else {
          CheckAndWriteKeeps(s, id);
        }
      case AwaitExpire => CheckAndWriteKeeps(s, id);
      case AwaitSetUser => IssueKeeps(s, id, AwaitPersistUser);
      case AwaitPersistUser => IssueKeeps(s, id, AwaitAddPoint);
      case AwaitAddPoint => FinishKeeps(s, id);
    }
  }

  // ---- Effects ----

  /** A reply is the token's list, so it admits nobody who could not have been. */
  lemma RepliedIsNoBolder(claims: map<Key, Claim>, cache: map<Key, Name>, h: Handler, reply: Option<seq<Name>>)
    requires Synced(claims, cache, h) && OnConnectionStore(h.at) && !h.ready
    requires reply != h.reply ==> h.at.AwaitAllowed?
    requires h.at.AwaitAllowed? ==> IsList(claims, h.key, reply)
    ensures StepsTo(claims, cache, h, h.(ready := true, reply := reply))
  {
    var h' := h.(ready := true, reply := reply);
    assert Label(h') == Label(h) && Switches(h') == Switches(h);
    hide Label, Switches, Player, Anchored;
  }

  lemma RepliedIsListed(s: State)
    requires ClaimsInv(s) && s.queue != [] && s.queue[0].h in s.handlers
             && s.queue[0].key == s.handlers[s.queue[0].h].key
    ensures IsList(s.setup.claims, Replied(s).key, Replied(s).reply)
  {
    var c := s.queue[0];
    assert IsList(s.setup.claims, c.key, AllowedIn(s.conns, c.key));
    assert IsList(s.setup.claims, s.handlers[c.h].key, s.handlers[c.h].reply);
    hide AllowedIn, IsList;
  }

  lemma DeliverKeeps(s: State)
    requires GhostInv(s) && Inv(s) && PendingInv(s) && ClaimsInv(s) && s.queue != []
    ensures GhostInv(Deliver(s))
  {
    var id := s.queue[0].h;
    HeadIsQueued(s);
    DeliverShape(s);
    RepliedIsListed(s);
    var h, h' := s.handlers[id], Replied(s);
    assert HandlersSynced(s);
    assert Synced(s.setup.claims, s.cache, h);
    assert h' == h.(ready := true, reply := h'.reply);
    assert IssuedOk(s.issued, s.handlers);
    hide Inv, GhostInv, PendingInv, ClaimsInv, Deliver, AllowedIn, Synced, IssuedOk, IsList, HandlersSynced;
    RepliedIsNoBolder(s.setup.claims, s.cache, h, h'.reply);
    hide StepsTo, Replied;
    SegmentMoves(s, Deliver(s), id, h');
  }

  /** Only the write of the user's attributes and its persist make a user last, and both name the label. */
  lemma LastingAfter(h: Handler, users: Hashes, now: int, name: Name)
    requires Lasting(UsersAfter(h, users, now), name)
    ensures Lasting(users, name) || ((h.at.AwaitSetUser? || h.at.AwaitPersistUser?) && name == Label(h))
    ensures h.at.AwaitKeepAlive? ==> name != Printed(h.player)
  {
  }

  lemma WokenSteps(claims: map<Key, Claim>, cache: map<Key, Name>, h: Handler)
    requires Synced(claims, cache, h) && !OnConnectionStore(h.at)
    ensures NoBolder(claims, cache, h, h.(ready := true)) && Synced(claims, cache, h.(ready := true))
    ensures forall name | Leaving(h, name) && !h.at.AwaitRemovePosition? :: Leaving(h.(ready := true), name)
    ensures forall name | Releasing(h, name) && !h.at.AwaitKeepAlive? :: Releasing(h.(ready := true), name)
  {
    assert Label(h.(ready := true)) == Label(h) && Switches(h.(ready := true)) == Switches(h);
    hide Label, Switches, Player;
  }

  /** Whoever's removal is next on the tracker's client covers no point that is still pending. */
  lemma RemovalCoversNothing(s: State, id: Hid, point: Hid)
    requires IssuedOk(s.issued, s.handlers) && id in s.handlers && s.handlers[id].at.AwaitRemovePosition?
             && InTurn(s, id)
    requires point in s.handlers && AtPoint(s.handlers[point])
    ensures !Covers(s, id, point)
  {
    InTurnIsFirst(s, id, point);
  }

  lemma EffectGains(s: State, id: Hid)
    requires GhostInv(s) && id in s.handlers && !s.handlers[id].ready && !OnConnectionStore(s.handlers[id].at)
    ensures Gains(s, Effect(s, id))
  {
    var h, t := s.handlers[id], Effect(s, id);
    assert Synced(s.setup.claims, s.cache, h);
    assert t.setup == s.setup && t.cache == s.cache && t.users == UsersAfter(h, s.users, s.now)
           && t.live == LiveAfter(h, s.live);
    forall name | Lasting(t.users, name)
      ensures Lasting(s.users, name) || Owned(t.cache, name)
    {
      LastingAfter(h, s.users, s.now, name);
    }
    hide UsersAfter, Lasting, Switches, Label;
    if h.at.AwaitAddPoint? && !Owned(s.cache, Label(h)) {
      var w :| w in s.handlers && Covers(s, w, id);
      assert w != id && Leaving(t.handlers[w], Label(h));
    }
  }

  lemma EffectLetsGo(s: State, id: Hid)
    requires GhostInv(s) && IssuedOk(s.issued, s.handlers)
    requires id in s.handlers && !s.handlers[id].ready && !OnConnectionStore(s.handlers[id].at) && InTurn(s, id)
    ensures LetsGo(s, Effect(s, id), id)
  {
    var h, t := s.handlers[id], Effect(s, id);
    assert Synced(s.setup.claims, s.cache, h);
    WokenSteps(s.setup.claims, s.cache, h);
    forall name | Lasting(t.users, name)
      ensures h.at.AwaitKeepAlive? ==> h.player != Some(name)
    {
      LastingAfter(h, s.users, s.now, name);
    }
    assert t.handlers == s.handlers[id := h.(ready := true)];
    hide UsersAfter, Lasting, Synced, Ahead, InTurn, Label, InHarmony, HandlersSynced, NoGhosts, NoGhostUsers,
         PointsCovered, Without;
    forall point | point in s.handlers && point != id && AtPoint(s.handlers[point]) && Covers(s, id, point)
      ensures Covers(t, id, point)
    {
      if h.at.AwaitRemovePosition? {
        RemovalCoversNothing(s, id, point);
      }
    }
  }

  lemma EffectKeeps(s: State, id: Hid)
    requires GhostInv(s) && IssuedOk(s.issued, s.handlers)
    requires id in s.handlers && !s.handlers[id].ready && !OnConnectionStore(s.handlers[id].at) && InTurn(s, id)
    ensures GhostInv(Effect(s, id))
  {
    var h, t := s.handlers[id], Effect(s, id);
    assert Synced(s.setup.claims, s.cache, h) && Agrees(s.setup.claims, s.cache, s.handlers, h);
    EffectGains(s, id);
    EffectLetsGo(s, id);
    assert t.handlers == s.handlers[id := h.(ready := true)] && t.setup == s.setup && t.cache == s.cache
           && t.issued == Without(s.issued, id);
    hide GhostInv, Effect, InTurn, Gains, LetsGo, IssuedOk;
    WokenSteps(s.setup.claims, s.cache, h);
    StillAgrees(s.setup.claims, s.cache, s.handlers, id, h.(ready := true));
    UpdateIsOthers(s, t, id, h.(ready := true));
    OrderKept(s, t, id);
    hide Synced, Agrees, Others, KeepsOrder, Label, Owned;
    HandlerMoves(s, t, id);
  }

  // ---- The ground station and the clock ----

  lemma SameLasts(users: Hashes)
    ensures LastsNoMore(users, users)
  {
  }

  lemma PurgeLasts(users: Hashes, now: int)
    ensures LastsNoMore(users, Purge(users, now))
  {
  }

  lemma ExpireSomeLasts(users: Hashes, name: Option<Name>, now: int)
    ensures LastsNoMore(users, ExpireSome(users, name, now))
  {
  }

  lemma OthersLeave(s: State, a: Action)
    requires Enabled(s, a) && Outside(a)
    ensures var t := Next(s, a); SameRelay(s, t) && t.live <= s.live && LastsNoMore(s.users, t.users)
  {
    hide LastsNoMore, SameRelay, ExpireSome, LetsExpire, Purge, Receive, Resume, Deliver, Effect,
         UpgradeWrite, UpgradeNext, CloseRead, ShutdownRead, CloseNext, Elapse;
    SameLasts(s.users);
    match a {
      case DoElapse(ms) =>
        ElapseShape(s, ms);
        PurgeLasts(s.users, s.now + ms);
      case DoCloseNext(c) =>
        CloseNextShape(s, c);
        ExpireSomeLasts(s.users, LetsExpire(s.closes[c]), s.now);
      case DoClose(c, key) => CloseShape(s, c, key, false);
      case DoShutdown(c, key, keepFirst) => CloseShape(s, c, key, keepFirst);
      case _ => UpgradeShape(s, a);
    }
  }

  /** Only deadlines are set and live names taken away. */
  lemma ActorMoves(s: State, t: State)
    requires GhostInv(s) && SameRelay(s, t) && t.live <= s.live && LastsNoMore(s.users, t.users)
    ensures GhostInv(t)
  {
    hide Synced, Agrees, BeingLeft, BeingReleased, Lasting, Owned, Label, Leaving, Ahead;
    forall point | point in t.handlers && AtPoint(t.handlers[point]) && Covered(s, point)
      ensures Covered(t, point)
    {
      var w :| w in s.handlers && Covers(s, w, point);
      assert Covers(t, w, point);
    }
  }

  // ---- Runs ----

  lemma Step(s: State, a: Action)
    requires GhostInv(s) && Inv(s) && PendingInv(s) && ClaimsInv(s) && Enabled(s, a) && Fits(s, a)
    ensures GhostInv(Next(s, a))
  {
    hide GhostInv, Inv, ClaimsInv, IssuedOk, QueueFull, Fresh, Receive, Resume, Deliver, Effect, InTurn, Fits,
         LastsNoMore, SameRelay;
    match a {
      case DoReceive(h, key, msg) => ReceiveKeeps(s, h, key, msg);
      case DoResume(h) => ResumeKeeps(s, h);
      case DoDeliver => DeliverKeeps(s);
      case DoEffect(h) => EffectKeeps(s, h);
      case _ =>
        OthersLeave(s, a);
        hide Next;
        ActorMoves(s, Next(s, a));
    }
  }

  lemma {:induction false} RunKeepsGhostInv(setup: Setup, run: seq<Action>)
    requires IsRun(setup, run) && AllFit(setup, run)
    ensures GhostInv(StateAfter(setup, run))
  {
    if run != [] {
      var before := run[..|run| - 1];
      RunKeepsGhostInv(setup, before);
      RunKeepsInv(setup, before);
      RunKeepsPending(setup, before);
      RunKeepsClaims(setup, before);
      hide GhostInv, Inv, PendingInv, ClaimsInv, Next, Enabled, Fits;
      Step(StateAfter(setup, before), run[|run| - 1]);
    }
  }

  // ---- Results ----

  /**
   Every live position is that of some connection's current character, or of the previous name of
   a handler that has switched and whose removal has not taken effect.
   */
  lemma LiveNamesHaveHolders(setup: Setup, run: seq<Action>, name: Name)
    requires IsRun(setup, run) && AllFit(setup, run)
    requires name in StateAfter(setup, run).live
    ensures var s := StateAfter(setup, run); Owned(s.cache, name) || BeingLeft(s.handlers, name)
  {
    RunKeepsGhostInv(setup, run);
  }

  /** Likewise every user record without expiry, up to the effect of the handler's keepAlive. */
  lemma LastingUsersHaveHolders(setup: Setup, run: seq<Action>, name: Name)
    requires IsRun(setup, run) && AllFit(setup, run)
    requires Lasting(StateAfter(setup, run).users, name)
    ensures var s := StateAfter(setup, run); Owned(s.cache, name) || BeingReleased(s.handlers, name)
  {
    RunKeepsGhostInv(setup, run);
  }

  lemma QueuedCommandsHaveHandlers(queue: seq<Command>, handlers: map<Hid, Handler>)
    requires QueueOk(queue, handlers)
    ensures queue == [] || handlers != map[]
  {
    if queue != [] {
      assert Queued(queue[0], handlers);
    }
  }

  /**
   Once no handler is left, whoever is live or lasts is the current character of a connection, and
   its record says so unless it was lost.
   */
  lemma QuietRelayHasNoGhosts(setup: Setup, run: seq<Action>, name: Name) returns (key: Key)
    requires Configured(setup.ttl) && IsRun(setup, run) && AllFit(setup, run)
    requires var s := StateAfter(setup, run); s.handlers == map[] && (name in s.live || Lasting(s.users, name))
    ensures var s := StateAfter(setup, run);
            && key in s.cache && s.cache[key] == name
            && (key !in s.lost ==> HGet(s.conns, key, CurrentCharacter) == Some(Text(name)))
  {
    RunKeepsGhostInv(setup, run);
    var s := StateAfter(setup, run);
    assert NoGhosts(s) && NoGhostUsers(s);
    key :| key in s.cache && s.cache[key] == name;
    RunKeepsInv(setup, run);
    QueuedCommandsHaveHandlers(s.queue, s.handlers);
    DrainedStoreAgrees(setup, run, key);
  }

  /** Messages of one connection that never overlap always fit. */
  lemma AloneFits(s: State, a: Action)
    requires a.DoReceive? ==> forall id | id in s.handlers :: s.handlers[id].key != a.key
    ensures Fits(s, a)
  {
  }

  /** So do messages that do not switch, as long as no switch of their connection awaits permission. */
  lemma OrdinaryFits(s: State, a: Action)
    requires a.DoReceive? && !Switches(Arriving(s.cache, a.key, a.msg))
    requires forall id | id in s.handlers && s.handlers[id].key == a.key :: !s.handlers[id].at.AwaitAllowed?
    ensures Fits(s, a)
  {
    hide Label, Player, Anchored;
  }

  /** And those that name a character which the token of their connection does not list. */
  lemma UnlistedFits(s: State, a: Action)
    requires a.DoReceive? && Named(a.msg) && Player(s.cache, a.key) != a.msg.characterName
    requires !Lists(s.setup.claims, a.key, a.msg.characterName.value)
    ensures Fits(s, a)
  {
    var h := Started(s.cache, a.key, a.msg);
    assert h.at.AwaitAllowed? && !h.ready && h.key == a.key && Label(h) == a.msg.characterName.value;
    hide Label, Started, Lists, Anchored;
  }
}
