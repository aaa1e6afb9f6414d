/**
 Which overlaps leave ghosts, exactly. An arriving message that fits keeps the relay free of ghosts,
 and after one that does not fit there is a way on, with fitting messages only, to a relay where
 nothing is under way but questions for permission, with a live position that is nobody's current
 character. Upgrades bring each connection what its one token says.
 */
module RelayOverlap {
  import opened Wrappers
  import opened HashStore
  import opened Positions
  import opened Relay
  import opened RelayAuthority
  import opened RelayClaims
  import opened RelayGhosts
  import opened RelayPaths
  import opened RelayUndisturbed
  import opened RelayDrain
  import Names = AllowedNames

  /** No message is past the question for permission, and some live position is nobody's current character. */
  ghost predicate Haunted(s: State) {
    && (forall id | id in s.handlers :: s.handlers[id].at.AwaitAllowed?)
    && exists name :: name in s.live && !Owned(s.cache, name)
  }

  // ---- Other connections give a name up ----

  lemma FreshId(ids: set<nat>) returns (id: nat)
    ensures id !in ids
  {
    id := Above(ids);
  }

  lemma {:induction false} Above(ids: set<nat>) returns (n: nat)
    ensures forall id | id in ids :: id < n
    decreases |ids|
  {
    if id :| id in ids {
      var m := Above(ids - {id});
      n := if id < m then m else id + 1;
      assert forall x | x in ids :: x == id || x in ids - {id};
    } else {
      n := 0;
    }
  }

  function Naming(name: Name): Message {
    Message(0, 0, 0, Some(name), None, None, None, None, None, None)
  }

  /** A connection whose list holds the name switches to it, and nothing else is in the way. */
  lemma SwitchAway(s: State, key: Key, name: Name) returns (t: State)
    requires Settled(s) && Configured(s.setup.ttl)
    requires key in s.cache && key != "" && s.cache[key] != "" && name != "" && s.cache[key] != name
    requires AllowedIn(s.conns, key).Some? && name in AllowedIn(s.conns, key).value
    requires forall id | id in s.handlers :: s.handlers[id].key != key
    ensures Reach(FittingMessages, s, t) && Settled(t) && t.setup == s.setup
    ensures t.handlers == s.handlers && t.cache == s.cache[key := name]
  {
    var id := FreshId(s.handlers.Keys);
    assert Named(Naming(name)) && Player(s.cache, key) == Some(s.cache[key]);
    AloneFits(s, DoReceive(id, key, Naming(name)));
    assert Welcome(FittingMessages, s, DoReceive(id, key, Naming(name)));
    assert Naming(name).characterName == Some(name);
    hide Reach, AllowedIn, Named, Player, Fits, Welcome, Naming, Printed;
    t := SwitchCompletes(FittingMessages, s, id, key, Naming(name));
  }

  /** A connection without messages switches to another character of its token. */
  lemma Evict(s: State, key: Key, name: Name) returns (t: State)
    requires Sound(s) && Settled(s) && Configured(s.setup.ttl)
    requires key in s.cache && key != "" && s.cache[key] != "" && s.cache[key] != name
    requires name != "" && Lists(s.setup.claims, key, name)
    requires forall id | id in s.handlers :: s.handlers[id].key != key
    ensures Reach(FittingMessages, s, t) && Sound(t) && Settled(t) && t.setup == s.setup
    ensures t.handlers == s.handlers && t.cache == s.cache[key := name]
  {
    var u := FreshId(s.upgrades.Keys);
    hide Sound, Reach, AllowedIn, Names.Split, HGet;
    var a := UpgradesUndisturbed(FittingMessages, s, u, key);
    t := SwitchAway(a, key, name);
    Then(FittingMessages, s, a, t);
    ReachesSound(FittingMessages, s, t);
  }

  function Owners(cache: map<Key, Name>, name: Name, but: Key): set<Key> {
    set key | key in cache && key != but && cache[key] == name
  }

  /** In the way of an eviction are only handlers of the one connection and of those that have no other name. */
  ghost predicate OutOfTheWay(claims: map<Key, Claim>, handlers: map<Hid, Handler>, name: Name, but: Key) {
    forall id | id in handlers :: handlers[id].key == but || ListsOnly(claims, handlers[id].key, name)
  }

  /** A connection that holds a name which is not anchored has another one to go to. */
  lemma AnotherListed(s: State, key: Key, name: Name) returns (other: Name)
    requires !Anchored(s.setup.claims, s.cache, name) && key in s.cache && s.cache[key] == name
    ensures Lists(s.setup.claims, key, other) && other != name && other != ""
  {
    hide Lists;
    assert !ListsOnly(s.setup.claims, key, name);
    other :| Lists(s.setup.claims, key, other) && other != name && other != "";
  }

  /** All connections but one give a name up that is not anchored. */
  lemma {:induction false} EvictAll(s: State, name: Name, but: Key) returns (t: State)
    requires Sound(s) && Settled(s) && Configured(s.setup.ttl)
    requires OutOfTheWay(s.setup.claims, s.handlers, name, but) && !Anchored(s.setup.claims, s.cache, name)
    ensures Reach(FittingMessages, s, t) && Sound(t) && Settled(t) && t.setup == s.setup
    ensures t.handlers == s.handlers && forall key | key in t.cache && key != but :: t.cache[key] != name
    decreases Owners(s.cache, name, but)
  {
    CachedNamesAreNonEmpty(s);
    hide Sound, Reach, Lists, Anchored;
    if key :| key in s.cache && key != but && s.cache[key] == name {
      var other := AnotherListed(s, key, name);
      var u := Evict(s, key, other);
      assert Owners(u.cache, name, but) == Owners(s.cache, name, but) - {key};
      EvictedIsLoose(s, u, key, other, name);
      t := EvictAll(u, name, but);
      Then(FittingMessages, s, u, t);
    } else {
      Stay(FittingMessages, s);
      t := s;
    }
  }

  lemma EvictedIsLoose(s: State, t: State, key: Key, other: Name, name: Name)
    requires !Anchored(s.setup.claims, s.cache, name) && other != name
    requires t.setup == s.setup && t.cache == s.cache[key := other]
    ensures !Anchored(t.setup.claims, t.cache, name)
  {
    hide ListsOnly;
    forall k | k in t.cache && t.cache[k] == name
      ensures !ListsOnly(s.setup.claims, k, name)
    {
      assert s.cache[k] == name;
    }
  }

  // ---- A conflict leaves a ghost ----

  /** Two handlers that conflict, the first one under a name that may be left with nobody. */
  ghost predicate Conflict(s: State, f: Hid, v: Hid) {
    f in s.handlers && v in s.handlers && Harmful(s.setup.claims, s.cache, s.handlers[f], s.handlers[v])
  }

  /** The one handler will pass its guard and the other will be admitted, if left alone. */
  ghost predicate Loaded(s: State, f: Hid, v: Hid) {
    && f in s.handlers && v in s.handlers && s.handlers[f].key == s.handlers[v].key
    && Label(s.handlers[f]) != Label(s.handlers[v])
    && s.handlers[v].at.AwaitAllowed? && Admitted(s.handlers[v]) && WillPass(s.cache, s.handlers[f])
  }

  /** What a handler asks for and may get, its token lists. */
  lemma AskIsListed(s: State, id: Hid)
    requires ClaimsInv(s) && id in s.handlers && s.handlers[id].at.AwaitAllowed?
             && MayBeAdmitted(s.setup.claims, s.handlers[id])
    ensures Lists(s.setup.claims, s.handlers[id].key, Label(s.handlers[id]))
  {
    assert IsList(s.setup.claims, s.handlers[id].key, s.handlers[id].reply);
    hide Label;
  }

  lemma AskIsNamed(s: State, id: Hid)
    requires Inv(s) && id in s.handlers && s.handlers[id].at.AwaitAllowed?
    ensures Label(s.handlers[id]) != ""
  {
    assert HandlerOk(s.log, s.handlers[id]);
    hide ReceivedUnder, Authorised;
  }

  lemma GrantedNow(s: State, t: State, id: Hid)
    requires id in s.handlers && t.handlers == s.handlers && t.setup == s.setup
    requires s.handlers[id].at.AwaitAllowed? && MayBeAdmitted(s.setup.claims, s.handlers[id])
    requires Lists(s.setup.claims, s.handlers[id].key, Label(s.handlers[id]))
    requires AllowedIn(t.conns, s.handlers[id].key) == Some(Names.Split(s.setup.claims[s.handlers[id].key].characters))
    ensures WillBeAdmitted(t.conns, t.handlers[id])
  {
    hide Label, AllowedIn, Names.Split;
  }

  /** An upgrade brings what the token says, and what is pending takes effect. */
  lemma Load(s: State, f: Hid, v: Hid) returns (t: State)
    requires Sound(s) && Configured(s.setup.ttl) && Conflict(s, f, v)
    ensures Reach(FittingMessages, s, t) && Sound(t) && Settled(t) && Loaded(t, f, v)
    ensures t.setup == s.setup && t.cache == s.cache
    ensures Label(t.handlers[f]) == Label(s.handlers[f]) && t.handlers[f].key == s.handlers[f].key
    ensures Lists(s.setup.claims, s.handlers[f].key, Label(s.handlers[v])) && Label(s.handlers[v]) != ""
  {
    var u := FreshId(s.upgrades.Keys);
    AskIsListed(s, v);
    AskIsNamed(s, v);
    if s.handlers[f].at.AwaitAllowed? {
      AskIsListed(s, f);
    }
    hide Sound, Reach, AllowedIn, Label, HGet, Names.Split, MayBeAdmitted, Anchored;
    var a := UpgradesUndisturbed(FittingMessages, s, u, s.handlers[f].key);
    ReachesSound(FittingMessages, s, a);
    GrantedNow(s, a, v);
    if s.handlers[f].at.AwaitAllowed? {
      GrantedNow(s, a, f);
    }
    hide WillBeAdmitted, Served, Beside;
    t := Settle(FittingMessages, a);
    SetupBeside(a, t);
    Then(FittingMessages, s, a, t);
    LoadedNow(a, t, f, v);
  }

  lemma LoadedNow(s: State, t: State, f: Hid, v: Hid)
    requires Conflict(s, f, v) && Served(s, t) && t.cache == s.cache && Sound(t) && Settled(t)
    requires WillBeAdmitted(s.conns, s.handlers[v])
    requires s.handlers[f].at.AwaitAllowed? ==> WillBeAdmitted(s.conns, s.handlers[f])
    ensures Loaded(t, f, v)
    ensures Label(t.handlers[f]) == Label(s.handlers[f]) && Label(t.handlers[v]) == Label(s.handlers[v])
    ensures t.handlers[f].key == s.handlers[f].key
  {
    SettledIsReady(t);
    SameJobSameLabel(s.handlers[f], t.handlers[f]);
    SameJobSameLabel(s.handlers[v], t.handlers[v]);
    hide Label, AllowedIn, Sound, Anchored;
  }

  /** Those who ask for the name on connections that have no other are better left waiting. */
  function Waiters(s: State, name: Name, but: Key): set<Hid> {
    set id | id in s.handlers && s.handlers[id].key != but && s.handlers[id].at.AwaitAllowed?
             && Label(s.handlers[id]) == name
  }

  ghost function LoneWaiters(s: State, name: Name, but: Key): set<Hid> {
    set id | id in Waiters(s, name, but) && ListsOnly(s.setup.claims, s.handlers[id].key, name)
  }

  /** Only the two are left, and those that wait: the one past its guard, the other about to be admitted. */
  ghost predicate Held(handlers: map<Hid, Handler>, f: Hid, v: Hid, name: Name, key: Key, waiters: set<Hid>) {
    && f != v && f !in waiters && v !in waiters && handlers.Keys == {f, v} + waiters
    && PastGuard(handlers[f].at) && Label(handlers[f]) == name
    && handlers[v].at.AwaitAllowed? && Admitted(handlers[v]) && Label(handlers[v]) != name
    && handlers[f].key == key && handlers[v].key == key
    && forall id | id in waiters :: handlers[id].at.AwaitAllowed?
  }

  lemma HeldIsOutOfTheWay(claims: map<Key, Claim>, handlers: map<Hid, Handler>, f: Hid, v: Hid, name: Name, key: Key,
                          waiters: set<Hid>)
    requires Held(handlers, f, v, name, key, waiters)
    requires forall id | id in waiters && id in handlers :: ListsOnly(claims, handlers[id].key, name)
    ensures OutOfTheWay(claims, handlers, name, key)
  {
    hide ListsOnly, Label, Admitted;
  }

  /** A name under which a handler passes its guard stays loose, if its connection has another. */
  lemma PassedStaysLoose(s: State, t: State, id: Hid, other: Name)
    requires id in s.handlers && Passed(s, t, id)
    requires !Anchored(s.setup.claims, s.cache, Label(s.handlers[id]))
    requires Lists(s.setup.claims, s.handlers[id].key, other) && other != Label(s.handlers[id]) && other != ""
    ensures !Anchored(t.setup.claims, t.cache, Label(s.handlers[id]))
  {
    var h, name := s.handlers[id], Label(s.handlers[id]);
    SetupBeside(s, t);
    assert !ListsOnly(s.setup.claims, h.key, name);
    hide Beside, Label, ListsOnly, Lists;
    forall key | key in t.cache && t.cache[key] == name
      ensures !ListsOnly(s.setup.claims, key, name)
    {
      assert key != h.key ==> s.cache[key] == name;
    }
  }

  /** The one handler passes its guard and is held back, and all others end, but for those that wait. */
  lemma HoldTwo(m: Newcomers, s: State, f: Hid, v: Hid, waiters: set<Hid>) returns (t: State)
    requires Sound(s) && Settled(s) && Configured(s.setup.ttl) && Loaded(s, f, v)
    requires forall id | id in waiters :: id in s.handlers && s.handlers[id].key != s.handlers[f].key
                                          && s.handlers[id].at.AwaitAllowed?
    ensures Reach(m, s, t) && Sound(t) && Settled(t) && t.setup == s.setup
    ensures Held(t.handlers, f, v, Label(s.handlers[f]), s.handlers[f].key, waiters)
    ensures forall id | id in waiters :: t.handlers[id] == s.handlers[id]
    ensures forall name | Shunned(s, name, s.handlers[f].key) :: Shunned(t, name, s.handlers[f].key)
    ensures CanBeLoose(s, f, waiters) ==> !Anchored(t.setup.claims, t.cache, Label(s.handlers[f]))
  {
    hide Sound, Reach, Label, Beside, WillPass, Admitted, Shunned, Loose, CanBeLoose;
    var a := Pass(m, s, f);
    SetupBeside(s, a);
    SameJobSameLabel(s.handlers[f], a.handlers[f]);
    t := DrainBut(m, a, {f, v} + waiters);
    SetupBeside(a, t);
    Then(m, s, a, t);
    forall name | Shunned(s, name, s.handlers[f].key)
      ensures Shunned(a, name, s.handlers[f].key)
    {
      PassedShuns(s, a, f, name, s.handlers[f].key);
    }
    if CanBeLoose(s, f, waiters) {
      LooseAfterPassing(s, a, f, v, waiters);
      LooseIsNotAnchored(t, Label(s.handlers[f]), {f, v} + waiters);
    }
  }

  /** The first handler's name is not anchored, its connection has another, and who could anchor it waits. */
  ghost predicate CanBeLoose(s: State, f: Hid, waiters: set<Hid>)
    requires f in s.handlers
  {
    var name := Label(s.handlers[f]);
    && !Anchored(s.setup.claims, s.cache, name)
    && waiters == LoneWaiters(s, name, s.handlers[f].key)
    && exists other :: Lists(s.setup.claims, s.handlers[f].key, other) && other != name && other != ""
  }

  lemma LooseIsNotAnchored(s: State, name: Name, held: set<Hid>)
    requires Loose(s, name, held)
    ensures !Anchored(s.setup.claims, s.cache, name)
  {
  }

  lemma LooseAfterPassing(s: State, a: State, f: Hid, v: Hid, waiters: set<Hid>)
    requires f in s.handlers && Passed(s, a, f) && CanBeLoose(s, f, waiters)
    ensures Loose(a, Label(s.handlers[f]), {f, v} + waiters)
  {
    var name, key := Label(s.handlers[f]), s.handlers[f].key;
    SetupBeside(s, a);
    var other :| Lists(s.setup.claims, key, other) && other != name && other != "";
    PassedStaysLoose(s, a, f, other);
    assert !ListsOnly(s.setup.claims, key, name);
    hide Beside, Label, ListsOnly, Lists, Anchored;
    forall id | id in a.handlers && id !in {f, v} + waiters && a.handlers[id].at.AwaitAllowed?
                && Label(a.handlers[id]) == name
      ensures !ListsOnly(a.setup.claims, a.handlers[id].key, name)
    {
      assert a.handlers[id] == s.handlers[id];
      assert id !in LoneWaiters(s, name, key);
    }
  }

  /** The second handler switches the connection away, and then the first one adds its point. */
  lemma Finale(m: Newcomers, s: State, f: Hid, v: Hid, name: Name, key: Key, waiters: set<Hid>) returns (t: State)
    requires Sound(s) && Settled(s) && Configured(s.setup.ttl) && Held(s.handlers, f, v, name, key, waiters)
    requires forall k | k in s.cache && k != key :: s.cache[k] != name
    ensures Reach(m, s, t) && Haunted(t) && t.handlers.Keys == waiters
  {
    hide Sound, Reach, Label, Beside;
    var a := Drive(m, s, v);
    SetupBeside(s, a);
    t := Drive(m, a, f);
    Then(m, s, a, t);
    assert name in t.live && forall k | k in t.cache :: t.cache[k] != name;
    assert !Owned(t.cache, name);
    assert t.handlers.Keys == waiters;
  }

  lemma Haunt(s: State, f: Hid, v: Hid) returns (t: State)
    requires Sound(s) && Settled(s) && Configured(s.setup.ttl) && Loaded(s, f, v)
    requires CanBeLoose(s, f, LoneWaiters(s, Label(s.handlers[f]), s.handlers[f].key))
    ensures Reach(FittingMessages, s, t) && Haunted(t)
    ensures t.handlers.Keys == LoneWaiters(s, Label(s.handlers[f]), s.handlers[f].key)
  {
    var name, key := Label(s.handlers[f]), s.handlers[f].key;
    var waiters := LoneWaiters(s, name, key);
    assert forall id | id in waiters :: ListsOnly(s.setup.claims, s.handlers[id].key, name);
    hide Sound, Reach, Label, Haunted, Loaded, Held, ListsOnly, CanBeLoose;
    assert f in s.handlers;
    var a := HoldTwo(FittingMessages, s, f, v, waiters);
    HeldIsOutOfTheWay(s.setup.claims, a.handlers, f, v, name, key, waiters);
    var b := EvictAll(a, name, key);
    t := Finale(FittingMessages, b, f, v, name, key, waiters);
    Then(FittingMessages, s, a, b);
    Then(FittingMessages, s, b, t);
  }

  /** From any conflict, a haunted relay can be reached. */
  lemma ConflictHaunts(s: State, f: Hid, v: Hid) returns (t: State)
    requires Sound(s) && Configured(s.setup.ttl) && Conflict(s, f, v)
    ensures Reach(FittingMessages, s, t) && Haunted(t)
  {
    var other, key := Label(s.handlers[v]), s.handlers[f].key;
    assert !Anchored(s.setup.claims, s.cache, Label(s.handlers[f])) && other != Label(s.handlers[f]);
    hide Sound, Reach, Conflict, Loaded, Label, Anchored, Lists, LoneWaiters, Haunted;
    var a := Load(s, f, v);
    LoadedIsThere(a, f, v);
    LoadedCanBeLoose(a, f, other);
    hide CanBeLoose;
    t := Haunt(a, f, v);
    Then(FittingMessages, s, a, t);
  }

  lemma LoadedCanBeLoose(s: State, f: Hid, other: Name)
    requires f in s.handlers && !Anchored(s.setup.claims, s.cache, Label(s.handlers[f]))
    requires Lists(s.setup.claims, s.handlers[f].key, other) && other != Label(s.handlers[f]) && other != ""
    ensures CanBeLoose(s, f, LoneWaiters(s, Label(s.handlers[f]), s.handlers[f].key))
  {
    hide Label, Anchored, Lists, LoneWaiters;
  }

  lemma LoadedIsThere(s: State, f: Hid, v: Hid)
    requires Loaded(s, f, v)
    ensures f in s.handlers && v in s.handlers
  {
  }

  /**
   As the lists stand: if they admit those who ask, and no other connection has or asks for the name,
   the relay comes to rest haunted all by itself.
   */
  lemma ConflictHauntsAlone(s: State, f: Hid, v: Hid) returns (t: State)
    requires Sound(s) && Configured(s.setup.ttl) && Conflict(s, f, v)
    requires WillBeAdmitted(s.conns, s.handlers[v])
    requires s.handlers[f].at.AwaitAllowed? ==> WillBeAdmitted(s.conns, s.handlers[f])
    requires Shunned(s, Label(s.handlers[f]), s.handlers[f].key)
    ensures Reach(RelayAlone, s, t) && Haunted(t) && t.handlers == map[]
  {
    var name, key := Label(s.handlers[f]), s.handlers[f].key;
    assert f in s.handlers && v in s.handlers;
    hide Sound, Reach, Label, Haunted, Shunned, WillBeAdmitted, Served, Conflict, Loaded, Beside;
    var a := Settle(RelayAlone, s);
    SetupBeside(s, a);
    LoadedNow(s, a, f, v);
    ServedShuns(s, a, name, key);
    LoadedIsThere(a, f, v);
    t := HauntAlone(a, f, v);
    Then(RelayAlone, s, a, t);
  }

  lemma HauntAlone(s: State, f: Hid, v: Hid) returns (t: State)
    requires Sound(s) && Settled(s) && Configured(s.setup.ttl) && Loaded(s, f, v)
    requires Shunned(s, Label(s.handlers[f]), s.handlers[f].key)
    ensures Reach(RelayAlone, s, t) && Haunted(t) && t.handlers == map[]
  {
    var name, key := Label(s.handlers[f]), s.handlers[f].key;
    hide Sound, Reach, Label, Haunted, Shunned, Loaded, Held, CanBeLoose, Anchored;
    var a := HoldTwo(RelayAlone, s, f, v, {});
    ShunnedElsewhere(a, name, key);
    t := Finale(RelayAlone, a, f, v, name, key, {});
    Then(RelayAlone, s, a, t);
  }

  lemma ShunnedElsewhere(s: State, name: Name, key: Key)
    requires Shunned(s, name, key)
    ensures forall k | k in s.cache && k != key :: s.cache[k] != name
  {
  }

  // ---- Exactly ----

  /** A message that could write is handled, and nothing else changes. */
  lemma ArrivalStarts(s: State, id: Hid, key: Key, msg: Message)
    requires Sound(s) && id !in s.handlers && key != ""
    requires CanWrite(s.setup.claims, s.cache, Started(s.cache, key, msg))
    ensures var t := Receive(s, id, key, msg);
            t.cache == s.cache && t.setup == s.setup && t.handlers == s.handlers[id := Started(s.cache, key, msg)]
  {
    CachedNamesAreNonEmpty(s);
    var t, h := s.(log := s.log + [Received(key, msg)]), Arriving(s.cache, key, msg);
    hide Sound, Label, CommandOf;
    EnqueueShape(t, id, h, AwaitAllowed);
    StartBroadcastShape(t, id, h);
    hide Enqueue, StartBroadcast, MayBeAdmitted;
  }

  /** A handler in flight that an arriving one harms, or is harmed by. */
  lemma MisfitPartner(s: State, id: Hid, key: Key, msg: Message, h: Handler) returns (g: Hid)
    requires !Fits(s, DoReceive(id, key, msg)) && h == Started(s.cache, key, msg)
    ensures key != "" && g in s.handlers && CanWrite(s.setup.claims, s.cache, h)
    ensures Harmful(s.setup.claims, s.cache, h, s.handlers[g]) || Harmful(s.setup.claims, s.cache, s.handlers[g], h)
  {
    hide Started, Label, CanWrite, Anchored;
    g :| g in s.handlers && s.handlers[g].key == h.key
         && (Harmful(s.setup.claims, s.cache, h, s.handlers[g])
             || Harmful(s.setup.claims, s.cache, s.handlers[g], h));
  }

  lemma HarmIsConflict(s: State, t: State, id: Hid, g: Hid, h: Handler) returns (f: Hid, v: Hid)
    requires id !in s.handlers && g in s.handlers && t.handlers == s.handlers[id := h]
    requires t.setup == s.setup && t.cache == s.cache
    requires Harmful(s.setup.claims, s.cache, h, s.handlers[g]) || Harmful(s.setup.claims, s.cache, s.handlers[g], h)
    ensures Conflict(t, f, v) && t.handlers[f].key == h.key
  {
    hide Label, CanWrite, Anchored;
    if Harmful(s.setup.claims, s.cache, h, s.handlers[g]) {
      f, v := id, g;
    } else {
      f, v := g, id;
    }
  }

  /** Whoever does not fit conflicts with a handler in flight. */
  lemma MisfitConflicts(s: State, id: Hid, key: Key, msg: Message) returns (f: Hid, v: Hid)
    requires Sound(s) && id !in s.handlers && !Fits(s, DoReceive(id, key, msg))
    ensures var t := Receive(s, id, key, msg); Conflict(t, f, v) && t.handlers[f].key == key && t.setup == s.setup
  {
    hide Sound, Receive, Started, Fits, CanWrite, Harmful, Conflict;
    var h := Started(s.cache, key, msg);
    StartedShape(s.cache, key, msg);
    var g := MisfitPartner(s, id, key, msg, h);
    ArrivalStarts(s, id, key, msg);
    f, v := HarmIsConflict(s, Receive(s, id, key, msg), id, g, h);
  }

  lemma StartedShape(cache: map<Key, Name>, key: Key, msg: Message)
    ensures Started(cache, key, msg).key == key
  {
  }

  /**
   After any run whose messages fit, an arriving message leaves the relay free of ghosts, whatever
   fitting messages follow, if and only if it fits. If it does not, the relay can end up haunted.
   */
  lemma ArrivalExactly(setup: Setup, run: seq<Action>, id: Hid, key: Key, msg: Message)
    requires Configured(setup.ttl) && IsRun(setup, run) && AllFit(setup, run)
    requires id !in StateAfter(setup, run).handlers
    ensures var (s, a) := (StateAfter(setup, run), DoReceive(id, key, msg));
            && (Fits(s, a) <==> forall t | Reach(FittingMessages, Next(s, a), t) :: NoGhosts(t) && NoGhostUsers(t))
            && (Fits(s, a) <==> !exists t :: Reach(FittingMessages, Next(s, a), t) && Haunted(t))
  {
    var s, a := StateAfter(setup, run), DoReceive(id, key, msg);
    SoundRun(setup, run);
    RunKeepsGhostInv(setup, run);
    RunKeepsSetup(setup, run);
    if Fits(s, a) {
      SoundStep(s, a);
      RelayGhosts.Step(s, a);
      forall t | Reach(FittingMessages, Next(s, a), t)
        ensures NoGhosts(t) && NoGhostUsers(t) && !Haunted(t)
      {
        ReachesNoGhosts(Next(s, a), t);
      }
    } else {
      var f, v := MisfitConflicts(s, id, key, msg);
      SoundStep(s, a);
      var t := ConflictHaunts(Next(s, a), f, v);
      HauntedHasGhosts(t);
    }
  }

  lemma ReachesNoGhosts(s: State, t: State)
    requires Sound(s) && GhostInv(s) && Reach(FittingMessages, s, t)
    ensures NoGhosts(t) && NoGhostUsers(t) && !Haunted(t)
  {
    var steps :| Leads(FittingMessages, s, steps, t);
    hide Leads, Sound;
    FittingPathHasNoGhosts(s, steps, t);
    if Haunted(t) {
      HauntedHasGhosts(t);
    }
  }

  lemma HauntedHasGhosts(s: State)
    requires Haunted(s)
    ensures !NoGhosts(s)
  {
    var name :| name in s.live && !Owned(s.cache, name);
    assert !BeingLeft(s.handlers, name);
  }

  // ---- Without help ----

  /** Those who ask for permission and may get it will get it as the lists stand. */
  ghost predicate AsksAreGranted(s: State, key: Key) {
    forall id | id in s.handlers && s.handlers[id].key == key && s.handlers[id].at.AwaitAllowed?
                && MayBeAdmitted(s.setup.claims, s.handlers[id]) ::
      WillBeAdmitted(s.conns, s.handlers[id])
  }

  /** The names that handlers of the connection can still write are no other connection's. */
  ghost predicate NamesAreItsOwn(s: State, key: Key) {
    forall id | id in s.handlers && s.handlers[id].key == key && CanWrite(s.setup.claims, s.cache, s.handlers[id]) ::
      Shunned(s, Label(s.handlers[id]), key)
  }

  /**
   A message that does not fit needs no help: where the lists grant what is asked and no other
   connection has or asks for the names, the relay's own steps are enough.
   */
  lemma MisfitHauntsAlone(setup: Setup, run: seq<Action>, id: Hid, key: Key, msg: Message) returns (t: State)
    requires Configured(setup.ttl) && IsRun(setup, run) && id !in StateAfter(setup, run).handlers
    requires !Fits(StateAfter(setup, run), DoReceive(id, key, msg))
    requires var u := Receive(StateAfter(setup, run), id, key, msg); AsksAreGranted(u, key) && NamesAreItsOwn(u, key)
    ensures Reach(RelayAlone, Receive(StateAfter(setup, run), id, key, msg), t) && Haunted(t) && t.handlers == map[]
  {
    var s, a := StateAfter(setup, run), DoReceive(id, key, msg);
    SoundRun(setup, run);
    RunKeepsSetup(setup, run);
    SoundStep(s, a);
    var f, v := MisfitConflicts(s, id, key, msg);
    var u := Receive(s, id, key, msg);
    hide Sound, Receive, Reach, Haunted, WillBeAdmitted, Shunned, Label, MayBeAdmitted, Anchored;
    t := ConflictHauntsAlone(u, f, v);
  }

  /** So under these two conditions, an arrival fits if and only if the relay alone cannot come to rest haunted. */
  lemma ArrivalExactlyAlone(setup: Setup, run: seq<Action>, id: Hid, key: Key, msg: Message)
    requires Configured(setup.ttl) && IsRun(setup, run) && AllFit(setup, run)
    requires id !in StateAfter(setup, run).handlers
    requires var u := Receive(StateAfter(setup, run), id, key, msg); AsksAreGranted(u, key) && NamesAreItsOwn(u, key)
    ensures var (s, a) := (StateAfter(setup, run), DoReceive(id, key, msg));
            Fits(s, a) <==> !exists t :: Reach(RelayAlone, Next(s, a), t) && Haunted(t) && t.handlers == map[]
  {
    var s, a := StateAfter(setup, run), DoReceive(id, key, msg);
    ArrivalExactly(setup, run, id, key, msg);
    hide Reach, Haunted, Receive, Fits, AsksAreGranted, NamesAreItsOwn;
    if Fits(s, a) {
      forall t | Reach(RelayAlone, Next(s, a), t)
        ensures !Haunted(t)
      {
        Anyway(FittingMessages, Next(s, a), t);
      }
    } else {
      var t := MisfitHauntsAlone(setup, run, id, key, msg);
    }
  }
}
