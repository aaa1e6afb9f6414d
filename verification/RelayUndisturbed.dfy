/**
 What single messages, upgrades and closes achieve when nothing disturbs them: the effect of a whole
 handler, from any reachable state. These are the other side of the invariants, which a relay that
 did nothing would keep as well.
 */
module RelayUndisturbed {
  import opened Wrappers
  import opened HashStore
  import opened Positions
  import opened Relay
  import opened RelayAuthority
  import opened RelayPending
  import opened RelayGhosts
  import opened RelayPaths
  import Names = AllowedNames

  // ---- One message, undisturbed ----

  /** The handler waits at the given place, and nothing but its command is pending. */
  predicate Paused(s: State, id: Hid, at: Await) {
    && id in s.handlers && s.handlers[id].at == at && !s.handlers[id].ready
    && s.queue == (if OnConnectionStore(at) then [CommandOf(id, s.handlers[id])] else [])
    && s.issued == if OnConnectionStore(at) then [] else [id]
  }

  /** The rest of the state, which a handler's segments leave alone. */
  predicate Aside(s: State, t: State, id: Hid) {
    && t.upgrades == s.upgrades && t.closes == s.closes && t.now == s.now && t.setup == s.setup && t.lost == s.lost
    && t.handlers - {id} == s.handlers - {id}
  }

  /** The pending command takes effect and the handler goes on. */
  function Turn(s: State, id: Hid, at: Await): State
    requires Paused(s, id, at)
  {
    var t := if OnConnectionStore(at) then Deliver(s) else Effect(s, id);
    if id in t.handlers then Resume(t, id) else t
  }

  lemma TakeTurn(m: Newcomers, s: State, id: Hid, at: Await)
    requires Paused(s, id, at)
    ensures Reach(m, s, Turn(s, id, at)) && Without([id], id) == []
  {
    AloneIsTaken(id);
    hide Reach, Welcome, UsersAfter, LiveAfter, Without, Executed, Resume;
    var a := if OnConnectionStore(at) then DoDeliver else DoEffect(id);
    if !OnConnectionStore(at) {
      assert First(s, 0) && InTurn(s, id);
    }
    Act(m, s, a);
    Act(m, Next(s, a), DoResume(id));
    Then(m, s, Next(s, a), Next(Next(s, a), DoResume(id)));
  }

  /** The new name is recorded. */
  lemma RecordTurns(m: Newcomers, s: State, id: Hid) returns (t: State)
    requires Paused(s, id, AwaitSetCurrent)
    ensures Reach(m, s, t) && Paused(t, id, AwaitKeepAlive) && Aside(s, t, id)
            && SameJob(s.handlers[id], t.handlers[id])
    ensures t.cache == s.cache && t.live == s.live && t.users == s.users
    ensures var h := s.handlers[id]; t.conns == HSet(s.conns, h.key, map[CurrentCharacter := Text(Label(h))])
  {
    hide Reach, Welcome, PositionOf, UserFields, Label, HSet;
    TakeTurn(m, s, id, AwaitSetCurrent);
    var a := Turn(s, id, AwaitSetCurrent);
    TakeTurn(m, a, id, AwaitPersistField);
    t := Turn(a, id, AwaitPersistField);
    Then(m, s, a, t);
  }

  lemma RemovePositionTurn(s: State, id: Hid)
    requires Paused(s, id, AwaitRemovePosition)
    ensures var (h, t) := (s.handlers[id], Turn(s, id, AwaitRemovePosition));
            t.log == s.log + [Broadcast(h.key, PositionOf(h.msg, Label(h)))]
  {
    var t := Effect(s, id);
    SameJobSameLabel(s.handlers[id], t.handlers[id]);
    hide Label, PositionOf, Effect;
  }

  /** The old name is let go, and the message is broadcast. */
  lemma LeaveTurns(m: Newcomers, s: State, id: Hid) returns (t: State)
    requires Paused(s, id, AwaitKeepAlive)
    ensures Reach(m, s, t) && Paused(t, id, AwaitPublish) && Aside(s, t, id) && SameJob(s.handlers[id], t.handlers[id])
    ensures t.cache == s.cache && t.conns == s.conns
    ensures var old' := Printed(s.handlers[id].player);
            t.live == s.live - {old'} && t.users == Expire(s.users, old', 86400, s.now)
    ensures var h := s.handlers[id]; t.log == s.log + [Broadcast(h.key, PositionOf(h.msg, Label(h)))]
  {
    hide Reach, Welcome, PositionOf, UserFields, Label, Printed, Expire;
    TakeTurn(m, s, id, AwaitKeepAlive);
    var c := Turn(s, id, AwaitKeepAlive);
    SameJobSameLabel(s.handlers[id], c.handlers[id]);
    RemovePositionTurn(c, id);
    TakeTurn(m, c, id, AwaitRemovePosition);
    t := Turn(c, id, AwaitRemovePosition);
    Then(m, s, c, t);
  }

  /** The write of the attributes is issued. */
  predicate Writing(s: State, t: State, id: Hid)
    requires id in s.handlers
  {
    && Paused(t, id, AwaitSetUser) && Aside(s, t, id) && SameJob(s.handlers[id], t.handlers[id])
    && t.cache == s.cache && t.live == s.live && t.users == s.users
    && t.handlers[id].fields == UserFields(s.handlers[id].msg, s.handlers[id].key, s.now)
  }

  lemma GuardPasses(s: State, id: Hid)
    requires id in s.handlers && s.queue == [] && s.issued == [] && IsCached(s.cache, s.handlers[id])
    ensures var t := CheckAndWrite(s, id, s.handlers[id]); Writing(s, t, id) && t.conns == s.conns
  {
    hide UserFields, Label;
  }

  /** The count goes up, and without a time to live the last guard is next. */
  lemma CountTurn(s: State, id: Hid)
    requires Paused(s, id, AwaitCount)
    ensures var (h, u) := (s.handlers[id], Deliver(s));
            && u.handlers == s.handlers[id := h.(ready := true)] && u.queue == [] && u.issued == []
            && Aside(s, u, id) && u.cache == s.cache && u.live == s.live && u.users == s.users
            && u.conns == HIncrBy(s.conns, h.key, PositionCount, 1)
  {
    hide HIncrBy;
    DeliverShape(s);
  }

  lemma ExpireTurn(s: State, id: Hid)
    requires Paused(s, id, AwaitExpire) && s.setup.ttl.Some?
    ensures var (h, u) := (s.handlers[id], Deliver(s));
            && u.handlers == s.handlers[id := h.(ready := true)] && u.queue == [] && u.issued == []
            && Aside(s, u, id) && u.cache == s.cache && u.live == s.live && u.users == s.users
            && u.conns == Expire(s.conns, h.key, s.setup.ttl.value, s.now)
  {
    hide Expire;
    DeliverShape(s);
  }

  function Counted(conns: Hashes, key: Key, ttl: Option<int>, now: int): Hashes {
    var counted := HIncrBy(conns, key, PositionCount, 1);
    if ttl.Some? then Expire(counted, key, ttl.value, now) else counted
  }

  /** Past the count, and past the expiry where one is configured, the guard is next. */
  lemma CountTurns(m: Newcomers, s: State, id: Hid) returns (t: State)
    requires Paused(s, id, AwaitCount) && IsCached(s.cache, s.handlers[id])
    ensures Reach(m, s, t) && Writing(s, t, id)
    ensures t.conns == Counted(s.conns, s.handlers[id].key, s.setup.ttl, s.now)
  {
    hide Reach, Welcome, Label, UserFields, HIncrBy, Expire, Deliver, CheckAndWrite, Writing;
    TakeTurn(m, s, id, AwaitCount);
    CountTurn(s, id);
    var u := Deliver(s);
    SameJobSameLabel(s.handlers[id], u.handlers[id]);
    if s.setup.ttl.Some? {
      var v := Turn(s, id, AwaitCount);
      SameJobSameLabel(s.handlers[id], v.handlers[id]);
      t := ExpireTurns(m, v, id);
      Then(m, s, v, t);
      SameWriting(s, v, t, id);
    } else {
      t := CheckAndWrite(u, id, u.handlers[id]);
      GuardPasses(u, id);
      SameWriting(s, u, t, id);
    }
  }

  lemma ExpireTurns(m: Newcomers, s: State, id: Hid) returns (t: State)
    requires Paused(s, id, AwaitExpire) && IsCached(s.cache, s.handlers[id]) && s.setup.ttl.Some?
    ensures Reach(m, s, t) && Writing(s, t, id)
    ensures t.conns == Expire(s.conns, s.handlers[id].key, s.setup.ttl.value, s.now)
  {
    hide Reach, Welcome, Label, UserFields, Expire, Deliver, CheckAndWrite, Writing;
    TakeTurn(m, s, id, AwaitExpire);
    ExpireTurn(s, id);
    var u := Deliver(s);
    SameJobSameLabel(s.handlers[id], u.handlers[id]);
    t := CheckAndWrite(u, id, u.handlers[id]);
    GuardPasses(u, id);
    SameWriting(s, u, t, id);
  }

  lemma SameWriting(s: State, u: State, t: State, id: Hid)
    requires id in s.handlers && id in u.handlers && Writing(u, t, id)
    requires Aside(s, u, id) && SameJob(s.handlers[id], u.handlers[id])
    requires u.cache == s.cache && u.live == s.live && u.users == s.users
    ensures Writing(s, t, id)
  {
    hide UserFields, Label;
  }

  lemma SetUserTurn(s: State, id: Hid)
    requires Paused(s, id, AwaitSetUser)
    ensures var (h, t) := (s.handlers[id], Turn(s, id, AwaitSetUser));
            && Paused(t, id, AwaitPersistUser) && Aside(s, t, id) && SameJob(s.handlers[id], t.handlers[id])
            && t.cache == s.cache && t.live == s.live && t.conns == s.conns
            && t.users == HSet(s.users, Label(h), h.fields)
  {
    AloneIsTaken(id);
    hide Without, Label, HSet;
  }

  lemma PersistUserTurn(s: State, id: Hid)
    requires Paused(s, id, AwaitPersistUser)
    ensures var (h, t) := (s.handlers[id], Turn(s, id, AwaitPersistUser));
            && Paused(t, id, AwaitAddPoint) && Aside(s, t, id) && SameJob(s.handlers[id], t.handlers[id])
            && t.cache == s.cache && t.live == s.live && t.conns == s.conns && t.users == Persist(s.users, Label(h))
  {
    AloneIsTaken(id);
    hide Without, Label, Persist;
  }

  lemma PersistTurns(m: Newcomers, s: State, id: Hid) returns (t: State)
    requires Paused(s, id, AwaitSetUser)
    ensures Reach(m, s, t) && Paused(t, id, AwaitAddPoint) && Aside(s, t, id) && SameJob(s.handlers[id], t.handlers[id])
    ensures t.cache == s.cache && t.live == s.live && t.conns == s.conns
    ensures var h := s.handlers[id]; t.users == Persist(HSet(s.users, Label(h), h.fields), Label(h))
  {
    hide Reach, Welcome, Turn, Persist, HSet;
    TakeTurn(m, s, id, AwaitSetUser);
    SetUserTurn(s, id);
    var c := Turn(s, id, AwaitSetUser);
    SameJobSameLabel(s.handlers[id], c.handlers[id]);
    hide Label;
    TakeTurn(m, c, id, AwaitPersistUser);
    PersistUserTurn(c, id);
    t := Turn(c, id, AwaitPersistUser);
    Then(m, s, c, t);
  }

  /** What the write of a message leaves of the user hashes. */
  function Written(users: Hashes, name: Name, fields: map<Field, Value>): Hashes {
    Persist(HSet(users, name, fields), name)
  }

  /** From the broadcast to the trail. */
  lemma WriteTurns(m: Newcomers, s: State, id: Hid) returns (t: State)
    requires Paused(s, id, AwaitPublish) && IsCached(s.cache, s.handlers[id])
    ensures Reach(m, s, t) && Paused(t, id, AwaitAddPoint) && Aside(s, t, id) && SameJob(s.handlers[id], t.handlers[id])
    ensures t.cache == s.cache && t.live == s.live
    ensures var h := s.handlers[id];
            && t.conns == Counted(s.conns, h.key, s.setup.ttl, s.now)
            && t.users == Written(s.users, Label(h), UserFields(h.msg, h.key, s.now))
  {
    hide Reach, Welcome, Label, PositionOf, UserFields, Counted, Persist, HSet;
    TakeTurn(m, s, id, AwaitPublish);
    var a := Turn(s, id, AwaitPublish);
    SameJobSameLabel(s.handlers[id], a.handlers[id]);
    var b := CountTurns(m, a, id);
    SameJobSameLabel(s.handlers[id], b.handlers[id]);
    hide CommandOf, Turn;
    t := PersistTurns(m, b, id);
    Then(m, s, a, b);
    Then(m, s, b, t);
  }

  /** The reply with the allowed names lets the switch through. */
  lemma AdmitTurn(s: State, id: Hid)
    requires Paused(s, id, AwaitAllowed) && Named(s.handlers[id].msg)
    requires var h := s.handlers[id];
             AllowedIn(s.conns, h.key).Some? && Label(h) in AllowedIn(s.conns, h.key).value
    ensures var (h, t) := (s.handlers[id], Turn(s, id, AwaitAllowed));
            && Paused(t, id, AwaitSetCurrent) && Aside(s, t, id) && SameJob(s.handlers[id], t.handlers[id])
            && t.cache == s.cache[h.key := Label(h)] && t.live == s.live && t.conns == s.conns && t.users == s.users
  {
    var h, u := s.handlers[id], Deliver(s);
    DeliverShape(s);
    assert u.queue == [] && u.conns == s.conns && u.users == s.users;
    assert u.handlers[id] == h.(ready := true, reply := AllowedIn(s.conns, h.key));
    assert Label(u.handlers[id]) == Label(h);
    assert Turn(s, id, AwaitAllowed) == Admit(u, id, u.handlers[id]);
    hide Deliver, AllowedIn, Replied, Turn, Label;
  }

  /** A message that names another allowed character changes the cache. */
  lemma StartTurns(m: Newcomers, s: State, id: Hid, key: Key, msg: Message) returns (t: State)
    requires id !in s.handlers && s.queue == [] && s.issued == []
    requires Welcome(m, s, DoReceive(id, key, msg))
    requires key != "" && Named(msg) && Player(s.cache, key) != msg.characterName
    requires AllowedIn(s.conns, key).Some? && msg.characterName.value in AllowedIn(s.conns, key).value
    ensures Reach(m, s, t) && Paused(t, id, AwaitSetCurrent) && Aside(s, t, id)
    ensures t.cache == s.cache[key := msg.characterName.value] && t.live == s.live && t.conns == s.conns
            && t.users == s.users
    ensures var h := t.handlers[id]; h.key == key && h.msg == msg && h.player == Player(s.cache, key)
  {
    hide Reach, Welcome, AllowedIn;
    var a := Receive(s, id, key, msg);
    Go(m, s, DoReceive(id, key, msg));
    var h := Arriving(s.cache, key, msg);
    assert a == Enqueue(s.(log := s.log + [Received(key, msg)]), id, h, AwaitAllowed);
    assert Paused(a, id, AwaitAllowed) && Aside(s, a, id);
    assert a.cache == s.cache && a.live == s.live && a.conns == s.conns && a.users == s.users && a.handlers[id] == h;
    TakeTurn(m, a, id, AwaitAllowed);
    t := Turn(a, id, AwaitAllowed);
    Then(m, s, a, t);
    AdmitTurn(a, id);
    assert Label(h) == msg.characterName.value;
    hide Turn, Label, Named, Player, Receive, Enqueue;
    assert t.handlers - {id} == s.handlers - {id};
  }

  /** What a whole switch leaves of the connection records and of the user hashes. */
  function RecordsAfterSwitch(s: State, key: Key, name: Name): Hashes {
    Counted(HSet(s.conns, key, map[CurrentCharacter := Text(name)]), key, s.setup.ttl, s.now)
  }

  function UsersAfterSwitch(s: State, key: Key, name: Name, msg: Message): Hashes {
    Written(Expire(s.users, Printed(Player(s.cache, key)), 86400, s.now), name, UserFields(msg, key, s.now))
  }

  /** Between the two states, the connection has broadcast the message under the name. */
  ghost predicate Sent(s: State, t: State, key: Key, name: Name, msg: Message) {
    exists i | |s.log| <= i < |t.log| :: Announces(t.log[i], key, name, msg)
  }

  predicate Announces(e: Event, key: Key, name: Name, msg: Message) {
    e.Broadcast? && e.key == key && Carries(e.position, msg, name)
  }

  lemma SentBetween(m: Newcomers, s: State, u: State, t: State, key: Key, name: Name, msg: Message)
    requires Reach(m, s, u) && Reach(m, u, t)
    requires |s.log| < |u.log| && u.log[|u.log| - 1] == Broadcast(key, PositionOf(msg, name))
    ensures Sent(s, t, key, name, msg)
  {
    hide Reach, PositionOf, Carries;
    ReachKeepsLog(m, u, t);
    PositionCarries(msg, name);
    assert Announces(t.log[|u.log| - 1], key, name, msg);
  }

  lemma SwitchTurns(m: Newcomers, s: State, id: Hid, key: Key, msg: Message)
    returns (t: State)
    requires id !in s.handlers && s.queue == [] && s.issued == []
    requires Welcome(m, s, DoReceive(id, key, msg))
    requires key != "" && Named(msg) && Player(s.cache, key) != msg.characterName
    requires AllowedIn(s.conns, key).Some? && msg.characterName.value in AllowedIn(s.conns, key).value
    ensures Reach(m, s, t) && Paused(t, id, AwaitAddPoint) && Aside(s, t, id)
    ensures var h := t.handlers[id]; h.key == key && h.msg == msg && h.player == Player(s.cache, key)
    ensures var name := msg.characterName.value;
            && t.cache == s.cache[key := name]
            && t.live == s.live - {Printed(Player(s.cache, key))}
            && t.conns == RecordsAfterSwitch(s, key, name)
            && t.users == UsersAfterSwitch(s, key, name, msg)
            && Sent(s, t, key, name, msg)
  {
    hide AllowedIn, Reach, Paused, Counted, Written, HSet, Expire, UserFields, PositionOf, Sent;
    var a := StartTurns(m, s, id, key, msg);
    var b := RecordTurns(m, a, id);
    var c := LeaveTurns(m, b, id);
    t := WriteTurns(m, c, id);
    Then(m, s, a, b);
    Then(m, s, b, c);
    Then(m, s, c, t);
    ReachKeepsLog(m, s, b);
    SentBetween(m, s, c, t, key, msg.characterName.value, msg);
  }

  /** The record has counted one position more and expires as configured; the list and all other records stay. */
  predicate CountedOnce(s: State, t: State, key: Key) {
    && key in t.conns
    && (CountIn(s.conns, key, PositionCount).Some? ==>
          HGet(t.conns, key, PositionCount) == Some(Num(CountIn(s.conns, key, PositionCount).value + 1)))
    && AllowedIn(t.conns, key) == AllowedIn(s.conns, key)
    && (s.setup.ttl.Some? ==> t.conns[key].deadline == Some(s.now + 1000 * s.setup.ttl.value))
    && t.conns - {key} == s.conns - {key}
  }

  lemma SetFacts(m: Hashes, key: Key, name: Name)
    ensures var m' := HSet(m, key, map[CurrentCharacter := Text(name)]);
            && HGet(m', key, CurrentCharacter) == Some(Text(name))
            && HGet(m', key, PositionCount) == HGet(m, key, PositionCount)
            && HGet(m', key, AllowedCharacters) == HGet(m, key, AllowedCharacters)
            && m' - {key} == m - {key}
  {
  }

  lemma CountFacts(m: Hashes, key: Key)
    ensures var m' := HIncrBy(m, key, PositionCount, 1);
            && key in m' && m' - {key} == m - {key}
            && HGet(m', key, CurrentCharacter) == HGet(m, key, CurrentCharacter)
            && HGet(m', key, AllowedCharacters) == HGet(m, key, AllowedCharacters)
            && (CountIn(m, key, PositionCount).Some? ==>
                  HGet(m', key, PositionCount) == Some(Num(CountIn(m, key, PositionCount).value + 1)))
  {
  }

  lemma ExpireFacts(m: Hashes, key: Key, ttl: int, now: int)
    requires key in m && ttl > 0
    ensures var m' := Expire(m, key, ttl, now);
            && key in m' && m' - {key} == m - {key}
            && m'[key] == m[key].(deadline := Some(now + 1000 * ttl))
  {
  }

  lemma CountedFacts(s: State, m: Hashes, key: Key)
    requires Configured(s.setup.ttl)
    ensures var m' := Counted(m, key, s.setup.ttl, s.now);
            && key in m' && m' - {key} == m - {key}
            && HGet(m', key, CurrentCharacter) == HGet(m, key, CurrentCharacter)
            && HGet(m', key, AllowedCharacters) == HGet(m, key, AllowedCharacters)
            && (CountIn(m, key, PositionCount).Some? ==>
                  HGet(m', key, PositionCount) == Some(Num(CountIn(m, key, PositionCount).value + 1)))
            && (s.setup.ttl.Some? ==> m'[key].deadline == Some(s.now + 1000 * s.setup.ttl.value))
  {
    CountFacts(m, key);
    if s.setup.ttl.Some? {
      ExpireFacts(HIncrBy(m, key, PositionCount, 1), key, s.setup.ttl.value, s.now);
    }
    hide HIncrBy, Expire, CountIn;
  }

  lemma SwitchRecords(s: State, t: State, key: Key, name: Name)
    requires Configured(s.setup.ttl) && t.conns == RecordsAfterSwitch(s, key, name)
    ensures CountedOnce(s, t, key) && HGet(t.conns, key, CurrentCharacter) == Some(Text(name))
  {
    SetFacts(s.conns, key, name);
    CountedFacts(s, HSet(s.conns, key, map[CurrentCharacter := Text(name)]), key);
    hide HSet, Counted, Names.Split;
  }

  lemma StayRecords(s: State, t: State, key: Key)
    requires Configured(s.setup.ttl) && t.conns == Counted(s.conns, key, s.setup.ttl, s.now)
    ensures CountedOnce(s, t, key) && HGet(t.conns, key, CurrentCharacter) == HGet(s.conns, key, CurrentCharacter)
  {
    CountedFacts(s, s.conns, key);
    hide HGet, Counted, Names.Split;
  }

  /** The user's hash holds the message, every field of it, and does not expire. */
  predicate UserHolds(t: State, key: Key, name: Name, msg: Message, now: int) {
    Lasting(t.users, name) && HoldsMessage(t.users, name, msg, key, now)
  }

  /** The hash of the name that was let go has a day to live, which is 86400 seconds. */
  predicate LetGo(s: State, t: State, old': Name, name: Name) {
    old' in s.users && old' != name ==>
      old' in t.users && t.users[old'] == s.users[old'].(deadline := Some(s.now + 1000 * 86400))
  }

  lemma WrittenHolds(t: State, users: Hashes, key: Key, name: Name, msg: Message, now: int)
    requires t.users == Written(users, name, UserFields(msg, key, now))
    ensures UserHolds(t, key, name, msg, now) && t.users - {name} == users - {name}
  {
    assert forall f | f in USER_FIELDS :: HGet(t.users, name, f) == Some(UserFields(msg, key, now)[f]) by {
      hide UserFields;
    }
    FieldsHoldMessage(t.users, name, msg, key, now);
    hide UserFields, HoldsMessage;
  }

  lemma SwitchStores(s: State, t: State, key: Key, name: Name, msg: Message)
    requires t.users == UsersAfterSwitch(s, key, name, msg)
    ensures var old' := Printed(Player(s.cache, key));
            && UserHolds(t, key, name, msg, s.now) && LetGo(s, t, old', name)
            && t.users - {old', name} == s.users - {old', name}
  {
    hide UserFields, Player, UserHolds;
    var old' := Printed(Player(s.cache, key));
    WrittenHolds(t, Expire(s.users, old', 86400, s.now), key, name, msg, s.now);
  }

  /**
   A message that names another allowed character, left undisturbed: the name becomes current in
   cache and record, the message is broadcast, the user's hash holds it and lasts, the old name's
   position is gone and its hash has a day to live, and the point is about to be added.
   */
  lemma SwitchesUndisturbed(m: Newcomers, s: State, id: Hid, key: Key, msg: Message)
    returns (t: State)
    requires Configured(s.setup.ttl) && id !in s.handlers && s.queue == [] && s.issued == []
    requires Welcome(m, s, DoReceive(id, key, msg))
    requires key != "" && Named(msg) && Player(s.cache, key) != msg.characterName
    requires AllowedIn(s.conns, key).Some? && msg.characterName.value in AllowedIn(s.conns, key).value
    ensures Reach(m, s, t) && Paused(t, id, AwaitAddPoint) && Aside(s, t, id)
    ensures id in t.handlers && t.handlers[id].key == key && t.handlers[id].msg == msg
    ensures var (name, old') := (msg.characterName.value, Printed(Player(s.cache, key)));
            && t.cache == s.cache[key := name] && t.live == s.live - {old'}
            && HGet(t.conns, key, CurrentCharacter) == Some(Text(name)) && CountedOnce(s, t, key)
            && Sent(s, t, key, name, msg)
            && UserHolds(t, key, name, msg, s.now) && LetGo(s, t, old', name)
            && t.users - {old', name} == s.users - {old', name}
  {
    hide Reach, Welcome, RecordsAfterSwitch, UsersAfterSwitch, CountedOnce, UserHolds, LetGo, Player, AllowedIn, Sent;
    t := SwitchTurns(m, s, id, key, msg);
    SwitchRecords(s, t, key, msg.characterName.value);
    SwitchStores(s, t, key, msg.characterName.value, msg);
  }

  /** The first segment of a message that does not switch ends with its broadcast. */
  lemma BroadcastAtOnce(s: State, id: Hid, key: Key, msg: Message)
    requires id !in s.handlers && s.queue == [] && s.issued == []
    requires key != "" && Player(s.cache, key).Some? && (Named(msg) ==> msg.characterName == Player(s.cache, key))
    ensures var (t, name) := (Receive(s, id, key, msg), Player(s.cache, key).value);
            && Paused(t, id, AwaitPublish) && Aside(s, t, id) && t.handlers - {id} == s.handlers
            && t.handlers[id].key == key && t.handlers[id].msg == msg && Label(t.handlers[id]) == name
            && IsCached(t.cache, t.handlers[id])
            && t.cache == s.cache && t.live == s.live && t.conns == s.conns && t.users == s.users
            && |s.log| < |t.log| && t.log[|t.log| - 1] == Broadcast(key, PositionOf(msg, name))
  {
    hide PositionOf;
    var h := Arriving(s.cache, key, msg);
    assert Receive(s, id, key, msg) == StartBroadcast(s.(log := s.log + [Received(key, msg)]), id, h);
    assert Label(h) == Player(s.cache, key).value;
  }

  /** A message that does not switch needs no permission: it broadcasts, counts and is written. */
  lemma StaysUndisturbed(m: Newcomers, s: State, id: Hid, key: Key, msg: Message)
    returns (t: State)
    requires Configured(s.setup.ttl) && id !in s.handlers && s.queue == [] && s.issued == []
    requires Welcome(m, s, DoReceive(id, key, msg))
    requires key != "" && Player(s.cache, key).Some? && (Named(msg) ==> msg.characterName == Player(s.cache, key))
    ensures Reach(m, s, t) && Paused(t, id, AwaitAddPoint) && Aside(s, t, id)
    ensures id in t.handlers && t.handlers[id].key == key && t.handlers[id].msg == msg
    ensures var name := Player(s.cache, key).value;
            && t.cache == s.cache && t.live == s.live
            && HGet(t.conns, key, CurrentCharacter) == HGet(s.conns, key, CurrentCharacter) && CountedOnce(s, t, key)
            && Sent(s, t, key, name, msg)
            && UserHolds(t, key, name, msg, s.now) && t.users - {name} == s.users - {name}
  {
    hide Reach, Welcome, Counted, Written, UserFields, PositionOf, CountedOnce, UserHolds, Sent, Receive, Label, Player,
         Named;
    Go(m, s, DoReceive(id, key, msg));
    BroadcastAtOnce(s, id, key, msg);
    var u := Receive(s, id, key, msg);
    t := WriteTurns(m, u, id);
    Then(m, s, u, t);
    SentBetween(m, s, u, t, key, Player(s.cache, key).value, msg);
    StayRecords(s, t, key);
    WrittenHolds(t, s.users, key, Player(s.cache, key).value, msg, s.now);
  }

  /** The point is added and the handler is done. */
  lemma Completes(m: Newcomers, s: State, id: Hid) returns (t: State)
    requires Paused(s, id, AwaitAddPoint)
    ensures Reach(m, s, t) && Aside(s, t, id) && id !in t.handlers && t.queue == [] && t.issued == []
    ensures t.cache == s.cache && t.users == s.users && t.conns == s.conns
    ensures t.live == s.live + {Label(s.handlers[id])}
  {
    hide Reach, Welcome, Label;
    TakeTurn(m, s, id, AwaitAddPoint);
    t := Turn(s, id, AwaitAddPoint);
  }

  /** Such a message from its arrival to its end. */
  lemma SwitchCompletes(m: Newcomers, s: State, id: Hid, key: Key, msg: Message) returns (t: State)
    requires Configured(s.setup.ttl) && id !in s.handlers && s.queue == [] && s.issued == []
    requires Welcome(m, s, DoReceive(id, key, msg))
    requires key != "" && Named(msg) && Player(s.cache, key) != msg.characterName
    requires AllowedIn(s.conns, key).Some? && msg.characterName.value in AllowedIn(s.conns, key).value
    ensures Reach(m, s, t) && t.handlers == s.handlers && t.queue == [] && t.issued == [] && t.setup == s.setup
    ensures t.cache == s.cache[key := msg.characterName.value]
    ensures t.live == s.live - {Printed(Player(s.cache, key))} + {msg.characterName.value}
  {
    hide Reach, Welcome, RecordsAfterSwitch, UsersAfterSwitch, Player, AllowedIn, Printed;
    var a := SwitchTurns(m, s, id, key, msg);
    assert Label(a.handlers[id]) == msg.characterName.value;
    hide Label, Named;
    t := Completes(m, a, id);
    Then(m, s, a, t);
    assert t.handlers == t.handlers - {id} == s.handlers - {id} == s.handlers;
  }

  /** Nothing that a reader can see has changed. */
  predicate Unchanged(s: State, t: State) {
    && t.cache == s.cache && t.conns == s.conns && t.users == s.users && t.live == s.live
    && t.handlers == s.handlers && t.queue == s.queue && t.issued == s.issued
  }

  /** A message that names a character the list does not hold changes nothing, nor is it broadcast. */
  lemma RefusedUndisturbed(m: Newcomers, s: State, id: Hid, key: Key, msg: Message)
    returns (t: State)
    requires id !in s.handlers && s.queue == [] && s.issued == []
    requires Welcome(m, s, DoReceive(id, key, msg))
    requires key != "" && Named(msg) && Player(s.cache, key) != msg.characterName
    requires AllowedIn(s.conns, key).None? || msg.characterName.value !in AllowedIn(s.conns, key).value
    ensures Reach(m, s, t) && Unchanged(s, t)
    ensures forall e | e in t.log :: e in s.log || e.Received? || e.Allowed?
  {
    hide Reach, Welcome, AllowedIn;
    var a := DoReceive(id, key, msg);
    Go(m, s, a);
    var u := Receive(s, id, key, msg);
    var h := Arriving(s.cache, key, msg);
    assert u == Enqueue(s.(log := s.log + [Received(key, msg)]), id, h, AwaitAllowed);
    assert Paused(u, id, AwaitAllowed) && u.handlers[id] == h;
    TakeTurn(m, u, id, AwaitAllowed);
    t := Turn(u, id, AwaitAllowed);
    Then(m, s, u, t);
    RefusedTurn(u, id);
    assert Label(h) == msg.characterName.value;
    hide Turn, Label, Named, Player, Receive;
    assert s.handlers[id := h] - {id} == s.handlers;
  }

  lemma RefusedTurn(s: State, id: Hid)
    requires Paused(s, id, AwaitAllowed)
    requires var h := s.handlers[id];
             AllowedIn(s.conns, h.key).None? || Label(h) !in AllowedIn(s.conns, h.key).value
    requires s.handlers[id].reply == None
    ensures var t := Turn(s, id, AwaitAllowed);
            && t.cache == s.cache && t.conns == s.conns && t.users == s.users && t.live == s.live && t.queue == []
            && t.issued == []
            && t.handlers == s.handlers - {id} && t.setup == s.setup
            && forall e | e in t.log :: e in s.log || e.Allowed?
  {
    var h, u := s.handlers[id], Deliver(s);
    DeliverShape(s);
    assert u.handlers[id] == h.(ready := true, reply := AllowedIn(s.conns, h.key));
    assert Label(u.handlers[id]) == Label(h);
    assert Turn(s, id, AwaitAllowed) == Admit(u, id, u.handlers[id]);
    hide Deliver, AllowedIn, Replied, Turn, Label;
    assert s.handlers[id := u.handlers[id]] - {id} == s.handlers - {id};
  }

  /** A message without a connection is ignored, and so is one without any name where none is current. */
  lemma IgnoredUndisturbed(s: State, id: Hid, key: Key, msg: Message)
    requires key == "" || (Player(s.cache, key).None? && msg.characterName.None?)
    ensures Receive(s, id, key, msg) == if key == "" then s else s.(log := s.log + [Received(key, msg)])
  {
    hide PositionOf;
  }

  // ---- The clock ----

  /** What a store holds once time has passed: nothing of a hash from its deadline on, and all of it before. */
  ghost predicate Outlived(before: Hashes, after: Hashes, now: int) {
    && (forall key :: key in after <==> key in before && match before[key].deadline
                                                         case Some(deadline) => now < deadline
                                                         case None => true)
    && (forall key | key in after :: after[key] == before[key])
  }

  /** Time takes away what has expired, users as well as connections, and nothing else. */
  lemma ElapsesUndisturbed(s: State, ms: nat)
    ensures var t := Elapse(s, ms);
            && t.now == s.now + ms && t == s.(now := t.now, conns := t.conns, users := t.users, lost := t.lost)
            && Outlived(s.users, t.users, s.now + ms) && Outlived(s.conns, t.conns, s.now + ms)
            && t.lost == s.lost + (s.conns.Keys - t.conns.Keys)
  {
  }

  /** So the hash of a name that was let go is there for a day and no longer. */
  lemma LetGoForADay(s: State, t: State, old': Name, name: Name, ms: nat)
    requires LetGo(s, t, old', name) && t.now == s.now && old' in s.users && old' != name
    ensures old' in Elapse(t, ms).users <==> ms < 86400000
  {
    hide Elapse;
    ElapsesUndisturbed(t, ms);
  }

  // ---- The ground station, undisturbed ----

  function Upgraded(conns: Hashes, key: Key, claim: Claim): Hashes {
    Persist(HSet(conns, key, map[AllowedCharacters := Text(Names.Join(Names.Split(claim.characters))),
                                 AuthenticationLevel := Num(claim.level)]), key)
  }

  lemma UpgradedFacts(conns: Hashes, key: Key, claim: Claim)
    ensures var after := Upgraded(conns, key, claim);
            && key in after && after[key].deadline == None && after - {key} == conns - {key}
            && AllowedIn(after, key) == Some(Names.Split(claim.characters))
            && HGet(after, key, AllowedCharacters) == Some(Text(claim.characters))
            && HGet(after, key, AuthenticationLevel) == Some(Num(claim.level))
            && HGet(after, key, CurrentCharacter) == HGet(conns, key, CurrentCharacter)
            && HGet(after, key, PositionCount) == HGet(conns, key, PositionCount)
  {
    hide Names.Split, Names.Join;
    Names.JoinInvertsSplit(claim.characters);
  }

  /** An upgrade of an open socket records what its token says, for good, and keeps what the record held. */
  lemma UpgradesUndisturbed(m: Newcomers, s: State, u: ActorId, key: Key) returns (t: State)
    requires u !in s.upgrades && m != RelayAlone && key in s.setup.claims
    ensures Reach(m, s, t) && t == s.(conns := t.conns)
    ensures key in t.conns && t.conns[key].deadline == None && t.conns - {key} == s.conns - {key}
    ensures AllowedIn(t.conns, key) == Some(Names.Split(s.setup.claims[key].characters))
    ensures HGet(t.conns, key, AllowedCharacters) == Some(Text(s.setup.claims[key].characters))
    ensures HGet(t.conns, key, AuthenticationLevel) == Some(Num(s.setup.claims[key].level))
    ensures HGet(t.conns, key, CurrentCharacter) == HGet(s.conns, key, CurrentCharacter)
    ensures HGet(t.conns, key, PositionCount) == HGet(s.conns, key, PositionCount)
  {
    UpgradedFacts(s.conns, key, s.setup.claims[key]);
    hide Reach, Welcome, Names.Split, Names.Join, HSet, Persist, HGet, AllowedIn;
    var a := DoUpgrade(u, key, false);
    ActOutside(m, s, a);
    var v := UpgradeWrite(s, u, key, false);
    ActOutside(m, v, DoUpgradeNext(u));
    t := UpgradeNext(v, u);
    Then(m, s, v, t);
    assert t.upgrades == s.upgrades;
  }

  /** An upgrade of an aborted socket leaves no record. */
  lemma AbortsUndisturbed(m: Newcomers, s: State, u: ActorId, key: Key) returns (t: State)
    requires u !in s.upgrades && m != RelayAlone && key in s.setup.claims
    ensures Reach(m, s, t) && t == s.(conns := s.conns - {key}, lost := s.lost + {key})
  {
    UpgradedFacts(s.conns, key, s.setup.claims[key]);
    hide Reach, Welcome, Names.Split, Names.Join, HSet, Persist;
    var a := DoUpgrade(u, key, true);
    ActOutside(m, s, a);
    var v := UpgradeWrite(s, u, key, true);
    ActOutside(m, v, DoUpgradeNext(u));
    var w := UpgradeNext(v, u);
    ActOutside(m, w, DoUpgradeNext(u));
    t := UpgradeNext(w, u);
    Then(m, s, v, w);
    Then(m, s, w, t);
    assert t.upgrades == s.upgrades;
  }

  /** What a close or a shutdown leaves: without a current character, only the record gets its hour. */
  predicate Closed(s: State, t: State, key: Key) {
    && t == s.(conns := Expire(s.conns, key, 3600, s.now), users := t.users, live := t.live)
    && match HGet(s.conns, key, CurrentCharacter)
       case Some(Text(name)) => t.live == s.live - {name} && t.users == Expire(s.users, name, 3600, s.now)
       case _ => t.live == s.live && t.users == s.users
  }

  lemma ClosedWith(s: State, t: State, key: Key, name: Name)
    requires HGet(s.conns, key, CurrentCharacter) == Some(Text(name))
    requires t == s.(conns := Expire(s.conns, key, 3600, s.now), live := s.live - {name},
                     users := Expire(s.users, name, 3600, s.now))
    ensures Closed(s, t, key)
  {
    hide Expire, HGet;
  }

  lemma ClosedWithNobody(s: State, t: State, key: Key)
    requires forall name :: HGet(s.conns, key, CurrentCharacter) != Some(Text(name))
    requires t == s.(conns := Expire(s.conns, key, 3600, s.now))
    ensures Closed(s, t, key)
  {
    hide Expire, HGet;
  }

  lemma CloseGoesOn(m: Newcomers, s: State, c: ActorId)
    requires c in s.closes && m != RelayAlone
    ensures Reach(m, s, CloseNext(s, c))
  {
    hide Reach, Welcome, CloseNext;
    ActOutside(m, s, DoCloseNext(c));
  }

  lemma CloseGoesOnTwice(m: Newcomers, s: State, c: ActorId)
    requires c in s.closes && c in CloseNext(s, c).closes && m != RelayAlone
    ensures Reach(m, s, CloseNext(CloseNext(s, c), c))
  {
    hide Reach, CloseNext;
    CloseGoesOn(m, s, c);
    CloseGoesOn(m, CloseNext(s, c), c);
    Then(m, s, CloseNext(s, c), CloseNext(CloseNext(s, c), c));
  }

  lemma AllThree(m: Newcomers, s: State, a: State, c: ActorId) returns (t: State)
    requires Reach(m, s, a) && m != RelayAlone
    requires c in a.closes && c in CloseNext(a, c).closes && c in CloseNext(CloseNext(a, c), c).closes
    ensures t == CloseNext(CloseNext(CloseNext(a, c), c), c) && Reach(m, s, t)
  {
    hide Reach, CloseNext;
    var b := CloseNext(a, c);
    CloseGoesOn(m, a, c);
    Then(m, s, a, b);
    CloseGoesOnTwice(m, b, c);
    t := CloseNext(CloseNext(b, c), c);
    Then(m, s, b, t);
  }

  /** A close or a shutdown of a connection without a current character. */
  lemma NobodyToClose(s: State, c: ActorId, key: Key, keepFirst: bool)
    requires c !in s.closes
    requires forall name :: HGet(s.conns, key, CurrentCharacter) != Some(Text(name))
    ensures var first := CloseRead(s, c, key);
            c in first.closes && CloseNext(first, c) == s.(conns := Expire(s.conns, key, 3600, s.now))
    ensures var first := ShutdownRead(s, c, key, keepFirst);
            c in first.closes && CloseNext(first, c) == s.(conns := Expire(s.conns, key, 3600, s.now))
  {
    hide Expire, HGet;
    assert CurrentName(s.conns, key) == None;
    assert s.closes[c := Expiring(key)] - {c} == s.closes;
    assert s.closes[c := Dropping(key, None, keepFirst)] - {c} == s.closes;
  }

  /** The order of a close with a current character: the position, the user's hash, the record. */
  lemma CloseInOrder(s: State, c: ActorId, key: Key, name: Name)
    requires c !in s.closes && HGet(s.conns, key, CurrentCharacter) == Some(Text(name))
    ensures var first := CloseRead(s, c, key);
            && first == s.(closes := first.closes) && c in first.closes
            && var second := CloseNext(first, c);
            && second == first.(live := s.live - {name}, closes := second.closes) && c in second.closes
            && var third := CloseNext(second, c);
            && third == second.(users := Expire(s.users, name, 3600, s.now), closes := third.closes)
            && c in third.closes
            && CloseNext(third, c) == third.(conns := Expire(s.conns, key, 3600, s.now), closes := s.closes)
  {
    hide Expire, HGet;
    assert s.closes[c := Removing(key, name)] - {c} == s.closes;
  }

  lemma KeepingThenRemoving(s: State, c: ActorId, name: Name)
    requires c in s.closes && s.closes[c] == LastKeeping(name, false)
    ensures var t := CloseNext(s, c);
            && t == s.(users := Expire(s.users, name, 3600, s.now), closes := t.closes) && c in t.closes
            && CloseNext(t, c) == t.(live := s.live - {name}, closes := s.closes - {c})
  {
    hide Expire;
  }

  lemma RemovingThenKeeping(s: State, c: ActorId, name: Name)
    requires c in s.closes && s.closes[c] == LastRemoving(name, false)
    ensures var t := CloseNext(s, c);
            && t == s.(live := s.live - {name}, closes := t.closes) && c in t.closes
            && CloseNext(t, c) == t.(users := Expire(s.users, name, 3600, s.now), closes := s.closes - {c})
  {
    hide Expire;
  }

  /** The order of a shutdown with a current character: the record, then the other two in either order. */
  lemma ShutdownInOrder(s: State, c: ActorId, key: Key, keepFirst: bool, name: Name)
    requires c !in s.closes && HGet(s.conns, key, CurrentCharacter) == Some(Text(name))
    ensures var first := ShutdownRead(s, c, key, keepFirst);
            && first == s.(closes := first.closes) && c in first.closes
            && var second := CloseNext(first, c);
            && second == first.(conns := Expire(s.conns, key, 3600, s.now), closes := second.closes)
            && c in second.closes
            && var third := CloseNext(second, c);
            && third == (if keepFirst then second.(users := Expire(s.users, name, 3600, s.now), closes := third.closes)
                         else second.(live := s.live - {name}, closes := third.closes))
            && c in third.closes
            && CloseNext(third, c) == (if keepFirst then third.(live := s.live - {name}, closes := s.closes)
                                       else third.(users := Expire(s.users, name, 3600, s.now), closes := s.closes))
  {
    var first := ShutdownRead(s, c, key, keepFirst);
    assert first.closes == s.closes[c := Dropping(key, Some(name), keepFirst)];
    hide Expire, HGet, ShutdownRead, CurrentName;
    var second := CloseNext(first, c);
    assert second.closes == s.closes[c := if keepFirst then LastKeeping(name, false) else LastRemoving(name, false)];
    if keepFirst {
      KeepingThenRemoving(second, c, name);
    } else {
      RemovingThenKeeping(second, c, name);
    }
    hide CloseNext;
    assert second.closes - {c} == s.closes;
  }

  /** A close takes the current character off the live positions and gives its hash and the record an hour. */
  lemma ClosesUndisturbed(m: Newcomers, s: State, c: ActorId, key: Key) returns (t: State)
    requires c !in s.closes && m != RelayAlone
    ensures Reach(m, s, t) && Closed(s, t, key)
  {
    hide Reach, Closed, Expire, HGet, Welcome, CloseRead, CloseNext;
    ActOutside(m, s, DoClose(c, key));
    var a := CloseRead(s, c, key);
    match HGet(s.conns, key, CurrentCharacter) {
      case Some(Text(name)) =>
        CloseInOrder(s, c, key, name);
        t := AllThree(m, s, a, c);
        ClosedWith(s, t, key, name);
      case _ =>
        NobodyToClose(s, c, key, false);
        CloseGoesOn(m, a, c);
        t := CloseNext(a, c);
        Then(m, s, a, t);
        ClosedWithNobody(s, t, key);
    }
  }

  /** A shutdown does the same in another order, with either of its last two commands first. */
  lemma ShutsDownUndisturbed(m: Newcomers, s: State, c: ActorId, key: Key, keepFirst: bool) returns (t: State)
    requires c !in s.closes && m != RelayAlone
    ensures Reach(m, s, t) && Closed(s, t, key)
  {
    hide Reach, Closed, Expire, HGet, Welcome, ShutdownRead, CloseNext;
    ActOutside(m, s, DoShutdown(c, key, keepFirst));
    var a := ShutdownRead(s, c, key, keepFirst);
    match HGet(s.conns, key, CurrentCharacter) {
      case Some(Text(name)) =>
        ShutdownInOrder(s, c, key, keepFirst, name);
        t := AllThree(m, s, a, c);
        ClosedWith(s, t, key, name);
      case _ =>
        NobodyToClose(s, c, key, keepFirst);
        CloseGoesOn(m, a, c);
        t := CloseNext(a, c);
        Then(m, s, a, t);
        ClosedWithNobody(s, t, key);
    }
  }
}
