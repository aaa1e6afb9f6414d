/**
 Every connection has one token, and its list of characters is all that its record, the replies to
 its handlers and the cache can ever hold for it.
 */
module RelayClaims {
  import opened Wrappers
  import opened HashStore
  import opened Positions
  import opened Relay
  import opened RelayAuthority
  import Names = AllowedNames

  /** The token of the connection lists the name. */
  predicate Lists(claims: map<Key, Claim>, key: Key, name: Name) {
    key in claims && name in Names.Split(claims[key].characters)
  }

  /** A list that came from somewhere is the one of the token. */
  predicate IsList(claims: map<Key, Claim>, key: Key, list: Option<seq<Name>>) {
    list.Some? ==> key in claims && list.value == Names.Split(claims[key].characters)
  }

  ghost predicate RecordsListed(claims: map<Key, Claim>, conns: Hashes) {
    forall key :: IsList(claims, key, AllowedIn(conns, key))
  }

  ghost predicate RepliesListed(claims: map<Key, Claim>, handlers: map<Hid, Handler>) {
    forall id | id in handlers :: IsList(claims, handlers[id].key, handlers[id].reply)
  }

  ghost predicate CacheListed(claims: map<Key, Claim>, cache: map<Key, Name>) {
    forall key | key in cache :: Lists(claims, key, cache[key])
  }

  ghost predicate ClaimsInv(s: State) {
    && RecordsListed(s.setup.claims, s.conns)
    && RepliesListed(s.setup.claims, s.handlers)
    && CacheListed(s.setup.claims, s.cache)
  }

  // ---- Records ----

  /** Each list is the one there was, or gone. */
  ghost predicate ListsKept(conns: Hashes, conns': Hashes) {
    forall key :: AllowedIn(conns', key) == AllowedIn(conns, key) || AllowedIn(conns', key) == None
  }

  lemma ExecutedKeepsLists(c: Command, conns: Hashes, ttl: Option<int>, now: int)
    ensures ListsKept(conns, Executed(c, conns, ttl, now))
  {
    hide CountIn, Names.Split;
  }

  lemma ExpireSomeKeepsLists(conns: Hashes, key: Option<Key>, now: int)
    ensures ListsKept(conns, ExpireSome(conns, key, now))
  {
    hide Names.Split;
  }

  lemma PurgeKeepsLists(conns: Hashes, now: int)
    ensures ListsKept(conns, Purge(conns, now))
  {
    hide Names.Split;
  }

  lemma PersistKeepsLists(conns: Hashes, key: Key)
    ensures ListsKept(conns, Persist(conns, key)) && ListsKept(conns, Del(conns, key))
  {
    hide Names.Split;
  }

  lemma KeptIsListed(claims: map<Key, Claim>, conns: Hashes, conns': Hashes)
    requires RecordsListed(claims, conns) && ListsKept(conns, conns')
    ensures RecordsListed(claims, conns')
  {
    hide AllowedIn, Names.Split;
    forall key
      ensures IsList(claims, key, AllowedIn(conns', key))
    {
      assert IsList(claims, key, AllowedIn(conns, key));
    }
  }

  lemma UpgradeIsListed(claims: map<Key, Claim>, conns: Hashes, key: Key, data: map<Field, Value>)
    requires RecordsListed(claims, conns) && key in claims && AllowedCharacters in data
    requires data[AllowedCharacters] == Text(Names.Join(Names.Split(claims[key].characters)))
    ensures RecordsListed(claims, HSet(conns, key, data))
  {
    Names.JoinInvertsSplit(claims[key].characters);
    hide Names.Split, Names.Join;
    forall k
      ensures IsList(claims, k, AllowedIn(HSet(conns, key, data), k))
    {
      assert IsList(claims, k, AllowedIn(conns, k));
    }
  }

  // ---- Segments and steps ----

  /** A segment without a switch: handlers keep their replies. */
  lemma SegmentLists(s: State, t: State, id: Hid)
    requires ClaimsInv(s) && t.setup == s.setup && t.conns == s.conns && t.cache == s.cache
    requires t.handlers == s.handlers - {id}
             || (id in t.handlers && t.handlers == s.handlers[id := t.handlers[id]]
                 && IsList(s.setup.claims, t.handlers[id].key, t.handlers[id].reply))
    ensures ClaimsInv(t)
  {
    hide Lists, IsList, AllowedIn;
  }

  lemma ReceiveLists(s: State, id: Hid, key: Key, msg: Message)
    requires ClaimsInv(s) && id !in s.handlers
    ensures ClaimsInv(Receive(s, id, key, msg))
  {
    var u, h := s.(log := s.log + [Received(key, msg)]), Arriving(s.cache, key, msg);
    assert h.reply == None;
    hide ClaimsInv, Enqueue, StartBroadcast, Arriving, Switches;
    EnqueueShape(u, id, h, AwaitAllowed);
    StartBroadcastShape(u, id, h);
    assert s.handlers == s.handlers - {id};
    SegmentLists(s, Receive(s, id, key, msg), id);
  }

  lemma AdmitLists(s: State, id: Hid)
    requires ClaimsInv(s) && id in s.handlers
    ensures ClaimsInv(Admit(s, id, s.handlers[id]))
  {
    var h, t := s.handlers[id], Admit(s, id, s.handlers[id]);
    assert IsList(s.setup.claims, h.key, h.reply);
    hide AllowedIn, CommandOf, Label, Names.Split;
    if h.reply.None? || Label(h) !in h.reply.value {
      SegmentLists(s, t, id);
    } else {
      assert Lists(s.setup.claims, h.key, Label(h));
      assert t.cache == s.cache[h.key := Label(h)];
    }
  }

  lemma WritingLists(s: State, id: Hid, log: Log, fields: map<Field, Value>)
    requires ClaimsInv(s) && id in s.handlers
    ensures ClaimsInv(Issue(s.(log := log), id, s.handlers[id].(fields := fields), AwaitSetUser))
    ensures ClaimsInv(Finish(s, id))
  {
    assert IsList(s.setup.claims, s.handlers[id].key, s.handlers[id].reply);
    hide ClaimsInv, IsList;
    SegmentLists(s, Issue(s.(log := log), id, s.handlers[id].(fields := fields), AwaitSetUser), id);
    SegmentLists(s, Finish(s, id), id);
  }

  lemma CheckAndWriteLists(s: State, id: Hid)
    requires ClaimsInv(s) && id in s.handlers
    ensures ClaimsInv(CheckAndWrite(s, id, s.handlers[id]))
  {
    hide ClaimsInv, Label, UserFields, Issue, Finish;
    var h := s.handlers[id];
    var fields := UserFields(h.msg, h.key, s.now);
    WritingLists(s, id, s.log + [Wrote(h.key, Label(h), fields)], fields);
  }

  lemma OtherSegmentsList(s: State, id: Hid, at: Await)
    requires ClaimsInv(s) && id in s.handlers
    ensures ClaimsInv(Issue(s, id, s.handlers[id], at))
    ensures OnConnectionStore(at) ==> ClaimsInv(Enqueue(s, id, s.handlers[id], at))
    ensures ClaimsInv(StartBroadcast(s, id, s.handlers[id])) && ClaimsInv(Finish(s, id))
  {
    var h := s.handlers[id];
    assert IsList(s.setup.claims, h.key, h.reply);
    hide ClaimsInv, IsList, Label, PositionOf, CommandOf, OnConnectionStore;
    SegmentLists(s, Issue(s, id, h, at), id);
    SegmentLists(s, StartBroadcast(s, id, h), id);
    SegmentLists(s, Finish(s, id), id);
    if OnConnectionStore(at) {
      SegmentLists(s, Enqueue(s, id, h, at), id);
    }
  }

  lemma ResumeLists(s: State, id: Hid)
    requires ClaimsInv(s) && id in s.handlers
    ensures ClaimsInv(Resume(s, id))
  {
    hide ClaimsInv, Admit, CheckAndWrite, Enqueue, Issue, Finish, StartBroadcast;
    match s.handlers[id].at {
      case AwaitAllowed => AdmitLists(s, id);
      case AwaitSetCurrent => OtherSegmentsList(s, id, AwaitPersistField);
      case AwaitPersistField => OtherSegmentsList(s, id, AwaitKeepAlive);
      case AwaitKeepAlive => OtherSegmentsList(s, id, AwaitRemovePosition);
      case AwaitPublish => OtherSegmentsList(s, id, AwaitCount);
      case AwaitCount =>
        if s.setup.ttl.Some? {
          OtherSegmentsList(s, id, AwaitExpire);
        } else {
          CheckAndWriteLists(s, id);
        }
      case AwaitExpire => CheckAndWriteLists(s, id);
      case AwaitSetUser => OtherSegmentsList(s, id, AwaitPersistUser);
      case _ => OtherSegmentsList(s, id, AwaitAddPoint);
    }
  }

  lemma DeliverLists(s: State)
    requires ClaimsInv(s) && QueueOk(s.queue, s.handlers) && s.queue != []
    ensures ClaimsInv(Deliver(s))
  {
    var c, t := s.queue[0], Deliver(s);
    HeadIsQueued(s);
    DeliverShape(s);
    assert t.conns == Executed(c, s.conns, s.setup.ttl, s.now);
    ExecutedKeepsLists(c, s.conns, s.setup.ttl, s.now);
    KeptIsListed(s.setup.claims, s.conns, t.conns);
    assert IsList(s.setup.claims, c.key, AllowedIn(s.conns, c.key));
    assert IsList(s.setup.claims, s.handlers[c.h].key, s.handlers[c.h].reply);
    hide Deliver, Executed, AllowedIn, IsList, Lists, CommandOf, QueueOk;
  }

  lemma EffectLists(s: State, id: Hid)
    requires ClaimsInv(s) && id in s.handlers
    ensures ClaimsInv(Effect(s, id))
  {
    assert IsList(s.setup.claims, s.handlers[id].key, s.handlers[id].reply);
    hide ClaimsInv, UsersAfter, LiveAfter, Without, IsList;
    SegmentLists(s, Effect(s, id), id);
  }

  lemma RecordsChange(s: State, t: State)
    requires ClaimsInv(s) && RecordsListed(s.setup.claims, t.conns)
    requires t.setup == s.setup && t.handlers == s.handlers && t.cache == s.cache
    ensures ClaimsInv(t)
  {
    hide RecordsListed, Lists, IsList;
  }

  lemma UpgradeLists(s: State, u: ActorId, key: Key, aborted: bool)
    requires ClaimsInv(s) && key in s.setup.claims
    ensures ClaimsInv(UpgradeWrite(s, u, key, aborted))
  {
    hide RecordsListed, RepliesListed, CacheListed, HSet, Names.Split, Names.Join;
    var claim := s.setup.claims[key];
    UpgradeIsListed(s.setup.claims, s.conns, key,
                    map[AllowedCharacters := Text(Names.Join(Names.Split(claim.characters))),
                        AuthenticationLevel := Num(claim.level)]);
    RecordsChange(s, UpgradeWrite(s, u, key, aborted));
  }

  lemma UpgradeNextLists(s: State, u: ActorId)
    requires ClaimsInv(s) && u in s.upgrades
    ensures ClaimsInv(UpgradeNext(s, u))
  {
    hide RecordsListed, RepliesListed, CacheListed, Persist, Del, ListsKept;
    PersistKeepsLists(s.conns, s.upgrades[u].key);
    KeptIsListed(s.setup.claims, s.conns, Persist(s.conns, s.upgrades[u].key));
    KeptIsListed(s.setup.claims, s.conns, Del(s.conns, s.upgrades[u].key));
    RecordsChange(s, UpgradeNext(s, u));
  }

  lemma CloseNextLists(s: State, c: ActorId)
    requires ClaimsInv(s) && c in s.closes
    ensures ClaimsInv(CloseNext(s, c))
  {
    hide RecordsListed, RepliesListed, CacheListed, ExpireSome, TakesAway, LetsExpire, LetsLapse, NextClose, ListsKept;
    ExpireSomeKeepsLists(s.conns, LetsLapse(s.closes[c]), s.now);
    KeptIsListed(s.setup.claims, s.conns, ExpireSome(s.conns, LetsLapse(s.closes[c]), s.now));
    RecordsChange(s, CloseNext(s, c));
  }

  lemma ElapseLists(s: State, ms: nat)
    requires ClaimsInv(s)
    ensures ClaimsInv(Elapse(s, ms))
  {
    hide RecordsListed, RepliesListed, CacheListed, Purge, ListsKept;
    PurgeKeepsLists(s.conns, s.now + ms);
    KeptIsListed(s.setup.claims, s.conns, Purge(s.conns, s.now + ms));
    RecordsChange(s, Elapse(s, ms));
  }

  lemma CloseReadLists(s: State, c: ActorId, key: Key, keepFirst: bool)
    requires ClaimsInv(s)
    ensures ClaimsInv(CloseRead(s, c, key)) && ClaimsInv(ShutdownRead(s, c, key, keepFirst))
  {
    hide ClaimsInv, RecordsListed, CurrentName;
    assert RecordsListed(s.setup.claims, s.conns) by {
      ClaimsParts(s);
    }
    RecordsChange(s, CloseRead(s, c, key));
    RecordsChange(s, ShutdownRead(s, c, key, keepFirst));
  }

  lemma ClaimsParts(s: State)
    requires ClaimsInv(s)
    ensures RecordsListed(s.setup.claims, s.conns) && RepliesListed(s.setup.claims, s.handlers)
    ensures CacheListed(s.setup.claims, s.cache)
  {
  }

  lemma Step(s: State, a: Action)
    requires ClaimsInv(s) && Inv(s) && Enabled(s, a)
    ensures ClaimsInv(Next(s, a))
  {
    hide ClaimsInv, Receive, Resume, Deliver, Effect, QueueOk, InTurn, UpgradeWrite, UpgradeNext, CloseRead,
         ShutdownRead, CloseNext, Elapse;
    match a {
      case DoReceive(h, key, msg) => ReceiveLists(s, h, key, msg);
      case DoResume(h) => ResumeLists(s, h);
      case DoDeliver => DeliverLists(s);
      case DoEffect(h) => EffectLists(s, h);
      case DoUpgrade(u, key, aborted) => UpgradeLists(s, u, key, aborted);
      case DoUpgradeNext(u) => UpgradeNextLists(s, u);
      case DoClose(c, key) => CloseReadLists(s, c, key, false);
      case DoShutdown(c, key, keepFirst) => CloseReadLists(s, c, key, keepFirst);
      case DoCloseNext(c) => CloseNextLists(s, c);
      case DoElapse(ms) => ElapseLists(s, ms);
    }
  }

  lemma {:induction false} RunKeepsClaims(setup: Setup, run: seq<Action>)
    requires IsRun(setup, run)
    ensures ClaimsInv(StateAfter(setup, run))
  {
    if run != [] {
      var before := run[..|run| - 1];
      RunKeepsClaims(setup, before);
      RunKeepsInv(setup, before);
      hide ClaimsInv, Inv, Next, Enabled;
      Step(StateAfter(setup, before), run[|run| - 1]);
    }
  }

  /** What is admitted is listed, and a listed name holds no comma. */
  lemma ListedIsCommaFree(claims: map<Key, Claim>, key: Key, name: Name)
    requires Lists(claims, key, name)
    ensures Names.COMMA !in name
  {
    Names.SplitIsCommaFree(claims[key].characters);
    hide Names.Split;
  }

  /** In every interleaving, a cached name is one that the connection's own token lists. */
  lemma CachedNamesAreListed(setup: Setup, run: seq<Action>, key: Key)
    requires IsRun(setup, run) && key in StateAfter(setup, run).cache
    ensures Lists(setup.claims, key, StateAfter(setup, run).cache[key])
  {
    RunKeepsClaims(setup, run);
    RunKeepsSetup(setup, run);
  }

  // ---- The setup ----

  lemma GuardsKeepSetup(s: State, id: Hid, h: Handler)
    ensures Admit(s, id, h).setup == s.setup && CheckAndWrite(s, id, h).setup == s.setup
  {
    hide UserFields, Label, CommandOf, Waiting;
  }

  lemma ResumeKeepsSetup(s: State, id: Hid)
    requires id in s.handlers
    ensures Resume(s, id).setup == s.setup
  {
    hide Admit, CheckAndWrite, PositionOf, Label, CommandOf, Waiting;
    GuardsKeepSetup(s, id, s.handlers[id]);
  }

  lemma SetupStays(s: State, a: Action)
    requires Enabled(s, a)
    ensures Next(s, a).setup == s.setup
  {
    hide Resume, PositionOf, Label, CommandOf, Waiting, Switches, HSet, CurrentName, Persist, Del, ExpireSome, Purge,
         Executed, AllowedIn, UsersAfter, LiveAfter, Wake, Without, InTurn, TakesAway, LetsExpire, LetsLapse, NextClose;
    if a.DoResume? {
      ResumeKeepsSetup(s, a.h);
    }
  }

  lemma {:induction false} RunKeepsSetup(setup: Setup, run: seq<Action>)
    requires IsRun(setup, run)
    ensures StateAfter(setup, run).setup == setup
  {
    if run != [] {
      RunKeepsSetup(setup, run[..|run| - 1]);
      hide Next, Enabled;
      SetupStays(StateAfter(setup, run[..|run| - 1]), run[|run| - 1]);
    }
  }
}
