/**
 Position counts are conserved in every interleaving: what was broadcast for a connection has been
 counted, except for the handlers between their broadcast and their increment.
 */
module RelayCount {
  import opened Wrappers
  import opened HashStore
  import opened Positions
  import opened Relay
  import opened RelayAuthority

  function Broadcasts(log: Log, key: Key): nat {
    if log == [] then 0
    else
      var e := log[|log| - 1];
      Broadcasts(log[..|log| - 1], key) + if e.Broadcast? && e.key == key then 1 else 0
  }

  /** The handler has broadcast, and its increment has not taken effect. */
  predicate Counting(h: Handler) {
    h.at.AwaitPublish? || (h.at.AwaitCount? && !h.ready)
  }

  function InFlight(handlers: map<Hid, Handler>, key: Key): set<Hid> {
    set id | id in handlers && handlers[id].key == key && Counting(handlers[id])
  }

  function Weight(h: Handler, key: Key): nat {
    if h.key == key && Counting(h) then 1 else 0
  }

  function StoredCount(conns: Hashes, key: Key): Option<int> {
    CountIn(conns, key, PositionCount)
  }

  /** The field holds a number or nothing, and balances for every record that was not lost. */
  ghost predicate Balanced(conns: Hashes, handlers: map<Hid, Handler>, log: Log, lost: set<Key>, key: Key) {
    && StoredCount(conns, key).Some?
    && (key !in lost ==> StoredCount(conns, key).value + |InFlight(handlers, key)| == Broadcasts(log, key))
  }

  ghost predicate CountInv(s: State) {
    && (s.setup.ttl.Some? ==> s.setup.ttl.value > 0)
    && forall key :: Balanced(s.conns, s.handlers, s.log, s.lost, key)
  }

  // ---- Counting handlers ----

  lemma BroadcastsGrow(log: Log, e: Event, key: Key)
    ensures Broadcasts(log + [e], key) == Broadcasts(log, key) + if e.Broadcast? && e.key == key then 1 else 0
  {
    assert (log + [e])[..|log|] == log;
  }

  lemma WithoutHandler(handlers: map<Hid, Handler>, id: Hid, key: Key)
    ensures |InFlight(handlers, key)|
            == |InFlight(handlers - {id}, key)| + if id in handlers then Weight(handlers[id], key) else 0
  {
    var all, rest := InFlight(handlers, key), InFlight(handlers - {id}, key);
    if id in all {
      assert all == rest + {id};
    } else {
      assert all == rest;
    }
  }

  /** Replacing one handler changes the number in flight by the difference of the weights. */
  lemma WithHandler(handlers: map<Hid, Handler>, id: Hid, h: Handler, key: Key)
    ensures |InFlight(handlers[id := h], key)| + (if id in handlers then Weight(handlers[id], key) else 0)
            == |InFlight(handlers, key)| + Weight(h, key)
  {
    WithoutHandler(handlers, id, key);
    WithoutHandler(handlers[id := h], id, key);
    assert handlers[id := h] - {id} == handlers - {id};
  }

  // ---- Changes that balance ----

  function WeightAt(handlers: map<Hid, Handler>, id: Hid, key: Key): nat {
    if id in handlers then Weight(handlers[id], key) else 0
  }

  /** One handler changes; its weight rises by exactly what is logged and falls by what is stored. */
  lemma HandlerMoves(s: State, t: State, id: Hid, h: Handler)
    requires CountInv(s) && t.setup == s.setup && t.lost == s.lost
    requires t.handlers == s.handlers[id := h]
    requires forall key ::
               StoredCount(t.conns, key).Some? && StoredCount(s.conns, key).Some? &&
               StoredCount(t.conns, key).value + Weight(h, key) - Broadcasts(t.log, key)
               == StoredCount(s.conns, key).value + WeightAt(s.handlers, id, key) - Broadcasts(s.log, key)
    ensures CountInv(t)
  {
    hide StoredCount, Weight, InFlight, Broadcasts;
    forall key
      ensures Balanced(t.conns, t.handlers, t.log, t.lost, key)
    {
      WithHandler(s.handlers, id, h, key);
      assert Balanced(s.conns, s.handlers, s.log, s.lost, key);
    }
  }

  lemma HandlerLeaves(s: State, id: Hid)
    requires CountInv(s) && forall key :: WeightAt(s.handlers, id, key) == 0
    ensures CountInv(Finish(s, id))
  {
    var t := Finish(s, id);
    hide StoredCount, Weight, InFlight, Broadcasts;
    forall key
      ensures Balanced(t.conns, t.handlers, t.log, t.lost, key)
    {
      WithoutHandler(s.handlers, id, key);
      assert WeightAt(s.handlers, id, key) == 0;
      assert Balanced(s.conns, s.handlers, s.log, s.lost, key);
    }
  }

  /** Logging anything but a broadcast. */
  lemma LogsNoBroadcast(s: State, t: State, e: Event)
    requires CountInv(s) && !e.Broadcast?
    requires t.conns == s.conns && t.handlers == s.handlers && t.lost == s.lost && t.setup == s.setup
    requires t.log == s.log + [e]
    ensures CountInv(t)
  {
    forall key
      ensures Balanced(t.conns, t.handlers, t.log, t.lost, key)
    {
      BroadcastsGrow(s.log, e, key);
      assert Balanced(s.conns, s.handlers, s.log, s.lost, key);
      hide Broadcasts, StoredCount, InFlight;
    }
  }

  lemma EnqueueBalances(s: State, id: Hid, h: Handler, at: Await)
    requires CountInv(s) && OnConnectionStore(at)
    requires forall key :: Weight(Waiting(h, at), key) == WeightAt(s.handlers, id, key)
    ensures CountInv(Enqueue(s, id, h, at))
  {
    hide CommandOf, Weight, Broadcasts, StoredCount, WeightAt, InFlight;
    assert forall key :: Balanced(s.conns, s.handlers, s.log, s.lost, key) ==> StoredCount(s.conns, key).Some?;
    HandlerMoves(s, Enqueue(s, id, h, at), id, Waiting(h, at));
  }

  lemma IssueBalances(s: State, id: Hid, h: Handler, at: Await)
    requires CountInv(s)
    requires forall key :: Weight(Waiting(h, at), key) == WeightAt(s.handlers, id, key)
    ensures CountInv(Issue(s, id, h, at))
  {
    hide Weight, Broadcasts, StoredCount, WeightAt, InFlight;
    assert forall key :: Balanced(s.conns, s.handlers, s.log, s.lost, key) ==> StoredCount(s.conns, key).Some?;
    HandlerMoves(s, Issue(s, id, h, at), id, Waiting(h, at));
  }

  lemma StartBroadcastBalances(s: State, id: Hid, h: Handler)
    requires CountInv(s) && forall key :: WeightAt(s.handlers, id, key) == 0
    ensures CountInv(StartBroadcast(s, id, h))
  {
    var e, t := Broadcast(h.key, PositionOf(h.msg, Label(h))), StartBroadcast(s, id, h);
    hide Label;
    forall key
      ensures StoredCount(s.conns, key).Some? && t.conns == s.conns
      ensures Weight(Waiting(h, AwaitPublish), key) - Broadcasts(t.log, key)
              == WeightAt(s.handlers, id, key) - Broadcasts(s.log, key)
    {
      BroadcastsGrow(s.log, e, key);
      assert Balanced(s.conns, s.handlers, s.log, s.lost, key);
      hide Broadcasts, InFlight, StoredCount;
    }
    hide Broadcasts, InFlight, StoredCount, Weight, WeightAt;
    HandlerMoves(s, t, id, Waiting(h, AwaitPublish));
  }

  lemma CheckAndWriteBalances(s: State, id: Hid, h: Handler)
    requires CountInv(s) && forall key :: WeightAt(s.handlers, id, key) == 0
    ensures CountInv(CheckAndWrite(s, id, h))
  {
    hide CountInv, Broadcasts, InFlight, StoredCount, Label, UserFields;
    if h.key in s.cache && s.cache[h.key] == Label(h) {
      var fields := UserFields(h.msg, h.key, s.now);
      var e := Wrote(h.key, Label(h), fields);
      var t := s.(log := s.log + [e]);
      LogsNoBroadcast(s, t, e);
      IssueBalances(t, id, h.(fields := fields), AwaitSetUser);
    } else {
      HandlerLeaves(s, id);
    }
  }

  lemma AdmitBalances(s: State, id: Hid, h: Handler)
    requires CountInv(s) && forall key :: WeightAt(s.handlers, id, key) == 0
    ensures CountInv(Admit(s, id, h))
  {
    hide CountInv, Broadcasts, InFlight, StoredCount, Label;
    if h.reply.None? || Label(h) !in h.reply.value {
      HandlerLeaves(s, id);
    } else {
      var e := Switched(h.key, Label(h));
      var t := s.(cache := s.cache[h.key := Label(h)], log := s.log + [e]);
      LogsNoBroadcast(s, t, e);
      EnqueueBalances(t, id, h, AwaitSetCurrent);
    }
  }

  // ---- Steps ----

  lemma ReceiveBalances(s: State, id: Hid, key: Key, msg: Message)
    requires CountInv(s) && id !in s.handlers
    ensures CountInv(Receive(s, id, key, msg))
  {
    hide CountInv, Broadcasts, InFlight, StoredCount, Label, Player, Named, Enqueue, StartBroadcast;
    var h := Arriving(s.cache, key, msg);
    var t := s.(log := s.log + [Received(key, msg)]);
    LogsNoBroadcast(s, t, Received(key, msg));
    EnqueueBalances(t, id, h, AwaitAllowed);
    StartBroadcastBalances(t, id, h);
  }

  lemma ResumeBalances(s: State, id: Hid)
    requires CountInv(s) && id in s.handlers && s.handlers[id].ready
    ensures CountInv(Resume(s, id))
  {
    hide CountInv, Broadcasts, InFlight, StoredCount, Label, Enqueue, Issue, StartBroadcast, CheckAndWrite, Admit,
         Finish;
    var h := s.handlers[id];
    match h.at {
      case AwaitAllowed => AdmitBalances(s, id, h);
      case AwaitSetCurrent => EnqueueBalances(s, id, h, AwaitPersistField);
      case AwaitPersistField => IssueBalances(s, id, h, AwaitKeepAlive);
      case AwaitKeepAlive => IssueBalances(s, id, h, AwaitRemovePosition);
      case AwaitRemovePosition => StartBroadcastBalances(s, id, h);
      case AwaitPublish => EnqueueBalances(s, id, h, AwaitCount);
      case AwaitCount =>
        if s.setup.ttl.Some? {
          EnqueueBalances(s, id, h, AwaitExpire);
        } else {
          CheckAndWriteBalances(s, id, h);
        }
      case AwaitExpire => CheckAndWriteBalances(s, id, h);
      case AwaitSetUser => IssueBalances(s, id, h, AwaitPersistUser);
      case AwaitPersistUser => IssueBalances(s, id, h, AwaitAddPoint);
      case AwaitAddPoint => HandlerLeaves(s, id);
    }
  }

  /** An increment adds one to its connection; no other command of the store touches a count. */
  lemma CommandCounts(c: Command, conns: Hashes, ttl: Option<int>, now: int, key: Key)
    requires StoredCount(conns, key).Some? && (ttl.Some? ==> ttl.value > 0)
    ensures StoredCount(Executed(c, conns, ttl, now), key)
            == Some(StoredCount(conns, key).value + if c.Increase? && c.key == key then 1 else 0)
  {
  }

  lemma DeliverBalances(s: State)
    requires CountInv(s) && QueueOk(s.queue, s.handlers) && s.queue != []
    ensures CountInv(Deliver(s))
  {
    var c := s.queue[0];
    assert Queued(c, s.handlers);
    var t := Deliver(s);
    DeliverShape(s);
    assert t.conns == Executed(c, s.conns, s.setup.ttl, s.now);
    WeightOfReplied(s);
    hide Deliver, Queued, Replied, AllowedIn, Executed, InFlight;
    forall key
      ensures StoredCount(s.conns, key).Some? && StoredCount(t.conns, key).Some?
      ensures StoredCount(t.conns, key).value + Weight(Replied(s), key) - Broadcasts(t.log, key)
              == StoredCount(s.conns, key).value + WeightAt(s.handlers, c.h, key) - Broadcasts(s.log, key)
    {
      assert Balanced(s.conns, s.handlers, s.log, s.lost, key);
      CommandCounts(c, s.conns, s.setup.ttl, s.now, key);
      if t.log != s.log {
        BroadcastsGrow(s.log, t.log[|s.log|], key);
      }
      hide Broadcasts, StoredCount, Weight;
    }
    hide Broadcasts, StoredCount, Weight, WeightAt;
    HandlerMoves(s, t, c.h, Replied(s));
  }

  lemma WeightOfReplied(s: State)
    requires s.queue != [] && Queued(s.queue[0], s.handlers)
    ensures forall key ::
              WeightAt(s.handlers, s.queue[0].h, key)
              == Weight(Replied(s), key) + if s.queue[0].Increase? && s.queue[0].key == key then 1 else 0
  {
    hide AllowedIn;
  }

  lemma EffectBalances(s: State, id: Hid)
    requires CountInv(s) && id in s.handlers && !s.handlers[id].ready && !OnConnectionStore(s.handlers[id].at)
    ensures CountInv(Effect(s, id))
  {
    var h := s.handlers[id].(ready := true);
    assert forall key :: Weight(h, key) == WeightAt(s.handlers, id, key);
    hide UsersAfter, LiveAfter, Weight, WeightAt, StoredCount, Broadcasts, InFlight;
    assert forall key :: Balanced(s.conns, s.handlers, s.log, s.lost, key) ==> StoredCount(s.conns, key).Some?;
    HandlerMoves(s, Effect(s, id), id, h);
  }

  /** The ground station and the clock count nothing; whatever they remove is recorded as lost. */
  lemma RecordsChange(s: State, t: State)
    requires CountInv(s)
    requires t.handlers == s.handlers && t.log == s.log && t.setup == s.setup && s.lost <= t.lost
    requires forall key :: StoredCount(t.conns, key) == StoredCount(s.conns, key)
                           || (key in t.lost && StoredCount(t.conns, key) == Some(0))
    ensures CountInv(t)
  {
    hide StoredCount, Broadcasts, InFlight;
    forall key
      ensures Balanced(t.conns, t.handlers, t.log, t.lost, key)
    {
      assert Balanced(s.conns, s.handlers, s.log, s.lost, key);
    }
  }

  lemma UpgradeNextBalances(s: State, u: ActorId)
    requires CountInv(s) && u in s.upgrades
    ensures CountInv(UpgradeNext(s, u))
  {
    RecordsChange(s, UpgradeNext(s, u));
  }

  lemma CloseReadBalances(s: State, c: ActorId, key: Key, keepFirst: bool)
    requires CountInv(s)
    ensures CountInv(CloseRead(s, c, key)) && CountInv(ShutdownRead(s, c, key, keepFirst))
  {
    hide CurrentName, StoredCount;
    RecordsChange(s, CloseRead(s, c, key));
    RecordsChange(s, ShutdownRead(s, c, key, keepFirst));
  }

  lemma ExpireCounts(conns: Hashes, key: Option<Key>, now: int)
    ensures forall k :: StoredCount(ExpireSome(conns, key, now), k) == StoredCount(conns, k)
  {
    forall k
      ensures HGet(ExpireSome(conns, key, now), k, PositionCount) == HGet(conns, k, PositionCount)
    {
    }
  }

  lemma CloseNextBalances(s: State, c: ActorId)
    requires CountInv(s) && c in s.closes
    ensures CountInv(CloseNext(s, c))
  {
    hide StoredCount, ExpireSome, TakesAway, LetsExpire, LetsLapse, NextClose;
    ExpireCounts(s.conns, LetsLapse(s.closes[c]), s.now);
    RecordsChange(s, CloseNext(s, c));
  }

  lemma ElapseBalances(s: State, ms: nat)
    requires CountInv(s)
    ensures CountInv(Elapse(s, ms))
  {
    RecordsChange(s, Elapse(s, ms));
  }

  lemma UpgradeBalances(s: State, u: ActorId, key: Key, aborted: bool)
    requires CountInv(s) && key in s.setup.claims
    ensures CountInv(UpgradeWrite(s, u, key, aborted))
  {
    RecordsChange(s, UpgradeWrite(s, u, key, aborted));
  }

  lemma Step(s: State, a: Action)
    requires CountInv(s) && QueueOk(s.queue, s.handlers) && Enabled(s, a)
    ensures CountInv(Next(s, a))
  {
    hide CountInv, QueueOk, Receive, Resume, Deliver, Effect, UpgradeNext, UpgradeWrite, CloseNext, CloseRead,
         ShutdownRead, Elapse;
    match a {
      case DoReceive(h, key, msg) => ReceiveBalances(s, h, key, msg);
      case DoResume(h) => ResumeBalances(s, h);
      case DoDeliver => DeliverBalances(s);
      case DoEffect(h) => EffectBalances(s, h);
      case DoUpgrade(u, key, aborted) => UpgradeBalances(s, u, key, aborted);
      case DoUpgradeNext(u) => UpgradeNextBalances(s, u);
      case DoClose(c, key) => CloseReadBalances(s, c, key, false);
      case DoShutdown(c, key, keepFirst) => CloseReadBalances(s, c, key, keepFirst);
      case DoCloseNext(c) => CloseNextBalances(s, c);
      case DoElapse(ms) => ElapseBalances(s, ms);
    }
  }

  lemma {:induction false} RunKeepsCount(setup: Setup, run: seq<Action>)
    requires Configured(setup.ttl) && IsRun(setup, run)
    ensures CountInv(StateAfter(setup, run))
  {
    if run == [] {
      Nothing(setup);
    } else {
      RunKeepsCount(setup, run[..|run| - 1]);
      RunKeepsInv(setup, run[..|run| - 1]);
      hide CountInv, Next, Enabled, QueueOk;
      Step(StateAfter(setup, run[..|run| - 1]), run[|run| - 1]);
    }
  }

  lemma Nothing(setup: Setup)
    requires Configured(setup.ttl)
    ensures CountInv(Initial(setup))
  {
    assert forall key :: InFlight(map[], key) == {};
  }

  /**
   In every interleaving, the broadcasts of a connection are its stored count plus the handlers
   between broadcast and increment, unless the record was deleted or has expired.
   */
  lemma CountIsConserved(setup: Setup, run: seq<Action>, key: Key)
    requires Configured(setup.ttl) && IsRun(setup, run) && key !in StateAfter(setup, run).lost
    ensures var s := StateAfter(setup, run);
            StoredCount(s.conns, key) == Some(Broadcasts(s.log, key) - |InFlight(s.handlers, key)|)
  {
    RunKeepsCount(setup, run);
    var s := StateAfter(setup, run);
    hide StoredCount, InFlight, Broadcasts;
    assert Balanced(s.conns, s.handlers, s.log, s.lost, key);
  }
}
