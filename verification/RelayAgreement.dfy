/**
 The relay's cache and the stored connection records agree in every interleaving: the map update
 and the store write are issued in one segment, and the connection store executes in issue order.
 */
module RelayAgreement {
  import opened Wrappers
  import opened HashStore
  import opened Positions
  import opened Relay

  /** The name of the youngest pending write of a connection's current character. */
  function PendingName(queue: seq<Command>, key: Key): Option<Name> {
    if queue == [] then None
    else
      var c := queue[|queue| - 1];
      if c.SetCurrent? && c.key == key then Some(c.name) else PendingName(queue[..|queue| - 1], key)
  }

  function Stored(conns: Hashes, key: Key): Option<Value> {
    HGet(conns, key, CurrentCharacter)
  }

  function Cached(cache: map<Key, Name>, key: Key): Option<Value> {
    if key in cache then Some(Text(cache[key])) else None
  }

  /**
   A pending write carries the cached name. With none pending, the store holds the cached name or,
   if the record was lost, possibly nothing.
   */
  ghost predicate Agree(cache: map<Key, Name>, conns: Hashes, queue: seq<Command>, lost: set<Key>, key: Key) {
    match PendingName(queue, key)
    case Some(name) => key in cache && name == cache[key]
    case None =>
      && (Stored(conns, key) == None || Stored(conns, key) == Cached(cache, key))
      && (key !in lost ==> Stored(conns, key) == Cached(cache, key))
  }

  ghost predicate AgreeInv(s: State) {
    (s.setup.ttl.Some? ==> s.setup.ttl.value > 0) &&
    forall key :: Agree(s.cache, s.conns, s.queue, s.lost, key)
  }

  // ---- The queue ----

  lemma PendingAppend(queue: seq<Command>, c: Command, key: Key)
    ensures PendingName(queue + [c], key)
            == if c.SetCurrent? && c.key == key then Some(c.name) else PendingName(queue, key)
  {
    assert (queue + [c])[..|queue|] == queue;
  }

  /** Taking the oldest command away loses the pending name only if it was the only write. */
  lemma {:induction false} PendingTail(queue: seq<Command>, key: Key)
    requires queue != []
    ensures PendingName(queue, key)
            == if PendingName(queue[1..], key).Some? then PendingName(queue[1..], key)
               else if queue[0].SetCurrent? && queue[0].key == key then Some(queue[0].name) else None
  {
    var n := |queue| - 1;
    if n > 0 {
      PendingTail(queue[..n], key);
      assert queue[..n][1..] == queue[1..][..n - 1];
      assert queue[1..][n - 1] == queue[n];
    }
  }

  // ---- Segments ----

  /** Segments that neither switch nor touch the records. */
  lemma QuietSegment(s: State, t: State)
    requires AgreeInv(s)
    requires t.cache == s.cache && t.conns == s.conns && t.lost == s.lost && t.setup == s.setup && t.queue == s.queue
    ensures AgreeInv(t)
  {
  }

  lemma EnqueueAgrees(s: State, id: Hid, h: Handler, at: Await)
    requires AgreeInv(s) && OnConnectionStore(at) && !at.AwaitSetCurrent?
    ensures AgreeInv(Enqueue(s, id, h, at))
  {
    var c := CommandOf(id, Waiting(h, at));
    assert !c.SetCurrent?;
    var t := Enqueue(s, id, h, at);
    hide CommandOf, Stored, Cached;
    forall key
      ensures Agree(t.cache, t.conns, t.queue, t.lost, key)
    {
      PendingAppend(s.queue, c, key);
      assert Agree(s.cache, s.conns, s.queue, s.lost, key);
      hide PendingName;
    }
  }

  lemma CheckAndWriteAgrees(s: State, id: Hid, h: Handler)
    requires AgreeInv(s)
    ensures AgreeInv(CheckAndWrite(s, id, h))
  {
    hide AgreeInv, Label, UserFields, PositionOf, Waiting;
    QuietSegment(s, CheckAndWrite(s, id, h));
  }

  /** A switch issues its write in the same segment. */
  lemma SwitchSegment(s: State, t: State, id: Hid, key: Key, name: Name)
    requires AgreeInv(s)
    requires t.cache == s.cache[key := name] && t.conns == s.conns && t.lost == s.lost && t.setup == s.setup
    requires t.queue == s.queue + [SetCurrent(id, key, name)]
    ensures AgreeInv(t)
  {
    forall k
      ensures Agree(t.cache, t.conns, t.queue, t.lost, k)
    {
      PendingAppend(s.queue, SetCurrent(id, key, name), k);
      assert Agree(s.cache, s.conns, s.queue, s.lost, k);
      hide PendingName, Stored;
    }
  }

  lemma ReceiveAgrees(s: State, id: Hid, key: Key, msg: Message)
    requires AgreeInv(s)
    ensures AgreeInv(Receive(s, id, key, msg))
  {
    hide AgreeInv, Player, Named, Label, Enqueue;
    var t := s.(log := s.log + [Received(key, msg)]);
    QuietSegment(s, t);
    EnqueueAgrees(t, id, Arriving(s.cache, key, msg), AwaitAllowed);
    QuietSegment(t, StartBroadcast(t, id, Arriving(s.cache, key, msg)));
  }

  lemma AdmitAgrees(s: State, id: Hid, h: Handler)
    requires AgreeInv(s)
    ensures AgreeInv(Admit(s, id, h))
  {
    hide AgreeInv, Label;
    if h.reply.None? || Label(h) !in h.reply.value {
      QuietSegment(s, Admit(s, id, h));
    } else {
      LabelOfWaiting(h, AwaitSetCurrent);
      SwitchSegment(s, Admit(s, id, h), id, h.key, Label(h));
    }
  }

  lemma LabelOfWaiting(h: Handler, at: Await)
    ensures Label(Waiting(h, at)) == Label(h)
  {
  }

  lemma ResumeAgrees(s: State, id: Hid)
    requires AgreeInv(s) && id in s.handlers
    ensures AgreeInv(Resume(s, id))
  {
    hide AgreeInv, Label, Enqueue, CheckAndWrite, Admit;
    var h := s.handlers[id];
    match h.at {
      case AwaitAllowed => AdmitAgrees(s, id, h);
      case AwaitSetCurrent => EnqueueAgrees(s, id, h, AwaitPersistField);
      case AwaitPublish => EnqueueAgrees(s, id, h, AwaitCount);
      case AwaitCount =>
        if s.setup.ttl.Some? {
          EnqueueAgrees(s, id, h, AwaitExpire);
        } else {
          CheckAndWriteAgrees(s, id, h);
        }
      case AwaitExpire => CheckAndWriteAgrees(s, id, h);
      case _ => QuietSegment(s, Resume(s, id));
    }
  }

  // ---- Effects ----

  /** Commands that leave every current character as it is. */
  ghost predicate KeepsCurrent(conns: Hashes, conns': Hashes) {
    forall key :: Stored(conns', key) == Stored(conns, key)
  }

  lemma CommandKeepsCurrent(c: Command, conns: Hashes, ttl: Option<int>, now: int)
    requires !c.SetCurrent? && (ttl.Some? ==> ttl.value > 0)
    ensures KeepsCurrent(conns, Executed(c, conns, ttl, now))
  {
  }

  lemma DeliverAgrees(s: State)
    requires AgreeInv(s) && s.queue != []
    ensures AgreeInv(Deliver(s))
  {
    var c, t := s.queue[0], Deliver(s);
    assert t.cache == s.cache && t.lost == s.lost && t.setup == s.setup && t.queue == s.queue[1..];
    assert t.conns == Executed(c, s.conns, s.setup.ttl, s.now);
    hide Deliver;
    if !c.SetCurrent? {
      CommandKeepsCurrent(c, s.conns, s.setup.ttl, s.now);
    }
    forall key
      ensures Agree(t.cache, t.conns, t.queue, t.lost, key)
    {
      PendingTail(s.queue, key);
      assert Agree(s.cache, s.conns, s.queue, s.lost, key);
      hide PendingName;
    }
  }

  /** The ground station and the clock write no name; whatever they remove is recorded as lost. */
  lemma RecordsChange(s: State, t: State)
    requires AgreeInv(s)
    requires t.cache == s.cache && t.queue == s.queue && t.setup == s.setup && s.lost <= t.lost
    requires forall key ::
               || Stored(t.conns, key) == Stored(s.conns, key)
               || (key in t.lost && Stored(t.conns, key) == None)
    ensures AgreeInv(t)
  {
    hide PendingName, Stored, Cached;
    forall key
      ensures Agree(t.cache, t.conns, t.queue, t.lost, key)
    {
      assert Agree(s.cache, s.conns, s.queue, s.lost, key);
    }
  }

  lemma UpgradeAgrees(s: State, u: ActorId, key: Key, aborted: bool)
    requires AgreeInv(s) && key in s.setup.claims
    ensures AgreeInv(UpgradeWrite(s, u, key, aborted))
  {
    RecordsChange(s, UpgradeWrite(s, u, key, aborted));
  }

  lemma UpgradeNextAgrees(s: State, u: ActorId)
    requires AgreeInv(s) && u in s.upgrades
    ensures AgreeInv(UpgradeNext(s, u))
  {
    RecordsChange(s, UpgradeNext(s, u));
  }

  lemma CloseReadAgrees(s: State, c: ActorId, key: Key, keepFirst: bool)
    requires AgreeInv(s)
    ensures AgreeInv(CloseRead(s, c, key)) && AgreeInv(ShutdownRead(s, c, key, keepFirst))
  {
    hide AgreeInv, CurrentName;
    QuietSegment(s, CloseRead(s, c, key));
    QuietSegment(s, ShutdownRead(s, c, key, keepFirst));
  }

  lemma ExpireKeepsCurrent(conns: Hashes, key: Option<Key>, now: int)
    ensures KeepsCurrent(conns, ExpireSome(conns, key, now))
  {
  }

  lemma CloseNextAgrees(s: State, c: ActorId)
    requires AgreeInv(s) && c in s.closes
    ensures AgreeInv(CloseNext(s, c))
  {
    ExpireKeepsCurrent(s.conns, LetsLapse(s.closes[c]), s.now);
    hide AgreeInv, Stored, ExpireSome, TakesAway, LetsExpire, LetsLapse, NextClose;
    RecordsChange(s, CloseNext(s, c));
  }

  lemma ElapseAgrees(s: State, ms: nat)
    requires AgreeInv(s)
    ensures AgreeInv(Elapse(s, ms))
  {
    RecordsChange(s, Elapse(s, ms));
  }

  lemma Step(s: State, a: Action)
    requires AgreeInv(s) && Enabled(s, a)
    ensures AgreeInv(Next(s, a))
  {
    hide AgreeInv, Receive, Resume, Deliver, UpgradeNext, UpgradeWrite, CloseNext, CloseRead, ShutdownRead, Elapse;
    match a {
      case DoReceive(h, key, msg) => ReceiveAgrees(s, h, key, msg);
      case DoResume(h) => ResumeAgrees(s, h);
      case DoDeliver => DeliverAgrees(s);
      case DoEffect(h) => QuietSegment(s, Effect(s, h));
      case DoUpgrade(u, key, aborted) => UpgradeAgrees(s, u, key, aborted);
      case DoUpgradeNext(u) => UpgradeNextAgrees(s, u);
      case DoClose(c, key) => CloseReadAgrees(s, c, key, false);
      case DoShutdown(c, key, keepFirst) => CloseReadAgrees(s, c, key, keepFirst);
      case DoCloseNext(c) => CloseNextAgrees(s, c);
      case DoElapse(ms) => ElapseAgrees(s, ms);
    }
  }

  lemma {:induction false} RunKeepsAgreement(setup: Setup, run: seq<Action>)
    requires Configured(setup.ttl) && IsRun(setup, run)
    ensures AgreeInv(StateAfter(setup, run))
  {
    if run != [] {
      RunKeepsAgreement(setup, run[..|run| - 1]);
      hide AgreeInv, Next, Enabled;
      Step(StateAfter(setup, run[..|run| - 1]), run[|run| - 1]);
    }
  }

  /**
   In every interleaving, once no write of a connection's name is pending, its stored current
   character is the cached one. A record that was deleted or has expired may hold none instead.
   */
  lemma DrainedStoreAgrees(setup: Setup, run: seq<Action>, key: Key)
    requires Configured(setup.ttl) && IsRun(setup, run)
    requires PendingName(StateAfter(setup, run).queue, key) == None
    ensures var s := StateAfter(setup, run);
            && (key !in s.lost ==> Stored(s.conns, key) == Cached(s.cache, key))
            && (Stored(s.conns, key) == None || Stored(s.conns, key) == Cached(s.cache, key))
  {
    RunKeepsAgreement(setup, run);
    var s := StateAfter(setup, run);
    assert Agree(s.cache, s.conns, s.queue, s.lost, key);
  }
}
