/**
 Everything in flight can be brought to an end: pending commands take effect, handlers go on one at
 a time, and chosen ones may be held back meanwhile. No message need arrive for this.
 */
module RelayDrain {
  import opened Wrappers
  import opened HashStore
  import opened Positions
  import opened Relay
  import opened RelayAuthority
  import opened RelayPending
  import opened RelayGhosts
  import opened RelayPaths

  // ---- Pending commands take effect ----

  predicate Admitted(h: Handler) {
    h.reply.Some? && Label(h) in h.reply.value
  }

  /** The reply admits the handler, or will as the list stands. */
  predicate WillBeAdmitted(conns: Hashes, h: Handler) {
    h.at.AwaitAllowed?
    && if h.ready then Admitted(h) else AllowedIn(conns, h.key).Some? && Label(h) in AllowedIn(conns, h.key).value
  }

  /** What steps of the relay that receive and switch nothing leave alone. */
  ghost predicate Beside(s: State, t: State) {
    && t.setup == s.setup && t.now == s.now && t.upgrades == s.upgrades && t.closes == s.closes && t.lost == s.lost
    && forall key :: AllowedIn(t.conns, key) == AllowedIn(s.conns, key)
  }

  /** Handlers are where they were, with their commands served or not. */
  ghost predicate Served(s: State, t: State) {
    && t.handlers.Keys == s.handlers.Keys
    && forall id | id in s.handlers ::
         && SameJob(s.handlers[id], t.handlers[id]) && t.handlers[id].at == s.handlers[id].at
         && (WillBeAdmitted(s.conns, s.handlers[id]) ==> WillBeAdmitted(t.conns, t.handlers[id]))
  }

  predicate Settled(s: State) {
    s.queue == [] && s.issued == []
  }

  lemma SettledIsReady(s: State)
    requires PendingInv(s) && Settled(s)
    ensures forall id | id in s.handlers :: s.handlers[id].ready
  {
    forall id | id in s.handlers
      ensures s.handlers[id].ready
    {
      assert !Outstanding(s.handlers, id) && !Commanded(s.queue, id);
    }
  }

  lemma ExecutedKeepsAllowed(c: Command, conns: Hashes, ttl: Option<int>, now: int)
    requires Configured(ttl)
    ensures forall key :: AllowedIn(Executed(c, conns, ttl, now), key) == AllowedIn(conns, key)
  {
    hide CountIn;
    forall key
      ensures HGet(Executed(c, conns, ttl, now), key, AllowedCharacters) == HGet(conns, key, AllowedCharacters)
    {
    }
  }

  lemma ServeOne(s: State, t: State, id: Hid, h': Handler)
    requires id in s.handlers && t.handlers == s.handlers[id := h'] && Beside(s, t)
    requires SameJob(s.handlers[id], h') && h'.at == s.handlers[id].at
    requires WillBeAdmitted(s.conns, s.handlers[id]) ==> WillBeAdmitted(t.conns, h')
    ensures Served(s, t)
  {
    hide AllowedIn, Label;
  }

  lemma DeliverServes(s: State)
    requires Sound(s) && s.queue != [] && Configured(s.setup.ttl)
    ensures var t := Deliver(s);
            && Beside(s, t) && Served(s, t) && t.cache == s.cache && t.live == s.live && t.users == s.users
            && t.queue == s.queue[1..] && t.issued == s.issued
  {
    var c := s.queue[0];
    HeadIsQueued(s);
    DeliverShape(s);
    ExecutedKeepsAllowed(c, s.conns, s.setup.ttl, s.now);
    hide Inv, PendingInv, Executed;
    var t, h, h' := Deliver(s), s.handlers[c.h], Replied(s);
    assert t.conns == Executed(c, s.conns, s.setup.ttl, s.now);
    assert c.GetAllowed? <==> h.at.AwaitAllowed?;
    hide Deliver, AllowedIn, CommandOf;
    assert Beside(s, t);
    assert WillBeAdmitted(s.conns, h) ==> WillBeAdmitted(t.conns, h') by {
      SameJobSameLabel(h, h');
      hide Label;
    }
    hide Replied, WillBeAdmitted;
    ServeOne(s, t, c.h, h');
  }

  lemma EffectServes(s: State, id: Hid)
    requires id in s.handlers && !OnConnectionStore(s.handlers[id].at)
    ensures var t := Effect(s, id);
            && Beside(s, t) && Served(s, t) && t.cache == s.cache && t.conns == s.conns
            && t.queue == s.queue && t.issued == Without(s.issued, id)
            && t.live == LiveAfter(s.handlers[id], s.live)
            && t.handlers == s.handlers[id := s.handlers[id].(ready := true)]
  {
    hide UsersAfter, LiveAfter, Without, AllowedIn, Label;
  }

  lemma {:induction false} WithoutIsShorter(ids: seq<Hid>, id: Hid)
    ensures |Without(ids, id)| <= |ids|
    ensures id in ids ==> |Without(ids, id)| < |ids|
  {
    if ids != [] {
      WithoutIsShorter(ids[1..], id);
      assert ids == [ids[0]] + ids[1..];
    }
  }

  lemma ServedOn(s: State, t: State, u: State)
    requires Beside(s, t) && Served(s, t) && Beside(t, u) && Served(t, u)
    ensures Beside(s, u) && Served(s, u)
  {
    hide AllowedIn, WillBeAdmitted;
  }

  lemma {:induction false} SettleQueue(m: Newcomers, s: State) returns (t: State)
    requires Sound(s) && Configured(s.setup.ttl)
    ensures Reach(m, s, t) && Sound(t) && Beside(s, t) && Served(s, t) && t.cache == s.cache
    ensures t.queue == [] && t.issued == s.issued && t.live == s.live
    decreases |s.queue|
  {
    hide Sound, Reach, Beside, Served, Deliver;
    if s.queue == [] {
      Stay(m, s);
      t := s;
      ServedAlready(s);
    } else {
      DeliverServes(s);
      SoundStep(s, DoDeliver);
      Act(m, s, DoDeliver);
      assert Configured(Deliver(s).setup.ttl) by {
        assert Beside(s, Deliver(s));
        SetupBeside(s, Deliver(s));
      }
      t := SettleQueue(m, Deliver(s));
      Then(m, s, Deliver(s), t);
      ServedOn(s, Deliver(s), t);
    }
  }

  lemma SetupBeside(s: State, t: State)
    requires Beside(s, t)
    ensures t.setup == s.setup
  {
  }

  lemma ServedAlready(s: State)
    ensures Beside(s, s) && Served(s, s)
  {
  }

  lemma {:induction false} SettleIssued(m: Newcomers, s: State) returns (t: State)
    requires Sound(s) && Configured(s.setup.ttl) && s.queue == []
    ensures Reach(m, s, t) && Sound(t) && Beside(s, t) && Served(s, t) && t.cache == s.cache && Settled(t)
    decreases |s.issued|
  {
    if s.issued == [] {
      Stay(m, s);
      t := s;
      ServedAlready(s);
    } else {
      var id := s.issued[0];
      OldestIsInTurn(s);
      assert Outstanding(s.handlers, id);
      hide Sound, Reach, Beside, Served, Effect, InTurn;
      EffectServes(s, id);
      WithoutIsShorter(s.issued, id);
      SoundStep(s, DoEffect(id));
      Act(m, s, DoEffect(id));
      SetupBeside(s, Effect(s, id));
      t := SettleIssued(m, Effect(s, id));
      Then(m, s, Effect(s, id), t);
      ServedOn(s, Effect(s, id), t);
    }
  }

  /** All pending commands take effect, and every handler is ready to go on. */
  lemma Settle(m: Newcomers, s: State) returns (t: State)
    requires Sound(s) && Configured(s.setup.ttl)
    ensures Reach(m, s, t) && Sound(t) && Beside(s, t) && Served(s, t) && t.cache == s.cache && Settled(t)
  {
    hide Sound, Reach, Beside, Served;
    var u := SettleQueue(m, s);
    SetupBeside(s, u);
    t := SettleIssued(m, u);
    Then(m, s, u, t);
    ServedOn(s, u, t);
  }

  // ---- One handler goes on ----

  /** Where a handler that is ready waits next, if it does not end. */
  function NextAwait(s: State, h: Handler): Option<Await> {
    match h.at
    case AwaitAllowed => if Admitted(h) then Some(AwaitSetCurrent) else None
    case AwaitSetCurrent => Some(AwaitPersistField)
    case AwaitPersistField => Some(AwaitKeepAlive)
    case AwaitKeepAlive => Some(AwaitRemovePosition)
    case AwaitRemovePosition => Some(AwaitPublish)
    case AwaitPublish => Some(AwaitCount)
    case AwaitCount =>
      if s.setup.ttl.Some? then Some(AwaitExpire) else if IsCached(s.cache, h) then Some(AwaitSetUser) else None
    case AwaitExpire => if IsCached(s.cache, h) then Some(AwaitSetUser) else None
    case AwaitSetUser => Some(AwaitPersistUser)
    case AwaitPersistUser => Some(AwaitAddPoint)
    case AwaitAddPoint => None
  }

  function CacheAfter(s: State, h: Handler): map<Key, Name> {
    if h.at.AwaitAllowed? && Admitted(h) then s.cache[h.key := Label(h)] else s.cache
  }

  /** The handler ends, or waits at its next await with its command issued. */
  predicate GoesOn(s: State, t: State, id: Hid)
    requires id in s.handlers
  {
    var h := s.handlers[id];
    && t.conns == s.conns && t.live == s.live && t.setup == s.setup && t.now == s.now
    && t.upgrades == s.upgrades && t.closes == s.closes && t.lost == s.lost
    && t.cache == CacheAfter(s, h)
    && match NextAwait(s, h)
       case None => t.handlers == s.handlers - {id} && t.queue == s.queue && t.issued == s.issued
       case Some(next) =>
         && id in t.handlers && t.handlers == s.handlers[id := t.handlers[id]]
         && SameJob(h, t.handlers[id]) && t.handlers[id].at == next && !t.handlers[id].ready
         && t.queue == (if OnConnectionStore(next) then s.queue + [CommandOf(id, t.handlers[id])] else s.queue)
         && t.issued == (if OnConnectionStore(next) then s.issued else s.issued + [id])
  }

  lemma EnqueueGoesOn(s: State, id: Hid, next: Await)
    requires id in s.handlers && NextAwait(s, s.handlers[id]) == Some(next) && OnConnectionStore(next)
    requires !s.handlers[id].at.AwaitAllowed?
    ensures GoesOn(s, Enqueue(s, id, s.handlers[id], next), id)
  {
    hide CommandOf, NextAwait, Label;
  }

  lemma IssueGoesOn(s: State, id: Hid, next: Await)
    requires id in s.handlers && NextAwait(s, s.handlers[id]) == Some(next) && !OnConnectionStore(next)
    requires !s.handlers[id].at.AwaitAllowed?
    ensures GoesOn(s, Issue(s, id, s.handlers[id], next), id)
  {
    hide CommandOf, NextAwait, Label;
  }

  lemma StartBroadcastGoesOn(s: State, id: Hid)
    requires id in s.handlers && s.handlers[id].at.AwaitRemovePosition?
    ensures GoesOn(s, StartBroadcast(s, id, s.handlers[id]), id)
  {
    hide CommandOf, Label;
    StartBroadcastShape(s, id, s.handlers[id]);
    hide StartBroadcast;
  }

  lemma AdmitGoesOn(s: State, id: Hid)
    requires id in s.handlers && s.handlers[id].at.AwaitAllowed?
    ensures GoesOn(s, Admit(s, id, s.handlers[id]), id)
  {
    hide CommandOf, Label;
  }

  lemma WritingGoesOn(s: State, id: Hid, log: Log, fields: map<Field, Value>)
    requires id in s.handlers && NextAwait(s, s.handlers[id]) == Some(AwaitSetUser) && !s.handlers[id].at.AwaitAllowed?
    ensures GoesOn(s, Issue(s.(log := log), id, s.handlers[id].(fields := fields), AwaitSetUser), id)
  {
    hide CommandOf, NextAwait, Label;
  }

  lemma EndGoesOn(s: State, id: Hid)
    requires id in s.handlers && NextAwait(s, s.handlers[id]) == None
    ensures GoesOn(s, Finish(s, id), id)
  {
    hide CommandOf, Label;
  }

  lemma CheckAndWriteGoesOn(s: State, id: Hid)
    requires id in s.handlers
    requires s.handlers[id].at.AwaitExpire? || (s.handlers[id].at.AwaitCount? && s.setup.ttl == None)
    ensures GoesOn(s, CheckAndWrite(s, id, s.handlers[id]), id)
  {
    hide GoesOn, Label, UserFields, Issue, Finish;
    var h := s.handlers[id];
    if IsCached(s.cache, h) {
      var fields := UserFields(h.msg, h.key, s.now);
      WritingGoesOn(s, id, s.log + [Wrote(h.key, Label(h), fields)], fields);
    } else {
      EndGoesOn(s, id);
    }
  }

  lemma FinishGoesOn(s: State, id: Hid)
    requires id in s.handlers && s.handlers[id].at.AwaitAddPoint?
    ensures GoesOn(s, Finish(s, id), id)
  {
    hide CommandOf, Label;
  }

  lemma ResumeGoesOn(s: State, id: Hid)
    requires id in s.handlers
    ensures GoesOn(s, Resume(s, id), id)
  {
    hide GoesOn, Admit, CheckAndWrite, Enqueue, Issue, Finish, StartBroadcast;
    match s.handlers[id].at {
      case AwaitAllowed => AdmitGoesOn(s, id);
      case AwaitSetCurrent => EnqueueGoesOn(s, id, AwaitPersistField);
      case AwaitPersistField => IssueGoesOn(s, id, AwaitKeepAlive);
      case AwaitKeepAlive => IssueGoesOn(s, id, AwaitRemovePosition);
      case AwaitRemovePosition => StartBroadcastGoesOn(s, id);
      case AwaitPublish => EnqueueGoesOn(s, id, AwaitCount);
      case AwaitCount =>
        if s.setup.ttl.Some? {
          EnqueueGoesOn(s, id, AwaitExpire);
        } else {
          CheckAndWriteGoesOn(s, id);
        }
      case AwaitExpire => CheckAndWriteGoesOn(s, id);
      case AwaitSetUser => IssueGoesOn(s, id, AwaitPersistUser);
      case AwaitPersistUser => IssueGoesOn(s, id, AwaitAddPoint);
      case AwaitAddPoint => FinishGoesOn(s, id);
    }
  }

  /** From a settled state to the next, one await further. */
  ghost predicate Pushed(s: State, t: State, id: Hid)
    requires id in s.handlers
  {
    var h := s.handlers[id];
    && Beside(s, t) && t.cache == CacheAfter(s, h)
    && match NextAwait(s, h)
       case None => t.handlers == s.handlers - {id} && t.live == s.live
       case Some(next) =>
         && id in t.handlers && t.handlers == s.handlers[id := t.handlers[id]]
         && SameJob(h, t.handlers[id]) && t.handlers[id].at == next
         && t.live == LiveAfter(t.handlers[id], s.live)
  }

  lemma Push(m: Newcomers, s: State, id: Hid) returns (t: State)
    requires Sound(s) && Settled(s) && Configured(s.setup.ttl) && id in s.handlers
    ensures Reach(m, s, t) && Sound(t) && Settled(t) && Pushed(s, t, id)
  {
    SettledIsReady(s);
    ResumeGoesOn(s, id);
    var u := Resume(s, id);
    hide Sound, Reach, Resume, NextAwait, CacheAfter, SameJob, CommandOf, LiveAfter;
    SoundStep(s, DoResume(id));
    Act(m, s, DoResume(id));
    match NextAwait(s, s.handlers[id]) {
      case None => t := u;
      case Some(next) =>
        t := ServeAlone(m, u, id);
        Then(m, s, u, t);
        PushedOn(s, u, t, id);
    }
  }

  /** The one pending command of the handler has taken effect. */
  ghost predicate Alone(u: State, t: State, id: Hid)
    requires id in u.handlers
  {
    && Settled(t) && Beside(u, t) && t.cache == u.cache
    && id in t.handlers && t.handlers == u.handlers[id := t.handlers[id]]
    && SameJob(u.handlers[id], t.handlers[id]) && t.handlers[id].at == u.handlers[id].at
    && t.live == LiveAfter(u.handlers[id], u.live)
  }

  lemma DeliverAlone(u: State, id: Hid)
    requires Sound(u) && Configured(u.setup.ttl) && id in u.handlers && OnConnectionStore(u.handlers[id].at)
    requires u.queue == [CommandOf(id, u.handlers[id])] && u.issued == []
    ensures Alone(u, Deliver(u), id)
  {
    assert CommandOf(id, u.handlers[id]).h == id;
    assert LiveAfter(u.handlers[id], u.live) == u.live;
    hide Sound, LiveAfter, CommandOf, Beside;
    DeliverServes(u);
    DeliverShape(u);
    hide Deliver, WillBeAdmitted, Replied;
  }

  lemma EffectAlone(u: State, id: Hid)
    requires id in u.handlers && !OnConnectionStore(u.handlers[id].at) && !u.handlers[id].ready
    requires u.queue == [] && u.issued == [id]
    ensures Alone(u, Effect(u, id), id) && Enabled(u, DoEffect(id))
  {
    assert u.issued[0] == id && First(u, 0);
    assert InTurn(u, id);
    hide LiveAfter, InTurn, Beside;
    EffectServes(u, id);
    AloneIsTaken(id);
    hide Effect;
  }

  lemma ServeAlone(m: Newcomers, u: State, id: Hid) returns (t: State)
    requires Sound(u) && Configured(u.setup.ttl) && id in u.handlers && !u.handlers[id].ready
    requires var at := u.handlers[id].at;
             && u.queue == (if OnConnectionStore(at) then [CommandOf(id, u.handlers[id])] else [])
             && u.issued == (if OnConnectionStore(at) then [] else [id])
    ensures Reach(m, u, t) && Sound(t) && Alone(u, t, id)
  {
    hide Sound, Reach, Deliver, Effect, CommandOf, Alone, InTurn;
    if OnConnectionStore(u.handlers[id].at) {
      DeliverAlone(u, id);
      SoundStep(u, DoDeliver);
      Act(m, u, DoDeliver);
      t := Deliver(u);
    } else {
      EffectAlone(u, id);
      SoundStep(u, DoEffect(id));
      Act(m, u, DoEffect(id));
      t := Effect(u, id);
    }
  }

  lemma PushedOn(s: State, u: State, t: State, id: Hid)
    requires id in s.handlers && GoesOn(s, u, id) && NextAwait(s, s.handlers[id]).Some?
    requires Alone(u, t, id)
    ensures Pushed(s, t, id)
  {
    hide NextAwait, CacheAfter, AllowedIn, CommandOf;
    SameJobSameLabel(u.handlers[id], t.handlers[id]);
    hide Label;
  }

  // ---- One handler to its end ----

  function Rank(at: Await): nat {
    match at
    case AwaitAllowed => 10
    case AwaitSetCurrent => 9
    case AwaitPersistField => 8
    case AwaitKeepAlive => 7
    case AwaitRemovePosition => 6
    case AwaitPublish => 5
    case AwaitCount => 4
    case AwaitExpire => 3
    case AwaitSetUser => 2
    case AwaitPersistUser => 1
    case AwaitAddPoint => 0
  }

  predicate PastGuard(at: Await) {
    at.AwaitSetUser? || at.AwaitPersistUser?
  }

  lemma RankFalls(s: State, h: Handler)
    ensures match NextAwait(s, h)
            case Some(next) => Rank(next) < Rank(h.at) && (PastGuard(h.at) ==> PastGuard(next) || next.AwaitAddPoint?)
                               && !next.AwaitAllowed?
            case None => !PastGuard(h.at)
  {
  }

  lemma BesideOn(s: State, t: State, u: State)
    requires Beside(s, t) && Beside(t, u)
    ensures Beside(s, u)
  {
    hide AllowedIn;
  }

  /** What a handler that goes on alone to its end leaves behind. */
  ghost predicate Driven(s: State, t: State, id: Hid)
    requires id in s.handlers
  {
    && Beside(s, t) && t.handlers == s.handlers - {id} && t.cache == CacheAfter(s, s.handlers[id])
    && (PastGuard(s.handlers[id].at) ==> t.live == s.live + {Label(s.handlers[id])})
    && (s.handlers[id].at.AwaitAddPoint? ==> t.live == s.live)
    && (Rank(s.handlers[id].at) <= Rank(AwaitRemovePosition) ==> s.live <= t.live)
  }

  /** From the removal on, a handler takes no more positions away. */
  lemma LiveGrows(s: State, u: State, id: Hid)
    requires id in s.handlers && Pushed(s, u, id) && id in u.handlers
             && Rank(s.handlers[id].at) <= Rank(AwaitRemovePosition)
    ensures s.live <= u.live && Rank(u.handlers[id].at) <= Rank(AwaitRemovePosition)
  {
    RankFalls(s, s.handlers[id]);
    hide AllowedIn, Label, NextAwait, Beside;
  }

  lemma DrivenOn(s: State, u: State, t: State, id: Hid)
    requires id in s.handlers && Pushed(s, u, id) && id in u.handlers && Driven(u, t, id)
    ensures Driven(s, t, id)
  {
    if Rank(s.handlers[id].at) <= Rank(AwaitRemovePosition) {
      LiveGrows(s, u, id);
    }
    hide AllowedIn;
    RankFalls(s, s.handlers[id]);
    SameJobSameLabel(s.handlers[id], u.handlers[id]);
    hide Label, NextAwait;
  }

  /** A handler goes on alone to its end. */
  lemma {:induction false} Drive(m: Newcomers, s: State, id: Hid) returns (t: State)
    requires Sound(s) && Settled(s) && Configured(s.setup.ttl) && id in s.handlers
    ensures Reach(m, s, t) && Sound(t) && Settled(t) && Driven(s, t, id)
    decreases Rank(s.handlers[id].at)
  {
    RankFalls(s, s.handlers[id]);
    var u := Push(m, s, id);
    SetupBeside(s, u);
    hide Sound, Reach, Beside, CacheAfter, Label, NextAwait, Rank;
    if id in u.handlers {
      t := Drive(m, u, id);
      Then(m, s, u, t);
      hide Pushed, Driven;
      DrivenOn(s, u, t, id);
    } else {
      t := u;
    }
  }

  lemma DrivenAway(s: State, t: State, id: Hid)
    requires id in s.handlers && Driven(s, t, id)
    ensures t.handlers == s.handlers - {id} && Beside(s, t)
  {
    hide Beside, CacheAfter, Label;
  }

  lemma DrivenKeeps(s: State, t: State, id: Hid, held: set<Hid>)
    requires id in s.handlers && id !in held && Driven(s, t, id)
    ensures forall name, but | Shunned(s, name, but) :: Shunned(t, name, but)
    ensures forall name | Loose(s, name, held) :: Loose(t, name, held)
  {
    hide Shunned, Loose, Driven;
    forall name, but | Shunned(s, name, but)
      ensures Shunned(t, name, but)
    {
      DrivenShuns(s, t, id, name, but);
    }
    forall name | Loose(s, name, held)
      ensures Loose(t, name, held)
    {
      DrivenStaysLoose(s, t, id, name, held);
    }
  }

  /** All but the chosen handlers go on to their ends, one after the other. */
  lemma {:induction false} DrainBut(m: Newcomers, s: State, held: set<Hid>) returns (t: State)
    requires Sound(s) && Settled(s) && Configured(s.setup.ttl)
    ensures Reach(m, s, t) && Sound(t) && Settled(t) && Beside(s, t)
    ensures t.handlers == map id | id in s.handlers && id in held :: s.handlers[id]
    ensures forall name, but | Shunned(s, name, but) :: Shunned(t, name, but)
    ensures forall name | Loose(s, name, held) :: Loose(t, name, held)
    decreases |s.handlers.Keys - held|
  {
    hide Sound, Reach, Beside, CacheAfter, Label, Shunned, Loose, Driven;
    if id :| id in s.handlers && id !in held {
      var u := Drive(m, s, id);
      DrivenAway(s, u, id);
      SetupBeside(s, u);
      assert u.handlers.Keys - held == (s.handlers.Keys - held) - {id};
      t := DrainBut(m, u, held);
      Then(m, s, u, t);
      BesideOn(s, u, t);
      DrivenKeeps(s, u, id, held);
    } else {
      Stay(m, s);
      t := s;
      BesideItself(s);
    }
  }

  /** No other connection has the name or asks for it. */
  ghost predicate Shunned(s: State, name: Name, but: Key) {
    && (forall key | key in s.cache && key != but :: s.cache[key] != name)
    && (forall id | id in s.handlers && s.handlers[id].key != but && s.handlers[id].at.AwaitAllowed? ::
          Label(s.handlers[id]) != name)
  }

  lemma DrivenShuns(s: State, t: State, id: Hid, name: Name, but: Key)
    requires id in s.handlers && Driven(s, t, id) && Shunned(s, name, but)
    ensures Shunned(t, name, but)
  {
    hide Label, Beside, Admitted;
  }

  /** The name is not anchored, and no handler but those held back can anchor it. */
  ghost predicate Loose(s: State, name: Name, held: set<Hid>) {
    && !Anchored(s.setup.claims, s.cache, name)
    && forall id | id in s.handlers && id !in held && s.handlers[id].at.AwaitAllowed?
                  && Label(s.handlers[id]) == name ::
         !ListsOnly(s.setup.claims, s.handlers[id].key, name)
  }

  lemma DrivenStaysLoose(s: State, t: State, id: Hid, name: Name, held: set<Hid>)
    requires id in s.handlers && id !in held && Driven(s, t, id) && Loose(s, name, held)
    ensures Loose(t, name, held)
  {
    var h := s.handlers[id];
    SetupBeside(s, t);
    hide Beside, Label, ListsOnly;
    forall key | key in t.cache && t.cache[key] == name
      ensures !ListsOnly(s.setup.claims, key, name)
    {
      if key !in s.cache || s.cache[key] != name {
        assert h.at.AwaitAllowed? && key == h.key && Label(h) == name;
      }
    }
  }

  lemma ServedShuns(s: State, t: State, name: Name, but: Key)
    requires Served(s, t) && t.cache == s.cache && Shunned(s, name, but)
    ensures Shunned(t, name, but)
  {
    hide WillBeAdmitted;
    forall id | id in t.handlers
      ensures Label(t.handlers[id]) == Label(s.handlers[id])
    {
      SameJobSameLabel(s.handlers[id], t.handlers[id]);
    }
    hide Label;
  }

  lemma PassedShuns(s: State, t: State, id: Hid, name: Name, but: Key)
    requires id in s.handlers && s.handlers[id].key == but && Passed(s, t, id) && Shunned(s, name, but)
    ensures Shunned(t, name, but)
  {
    hide Label, Beside, Admitted;
  }

  lemma BesideItself(s: State)
    ensures Beside(s, s)
  {
  }

  // ---- One handler past its guard ----

  /** Left alone, the handler will pass its guard. */
  predicate WillPass(cache: map<Key, Name>, h: Handler) {
    match h.at
    case AwaitAllowed => Admitted(h)
    case AwaitSetUser => true
    case AwaitPersistUser => true
    case AwaitAddPoint => false
    case _ => IsCached(cache, h)
  }

  /** The handler has passed its guard, and the others are where they were. */
  ghost predicate Passed(s: State, t: State, id: Hid)
    requires id in s.handlers
  {
    && Beside(s, t) && id in t.handlers && t.handlers == s.handlers[id := t.handlers[id]]
    && SameJob(s.handlers[id], t.handlers[id]) && PastGuard(t.handlers[id].at)
    && t.cache == CacheAfter(s, s.handlers[id])
  }

  lemma StillPasses(s: State, u: State, id: Hid)
    requires id in s.handlers && WillPass(s.cache, s.handlers[id]) && !PastGuard(s.handlers[id].at) && Pushed(s, u, id)
    ensures id in u.handlers && WillPass(u.cache, u.handlers[id]) && !u.handlers[id].at.AwaitAllowed?
  {
    hide AllowedIn;
    if id in u.handlers {
      SameJobSameLabel(s.handlers[id], u.handlers[id]);
    }
    hide Label;
  }

  lemma PassedOn(s: State, u: State, t: State, id: Hid)
    requires id in s.handlers && Pushed(s, u, id) && id in u.handlers && Passed(u, t, id)
    requires !u.handlers[id].at.AwaitAllowed?
    ensures Passed(s, t, id)
  {
    hide AllowedIn, NextAwait;
    SameJobSameLabel(s.handlers[id], u.handlers[id]);
    hide Label;
  }

  /** One push of a handler that will pass its guard. */
  lemma PushOn(m: Newcomers, s: State, id: Hid) returns (t: State)
    requires Sound(s) && Settled(s) && Configured(s.setup.ttl) && id in s.handlers
    requires WillPass(s.cache, s.handlers[id]) && !PastGuard(s.handlers[id].at)
    ensures Reach(m, s, t) && Sound(t) && Settled(t) && t.setup == s.setup && Pushed(s, t, id)
    ensures id in t.handlers && WillPass(t.cache, t.handlers[id]) && !t.handlers[id].at.AwaitAllowed?
    ensures Rank(t.handlers[id].at) < Rank(s.handlers[id].at)
  {
    hide Sound, Reach, Label;
    RankFalls(s, s.handlers[id]);
    t := Push(m, s, id);
    SetupBeside(s, t);
    StillPasses(s, t, id);
    hide Beside, WillPass, CacheAfter;
  }

  lemma {:induction false} Pass(m: Newcomers, s: State, id: Hid) returns (t: State)
    requires Sound(s) && Settled(s) && Configured(s.setup.ttl) && id in s.handlers && WillPass(s.cache, s.handlers[id])
    ensures Reach(m, s, t) && Sound(t) && Settled(t) && Passed(s, t, id)
    decreases Rank(s.handlers[id].at)
  {
    hide Sound, Reach, Beside, Label, Rank, WillPass, Pushed;
    if PastGuard(s.handlers[id].at) {
      Stay(m, s);
      t := s;
      BesideItself(s);
    } else {
      hide CacheAfter, Passed, PastGuard;
      var u := PushOn(m, s, id);
      t := Pass(m, u, id);
      Then(m, s, u, t);
      PassedOn(s, u, t, id);
    }
  }
}
