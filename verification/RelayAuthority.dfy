/**
 Invariants of the relay that hold in every interleaving: the order of the command queue, who may
 broadcast under which name, and what a user's hash can contain.
 */
module RelayAuthority {
  import opened Wrappers
  import opened HashStore
  import opened Positions
  import opened Relay

  // ---- Causes ----

  /** Some list returned for the connection earlier holds the name. */
  ghost predicate Authorised(past: Log, key: Key, name: Name) {
    exists names :: Allowed(key, names) in past && name in names
  }

  /** The name the connection last switched to. */
  function CurrentIn(log: Log, key: Key): Option<Name> {
    if log == [] then None
    else
      var e := log[|log| - 1];
      if e.Switched? && e.key == key then Some(e.name) else CurrentIn(log[..|log| - 1], key)
  }

  /** The message was received when the given name, or none, was current. */
  ghost predicate ReceivedUnder(past: Log, key: Key, msg: Message, player: Option<Name>) {
    exists i | 0 <= i < |past| :: past[i] == Received(key, msg) && CurrentIn(past[..i], key) == player
  }

  /**
   Whose name a message travels under: its own, if it has one, and otherwise the one that was current
   when it was received. With neither, only the empty name gets through, and prints as absent.
   */
  predicate Speaks(msg: Message, player: Option<Name>, name: Name) {
    if Named(msg) then name == msg.characterName.value
    else if player.Some? then name == player.value
    else name == "null" && msg.characterName == Some("")
  }

  /** The fields are those of one message of the connection, which named this user or nobody. */
  ghost predicate FromOneMessage(past: Log, key: Key, name: Name, fields: map<Field, Value>) {
    exists msg, player, now ::
      ReceivedUnder(past, key, msg, player) && Speaks(msg, player, name) && fields == UserFields(msg, key, now)
  }

  /** The position is that of one message of the connection, under a name that was authorised. */
  ghost predicate OfOneMessage(past: Log, key: Key, position: Position) {
    exists msg, player :: OfMessage(past, key, position, msg, player)
  }

  ghost predicate OfMessage(past: Log, key: Key, position: Position, msg: Message, player: Option<Name>) {
    && ReceivedUnder(past, key, msg, player)
    && Speaks(msg, player, position.name)
    && position == PositionOf(msg, position.name)
    && (Named(msg) || player.Some? ==> Authorised(past, key, position.name))
  }

  ghost predicate Caused(past: Log, e: Event) {
    match e
    case Switched(key, name) => Authorised(past, key, name)
    case Broadcast(key, p) => OfOneMessage(past, key, p)
    case Wrote(key, name, fields) => CurrentIn(past, key) == Some(name) && FromOneMessage(past, key, name, fields)
    case _ => true
  }

  ghost predicate WellCaused(log: Log) {
    log == [] || (WellCaused(log[..|log| - 1]) && Caused(log[..|log| - 1], log[|log| - 1]))
  }

  lemma {:induction false} CauseOf(log: Log, i: nat)
    requires WellCaused(log) && i < |log|
    ensures Caused(log[..i], log[i])
  {
    hide Caused;
    if i < |log| - 1 {
      CauseOf(log[..|log| - 1], i);
      assert log[..|log| - 1][..i] == log[..i];
    }
  }

  // ---- The invariant ----

  predicate Queued(c: Command, handlers: map<Hid, Handler>) {
    && c.h in handlers
    && !handlers[c.h].ready
    && OnConnectionStore(handlers[c.h].at)
    && c == CommandOf(c.h, handlers[c.h])
  }

  /** The queue holds the commands that handlers wait for, one per handler. */
  ghost predicate QueueOk(queue: seq<Command>, handlers: map<Hid, Handler>) {
    && (forall i | 0 <= i < |queue| :: Queued(queue[i], handlers))
    && (forall i, j | 0 <= i < j < |queue| :: queue[i].h != queue[j].h)
  }

  /** The cache is the last switch of every connection. */
  ghost predicate CacheOk(cache: map<Key, Name>, log: Log) {
    && (forall key :: CurrentIn(log, key) == if key in cache then Some(cache[key]) else None)
    && (forall key | key in cache :: Authorised(log, key, cache[key]) && cache[key] != "" && key != "")
  }

  /** What a handler captured was authorised, and what it is writing was logged. */
  ghost predicate HandlerOk(log: Log, h: Handler) {
    && h.key != ""
    && ReceivedUnder(log, h.key, h.msg, h.player)
    && (h.player.Some? ==> Authorised(log, h.key, h.player.value))
    && (h.reply.Some? ==> Allowed(h.key, h.reply.value) in log)
    && (!h.at.AwaitAllowed? && Named(h.msg) ==> Authorised(log, h.key, h.msg.characterName.value))
    && (h.at.AwaitSetUser? ==> Wrote(h.key, Label(h), h.fields) in log)
    && (h.at.AwaitAllowed? ==> Named(h.msg))
    && (!Named(h.msg) && h.player.None? ==> h.msg.characterName == Some(""))
  }

  /** A user's hash is what one logged write put there. */
  ghost predicate UserOk(log: Log, name: Name, user: Hash) {
    exists key :: Wrote(key, name, user.fields) in log
  }

  ghost predicate HandlersOk(handlers: map<Hid, Handler>, log: Log) {
    forall id | id in handlers :: HandlerOk(log, handlers[id])
  }

  ghost predicate UsersOk(users: Hashes, log: Log) {
    && (forall name | name in users :: UserOk(log, name, users[name]))
    && (forall key, name, fields :: Wrote(key, name, fields) in log ==> fields.Keys == USER_FIELDS)
  }

  ghost predicate Inv(s: State) {
    && WellCaused(s.log)
    && QueueOk(s.queue, s.handlers)
    && CacheOk(s.cache, s.log)
    && HandlersOk(s.handlers, s.log)
    && UsersOk(s.users, s.log)
  }

  // ---- The queue ----

  ghost predicate NotQueued(s: State, id: Hid) {
    forall i | 0 <= i < |s.queue| :: s.queue[i].h != id
  }

  lemma FreeOfQueue(s: State, id: Hid)
    requires QueueOk(s.queue, s.handlers)
    requires id !in s.handlers || s.handlers[id].ready || !OnConnectionStore(s.handlers[id].at)
    ensures NotQueued(s, id)
  {
    forall i | 0 <= i < |s.queue|
      ensures s.queue[i].h != id
    {
      assert Queued(s.queue[i], s.handlers);
    }
  }

  lemma QueueOther(queue: seq<Command>, handlers: map<Hid, Handler>, id: Hid, h: Handler)
    requires QueueOk(queue, handlers) && forall i | 0 <= i < |queue| :: queue[i].h != id
    ensures QueueOk(queue, handlers[id := h]) && QueueOk(queue, handlers - {id})
  {
    forall i | 0 <= i < |queue|
      ensures Queued(queue[i], handlers[id := h]) && Queued(queue[i], handlers - {id})
    {
      assert Queued(queue[i], handlers);
    }
  }

  lemma QueueAppend(queue: seq<Command>, handlers: map<Hid, Handler>, id: Hid, h: Handler)
    requires QueueOk(queue, handlers) && forall i | 0 <= i < |queue| :: queue[i].h != id
    requires OnConnectionStore(h.at) && !h.ready
    ensures QueueOk(queue + [CommandOf(id, h)], handlers[id := h])
  {
    var c := CommandOf(id, h);
    QueueOther(queue, handlers, id, h);
    assert c.h == id && Queued(c, handlers[id := h]);
    hide CommandOf, Queued;
    var q := queue + [c];
    forall i | 0 <= i < |q|
      ensures Queued(q[i], handlers[id := h])
    {
      assert i < |queue| ==> q[i] == queue[i];
    }
  }

  /** The handler whose command is at the head may change freely once the head is gone. */
  lemma QueueTail(queue: seq<Command>, handlers: map<Hid, Handler>, h: Handler)
    requires queue != [] && QueueOk(queue, handlers)
    ensures QueueOk(queue[1..], handlers[queue[0].h := h])
  {
    hide Queued;
    assert QueueOk(queue[1..], handlers) by {
      assert forall i | 0 <= i < |queue[1..]| :: queue[1..][i] == queue[i + 1];
    }
    assert forall i | 0 <= i < |queue[1..]| :: queue[1..][i].h != queue[0].h;
    QueueOther(queue[1..], handlers, queue[0].h, h);
  }

  // ---- Growing the log ----

  lemma AuthorisedGrows(log: Log, e: Event, key: Key, name: Name)
    requires Authorised(log, key, name)
    ensures Authorised(log + [e], key, name)
  {
    var names :| Allowed(key, names) in log && name in names;
    assert Allowed(key, names) in log + [e];
  }

  lemma ReceivedGrows(log: Log, e: Event, key: Key, msg: Message, player: Option<Name>)
    requires ReceivedUnder(log, key, msg, player)
    ensures ReceivedUnder(log + [e], key, msg, player)
  {
    hide CurrentIn;
    var i :| 0 <= i < |log| && log[i] == Received(key, msg) && CurrentIn(log[..i], key) == player;
    assert (log + [e])[..i] == log[..i] && (log + [e])[i] == log[i];
  }

  lemma JustReceived(log: Log, key: Key, msg: Message)
    ensures ReceivedUnder(log + [Received(key, msg)], key, msg, CurrentIn(log, key))
  {
    hide CurrentIn;
    var log' := log + [Received(key, msg)];
    assert log'[..|log|] == log && log'[|log|] == Received(key, msg);
  }

  lemma HandlerGrows(log: Log, e: Event, h: Handler)
    requires HandlerOk(log, h)
    ensures HandlerOk(log + [e], h)
  {
    hide CurrentIn;
    ReceivedGrows(log, e, h.key, h.msg, h.player);
    hide ReceivedUnder;
    forall key, name | Authorised(log, key, name)
      ensures Authorised(log + [e], key, name)
    {
      AuthorisedGrows(log, e, key, name);
    }
    hide Authorised;
  }

  lemma CurrentGrows(log: Log, e: Event, key: Key)
    ensures CurrentIn(log + [e], key)
            == if e.Switched? && e.key == key then Some(e.name) else CurrentIn(log, key)
  {
    assert (log + [e])[..|log|] == log;
  }

  lemma CacheGrows(cache: map<Key, Name>, log: Log, e: Event)
    requires CacheOk(cache, log)
    requires e.Switched? ==> Authorised(log, e.key, e.name) && e.name != "" && e.key != ""
    ensures CacheOk(if e.Switched? then cache[e.key := e.name] else cache, log + [e])
  {
    hide CurrentIn, Authorised;
    var cache' := if e.Switched? then cache[e.key := e.name] else cache;
    forall key
      ensures CurrentIn(log + [e], key) == if key in cache' then Some(cache'[key]) else None
    {
      CurrentGrows(log, e, key);
    }
    forall key | key in cache'
      ensures Authorised(log + [e], key, cache'[key])
    {
      AuthorisedGrows(log, e, key, cache'[key]);
    }
  }

  lemma UsersGrow(users: Hashes, log: Log, e: Event)
    requires UsersOk(users, log)
    requires e.Wrote? ==> e.fields.Keys == USER_FIELDS
    ensures UsersOk(users, log + [e])
  {
    forall name | name in users
      ensures UserOk(log + [e], name, users[name])
    {
      var key :| Wrote(key, name, users[name].fields) in log;
      assert Wrote(key, name, users[name].fields) in log + [e];
    }
  }

  /** A caused event keeps the invariant, with the cache following a switch. */
  lemma LogEvent(s: State, e: Event)
    requires Inv(s) && Caused(s.log, e)
    requires e.Switched? ==> e.name != "" && e.key != ""
    requires e.Wrote? ==> e.fields.Keys == USER_FIELDS
    ensures Inv(s.(log := s.log + [e], cache := if e.Switched? then s.cache[e.key := e.name] else s.cache))
  {
    assert WellCaused(s.log + [e]) by {
      assert (s.log + [e])[..|s.log|] == s.log;
    }
    CacheGrows(s.cache, s.log, e);
    UsersGrow(s.users, s.log, e);
    forall id | id in s.handlers
      ensures HandlerOk(s.log + [e], s.handlers[id])
    {
      HandlerGrows(s.log, e, s.handlers[id]);
    }
    hide WellCaused, QueueOk, CacheOk, UsersOk, HandlerOk;
  }

  // ---- Ends of segments ----

  lemma IssueKeeps(s: State, id: Hid, h: Handler, at: Await)
    requires Inv(s) && NotQueued(s, id) && HandlerOk(s.log, Waiting(h, at))
    ensures Inv(Issue(s, id, h, at))
  {
    hide WellCaused, CacheOk, UsersOk, HandlerOk, Queued;
    QueueOther(s.queue, s.handlers, id, Waiting(h, at));
  }

  lemma FinishKeeps(s: State, id: Hid)
    requires Inv(s) && NotQueued(s, id)
    ensures Inv(Finish(s, id))
  {
    if id in s.handlers {
      QueueOther(s.queue, s.handlers, id, s.handlers[id]);
    } else {
      assert s.handlers - {id} == s.handlers;
    }
    hide WellCaused, CacheOk, UsersOk, HandlerOk, QueueOk;
  }

  lemma EnqueueKeeps(s: State, id: Hid, h: Handler, at: Await)
    requires Inv(s) && NotQueued(s, id) && HandlerOk(s.log, Waiting(h, at)) && OnConnectionStore(at)
    ensures Inv(Enqueue(s, id, h, at))
  {
    hide WellCaused, CacheOk, UsersOk, HandlerOk, Queued, CommandOf;
    QueueAppend(s.queue, s.handlers, id, Waiting(h, at));
  }

  lemma StartBroadcastKeeps(s: State, id: Hid, h: Handler)
    requires Inv(s) && NotQueued(s, id) && HandlerOk(s.log, h)
    requires !h.at.AwaitAllowed? || !Switches(h)
    ensures Inv(StartBroadcast(s, id, h))
  {
    var e := Broadcast(h.key, PositionOf(h.msg, Label(h)));
    assert OfMessage(s.log, h.key, e.position, h.msg, h.player);
    assert Caused(s.log, e);
    LogEvent(s, e);
    HandlerGrows(s.log, e, h);
    var t := s.(log := s.log + [e]);
    assert HandlerOk(t.log, Waiting(h, AwaitPublish));
    hide Inv, HandlerOk;
    IssueKeeps(t, id, h, AwaitPublish);
  }

  lemma WriteIsCaused(s: State, h: Handler, fields: map<Field, Value>)
    requires CacheOk(s.cache, s.log) && HandlerOk(s.log, h) && !h.at.AwaitAllowed?
    requires h.key in s.cache && s.cache[h.key] == Label(h) && fields == UserFields(h.msg, h.key, s.now)
    ensures var e := Wrote(h.key, Label(h), fields);
            Caused(s.log, e) && HandlerOk(s.log + [e], Waiting(h.(fields := fields), AwaitSetUser))
  {
    hide UserFields, CurrentIn, Authorised;
    var e := Wrote(h.key, Label(h), fields);
    assert ReceivedUnder(s.log, h.key, h.msg, h.player) && Speaks(h.msg, h.player, Label(h));
    assert FromOneMessage(s.log, h.key, Label(h), fields);
    hide FromOneMessage, ReceivedUnder;
    HandlerGrows(s.log, e, h);
    assert e in s.log + [e];
  }

  lemma CheckAndWriteKeeps(s: State, id: Hid, h: Handler)
    requires Inv(s) && NotQueued(s, id) && HandlerOk(s.log, h) && !h.at.AwaitAllowed?
    ensures Inv(CheckAndWrite(s, id, h))
  {
    hide HandlerOk, CacheOk, UsersOk, QueueOk, WellCaused, Label, Issue, Finish;
    if h.key in s.cache && s.cache[h.key] == Label(h) {
      var fields := UserFields(h.msg, h.key, s.now);
      hide UserFields;
      WriteIsCaused(s, h, fields);
      LogEvent(s, Wrote(h.key, Label(h), fields));
      IssueKeeps(s.(log := s.log + [Wrote(h.key, Label(h), fields)]), id, h.(fields := fields), AwaitSetUser);
    } else {
      FinishKeeps(s, id);
    }
  }

  lemma AdmitKeeps(s: State, id: Hid, h: Handler)
    requires Inv(s) && NotQueued(s, id) && HandlerOk(s.log, h) && h.at.AwaitAllowed?
    ensures Inv(Admit(s, id, h))
  {
    if h.reply.None? || Label(h) !in h.reply.value {
      FinishKeeps(s, id);
    } else {
      var e := Switched(h.key, Label(h));
      assert Caused(s.log, e);
      LogEvent(s, e);
      HandlerGrows(s.log, e, h);
      AuthorisedGrows(s.log, e, h.key, Label(h));
      var t := s.(cache := s.cache[h.key := Label(h)], log := s.log + [e]);
      assert HandlerOk(t.log, Waiting(h, AwaitSetCurrent));
      hide Inv, HandlerOk;
      EnqueueKeeps(t, id, h, AwaitSetCurrent);
    }
  }

  // ---- What segments change ----

  lemma EnqueueShape(s: State, id: Hid, h: Handler, at: Await)
    requires OnConnectionStore(at)
    ensures var t := Enqueue(s, id, h, at); t == s.(handlers := s.handlers[id := Waiting(h, at)], queue := t.queue)
  {
    hide CommandOf;
  }

  lemma StartBroadcastShape(s: State, id: Hid, h: Handler)
    ensures var t := StartBroadcast(s, id, h);
            t == s.(handlers := s.handlers[id := Waiting(h, AwaitPublish)], issued := s.issued + [id], log := t.log)
  {
    hide PositionOf, Label;
  }

  // ---- Steps ----

  lemma ArrivingIsOk(s: State, key: Key, msg: Message)
    requires CacheOk(s.cache, s.log) && key != ""
    ensures var (h, log) := (Arriving(s.cache, key, msg), s.log + [Received(key, msg)]);
            && (Switches(h) ==> HandlerOk(log, Waiting(h, AwaitAllowed)))
            && (!Switches(h) && (h.player.Some? || msg.characterName.Some?) ==> HandlerOk(log, h.(at := AwaitPublish)))
  {
    hide CurrentIn, Authorised;
    var h := Arriving(s.cache, key, msg);
    var e := Received(key, msg);
    JustReceived(s.log, key, msg);
    assert h.player == CurrentIn(s.log, key);
    if h.player.Some? {
      AuthorisedGrows(s.log, e, key, h.player.value);
    }
  }

  lemma ReceiveKeeps(s: State, id: Hid, key: Key, msg: Message)
    requires Inv(s) && id !in s.handlers
    ensures Inv(Receive(s, id, key, msg))
  {
    FreeOfQueue(s, id);
    if key != "" {
      LogEvent(s, Received(key, msg));
      ArrivingIsOk(s, key, msg);
      hide Inv, HandlerOk, Switches, Enqueue, Arriving, StartBroadcast, QueueOk;
      ArrivingStarts(s.(log := s.log + [Received(key, msg)]), id, Arriving(s.cache, key, msg));
    }
  }

  lemma ArrivingStarts(s: State, id: Hid, h: Handler)
    requires Inv(s) && NotQueued(s, id)
    ensures Switches(h) && HandlerOk(s.log, Waiting(h, AwaitAllowed)) ==> Inv(Enqueue(s, id, h, AwaitAllowed))
    ensures !Switches(h) && HandlerOk(s.log, h.(at := AwaitPublish)) ==> Inv(StartBroadcast(s, id, h))
  {
    assert StartBroadcast(s, id, h) == StartBroadcast(s, id, h.(at := AwaitPublish));
    hide Inv, HandlerOk, Switches, Enqueue, StartBroadcast;
    if Switches(h) && HandlerOk(s.log, Waiting(h, AwaitAllowed)) {
      EnqueueKeeps(s, id, h, AwaitAllowed);
    }
    if !Switches(h) && HandlerOk(s.log, h.(at := AwaitPublish)) {
      StartBroadcastKeeps(s, id, h.(at := AwaitPublish));
    }
  }

  lemma ResumeKeeps(s: State, id: Hid)
    requires Inv(s) && id in s.handlers && s.handlers[id].ready
    ensures Inv(Resume(s, id))
  {
    var h := s.handlers[id];
    FreeOfQueue(s, id);
    assert HandlerOk(s.log, h);
    match h.at {
      case AwaitAllowed => AdmitKeeps(s, id, h);
      case AwaitRemovePosition => StartBroadcastKeeps(s, id, h);
      case AwaitExpire => CheckAndWriteKeeps(s, id, h);
      case AwaitAddPoint => FinishKeeps(s, id);
      case AwaitCount =>
        if s.setup.ttl.Some? {
          EnqueueKeeps(s, id, h, AwaitExpire);
        } else {
          CheckAndWriteKeeps(s, id, h);
        }
      case AwaitSetCurrent => EnqueueKeeps(s, id, h, AwaitPersistField);
      case AwaitPublish => EnqueueKeeps(s, id, h, AwaitCount);
      case AwaitPersistField => IssueKeeps(s, id, h, AwaitKeepAlive);
      case AwaitKeepAlive => IssueKeeps(s, id, h, AwaitRemovePosition);
      case AwaitSetUser => IssueKeeps(s, id, h, AwaitPersistUser);
      case AwaitPersistUser => IssueKeeps(s, id, h, AwaitAddPoint);
    }
  }

  /** The handler at the head of the queue after its command has taken effect. */
  function Replied(s: State): Handler
    requires s.queue != [] && s.queue[0].h in s.handlers
  {
    var c := s.queue[0];
    var woken := s.handlers[c.h].(ready := true);
    if c.GetAllowed? && AllowedIn(s.conns, c.key).Some? then woken.(reply := AllowedIn(s.conns, c.key)) else woken
  }

  lemma DeliverShape(s: State)
    requires s.queue != [] && s.queue[0].h in s.handlers
    ensures var (c, t) := (s.queue[0], Deliver(s));
            t == s.(queue := s.queue[1..], handlers := s.handlers[c.h := Replied(s)], conns := t.conns,
                    log := LogAfter(s))
  {
  }

  /** The log after the command at the head has taken effect. */
  function LogAfter(s: State): Log
    requires s.queue != []
  {
    var c := s.queue[0];
    if c.GetAllowed? && AllowedIn(s.conns, c.key).Some?
    then s.log + [Allowed(c.key, AllowedIn(s.conns, c.key).value)] else s.log
  }

  lemma HeadIsQueued(s: State)
    requires QueueOk(s.queue, s.handlers) && s.queue != []
    ensures var c := s.queue[0];
            && c.h in s.handlers && !s.handlers[c.h].ready && OnConnectionStore(s.handlers[c.h].at)
            && c == CommandOf(c.h, s.handlers[c.h]) && c.key == s.handlers[c.h].key
  {
    assert Queued(s.queue[0], s.handlers);
  }

  lemma RepliedIsOk(s: State)
    requires Inv(s) && s.queue != [] && s.queue[0].h in s.handlers && s.queue[0].key == s.handlers[s.queue[0].h].key
    ensures Inv(s.(log := LogAfter(s))) && HandlerOk(LogAfter(s), Replied(s))
  {
    var c := s.queue[0];
    var h := s.handlers[c.h];
    assert HandlerOk(s.log, h);
    hide AllowedIn, ReceivedUnder, Authorised;
    if c.GetAllowed? && AllowedIn(s.conns, c.key).Some? {
      var e := Allowed(c.key, AllowedIn(s.conns, c.key).value);
      LogEvent(s, e);
      HandlerGrows(s.log, e, h);
      assert e in s.log + [e];
    }
  }

  lemma DeliverKeeps(s: State)
    requires Inv(s) && s.queue != []
    ensures Inv(Deliver(s))
  {
    var c := s.queue[0];
    HeadIsQueued(s);
    hide CommandOf, AllowedIn, HandlerOk;
    DeliverShape(s);
    QueueTail(s.queue, s.handlers, Replied(s));
    hide Queued, QueueOk, Deliver;
    RepliedIsOk(s);
    HandlerReplaced(s.(log := LogAfter(s)), Deliver(s), c.h, Replied(s));
  }

  /** One handler and the queue change; cache and log stay. */
  lemma HandlerReplaced(s: State, t: State, id: Hid, h: Handler)
    requires Inv(s) && HandlerOk(s.log, h) && QueueOk(t.queue, t.handlers) && UsersOk(t.users, s.log)
    requires t.handlers == s.handlers[id := h] && t.log == s.log && t.cache == s.cache
    ensures Inv(t)
  {
    hide WellCaused, CacheOk, UsersOk, HandlerOk, QueueOk;
  }

  lemma UserWritten(s: State, id: Hid)
    requires HandlersOk(s.handlers, s.log) && UsersOk(s.users, s.log)
    requires id in s.handlers && s.handlers[id].at.AwaitSetUser?
    ensures UsersOk(HSet(s.users, Label(s.handlers[id]), s.handlers[id].fields), s.log)
  {
    hide ReceivedUnder, Authorised;
    var h := s.handlers[id];
    var name := Label(h);
    assert HandlerOk(s.log, h);
    assert Wrote(h.key, name, h.fields) in s.log;
    if name in s.users {
      assert UserOk(s.log, name, s.users[name]);
      assert s.users[name].fields + h.fields == h.fields;
    }
    assert UserOk(s.log, name, HSet(s.users, name, h.fields)[name]);
    hide HandlerOk, UserOk;
  }

  lemma OtherCommandsKeepFields(h: Handler, users: Hashes, now: int)
    requires !h.at.AwaitSetUser?
    ensures FieldsKept(users, UsersAfter(h, users, now))
  {
    hide FieldsKept, Expire, Persist, HSet, Label, Printed;
    ExpireKeepsFields(users, Printed(h.player), USER_TTL, now);
    PersistKeepsFields(users, Label(h));
    NothingChangesNoFields(users);
  }

  lemma ExpireKeepsFields(users: Hashes, name: Name, ttl: int, now: int)
    ensures FieldsKept(users, Expire(users, name, ttl, now))
  {
  }

  lemma ExpireSomeKeepsFields(users: Hashes, name: Option<Name>, now: int)
    ensures FieldsKept(users, ExpireSome(users, name, now))
  {
  }

  lemma PersistKeepsFields(users: Hashes, name: Name)
    ensures FieldsKept(users, Persist(users, name))
  {
  }

  lemma PurgeKeepsFields(users: Hashes, now: int)
    ensures FieldsKept(users, Purge(users, now))
  {
  }

  lemma NothingChangesNoFields(users: Hashes)
    ensures FieldsKept(users, users)
  {
  }

  lemma UsersKept(s: State, id: Hid)
    requires Inv(s) && id in s.handlers
    ensures UsersOk(UsersAfter(s.handlers[id], s.users, s.now), s.log)
  {
    hide WellCaused, QueueOk, CacheOk, HandlersOk;
    if s.handlers[id].at.AwaitSetUser? {
      UserWritten(s, id);
    } else {
      OtherCommandsKeepFields(s.handlers[id], s.users, s.now);
      hide UsersAfter;
      SameFields(s.users, UsersAfter(s.handlers[id], s.users, s.now), s.log);
    }
  }

  lemma WokenIsOk(log: Log, h: Handler)
    requires HandlerOk(log, h)
    ensures HandlerOk(log, h.(ready := true))
  {
    hide ReceivedUnder, Authorised;
  }

  lemma EffectKeeps(s: State, id: Hid)
    requires Inv(s) && id in s.handlers && !s.handlers[id].ready && !OnConnectionStore(s.handlers[id].at)
    ensures Inv(Effect(s, id))
  {
    var h := s.handlers[id];
    UsersKept(s, id);
    hide HandlerOk, UsersOk, UsersAfter, LiveAfter, Without;
    FreeOfQueue(s, id);
    WokenIsOk(s.log, h);
    QueueOther(s.queue, s.handlers, id, h.(ready := true));
    hide QueueOk;
    HandlerReplaced(s, Effect(s, id), id, h.(ready := true));
  }

  /** Deadlines and removals aside, the hashes are those there were. */
  predicate FieldsKept(users: Hashes, users': Hashes) {
    forall name | name in users' :: name in users && users'[name].fields == users[name].fields
  }

  /** Deadlines and expiry touch no field. */
  lemma SameFields(users: Hashes, users': Hashes, log: Log)
    requires UsersOk(users, log) && FieldsKept(users, users')
    ensures UsersOk(users', log)
  {
    forall name | name in users'
      ensures UserOk(log, name, users'[name])
    {
      assert UserOk(log, name, users[name]);
    }
  }

  /** The steps of the ground station and of the clock. */
  predicate Outside(a: Action) {
    a.DoUpgrade? || a.DoUpgradeNext? || a.DoClose? || a.DoShutdown? || a.DoCloseNext? || a.DoElapse?
  }

  /** Everything the relay itself keeps. */
  predicate SameRelay(s: State, t: State) {
    && t.setup == s.setup && t.cache == s.cache && t.handlers == s.handlers
    && t.queue == s.queue && t.issued == s.issued && t.log == s.log
  }

  lemma UpgradeShape(s: State, a: Action)
    requires Enabled(s, a) && (a.DoUpgrade? || a.DoUpgradeNext?)
    ensures var t := Next(s, a); SameRelay(s, t) && t.users == s.users && t.live == s.live
  {
    hide HSet, Persist, Del;
  }

  lemma CloseShape(s: State, c: ActorId, key: Key, keepFirst: bool)
    requires c !in s.closes
    ensures var t := CloseRead(s, c, key); SameRelay(s, t) && t.users == s.users && t.live == s.live
    ensures var t := ShutdownRead(s, c, key, keepFirst); SameRelay(s, t) && t.users == s.users && t.live == s.live
  {
    hide CurrentName;
  }

  lemma CloseNextShape(s: State, c: ActorId)
    requires c in s.closes
    ensures var t := CloseNext(s, c);
            SameRelay(s, t) && t.live <= s.live && t.users == ExpireSome(s.users, LetsExpire(s.closes[c]), s.now)
  {
    hide ExpireSome, TakesAway, LetsExpire, LetsLapse, NextClose;
  }

  lemma ElapseShape(s: State, ms: nat)
    ensures var t := Elapse(s, ms);
            SameRelay(s, t) && t.live == s.live && t.users == Purge(s.users, s.now + ms)
  {
    hide Purge;
  }

  lemma OthersShape(s: State, a: Action)
    requires Enabled(s, a) && Outside(a)
    ensures SameRelay(s, Next(s, a)) && FieldsKept(s.users, Next(s, a).users)
  {
    hide FieldsKept, SameRelay, Expire, Purge, Receive, Resume, Deliver, Effect,
         UpgradeWrite, UpgradeNext, CloseRead, ShutdownRead, CloseNext, Elapse, LetsExpire, ExpireSome;
    NothingChangesNoFields(s.users);
    match a {
      case DoElapse(ms) =>
        ElapseShape(s, ms);
        PurgeKeepsFields(s.users, s.now + ms);
      case DoCloseNext(c) =>
        CloseNextShape(s, c);
        ExpireSomeKeepsFields(s.users, LetsExpire(s.closes[c]), s.now);
      case DoClose(c, key) => CloseShape(s, c, key, false);
      case DoShutdown(c, key, keepFirst) => CloseShape(s, c, key, keepFirst);
      case _ => UpgradeShape(s, a);
    }
  }

  lemma OthersKeep(s: State, a: Action)
    requires Inv(s) && Enabled(s, a) && Outside(a)
    ensures Inv(Next(s, a))
  {
    OthersShape(s, a);
    hide WellCaused, CacheOk, HandlerOk, QueueOk, Next;
    SameFields(s.users, Next(s, a).users, s.log);
    hide UsersOk;
  }

  lemma Step(s: State, a: Action)
    requires Inv(s) && Enabled(s, a)
    ensures Inv(Next(s, a))
  {
    hide Inv, Receive, Resume, Deliver, Effect;
    match a {
      case DoReceive(h, key, msg) => ReceiveKeeps(s, h, key, msg);
      case DoResume(h) => ResumeKeeps(s, h);
      case DoDeliver => DeliverKeeps(s);
      case DoEffect(h) => EffectKeeps(s, h);
      case _ => OthersKeep(s, a);
    }
  }

  lemma {:induction false} RunKeepsInv(setup: Setup, run: seq<Action>)
    requires IsRun(setup, run)
    ensures Inv(StateAfter(setup, run))
  {
    if run != [] {
      RunKeepsInv(setup, run[..|run| - 1]);
      hide Inv, Next, Enabled;
      Step(StateAfter(setup, run[..|run| - 1]), run[|run| - 1]);
    }
  }

  // ---- Results ----

  /** In every interleaving, every value placed in the cache was in a list returned for the connection before. */
  lemma SwitchesAreAuthorised(setup: Setup, run: seq<Action>, i: nat)
    requires IsRun(setup, run) && i < |StateAfter(setup, run).log| && StateAfter(setup, run).log[i].Switched?
    ensures var log := StateAfter(setup, run).log; Authorised(log[..i], log[i].key, log[i].name)
  {
    RunKeepsInv(setup, run);
    CauseOf(StateAfter(setup, run).log, i);
  }

  /**
   Every broadcast is the position of one received message, under the name that message gave or, if
   it gave none, the name that was current when it was received; and that name was authorised before.
   The one exception is a message with the empty name on a connection without a current one.
   */
  lemma LabelsAreAuthorised(setup: Setup, run: seq<Action>, i: nat) returns (msg: Message, player: Option<Name>)
    requires IsRun(setup, run) && i < |StateAfter(setup, run).log| && StateAfter(setup, run).log[i].Broadcast?
    ensures var log := StateAfter(setup, run).log;
            var (key, p) := (log[i].key, log[i].position);
            && ReceivedUnder(log[..i], key, msg, player) && Speaks(msg, player, p.name) && Carries(p, msg, p.name)
            && (Authorised(log[..i], key, p.name)
                || (player == None && msg.characterName == Some("") && p.name == "null"))
  {
    RunKeepsInv(setup, run);
    var log := StateAfter(setup, run).log;
    CauseOf(log, i);
    msg, player :| OfMessage(log[..i], log[i].key, log[i].position, msg, player);
    PositionCarries(msg, log[i].position.name);
  }

  /** And that exception is real: such a message is broadcast at once, under the name of an absent one. */
  lemma NamelessIsBroadcast(setup: Setup, run: seq<Action>, id: Hid, key: Key, msg: Message) returns (p: Position)
    requires IsRun(setup, run) && id !in StateAfter(setup, run).handlers && key != ""
    requires CurrentIn(StateAfter(setup, run).log, key) == None && msg.characterName == Some("")
    ensures IsRun(setup, run + [DoReceive(id, key, msg)])
    ensures var (log, log') := (StateAfter(setup, run).log, StateAfter(setup, run + [DoReceive(id, key, msg)]).log);
            log' == log + [Received(key, msg), Broadcast(key, p)] && Carries(p, msg, "null")
  {
    hide PositionOf, Carries, UserFields;
    RunKeepsInv(setup, run);
    p := PositionOf(msg, NO_NAME);
    PositionCarries(msg, NO_NAME);
    assert (run + [DoReceive(id, key, msg)])[..|run|] == run;
  }

  /** Every cached name is authorised, and is the last one the connection switched to. */
  lemma CacheIsAuthorised(setup: Setup, run: seq<Action>, key: Key)
    requires IsRun(setup, run) && key in StateAfter(setup, run).cache
    ensures var s := StateAfter(setup, run);
            Authorised(s.log, key, s.cache[key]) && CurrentIn(s.log, key) == Some(s.cache[key])
  {
    RunKeepsInv(setup, run);
  }

  /**
   At any moment a user's hash holds the twelve fields of one single message and nothing else; that
   message named this user or nobody, and its connection had the user's name as current when the write
   was issued.
   */
  lemma UserHashIsOneMessage(setup: Setup, run: seq<Action>, name: Name)
    returns (key: Key, msg: Message, player: Option<Name>, now: int, i: nat)
    requires IsRun(setup, run) && name in StateAfter(setup, run).users
    ensures var s := StateAfter(setup, run);
            && i < |s.log| && s.log[i] == Wrote(key, name, s.users[name].fields)
            && CurrentIn(s.log[..i], key) == Some(name)
            && ReceivedUnder(s.log[..i], key, msg, player) && Speaks(msg, player, name)
            && HoldsMessage(s.users, name, msg, key, now) && s.users[name].fields.Keys == USER_FIELDS
  {
    RunKeepsInv(setup, run);
    var s := StateAfter(setup, run);
    assert UserOk(s.log, name, s.users[name]);
    key :| Wrote(key, name, s.users[name].fields) in s.log;
    i :| 0 <= i < |s.log| && s.log[i] == Wrote(key, name, s.users[name].fields);
    CauseOf(s.log, i);
    hide Inv, WellCaused, UserFields, ReceivedUnder, Speaks, HoldsMessage;
    msg, player, now :| ReceivedUnder(s.log[..i], key, msg, player) && Speaks(msg, player, name)
                        && s.users[name].fields == UserFields(msg, key, now);
    FieldsHoldMessage(s.users, name, msg, key, now);
  }
}
