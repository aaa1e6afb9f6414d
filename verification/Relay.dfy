/**
 The tracking relay as a step system. One run of its message handler is a process that executes one
 synchronous segment at a time and then waits for one remote command; any process may go next, and
 two messages of the same connection may be handled at once. The ground station's upgrade and close
 handlers run beside it on the same stores.

 The relay has one client each for its connection store, its user store, its trail tracker and its
 transmitter. Commands of one client take effect in issue order; those of different clients, in any.
 */
module Relay {
  import opened Wrappers
  import opened HashStore
  import opened Positions
  import Names = AllowedNames

  type Key = string
  type Name = string
  type Hid = nat
  type ActorId = nat

  const NO_NAME := "null" // what an absent name prints as
  const USER_TTL := 86400
  const CLOSED_TTL := 3600

  // ---- Handlers ----

  /** The remote command a handler waits for, in the order of the handler's text. */
  datatype Await =
    | AwaitAllowed | AwaitSetCurrent | AwaitPersistField | AwaitKeepAlive | AwaitRemovePosition
    | AwaitPublish | AwaitCount | AwaitExpire | AwaitSetUser | AwaitPersistUser | AwaitAddPoint

  /** A handler in flight: what it captured, where it waits, and whether its command has taken effect. */
  datatype Handler = Handler(
    key: Key, msg: Message, player: Option<Name>, at: Await, ready: bool,
    reply: Option<seq<Name>>, fields: map<Field, Value>)

  /** The message names a character other than the one captured at the start. */
  predicate Switches(h: Handler) {
    Named(h.msg) && h.player != h.msg.characterName
  }

  /** How a captured name prints. */
  function Printed(player: Option<Name>): Name {
    if player.Some? then player.value else NO_NAME
  }

  function Label(h: Handler): Name {
    if Named(h.msg) then h.msg.characterName.value else Printed(h.player)
  }

  function Player(cache: map<Key, Name>, key: Key): Option<Name> {
    if key in cache && cache[key] != "" then Some(cache[key]) else None
  }

  /** Handlers that are still on their way from a switch to the broadcast. */
  predicate BeforeBroadcast(at: Await) {
    at.AwaitAllowed? || at.AwaitSetCurrent? || at.AwaitPersistField? || at.AwaitKeepAlive? || at.AwaitRemovePosition?
  }

  predicate OnConnectionStore(at: Await) {
    at.AwaitAllowed? || at.AwaitSetCurrent? || at.AwaitPersistField? || at.AwaitCount? || at.AwaitExpire?
  }

  predicate OnUserStore(at: Await) {
    at.AwaitKeepAlive? || at.AwaitSetUser? || at.AwaitPersistUser?
  }

  predicate OnTracker(at: Await) {
    at.AwaitRemovePosition? || at.AwaitAddPoint?
  }

  /** Both commands go through one client, the connection store's aside. */
  predicate SameClient(at: Await, other: Await) {
    OnUserStore(at) == OnUserStore(other) && OnTracker(at) == OnTracker(other)
  }

  // ---- State ----

  datatype Command =
    | GetAllowed(h: Hid, key: Key)
    | SetCurrent(h: Hid, key: Key, name: Name)
    | PersistField(h: Hid, key: Key)
    | Increase(h: Hid, key: Key)
    | ExpireConnection(h: Hid, key: Key)

  function CommandOf(id: Hid, h: Handler): Command
    requires OnConnectionStore(h.at)
  {
    match h.at
    case AwaitAllowed => GetAllowed(id, h.key)
    case AwaitSetCurrent => SetCurrent(id, h.key, Label(h))
    case AwaitPersistField => PersistField(id, h.key)
    case AwaitCount => Increase(id, h.key)
    case AwaitExpire => ExpireConnection(id, h.key)
  }

  datatype Event =
    | Received(key: Key, msg: Message)
    | Allowed(key: Key, names: seq<Name>)
    | Switched(key: Key, name: Name)
    | Broadcast(key: Key, position: Position)
    | Wrote(key: Key, name: Name, fields: map<Field, Value>)

  type Log = seq<Event>

  /** A ground station upgrade writes the allowed list, persists the record, and deletes it if aborted. */
  datatype Upgrade = Persisting(key: Key, aborted: bool) | Deleting(key: Key)

  /**
   A ground station close clears the live position and lets user and connection expire, in this
   order. A shutdown lets the connection expire first and issues the other two commands together, so
   that either may take effect first.
   */
  datatype Close =
    | Removing(key: Key, name: Name)
    | KeepingAlive(key: Key, name: Name)
    | Expiring(key: Key)
    | Dropping(key: Key, current: Option<Name>, keepFirst: bool)
    | LastRemoving(name: Name, kept: bool)
    | LastKeeping(name: Name, removed: bool)

  /** What the signed token of a connection says. */
  datatype Claim = Claim(characters: string, level: int)

  /** What never changes: the time to live of connection records, and the one token of each connection. */
  datatype Setup = Setup(ttl: Option<int>, claims: map<Key, Claim>)

  datatype State = State(
    cache: map<Key, Name>,
    conns: Hashes,
    users: Hashes,
    live: set<Name>,
    handlers: map<Hid, Handler>,
    queue: seq<Command>, // pending on the connection store, oldest first
    issued: seq<Hid>,    // the handlers whose commands are pending on the other clients, oldest first
    upgrades: map<ActorId, Upgrade>,
    closes: map<ActorId, Close>,
    now: nat,
    setup: Setup,
    log: Log,
    lost: set<Key>) // connections whose record was deleted or has expired

  function Initial(setup: Setup): State {
    State(map[], map[], map[], {}, map[], [], [], map[], map[], 0, setup, [], {})
  }

  // ---- Segments of the handler ----

  function Waiting(h: Handler, at: Await): Handler {
    h.(at := at, ready := false)
  }

  /** Ends a segment by issuing a command on the connection store. */
  function Enqueue(s: State, id: Hid, h: Handler, at: Await): State
    requires OnConnectionStore(at)
  {
    s.(handlers := s.handlers[id := Waiting(h, at)], queue := s.queue + [CommandOf(id, Waiting(h, at))])
  }

  /** Ends a segment by issuing a command on another client. */
  function Issue(s: State, id: Hid, h: Handler, at: Await): State {
    s.(handlers := s.handlers[id := Waiting(h, at)], issued := s.issued + [id])
  }

  function Finish(s: State, id: Hid): State {
    s.(handlers := s.handlers - {id})
  }

  function StartBroadcast(s: State, id: Hid, h: Handler): State {
    Issue(s.(log := s.log + [Broadcast(h.key, PositionOf(h.msg, Label(h)))]), id, h, AwaitPublish)
  }

  /** The last guard: only the name that is current for the connection is stored. */
  function CheckAndWrite(s: State, id: Hid, h: Handler): State {
    if h.key in s.cache && s.cache[h.key] == Label(h) then
      var fields := UserFields(h.msg, h.key, s.now);
      Issue(s.(log := s.log + [Wrote(h.key, Label(h), fields)]), id, h.(fields := fields), AwaitSetUser)
    else Finish(s, id)
  }

  function Arriving(cache: map<Key, Name>, key: Key, msg: Message): Handler {
    Handler(key, msg, Player(cache, key), AwaitAllowed, false, None, map[])
  }

  /** A message arrives: the first segment, up to the first command. */
  function Receive(s: State, id: Hid, key: Key, msg: Message): State {
    if key == "" then s
    else
      var h := Arriving(s.cache, key, msg);
      var t := s.(log := s.log + [Received(key, msg)]);
      if Switches(h) then Enqueue(t, id, h, AwaitAllowed)
      else if h.player.None? && msg.characterName.None? then t
      else StartBroadcast(t, id, h)
  }

  /** The reply with the allowed names: refuse, or make the name current. */
  function Admit(s: State, id: Hid, h: Handler): State {
    if h.reply.None? || Label(h) !in h.reply.value then Finish(s, id)
    else
      Enqueue(s.(cache := s.cache[h.key := Label(h)], log := s.log + [Switched(h.key, Label(h))]),
              id, h, AwaitSetCurrent)
  }

  /** A reply arrives: the segment that follows it. */
  function Resume(s: State, id: Hid): State
    requires id in s.handlers
  {
    var h := s.handlers[id];
    match h.at
    case AwaitAllowed => Admit(s, id, h)
    case AwaitSetCurrent => Enqueue(s, id, h, AwaitPersistField)
    case AwaitPersistField => Issue(s, id, h, AwaitKeepAlive)
    case AwaitKeepAlive => Issue(s, id, h, AwaitRemovePosition)
    case AwaitRemovePosition => StartBroadcast(s, id, h)
    case AwaitPublish => Enqueue(s, id, h, AwaitCount)
    case AwaitCount => if s.setup.ttl.Some? then Enqueue(s, id, h, AwaitExpire) else CheckAndWrite(s, id, h)
    case AwaitExpire => CheckAndWrite(s, id, h)
    case AwaitSetUser => Issue(s, id, h, AwaitPersistUser)
    case AwaitPersistUser => Issue(s, id, h, AwaitAddPoint)
    case AwaitAddPoint => Finish(s, id)
  }

  // ---- Effects of commands ----

  function Wake(handlers: map<Hid, Handler>, id: Hid): map<Hid, Handler> {
    if id in handlers then handlers[id := handlers[id].(ready := true)] else handlers
  }

  /** The allowed list of a connection record, split; nothing without a record. */
  function AllowedIn(conns: Hashes, key: Key): Option<seq<Name>> {
    match HGet(conns, key, AllowedCharacters)
    case Some(Text(list)) => Some(Names.Split(list))
    case _ => None
  }

  /** What a command of the connection store does to the connection records. */
  function Executed(c: Command, conns: Hashes, ttl: Option<int>, now: int): Hashes {
    match c
    case GetAllowed(_, _) => conns
    case SetCurrent(_, key, name) => HSet(conns, key, map[CurrentCharacter := Text(name)])
    case PersistField(_, _) => conns // no field of a connection record ever has a deadline of its own
    case Increase(_, key) => HIncrBy(conns, key, PositionCount, 1)
    case ExpireConnection(_, key) => if ttl.Some? then Expire(conns, key, ttl.value, now) else conns
  }

  /** The oldest command of the connection store takes effect, and its handler may go on. */
  function Deliver(s: State): State
    requires s.queue != []
  {
    var c := s.queue[0];
    var reply := if c.GetAllowed? then AllowedIn(s.conns, c.key) else None;
    var handlers := Wake(s.handlers, c.h);
    s.(queue := s.queue[1..],
       conns := Executed(c, s.conns, s.setup.ttl, s.now),
       handlers := if reply.Some? && c.h in handlers then handlers[c.h := handlers[c.h].(reply := reply)] else handlers,
       log := if reply.Some? then s.log + [Allowed(c.key, reply.value)] else s.log)
  }

  /** What a handler's command does to the user hashes. */
  function UsersAfter(h: Handler, users: Hashes, now: int): Hashes {
    match h.at
    case AwaitKeepAlive => Expire(users, Printed(h.player), USER_TTL, now)
    case AwaitSetUser => HSet(users, Label(h), h.fields)
    case AwaitPersistUser => Persist(users, Label(h))
    case _ => users
  }

  /** What a handler's command does to the live positions. */
  function LiveAfter(h: Handler, live: set<Name>): set<Name> {
    match h.at
    case AwaitRemovePosition => live - {Printed(h.player)}
    case AwaitAddPoint => live + {Label(h)}
    case _ => live
  }

  function Without(ids: seq<Hid>, id: Hid): seq<Hid> {
    if ids == [] then []
    else if ids[0] == id then Without(ids[1..], id)
    else [ids[0]] + Without(ids[1..], id)
  }

  /** No command that was issued earlier is pending on the handler's client. */
  predicate InTurn(s: State, id: Hid)
    requires id in s.handlers
  {
    exists i | 0 <= i < |s.issued| :: s.issued[i] == id && First(s, i)
  }

  predicate First(s: State, i: nat)
    requires i < |s.issued|
  {
    forall j | 0 <= j < i && s.issued[j] in s.handlers && s.issued[i] in s.handlers ::
      !SameClient(s.handlers[s.issued[j]].at, s.handlers[s.issued[i]].at)
  }

  /** A handler's command on one of the other clients takes effect, and the handler may go on. */
  function Effect(s: State, id: Hid): State
    requires id in s.handlers
  {
    s.(handlers := Wake(s.handlers, id),
       issued := Without(s.issued, id),
       users := UsersAfter(s.handlers[id], s.users, s.now),
       live := LiveAfter(s.handlers[id], s.live))
  }

  // ---- The ground station ----

  function UpgradeWrite(s: State, u: ActorId, key: Key, aborted: bool): State
    requires key in s.setup.claims
  {
    var claim := s.setup.claims[key];
    s.(conns := HSet(s.conns, key, map[AllowedCharacters := Text(Names.Join(Names.Split(claim.characters))),
                                       AuthenticationLevel := Num(claim.level)]),
       upgrades := s.upgrades[u := Persisting(key, aborted)])
  }

  function UpgradeNext(s: State, u: ActorId): State
    requires u in s.upgrades
  {
    match s.upgrades[u]
    case Persisting(key, aborted) =>
      s.(conns := Persist(s.conns, key),
         upgrades := if aborted then s.upgrades[u := Deleting(key)] else s.upgrades - {u})
    case Deleting(key) =>
      s.(conns := Del(s.conns, key), upgrades := s.upgrades - {u}, lost := s.lost + {key})
  }

  function CurrentName(conns: Hashes, key: Key): Option<Name> {
    match HGet(conns, key, CurrentCharacter)
    case Some(Text(name)) => Some(name)
    case _ => None
  }

  function CloseRead(s: State, c: ActorId, key: Key): State {
    var current := CurrentName(s.conns, key);
    s.(closes := s.closes[c := if current.Some? then Removing(key, current.value) else Expiring(key)])
  }

  function ShutdownRead(s: State, c: ActorId, key: Key, keepFirst: bool): State {
    s.(closes := s.closes[c := Dropping(key, CurrentName(s.conns, key), keepFirst)])
  }

  /** Whose live position this step of a close takes away. */
  function TakesAway(c: Close): set<Name> {
    match c
    case Removing(_, name) => {name}
    case LastRemoving(name, _) => {name}
    case _ => {}
  }

  /** Whose user hash it lets expire. */
  function LetsExpire(c: Close): Option<Name> {
    match c
    case KeepingAlive(_, name) => Some(name)
    case LastKeeping(name, _) => Some(name)
    case _ => None
  }

  /** Which connection record it lets expire. */
  function LetsLapse(c: Close): Option<Key> {
    match c
    case Expiring(key) => Some(key)
    case Dropping(key, _, _) => Some(key)
    case _ => None
  }

  function NextClose(c: Close): Option<Close> {
    match c
    case Removing(key, name) => Some(KeepingAlive(key, name))
    case KeepingAlive(key, name) => Some(Expiring(key))
    case Expiring(key) => None
    case Dropping(key, None, keepFirst) => None
    case Dropping(key, Some(name), keepFirst) =>
      Some(if keepFirst then LastKeeping(name, false) else LastRemoving(name, false))
    case LastRemoving(name, kept) => if kept then None else Some(LastKeeping(name, true))
    case LastKeeping(name, removed) => if removed then None else Some(LastRemoving(name, true))
  }

  function ExpireSome(m: Hashes, key: Option<string>, now: int): Hashes {
    if key.Some? then Expire(m, key.value, CLOSED_TTL, now) else m
  }

  function CloseNext(s: State, c: ActorId): State
    requires c in s.closes
  {
    var close := s.closes[c];
    s.(live := s.live - TakesAway(close),
       users := ExpireSome(s.users, LetsExpire(close), s.now),
       conns := ExpireSome(s.conns, LetsLapse(close), s.now),
       closes := if NextClose(close).Some? then s.closes[c := NextClose(close).value] else s.closes - {c})
  }

  /** Time passes and hashes past their deadline vanish. */
  function Elapse(s: State, ms: nat): State {
    var conns := Purge(s.conns, s.now + ms);
    s.(now := s.now + ms, conns := conns, users := Purge(s.users, s.now + ms),
       lost := s.lost + (s.conns.Keys - conns.Keys))
  }

  // ---- Steps and runs ----

  datatype Action =
    | DoReceive(h: Hid, key: Key, msg: Message)
    | DoResume(h: Hid)
    | DoDeliver
    | DoEffect(h: Hid)
    | DoUpgrade(u: ActorId, key: Key, aborted: bool)
    | DoUpgradeNext(u: ActorId)
    | DoClose(c: ActorId, key: Key)
    | DoShutdown(c: ActorId, key: Key, keepFirst: bool)
    | DoCloseNext(c: ActorId)
    | DoElapse(ms: nat)

  predicate Enabled(s: State, a: Action) {
    match a
    case DoReceive(h, _, _) => h !in s.handlers
    case DoResume(h) => h in s.handlers && s.handlers[h].ready
    case DoDeliver => s.queue != []
    case DoEffect(h) => h in s.handlers && !s.handlers[h].ready && !OnConnectionStore(s.handlers[h].at) && InTurn(s, h)
    case DoUpgrade(u, key, _) => u !in s.upgrades && key in s.setup.claims
    case DoUpgradeNext(u) => u in s.upgrades
    case DoClose(c, _) => c !in s.closes
    case DoShutdown(c, _, _) => c !in s.closes
    case DoCloseNext(c) => c in s.closes
    case DoElapse(_) => true
  }

  function Next(s: State, a: Action): State
    requires Enabled(s, a)
  {
    match a
    case DoReceive(h, key, msg) => Receive(s, h, key, msg)
    case DoResume(h) => Resume(s, h)
    case DoDeliver => Deliver(s)
    case DoEffect(h) => Effect(s, h)
    case DoUpgrade(u, key, aborted) => UpgradeWrite(s, u, key, aborted)
    case DoUpgradeNext(u) => UpgradeNext(s, u)
    case DoClose(c, key) => CloseRead(s, c, key)
    case DoShutdown(c, key, keepFirst) => ShutdownRead(s, c, key, keepFirst)
    case DoCloseNext(c) => CloseNext(s, c)
    case DoElapse(ms) => Elapse(s, ms)
  }

  /** A time-to-live for connections, if configured, is positive. */
  predicate Configured(ttl: Option<int>) {
    ttl.Some? ==> ttl.value > 0
  }

  ghost predicate IsRun(setup: Setup, run: seq<Action>)
    decreases |run|, 0
  {
    run == [] || (IsRun(setup, run[..|run| - 1]) && Enabled(StateAfter(setup, run[..|run| - 1]), run[|run| - 1]))
  }

  ghost function StateAfter(setup: Setup, run: seq<Action>): State
    requires IsRun(setup, run)
    decreases |run|, 1
  {
    if run == [] then Initial(setup) else Next(StateAfter(setup, run[..|run| - 1]), run[|run| - 1])
  }
}
