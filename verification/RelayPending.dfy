/**
 What is pending. In every interleaving each waiting handler has exactly one command pending, in the
 queue of the connection store or among the commands issued on the other clients.
 */
module RelayPending {
  import opened Wrappers
  import opened Positions
  import opened Relay
  import opened RelayAuthority

  // ---- Order ----

  predicate Distinct(ids: seq<Hid>) {
    forall i, j | 0 <= i < j < |ids| :: ids[i] != ids[j]
  }

  /** The first id stands before the second. */
  ghost predicate Ahead(ids: seq<Hid>, a: Hid, b: Hid) {
    exists i, j | 0 <= i < j < |ids| :: ids[i] == a && ids[j] == b
  }

  lemma {:induction false} WithoutMembers(ids: seq<Hid>, id: Hid)
    ensures forall x :: x in Without(ids, id) <==> x in ids && x != id
  {
    if ids != [] {
      WithoutMembers(ids[1..], id);
      assert ids == [ids[0]] + ids[1..];
    }
  }

  lemma AheadInTail(ids: seq<Hid>, a: Hid, b: Hid)
    requires ids != []
    ensures Ahead(ids, a, b) <==> Ahead(ids[1..], a, b) || (ids[0] == a && b in ids[1..])
  {
    if Ahead(ids, a, b) {
      var i, j :| 0 <= i < j < |ids| && ids[i] == a && ids[j] == b;
      assert ids[1..][j - 1] == b;
      assert i > 0 ==> ids[1..][i - 1] == a;
    }
    if Ahead(ids[1..], a, b) {
      var i, j :| 0 <= i < j < |ids[1..]| && ids[1..][i] == a && ids[1..][j] == b;
      assert ids[i + 1] == a && ids[j + 1] == b;
    }
    if ids[0] == a && b in ids[1..] {
      var j :| 0 <= j < |ids[1..]| && ids[1..][j] == b;
      assert ids[j + 1] == b;
    }
  }

  /** Taking a third one out does not change who stands before whom. */
  lemma {:induction false} WithoutKeepsOrder(ids: seq<Hid>, id: Hid, a: Hid, b: Hid)
    requires Ahead(ids, a, b) && a != id && b != id
    ensures Ahead(Without(ids, id), a, b)
  {
    WithoutKeepsOrderOfTail(ids, id, a, b);
    AheadInTail(ids, a, b);
    if Ahead(ids[1..], a, b) {
      WithoutKeepsOrder(ids[1..], id, a, b);
    }
    WithoutMembers(ids[1..], id);
    if ids[0] != id {
      var rest := Without(ids[1..], id);
      assert ([ids[0]] + rest)[1..] == rest;
      AheadInTail([ids[0]] + rest, a, b);
    }
  }

  lemma WithoutKeepsOrderOfTail(ids: seq<Hid>, id: Hid, a: Hid, b: Hid)
    requires Ahead(ids, a, b)
    ensures ids != []
  {
  }

  lemma {:induction false} WithoutStaysDistinct(ids: seq<Hid>, id: Hid)
    requires Distinct(ids)
    ensures Distinct(Without(ids, id))
  {
    if ids != [] {
      assert forall i | 0 <= i < |ids[1..]| :: ids[1..][i] == ids[i + 1];
      assert ids[0] !in ids[1..];
      WithoutStaysDistinct(ids[1..], id);
      WithoutMembers(ids[1..], id);
    }
  }

  lemma AppendKeepsOrder(ids: seq<Hid>, id: Hid)
    ensures forall a, b | Ahead(ids, a, b) :: Ahead(ids + [id], a, b)
    ensures forall a | a in ids :: Ahead(ids + [id], a, id)
  {
    var more := ids + [id];
    forall a, b | Ahead(ids, a, b)
      ensures Ahead(more, a, b)
    {
      var i, j :| 0 <= i < j < |ids| && ids[i] == a && ids[j] == b;
      assert more[i] == a && more[j] == b;
    }
    forall a | a in ids
      ensures Ahead(more, a, id)
    {
      var i :| 0 <= i < |ids| && ids[i] == a;
      assert more[i] == a && more[|ids|] == id;
    }
  }

  // ---- The invariant ----

  predicate Outstanding(handlers: map<Hid, Handler>, id: Hid) {
    id in handlers && !handlers[id].ready && !OnConnectionStore(handlers[id].at)
  }

  ghost predicate Commanded(queue: seq<Command>, id: Hid) {
    exists i | 0 <= i < |queue| :: queue[i].h == id
  }

  /** The commands issued on other clients are those that handlers wait for, one per handler. */
  ghost predicate IssuedOk(issued: seq<Hid>, handlers: map<Hid, Handler>) {
    && Distinct(issued)
    && forall id :: id in issued <==> Outstanding(handlers, id)
  }

  ghost predicate QueueFull(queue: seq<Command>, handlers: map<Hid, Handler>) {
    forall id | id in handlers && !handlers[id].ready && OnConnectionStore(handlers[id].at) :: Commanded(queue, id)
  }

  /** A handler that waits for the allowed names has no reply yet. */
  predicate Fresh(h: Handler) {
    h.at.AwaitAllowed? && !h.ready ==> h.reply == None
  }

  ghost predicate PendingInv(s: State) {
    && IssuedOk(s.issued, s.handlers)
    && QueueFull(s.queue, s.handlers)
    && forall id | id in s.handlers :: Fresh(s.handlers[id])
  }

  // ---- Ends of segments ----

  lemma IssuePends(s: State, id: Hid, h: Handler, at: Await)
    requires PendingInv(s) && (id in s.handlers ==> s.handlers[id].ready) && !OnConnectionStore(at)
    ensures PendingInv(Issue(s, id, h, at))
  {
    var t := Issue(s, id, h, at);
    assert !at.AwaitAllowed?;
    hide OnConnectionStore, Commanded;
    assert id !in s.issued;
    assert forall x :: x in t.issued <==> x in s.issued || x == id;
    forall x | x in t.handlers && !t.handlers[x].ready && OnConnectionStore(t.handlers[x].at)
      ensures Commanded(t.queue, x)
    {
    }
  }

  lemma CommandedGrows(queue: seq<Command>, c: Command)
    ensures forall id | Commanded(queue, id) :: Commanded(queue + [c], id)
    ensures Commanded(queue + [c], c.h)
  {
    forall id | Commanded(queue, id)
      ensures Commanded(queue + [c], id)
    {
      var i :| 0 <= i < |queue| && queue[i].h == id;
      assert (queue + [c])[i].h == id;
    }
    assert (queue + [c])[|queue|] == c;
  }

  lemma EnqueuePends(s: State, id: Hid, h: Handler, at: Await)
    requires PendingInv(s) && (id in s.handlers ==> s.handlers[id].ready) && OnConnectionStore(at)
    requires at.AwaitAllowed? ==> h.reply == None
    ensures PendingInv(Enqueue(s, id, h, at))
  {
    var c := CommandOf(id, Waiting(h, at));
    assert c.h == id;
    hide OnConnectionStore, Commanded, CommandOf;
    CommandedGrows(s.queue, c);
    assert !Outstanding(s.handlers, id);
  }

  lemma FinishPends(s: State, id: Hid)
    requires PendingInv(s) && (id in s.handlers ==> s.handlers[id].ready)
    ensures PendingInv(Finish(s, id))
  {
    hide OnConnectionStore, Commanded;
  }

  // ---- Steps ----

  lemma StartBroadcastPends(s: State, id: Hid, h: Handler)
    requires PendingInv(s) && (id in s.handlers ==> s.handlers[id].ready)
    ensures PendingInv(StartBroadcast(s, id, h))
  {
    hide PositionOf, Label;
    var t := s.(log := s.log + [Broadcast(h.key, PositionOf(h.msg, Label(h)))]);
    assert PendingInv(t);
    hide PendingInv;
    IssuePends(t, id, h, AwaitPublish);
  }

  lemma CheckAndWritePends(s: State, id: Hid, h: Handler)
    requires PendingInv(s) && (id in s.handlers ==> s.handlers[id].ready)
    ensures PendingInv(CheckAndWrite(s, id, h))
  {
    hide UserFields, Label;
    var fields := UserFields(h.msg, h.key, s.now);
    var t := s.(log := s.log + [Wrote(h.key, Label(h), fields)]);
    assert PendingInv(t);
    hide PendingInv;
    IssuePends(t, id, h.(fields := fields), AwaitSetUser);
    FinishPends(s, id);
  }

  lemma AdmitPends(s: State, id: Hid, h: Handler)
    requires PendingInv(s) && (id in s.handlers ==> s.handlers[id].ready)
    ensures PendingInv(Admit(s, id, h))
  {
    hide Label;
    var t := s.(cache := s.cache[h.key := Label(h)], log := s.log + [Switched(h.key, Label(h))]);
    assert PendingInv(t);
    hide PendingInv, Enqueue;
    EnqueuePends(t, id, h, AwaitSetCurrent);
    FinishPends(s, id);
  }

  lemma ReceivePends(s: State, id: Hid, key: Key, msg: Message)
    requires PendingInv(s) && id !in s.handlers
    ensures PendingInv(Receive(s, id, key, msg))
  {
    var t := s.(log := s.log + [Received(key, msg)]);
    assert PendingInv(t);
    hide PendingInv, Enqueue, StartBroadcast, Arriving, Switches;
    EnqueuePends(t, id, Arriving(s.cache, key, msg), AwaitAllowed);
    StartBroadcastPends(t, id, Arriving(s.cache, key, msg));
  }

  lemma ResumePends(s: State, id: Hid)
    requires PendingInv(s) && id in s.handlers && s.handlers[id].ready
    ensures PendingInv(Resume(s, id))
  {
    hide PendingInv, Enqueue, Issue, Finish, StartBroadcast, CheckAndWrite, Admit;
    var h := s.handlers[id];
    match h.at {
      case AwaitAllowed => AdmitPends(s, id, h);
      case AwaitSetCurrent => EnqueuePends(s, id, h, AwaitPersistField);
      case AwaitPersistField => IssuePends(s, id, h, AwaitKeepAlive);
      case AwaitKeepAlive => IssuePends(s, id, h, AwaitRemovePosition);
      case AwaitRemovePosition => StartBroadcastPends(s, id, h);
      case AwaitPublish => EnqueuePends(s, id, h, AwaitCount);
      case AwaitCount =>
        if s.setup.ttl.Some? {
          EnqueuePends(s, id, h, AwaitExpire);
        } else {
          CheckAndWritePends(s, id, h);
        }
      case AwaitExpire => CheckAndWritePends(s, id, h);
      case AwaitSetUser => IssuePends(s, id, h, AwaitPersistUser);
      case AwaitPersistUser => IssuePends(s, id, h, AwaitAddPoint);
      case AwaitAddPoint => FinishPends(s, id);
    }
  }

  lemma CommandedTail(queue: seq<Command>, id: Hid)
    requires queue != [] && Commanded(queue, id) && queue[0].h != id
    ensures Commanded(queue[1..], id)
  {
    var i :| 0 <= i < |queue| && queue[i].h == id;
    assert queue[1..][i - 1].h == id;
  }

  lemma DeliverPends(s: State)
    requires PendingInv(s) && QueueOk(s.queue, s.handlers) && s.queue != []
    ensures PendingInv(Deliver(s))
  {
    HeadIsQueued(s);
    DeliverShape(s);
    var t, id := Deliver(s), s.queue[0].h;
    assert Replied(s).ready;
    hide OnConnectionStore, Commanded, Deliver, Replied, QueueOk, CommandOf;
    forall x | x in t.handlers && !t.handlers[x].ready && OnConnectionStore(t.handlers[x].at)
      ensures Commanded(t.queue, x)
    {
      CommandedTail(s.queue, x);
    }
    assert forall x :: Outstanding(t.handlers, x) <==> Outstanding(s.handlers, x);
  }

  lemma EffectPends(s: State, id: Hid)
    requires PendingInv(s) && id in s.handlers && !s.handlers[id].ready && !OnConnectionStore(s.handlers[id].at)
    ensures PendingInv(Effect(s, id))
  {
    hide OnConnectionStore, Commanded, UsersAfter, LiveAfter, Without;
    WithoutMembers(s.issued, id);
    WithoutStaysDistinct(s.issued, id);
  }

  lemma OthersPend(s: State, t: State)
    requires PendingInv(s) && SameRelay(s, t)
    ensures PendingInv(t)
  {
  }

  lemma Step(s: State, a: Action)
    requires PendingInv(s) && Inv(s) && Enabled(s, a)
    ensures PendingInv(Next(s, a))
  {
    hide PendingInv, Receive, Resume, Deliver, Effect, QueueOk, InTurn;
    match a {
      case DoReceive(h, key, msg) => ReceivePends(s, h, key, msg);
      case DoResume(h) => ResumePends(s, h);
      case DoDeliver => DeliverPends(s);
      case DoEffect(h) => EffectPends(s, h);
      case _ =>
        OthersShape(s, a);
        hide Next;
        OthersPend(s, Next(s, a));
    }
  }

  lemma {:induction false} RunKeepsPending(setup: Setup, run: seq<Action>)
    requires IsRun(setup, run)
    ensures PendingInv(StateAfter(setup, run))
  {
    if run != [] {
      var before := run[..|run| - 1];
      RunKeepsPending(setup, before);
      RunKeepsInv(setup, before);
      hide PendingInv, Inv, Next, Enabled;
      Step(StateAfter(setup, before), run[|run| - 1]);
    }
  }

  // ---- Turns ----

  /** Which commands share a client: those of the user store, those of the trail tracker, and the broadcasts. */
  lemma ClientsApart(at: Await, other: Await)
    ensures OnConnectionStore(at) <==> at in {AwaitAllowed, AwaitSetCurrent, AwaitPersistField, AwaitCount, AwaitExpire}
    ensures !OnConnectionStore(at) && !OnConnectionStore(other) ==>
            (SameClient(at, other) <==>
            || (at in {AwaitKeepAlive, AwaitSetUser, AwaitPersistUser}
                && other in {AwaitKeepAlive, AwaitSetUser, AwaitPersistUser})
            || (at in {AwaitRemovePosition, AwaitAddPoint} && other in {AwaitRemovePosition, AwaitAddPoint})
            || (at == AwaitPublish && other == AwaitPublish))
  {
  }

  /** A handler whose command is next on its client stands behind no other that waits for the same client. */
  lemma InTurnIsFirst(s: State, id: Hid, other: Hid)
    requires IssuedOk(s.issued, s.handlers) && id in s.handlers && InTurn(s, id)
    requires other in s.handlers && SameClient(s.handlers[other].at, s.handlers[id].at)
    ensures !Ahead(s.issued, other, id)
  {
    hide SameClient;
    var k :| 0 <= k < |s.issued| && s.issued[k] == id && First(s, k);
    assert forall j | 0 <= j < |s.issued| && s.issued[j] == id :: j == k;
    assert forall i | 0 <= i < k :: s.issued[i] != other;
  }

  /** The oldest pending command may always take effect. */
  lemma OldestIsInTurn(s: State)
    requires IssuedOk(s.issued, s.handlers) && s.issued != []
    ensures var id := s.issued[0]; Outstanding(s.handlers, id) && InTurn(s, id) && Enabled(s, DoEffect(id))
  {
    assert First(s, 0);
  }

  lemma AloneIsTaken(id: Hid)
    ensures Without([id], id) == []
  {
  }
}
