/**
 The relay, its stores and the ground station's steps as one object that is updated in place. Each
 method is one step of the step system, so that whatever holds after every run holds of the object.
 */
module RelayService {
  import opened Wrappers
  import opened HashStore
  import opened Positions
  import opened Relay
  import opened RelayAuthority
  import opened RelayAgreement
  import opened RelayClaims
  import opened RelayPending
  import opened RelayCount
  import opened RelayGhosts
  import Names = AllowedNames

  class Service {
    const setup: Setup // the time to live of connection records, and the token of each connection
    var playerConnections: map<Key, Name>
    var handlers: map<Hid, Handler>
    var commands: seq<Command> // of the connection store, in issue order
    var issued: seq<Hid> // who waits for a command on the other clients, in issue order
    const connectionStore: KeyValueStore
    const userStore: KeyValueStore
    var livePositions: set<Name>
    var upgrades: map<ActorId, Upgrade>
    var closes: map<ActorId, Close>
    var now: nat
    ghost var log: Log
    ghost var lost: set<Key>
    ghost var run: seq<Action>

    ghost function Abs(): State
      reads this, connectionStore, userStore
    {
      State(playerConnections, connectionStore.hashes, userStore.hashes, livePositions, handlers, commands,
            issued, upgrades, closes, now, setup, log, lost)
    }

    /** The object is where its run has led. */
    ghost predicate Valid()
      reads this, connectionStore, userStore
    {
      connectionStore != userStore && IsRun(setup, run) && Abs() == StateAfter(setup, run)
    }

    constructor (setup: Setup)
      ensures Valid() && run == [] && this.setup == setup
      ensures fresh(connectionStore) && fresh(userStore)
    {
      this.setup := setup;
      playerConnections, handlers, commands, issued, livePositions := map[], map[], [], [], {};
      upgrades, closes, now := map[], map[], 0;
      connectionStore := new KeyValueStore();
      userStore := new KeyValueStore();
      log, lost, run := [], {}, [];
    }

    // ---- The message handler ----

    /** Waits for a command, which goes behind those issued before. */
    method Suspend(id: Hid, h: Handler, at: Await)
      requires connectionStore != userStore
      modifies this
      ensures Abs() == if OnConnectionStore(at) then Enqueue(old(Abs()), id, h, at) else Issue(old(Abs()), id, h, at)
      ensures run == old(run)
    {
      var waiting := h.(at := at, ready := false);
      handlers := handlers[id := waiting];
      if OnConnectionStore(at) {
        commands := commands + [CommandOf(id, waiting)];
      } else {
        issued := issued + [id];
      }
    }

    method End(id: Hid)
      modifies this
      ensures Abs() == Finish(old(Abs()), id)
      ensures run == old(run)
    {
      handlers := handlers - {id};
    }

    method SendPosition(id: Hid, h: Handler)
      requires connectionStore != userStore
      modifies this
      ensures Abs() == StartBroadcast(old(Abs()), id, h)
      ensures |log| == |old(log)| + 1 && log[..|old(log)|] == old(log)
      ensures log[|old(log)|].Broadcast? && Carries(log[|old(log)|].position, h.msg, Label(h))
      ensures run == old(run)
    {
      hide Carries, Label;
      var position := BuildPosition(h.msg, Label(h));
      log := log + [Broadcast(h.key, position)];
      Suspend(id, h, AwaitPublish);
    }

    method StoreAttributes(id: Hid, h: Handler)
      requires connectionStore != userStore
      modifies this
      ensures Abs() == CheckAndWrite(old(Abs()), id, h)
      ensures var name := Label(h);
              if h.key in playerConnections && playerConnections[h.key] == name
              then id in handlers && handlers[id].at == AwaitSetUser
                   && HoldsMessage(map[name := Hash(handlers[id].fields, None)], name, h.msg, h.key, now)
              else id !in handlers && log == old(log)
      ensures run == old(run)
    {
      hide Carries, Label, HoldsMessage, Attributes, UserFields;
      var position := BuildPosition(h.msg, Label(h));
      if h.key !in playerConnections || playerConnections[h.key] != position.name {
        End(id);
        return;
      }
      var fields := Attributes(position, h.key, now);
      AttributesAreTheMessages(h.msg, Label(h), h.key, now);
      log := log + [Wrote(h.key, position.name, fields)];
      Suspend(id, h.(fields := fields), AwaitSetUser);
    }

    method SwitchCharacter(id: Hid, h: Handler)
      requires connectionStore != userStore
      modifies this
      ensures Abs() == Admit(old(Abs()), id, h)
      ensures run == old(run)
    {
      if h.reply.None? || Label(h) !in h.reply.value {
        End(id);
        return;
      }
      playerConnections := playerConnections[h.key := Label(h)];
      log := log + [Switched(h.key, Label(h))];
      Suspend(id, h, AwaitSetCurrent);
    }

    method Accept(id: Hid, key: Key, msg: Message)
      requires connectionStore != userStore
      modifies this
      ensures Abs() == Receive(old(Abs()), id, key, msg)
      ensures run == old(run)
    {
      hide CommandOf, PositionOf, Label;
      if key == "" {
        return;
      }
      var playerName := None;
      if key in playerConnections && playerConnections[key] != "" {
        playerName := Some(playerConnections[key]);
      }
      var h := Handler(key, msg, playerName, AwaitAllowed, false, None, map[]);
      assert h == Arriving(playerConnections, key, msg);
      log := log + [Received(key, msg)];
      if Named(msg) && playerName != msg.characterName {
        Suspend(id, h, AwaitAllowed);
      } else if playerName.Some? || msg.characterName.Some? {
        SendPosition(id, h);
      }
    }

    /** A message arrives. */
    method OnMessage(id: Hid, key: Key, msg: Message)
      requires Valid() && id !in handlers
      modifies this
      ensures Valid() && run == old(run) + [DoReceive(id, key, msg)]
      ensures Abs() == Receive(old(Abs()), id, key, msg)
    {
      hide Receive;
      ghost var before := Abs();
      Accept(id, key, msg);
      Record(before, DoReceive(id, key, msg));
    }

    /** The command a handler waits for is answered. */
    method OnReply(id: Hid)
      requires Valid() && id in handlers && handlers[id].ready
      modifies this
      ensures Valid() && run == old(run) + [DoResume(id)]
      ensures Abs() == Resume(old(Abs()), id)
    {
      hide Resume;
      ghost var before := Abs();
      GoOn(id);
      Record(before, DoResume(id));
    }

    method GoOn(id: Hid)
      requires connectionStore != userStore && id in handlers
      modifies this
      ensures Abs() == Resume(old(Abs()), id)
      ensures run == old(run)
    {
      var h := handlers[id];
      match h.at {
        case AwaitAllowed => SwitchCharacter(id, h);
        case AwaitSetCurrent => Suspend(id, h, AwaitPersistField);
        case AwaitPersistField => Suspend(id, h, AwaitKeepAlive);
        case AwaitKeepAlive => Suspend(id, h, AwaitRemovePosition);
        case AwaitRemovePosition => SendPosition(id, h);
        case AwaitPublish => Suspend(id, h, AwaitCount);
        case AwaitCount =>
          if setup.ttl.Some? {
            Suspend(id, h, AwaitExpire);
          } else {
            StoreAttributes(id, h);
          }
        case AwaitExpire => StoreAttributes(id, h);
        case AwaitSetUser => Suspend(id, h, AwaitPersistUser);
        case AwaitPersistUser => Suspend(id, h, AwaitAddPoint);
        case AwaitAddPoint => End(id);
      }
    }

    // ---- The stores ----

    /** The oldest command of the connection store takes effect and is answered. */
    method ExecuteOldest()
      requires Valid() && commands != []
      modifies this, connectionStore
      ensures Valid() && run == old(run) + [DoDeliver]
      ensures Abs() == Deliver(old(Abs()))
    {
      ghost var before := Abs();
      AnswerOldest();
      hide Deliver;
      Record(before, DoDeliver);
    }

    method AnswerOldest()
      requires connectionStore != userStore && commands != []
      modifies this, connectionStore
      ensures Abs() == Deliver(old(Abs()))
      ensures run == old(run)
    {
      var c := commands[0];
      commands := commands[1..];
      handlers := Wake(handlers, c.h);
      match c {
        case GetAllowed(id, key) =>
          var list := connectionStore.Get(key, AllowedCharacters);
          if list.Some? && list.value.Text? {
            var names := Names.Split(list.value.text);
            log := log + [Allowed(key, names)];
            if id in handlers {
              handlers := handlers[id := handlers[id].(reply := Some(names))];
            }
          }
        case SetCurrent(_, key, name) => connectionStore.Set(key, CurrentCharacter, Text(name));
        case PersistField(_, _) =>
        case Increase(_, key) => var _ := connectionStore.Incr(key, PositionCount, 1);
        case ExpireConnection(_, key) =>
          if setup.ttl.Some? {
            connectionStore.ExpireKey(key, setup.ttl.value, now);
          }
      }
    }

    /** A command on the user store, the trail tracker or the transmitter takes effect and is answered. */
    method ExecuteOther(id: Hid)
      requires Valid() && Enabled(Abs(), DoEffect(id))
      modifies this, userStore
      ensures Valid() && run == old(run) + [DoEffect(id)]
      ensures Abs() == Effect(old(Abs()), id)
    {
      ghost var before := Abs();
      AnswerOther(id);
      hide Effect;
      Record(before, DoEffect(id));
    }

    method AnswerOther(id: Hid)
      requires connectionStore != userStore && id in handlers
      modifies this, userStore
      ensures Abs() == Effect(old(Abs()), id)
      ensures run == old(run)
    {
      var h := handlers[id];
      match h.at {
        case AwaitKeepAlive => userStore.ExpireKey(Printed(h.player), USER_TTL, now);
        case AwaitRemovePosition => livePositions := livePositions - {Printed(h.player)};
        case AwaitSetUser => userStore.WriteFields(Label(h), h.fields);
        case AwaitPersistUser => userStore.PersistKey(Label(h));
        case AwaitAddPoint => livePositions := livePositions + {Label(h)};
        case _ =>
      }
      handlers, issued := Wake(handlers, id), Without(issued, id);
    }

    // ---- The ground station ----

    /** An upgrade writes the allowed names and the authentication level of its token. */
    method OnUpgrade(u: ActorId, key: Key, aborted: bool)
      requires Valid() && u !in upgrades && key in setup.claims
      modifies this, connectionStore
      ensures Valid() && run == old(run) + [DoUpgrade(u, key, aborted)]
      ensures Abs() == UpgradeWrite(old(Abs()), u, key, aborted)
    {
      ghost var before := Abs();
      var claim := setup.claims[key];
      connectionStore.WriteFields(key, map[AllowedCharacters := Text(Names.Join(Names.Split(claim.characters))),
                                           AuthenticationLevel := Num(claim.level)]);
      upgrades := upgrades[u := Persisting(key, aborted)];
      assert Abs() == UpgradeWrite(before, u, key, aborted);
      hide UpgradeWrite;
      Record(before, DoUpgrade(u, key, aborted));
    }

    /** An upgrade persists the record, and deletes it if the socket is gone. */
    method UpgradeContinues(u: ActorId)
      requires Valid() && u in upgrades
      modifies this, connectionStore
      ensures Valid() && run == old(run) + [DoUpgradeNext(u)]
      ensures Abs() == UpgradeNext(old(Abs()), u)
    {
      hide UpgradeNext;
      ghost var before := Abs();
      FinishUpgrade(u);
      Record(before, DoUpgradeNext(u));
    }

    method FinishUpgrade(u: ActorId)
      requires connectionStore != userStore && u in upgrades
      modifies this, connectionStore
      ensures Abs() == UpgradeNext(old(Abs()), u)
      ensures run == old(run)
    {
      match upgrades[u] {
        case Persisting(key, aborted) =>
          connectionStore.PersistKey(key);
          upgrades := if aborted then upgrades[u := Deleting(key)] else upgrades - {u};
        case Deleting(key) =>
          connectionStore.DeleteKey(key);
          upgrades, lost := upgrades - {u}, lost + {key};
      }
    }

    /** A close looks up the current character. */
    method OnClose(c: ActorId, key: Key)
      requires Valid() && c !in closes
      modifies this
      ensures Valid() && run == old(run) + [DoClose(c, key)]
      ensures Abs() == CloseRead(old(Abs()), c, key)
    {
      hide CloseRead;
      ghost var before := Abs();
      LookUpCurrent(c, key);
      Record(before, DoClose(c, key));
    }

    method LookUpCurrent(c: ActorId, key: Key)
      requires connectionStore != userStore && c !in closes
      modifies this
      ensures Abs() == CloseRead(old(Abs()), c, key)
      ensures run == old(run)
    {
      var current := connectionStore.Get(key, CurrentCharacter);
      closes := closes[c := if current.Some? && current.value.Text? then Removing(key, current.value.text)
                            else Expiring(key)];
    }

    /** So does a shutdown, for each connection it serves. */
    method OnShutdown(c: ActorId, key: Key, keepFirst: bool)
      requires Valid() && c !in closes
      modifies this
      ensures Valid() && run == old(run) + [DoShutdown(c, key, keepFirst)]
      ensures Abs() == ShutdownRead(old(Abs()), c, key, keepFirst)
    {
      hide ShutdownRead;
      ghost var before := Abs();
      LookUpForShutdown(c, key, keepFirst);
      Record(before, DoShutdown(c, key, keepFirst));
    }

    method LookUpForShutdown(c: ActorId, key: Key, keepFirst: bool)
      requires connectionStore != userStore && c !in closes
      modifies this
      ensures Abs() == ShutdownRead(old(Abs()), c, key, keepFirst)
      ensures run == old(run)
    {
      var current := connectionStore.Get(key, CurrentCharacter);
      closes := closes[c := Dropping(key,
                                     if current.Some? && current.value.Text? then Some(current.value.text) else None,
                                     keepFirst)];
    }

    /** A close or a shutdown takes the live position away and lets user and connection expire. */
    method CloseContinues(c: ActorId)
      requires Valid() && c in closes
      modifies this, connectionStore, userStore
      ensures Valid() && run == old(run) + [DoCloseNext(c)]
      ensures Abs() == CloseNext(old(Abs()), c)
    {
      hide CloseNext;
      ghost var before := Abs();
      FinishClose(c);
      Record(before, DoCloseNext(c));
    }

    method FinishClose(c: ActorId)
      requires connectionStore != userStore && c in closes
      modifies this, connectionStore, userStore
      ensures Abs() == CloseNext(old(Abs()), c)
      ensures run == old(run)
    {
      match closes[c] {
        case Removing(key, name) =>
          livePositions, closes := livePositions - {name}, closes[c := KeepingAlive(key, name)];
        case KeepingAlive(key, name) =>
          userStore.ExpireKey(name, CLOSED_TTL, now);
          closes := closes[c := Expiring(key)];
        case Expiring(key) =>
          connectionStore.ExpireKey(key, CLOSED_TTL, now);
          closes := closes - {c};
        case Dropping(key, current, keepFirst) =>
          connectionStore.ExpireKey(key, CLOSED_TTL, now);
          if current.None? {
            closes := closes - {c};
          } else if keepFirst {
            closes := closes[c := LastKeeping(current.value, false)];
          } else {
            closes := closes[c := LastRemoving(current.value, false)];
          }
        case LastRemoving(name, kept) =>
          livePositions := livePositions - {name};
          closes := if kept then closes - {c} else closes[c := LastKeeping(name, true)];
        case LastKeeping(name, removed) =>
          userStore.ExpireKey(name, CLOSED_TTL, now);
          closes := if removed then closes - {c} else closes[c := LastRemoving(name, true)];
      }
    }

    // ---- The clock ----

    /** Time passes, and the stores drop what has expired. */
    method Wait(ms: nat)
      requires Valid()
      modifies this, connectionStore, userStore
      ensures Valid() && run == old(run) + [DoElapse(ms)]
      ensures Abs() == Elapse(old(Abs()), ms)
    {
      hide Elapse;
      ghost var before := Abs();
      Expiry(ms);
      Record(before, DoElapse(ms));
    }

    method Expiry(ms: nat)
      requires connectionStore != userStore
      modifies this, connectionStore, userStore
      ensures Abs() == Elapse(old(Abs()), ms)
      ensures run == old(run)
    {
      ghost var keys := connectionStore.hashes.Keys;
      now := now + ms;
      connectionStore.DropExpired(now);
      userStore.DropExpired(now);
      lost := lost + (keys - connectionStore.hashes.Keys);
    }

    // ---- Runs ----

    /** What every run keeps holds of the object at any time, and without ghosts if all messages have fitted. */
    lemma Holds()
      requires Valid()
      ensures Inv(Abs()) && PendingInv(Abs()) && ClaimsInv(Abs())
      ensures Configured(setup.ttl) ==> AgreeInv(Abs()) && CountInv(Abs())
      ensures AllFit(setup, run) ==> GhostInv(Abs())
    {
      RunKeepsInv(setup, run);
      RunKeepsPending(setup, run);
      RunKeepsClaims(setup, run);
      if Configured(setup.ttl) {
        RunKeepsAgreement(setup, run);
        RunKeepsCount(setup, run);
      }
      if AllFit(setup, run) {
        RunKeepsGhostInv(setup, run);
      }
    }

    ghost method Record(before: State, a: Action)
      requires connectionStore != userStore && IsRun(setup, run) && before == StateAfter(setup, run)
      requires Enabled(before, a) && Abs() == Next(before, a)
      modifies this`run
      ensures Valid() && run == old(run) + [a]
    {
      assert (run + [a])[..|run|] == run;
      run := run + [a];
    }
  }
}
