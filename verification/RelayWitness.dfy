/**
 A run that leaves a ghost, step by step: two messages of one connection overlap, every client
 executes its commands in issue order, and handlers go on in the order of their client's replies.
 */
module RelayWitness {
  import opened Wrappers
  import opened HashStore
  import opened Positions
  import opened Relay
  import opened RelayAuthority
  import opened RelayGhosts
  import opened RelayPaths
  import opened RelayUndisturbed
  import opened RelayDrain
  import opened RelayOverlap
  import Names = AllowedNames

  // ---- A command takes effect and its handler goes on ----

  /** The handler's command is the only one pending on the connection store. */
  predicate WaitsThere(s: State, id: Hid) {
    id in s.handlers && OnConnectionStore(s.handlers[id].at) && !s.handlers[id].ready
    && s.queue == [CommandOf(id, s.handlers[id])]
  }

  /** The handler has moved to another await with its job as before, and only its job has moved. */
  ghost predicate Turned(s: State, t: State, id: Hid, next: Await) {
    && id in s.handlers && id in t.handlers && t.handlers == s.handlers[id := t.handlers[id]]
    && SameJob(s.handlers[id], t.handlers[id]) && t.handlers[id].at == next && !t.handlers[id].ready
    && t.live == s.live && Beside(s, t)
  }

  function Delivered(s: State, id: Hid): State
    requires s.queue != []
  {
    var u := Deliver(s); if id in u.handlers then Resume(u, id) else u
  }

  function Effected(s: State, id: Hid): State
    requires id in s.handlers
  {
    var u := Effect(s, id); if id in u.handlers then Resume(u, id) else u
  }

  lemma ReachDelivered(m: Newcomers, s: State, id: Hid)
    requires Sound(s) && WaitsThere(s, id)
    ensures Reach(m, s, Delivered(s, id)) && Sound(Delivered(s, id))
  {
    HeadIsQueued(s);
    assert CommandOf(id, s.handlers[id]).h == id && id in s.handlers;
    hide Sound, Reach, Resume, CommandOf, Replied;
    DeliverShape(s);
    RepliedIsReady(s);
    hide Deliver;
    Act(m, s, DoDeliver);
    SoundStep(s, DoDeliver);
    ReachResumed(m, Deliver(s), id);
    Then(m, s, Deliver(s), Delivered(s, id));
  }

  lemma RepliedIsReady(s: State)
    requires s.queue != [] && s.queue[0].h in s.handlers
    ensures Replied(s).ready
  {
    hide AllowedIn;
  }

  lemma ReachResumed(m: Newcomers, s: State, id: Hid)
    requires Sound(s) && id in s.handlers && s.handlers[id].ready
    ensures Reach(m, s, Resume(s, id)) && Sound(Resume(s, id))
  {
    hide Sound, Reach, Resume;
    Act(m, s, DoResume(id));
    SoundStep(s, DoResume(id));
  }

  lemma ReachEffected(m: Newcomers, s: State, id: Hid)
    requires Sound(s) && id in s.handlers && !s.handlers[id].ready && !OnConnectionStore(s.handlers[id].at)
             && InTurn(s, id)
    ensures Reach(m, s, Effected(s, id)) && Sound(Effected(s, id))
  {
    hide Sound, Reach, Effect, Resume, InTurn, Beside, Served;
    EffectServes(s, id);
    Act(m, s, DoEffect(id));
    SoundStep(s, DoEffect(id));
    Act(m, Effect(s, id), DoResume(id));
    SoundStep(Effect(s, id), DoResume(id));
    Then(m, s, Effect(s, id), Effected(s, id));
  }

  lemma DeliverTurn(s: State, id: Hid)
    requires Sound(s) && Configured(s.setup.ttl) && WaitsThere(s, id)
    ensures var t := Deliver(s);
            && Beside(s, t) && t.queue == [] && t.issued == s.issued && t.cache == s.cache && t.live == s.live
            && id in t.handlers && t.handlers == s.handlers[id := t.handlers[id]] && t.handlers[id].ready
            && SameJob(s.handlers[id], t.handlers[id]) && t.handlers[id].at == s.handlers[id].at
            && (WillBeAdmitted(s.conns, s.handlers[id]) ==> Admitted(t.handlers[id]))
  {
    assert CommandOf(id, s.handlers[id]).h == id;
    DeliverServes(s);
    DeliverShape(s);
    hide Sound, Deliver, CommandOf, Beside, AllowedIn, Label;
  }

  lemma BesideGoesOn(s: State, u: State, t: State, id: Hid)
    requires Beside(s, u) && id in u.handlers && GoesOn(u, t, id)
    ensures Beside(s, t)
  {
    hide AllowedIn, CommandOf, NextAwait, CacheAfter;
  }

  /** On the connection store: the switch is admitted, or its records are written. */
  lemma DeliveredTurns(s: State, id: Hid, next: Await)
    requires Sound(s) && Configured(s.setup.ttl) && WaitsThere(s, id)
    requires var h := s.handlers[id];
             if h.at.AwaitAllowed? then next.AwaitSetCurrent? && WillBeAdmitted(s.conns, h)
             else (h.at.AwaitSetCurrent? && next.AwaitPersistField?)
                  || (h.at.AwaitPersistField? && next.AwaitKeepAlive?)
    ensures var (h, t) := (s.handlers[id], Delivered(s, id));
            && Turned(s, t, id, next)
            && t.cache == (if h.at.AwaitAllowed? then s.cache[h.key := Label(h)] else s.cache)
            && (if OnConnectionStore(next) then WaitsThere(t, id) && t.issued == s.issued
                else t.queue == [] && t.issued == s.issued + [id])
  {
    hide Sound, Deliver, Resume, CommandOf, Label, AllowedIn, WillBeAdmitted, Admitted;
    var u, t := Deliver(s), Delivered(s, id);
    DeliverTurn(s, id);
    SameJobSameLabel(s.handlers[id], u.handlers[id]);
    ResumeGoesOn(u, id);
    assert NextAwait(u, u.handlers[id]) == Some(next);
    hide NextAwait, Delivered;
    BesideGoesOn(s, u, t, id);
    hide Beside;
  }

  lemma EffectedTurns(s: State, id: Hid, next: Await)
    requires id in s.handlers && !s.handlers[id].ready
    requires var at := s.handlers[id].at;
             || (at.AwaitKeepAlive? && next.AwaitRemovePosition?)
             || (at.AwaitSetUser? && next.AwaitPersistUser?)
             || (at.AwaitPersistUser? && next.AwaitAddPoint?)
    ensures var t := Effected(s, id);
            && Turned(s, t, id, next) && t.cache == s.cache
            && t.queue == s.queue && t.issued == Without(s.issued, id) + [id]
  {
    hide Effect, Resume, CommandOf, Label, AllowedIn, Without, Served;
    var u, t := Effect(s, id), Effected(s, id);
    EffectServes(s, id);
    ResumeGoesOn(u, id);
    assert NextAwait(u, u.handlers[id]) == Some(next);
    hide NextAwait, Effected;
    BesideGoesOn(s, u, t, id);
    hide Beside;
  }

  // ---- The run ----

  predicate IsAt(h: Handler, name: Name, at: Await) {
    h.key == "k" && Label(h) == name && h.at == at && !h.ready
  }

  /** The first message is about to write its attributes, as A. */
  ghost predicate FirstWrites(s: State) {
    && Sound(s) && s.setup.ttl == None && s.cache == map["k" := "A"] && s.queue == [] && s.issued == [0]
    && s.handlers.Keys == {0} && IsAt(s.handlers[0], "A", AwaitSetUser)
    && AllowedIn(s.conns, "k") == Some(["A", "B"])
  }

  /** Both messages are under way, the second one as B, and neither is served. */
  ghost predicate Crossing(s: State, first: Await, second: Await, issued: seq<Hid>) {
    && Sound(s) && s.setup.ttl == None && s.cache == map["k" := "B"] && s.queue == [] && s.issued == issued
    && s.handlers.Keys == {0, 1} && IsAt(s.handlers[0], "A", first) && IsAt(s.handlers[1], "B", second)
  }

  lemma InitialIsSound()
    ensures Sound(Initial(SETUP))
  {
    assert IsRun(SETUP, []) && StateAfter(SETUP, []) == Initial(SETUP);
    SoundRun(SETUP, []);
  }

  /** One connection, whose token lists two characters. */
  const SETUP := Setup(None, map["k" := Claim("A,B", 0)])

  lemma SplitsInTwo()
    ensures Names.Split("A,B") == ["A", "B"]
  {
    Names.SplitAtComma("A", "B");
    Names.SplitOfCommaFree("A");
    Names.SplitOfCommaFree("B");
    assert "A" + [Names.COMMA] + "B" == "A,B";
  }

  lemma TwoAllowed() returns (s: State)
    ensures Reach(AnyMessages, Initial(SETUP), s) && s == Initial(SETUP).(conns := s.conns)
    ensures "k" in s.conns && AllowedIn(s.conns, "k") == Some(["A", "B"])
  {
    hide Names.Split, AllowedIn, Reach, HGet;
    SplitsInTwo();
    s := UpgradesUndisturbed(AnyMessages, Initial(SETUP), 0, "k");
  }

  lemma CountedKeepsAllowed(conns: Hashes, key: Key, name: Name, now: int)
    ensures AllowedIn(Counted(HSet(conns, key, map[CurrentCharacter := Text(name)]), key, None, now), key)
            == AllowedIn(conns, key)
  {
    SetFacts(conns, key, name);
    CountFacts(HSet(conns, key, map[CurrentCharacter := Text(name)]), key);
    hide Names.Split, CountIn;
  }

  lemma FirstMessage() returns (s: State)
    ensures Reach(AnyMessages, Initial(SETUP), s) && FirstWrites(s)
  {
    hide Names.Split, AllowedIn, Reach, Counted, HSet, Expire, Sound, UserFields, PositionOf, Welcome;
    var a := TwoAllowed();
    assert Named(Naming("A")) && Naming("A").characterName == Some("A") && Player(a.cache, "k") == None;
    WelcomeAny(a, DoReceive(0, "k", Naming("A")));
    var b := StartTurns(AnyMessages, a, 0, "k", Naming("A"));
    assert Label(b.handlers[0]) == "A";
    hide Label, Named, Player;
    var c := RecordTurns(AnyMessages, b, 0);
    SameJobSameLabel(b.handlers[0], c.handlers[0]);
    var d := LeaveTurns(AnyMessages, c, 0);
    SameJobSameLabel(c.handlers[0], d.handlers[0]);
    CountedKeepsAllowed(a.conns, "k", "A", a.now);
    s := FirstWritesOn(d);
    Then(AnyMessages, Initial(SETUP), a, b);
    Then(AnyMessages, Initial(SETUP), b, c);
    Then(AnyMessages, Initial(SETUP), c, d);
    Then(AnyMessages, Initial(SETUP), d, s);
    InitialIsSound();
    ReachesSound(AnyMessages, Initial(SETUP), s);
    OnlyHandler(s, 0);
  }

  lemma WelcomeAny(s: State, a: Action)
    ensures Welcome(AnyMessages, s, a)
  {
  }

  lemma OnlyHandler(s: State, id: Hid)
    requires s.handlers - {id} == map[] && id in s.handlers
    ensures s.handlers.Keys == {id}
  {
    forall w | w in s.handlers
      ensures w == id
    {
      assert w != id ==> w in s.handlers - {id};
    }
  }

  lemma FirstWritesOn(s: State) returns (t: State)
    requires Paused(s, 0, AwaitPublish) && IsCached(s.cache, s.handlers[0]) && s.setup.ttl == None
    ensures Reach(AnyMessages, s, t) && Paused(t, 0, AwaitSetUser) && Aside(s, t, 0)
            && SameJob(s.handlers[0], t.handlers[0])
    ensures Label(t.handlers[0]) == Label(s.handlers[0]) && t.cache == s.cache
    ensures t.conns == Counted(s.conns, s.handlers[0].key, s.setup.ttl, s.now)
  {
    hide Reach, Label, PositionOf, UserFields, Counted;
    TakeTurn(AnyMessages, s, 0, AwaitPublish);
    var a := Turn(s, 0, AwaitPublish);
    SameJobSameLabel(s.handlers[0], a.handlers[0]);
    t := CountTurns(AnyMessages, a, 0);
    SameJobSameLabel(s.handlers[0], t.handlers[0]);
    Then(AnyMessages, s, a, t);
  }

  /** The second message waits on the connection store, the first one for its write. */
  ghost predicate Behind(s: State, first: Handler, at: Await) {
    && Sound(s) && s.setup.ttl == None && s.issued == [0] && WaitsThere(s, 1)
    && s.handlers.Keys == {0, 1} && s.handlers[0] == first && IsAt(s.handlers[1], "B", at)
    && s.handlers[1].player == Some("A")
  }

  lemma SecondIsAdmitted(s: State, first: Handler) returns (t: State)
    requires Behind(s, first, AwaitAllowed) && WillBeAdmitted(s.conns, s.handlers[1]) && s.cache == map["k" := "A"]
    ensures Reach(AnyMessages, s, t) && Behind(t, first, AwaitSetCurrent) && t.cache == map["k" := "B"]
  {
    hide Sound, Reach, AllowedIn, Label, CommandOf, Delivered, Beside, WillBeAdmitted;
    DeliveredTurns(s, 1, AwaitSetCurrent);
    ReachDelivered(AnyMessages, s, 1);
    t := Delivered(s, 1);
    TurnKeeps(s, t, 1, AwaitSetCurrent);
  }

  lemma SecondIsRecorded(s: State, first: Handler) returns (t: State)
    requires Behind(s, first, AwaitSetCurrent)
    ensures Reach(AnyMessages, s, t) && Behind(t, first, AwaitPersistField) && t.cache == s.cache
  {
    hide Sound, Reach, AllowedIn, Label, CommandOf, Delivered, Beside;
    DeliveredTurns(s, 1, AwaitPersistField);
    ReachDelivered(AnyMessages, s, 1);
    t := Delivered(s, 1);
    TurnKeeps(s, t, 1, AwaitPersistField);
  }

  lemma SecondLetsGo(s: State, first: Handler) returns (t: State)
    requires Behind(s, first, AwaitPersistField) && s.cache == map["k" := "B"] && IsAt(first, "A", AwaitSetUser)
    ensures Reach(AnyMessages, s, t) && Crossing(t, AwaitSetUser, AwaitKeepAlive, [0, 1])
  {
    hide Sound, Reach, AllowedIn, Label, CommandOf, Delivered, Beside;
    DeliveredTurns(s, 1, AwaitKeepAlive);
    ReachDelivered(AnyMessages, s, 1);
    t := Delivered(s, 1);
    TurnKeeps(s, t, 1, AwaitKeepAlive);
  }

  /** The second message switches the connection to B, up to where it lets the old name go. */
  lemma SecondMessage(s: State) returns (t: State)
    requires FirstWrites(s)
    ensures Reach(AnyMessages, s, t) && Crossing(t, AwaitSetUser, AwaitKeepAlive, [0, 1])
  {
    var first := s.handlers[0];
    assert IsAt(first, "A", AwaitSetUser);
    hide Sound, Reach, Behind, FirstWrites, Crossing;
    var a := SecondArrives(s);
    var b := SecondIsAdmitted(a, first);
    var c := SecondIsRecorded(b, first);
    t := SecondLetsGo(c, first);
    Then(AnyMessages, s, a, b);
    Then(AnyMessages, s, b, c);
    Then(AnyMessages, s, c, t);
  }

  lemma TurnKeeps(s: State, t: State, id: Hid, next: Await)
    requires Turned(s, t, id, next)
    ensures Label(t.handlers[id]) == Label(s.handlers[id]) && t.handlers[id].key == s.handlers[id].key
    ensures t.handlers[id].player == s.handlers[id].player && t.setup == s.setup && t.handlers.Keys == s.handlers.Keys
    ensures forall w | w in s.handlers && w != id :: t.handlers[w] == s.handlers[w]
  {
    SameJobSameLabel(s.handlers[id], t.handlers[id]);
    hide Label, AllowedIn;
  }

  lemma SwitchingArrives(s: State, id: Hid, key: Key, msg: Message)
    requires key != "" && Switches(Arriving(s.cache, key, msg)) && s.queue == [] && id !in s.handlers
    ensures var (t, h) := (Receive(s, id, key, msg), Waiting(Arriving(s.cache, key, msg), AwaitAllowed));
            && t == s.(log := t.log, handlers := s.handlers[id := h], queue := [CommandOf(id, h)])
  {
    hide Switches, Arriving, CommandOf;
  }

  lemma SecondStarts(cache: map<Key, Name>)
    requires cache == map["k" := "A"]
    ensures var h := Arriving(cache, "k", Naming("B"));
            && Switches(h) && IsAt(Waiting(h, AwaitAllowed), "B", AwaitAllowed) && h.player == Some("A") && !h.ready
  {
  }

  lemma SecondArrives(s: State) returns (t: State)
    requires FirstWrites(s)
    ensures Reach(AnyMessages, s, t) && Behind(t, s.handlers[0], AwaitAllowed)
    ensures WillBeAdmitted(t.conns, t.handlers[1]) && t.cache == map["k" := "A"]
  {
    SecondStarts(s.cache);
    var h := Waiting(Arriving(s.cache, "k", Naming("B")), AwaitAllowed);
    hide Label, Switches, Arriving, Sound, AllowedIn, Reach, CommandOf, Receive, Naming, Behind, WillBeAdmitted;
    SwitchingArrives(s, 1, "k", Naming("B"));
    Arrive(s, 1, "k", Naming("B"));
    t := Receive(s, 1, "k", Naming("B"));
    SecondIsBehind(s, t, h);
  }

  lemma SecondIsBehind(s: State, t: State, h: Handler)
    requires FirstWrites(s) && Sound(t) && IsAt(h, "B", AwaitAllowed) && h.player == Some("A")
    requires t == s.(log := t.log, handlers := s.handlers[1 := h], queue := [CommandOf(1, h)])
    ensures Behind(t, s.handlers[0], AwaitAllowed) && WillBeAdmitted(t.conns, t.handlers[1])
            && t.cache == map["k" := "A"]
  {
    hide Label, Sound, AllowedIn, CommandOf;
  }

  lemma Arrive(s: State, id: Hid, key: Key, msg: Message)
    requires Sound(s) && id !in s.handlers
    ensures Reach(AnyMessages, s, Receive(s, id, key, msg)) && Sound(Receive(s, id, key, msg))
  {
    hide Sound, Reach, Welcome, Receive;
    WelcomeAny(s, DoReceive(id, key, msg));
    Go(AnyMessages, s, DoReceive(id, key, msg));
    SoundStep(s, DoReceive(id, key, msg));
  }

  /** The first handler's write is answered, and it issues its persist; then the second lets A go. */
  lemma FirstPersists(s: State) returns (t: State)
    requires Crossing(s, AwaitSetUser, AwaitKeepAlive, [0, 1])
    ensures Reach(AnyMessages, s, t) && Crossing(t, AwaitPersistUser, AwaitRemovePosition, [0, 1])
  {
    hide Sound, Reach, Label, Effected, Beside, Without;
    assert First(s, 0) && InTurn(s, 0);
    EffectedTurns(s, 0, AwaitPersistUser);
    ReachEffected(AnyMessages, s, 0);
    var a := Effected(s, 0);
    TurnKeeps(s, a, 0, AwaitPersistUser);
    TakenFirst(0, 1);
    assert a.issued == [1, 0];
    assert First(a, 0) && InTurn(a, 1);
    EffectedTurns(a, 1, AwaitRemovePosition);
    ReachEffected(AnyMessages, a, 1);
    t := Effected(a, 1);
    TurnKeeps(a, t, 1, AwaitRemovePosition);
    TakenFirst(1, 0);
    assert t.issued == [0, 1];
    Then(AnyMessages, s, a, t);
  }

  lemma TakenFirst(a: Hid, b: Hid)
    requires a != b
    ensures Without([a, b], a) == [b] && Without([b, a], a) == [b] && Without([a], a) == []
  {
    assert [a, b][1..] == [b] && [b, a][1..] == [a] && [a][1..] == [] && [b][1..] == [];
    assert Without([b], a) == [b] + Without([], a);
    assert Without([b, a], a) == [b] + Without([a], a);
  }

  /** The removal takes effect, and then the first handler goes on to its point. */
  lemma Removes(s: State) returns (t: State)
    requires Crossing(s, AwaitPersistUser, AwaitRemovePosition, [0, 1])
    ensures Reach(AnyMessages, s, t) && Removed(t, AwaitPersistUser, [0])
  {
    hide Sound, Reach, Label, Effect, Beside, Without, Served;
    TakenFirst(1, 0);
    assert First(s, 1) && InTurn(s, 1);
    hide InTurn, LiveAfter;
    EffectServes(s, 1);
    Act(AnyMessages, s, DoEffect(1));
    SoundStep(s, DoEffect(1));
    t := Effect(s, 1);
    SetupBeside(s, t);
  }

  /** A is removed, and the first handler is on its way to its point. */
  ghost predicate Removed(s: State, first: Await, issued: seq<Hid>) {
    && Sound(s) && s.setup.ttl == None && s.cache == map["k" := "B"] && s.queue == [] && s.issued == issued
    && s.handlers.Keys == {0, 1} && IsAt(s.handlers[0], "A", first) && s.handlers[1].at.AwaitRemovePosition?
  }

  lemma IssuesPoint(s: State) returns (t: State)
    requires Removed(s, AwaitPersistUser, [0])
    ensures Reach(AnyMessages, s, t) && Removed(t, AwaitAddPoint, [0])
  {
    hide Sound, Reach, Label, Effected, Beside, Without;
    TakenFirst(0, 1);
    assert First(s, 0) && InTurn(s, 0);
    EffectedTurns(s, 0, AwaitAddPoint);
    ReachEffected(AnyMessages, s, 0);
    t := Effected(s, 0);
    TurnKeeps(s, t, 0, AwaitAddPoint);
  }

  lemma AddsPoint(s: State) returns (t: State)
    requires Removed(s, AwaitAddPoint, [0])
    ensures Reach(AnyMessages, s, t) && Sound(t) && Settled(t) && t.setup.ttl == None && t.cache == s.cache
            && "A" in t.live
    ensures t.handlers.Keys == {0, 1} && t.handlers[0].at.AwaitAddPoint? && t.handlers[1].at.AwaitRemovePosition?
  {
    hide Sound, Reach, Label, Effect, Beside, Without, Served;
    TakenFirst(0, 1);
    assert First(s, 0) && InTurn(s, 0);
    hide InTurn;
    EffectServes(s, 0);
    Act(AnyMessages, s, DoEffect(0));
    SoundStep(s, DoEffect(0));
    t := Effect(s, 0);
    SetupBeside(s, t);
  }

  /** A is removed before the first handler issues its point, and added after. */
  lemma AddsAfterRemoval(s: State) returns (t: State)
    requires Crossing(s, AwaitPersistUser, AwaitRemovePosition, [0, 1])
    ensures Reach(AnyMessages, s, t) && Sound(t) && Settled(t) && t.setup.ttl == None && t.cache == map["k" := "B"]
            && "A" in t.live
    ensures t.handlers.Keys == {0, 1} && t.handlers[0].at.AwaitAddPoint? && t.handlers[1].at.AwaitRemovePosition?
  {
    hide Sound, Reach, Crossing, Label, IsAt;
    var a := Removes(s);
    var b := IssuesPoint(a);
    t := AddsPoint(b);
    Then(AnyMessages, s, a, b);
    Then(AnyMessages, s, b, t);
  }

  lemma BothEnd(s: State) returns (t: State)
    requires Sound(s) && Settled(s) && s.setup.ttl == None && s.cache == map["k" := "B"] && "A" in s.live
    requires s.handlers.Keys == {0, 1} && s.handlers[0].at.AwaitAddPoint? && s.handlers[1].at.AwaitRemovePosition?
    ensures Reach(AnyMessages, s, t) && t.setup.ttl == None && t.handlers == map[] && "A" in t.live
            && t.cache == map["k" := "B"]
  {
    hide Sound, Reach, Label, Beside;
    var a := Push(AnyMessages, s, 1);
    SetupBeside(s, a);
    var b := Drive(AnyMessages, a, 0);
    SetupBeside(a, b);
    t := Drive(AnyMessages, b, 1);
    SetupBeside(b, t);
    Then(AnyMessages, s, a, b);
    Then(AnyMessages, s, b, t);
    assert t.handlers == map[];
  }

  /**
   A run in which two messages of one connection overlap and which ends with no handler left and a
   live position that is nobody's current character.
   */
  lemma OverlapLeavesGhost() returns (run: seq<Action>, name: Name)
    ensures IsRun(SETUP, run) && !AllFit(SETUP, run)
    ensures Haunted(StateAfter(SETUP, run)) && name in StateAfter(SETUP, run).live
            && !Owned(StateAfter(SETUP, run).cache, name)
  {
    hide Reach, Crossing, FirstWrites;
    var a := FirstMessage();
    var b := SecondMessage(a);
    var c := FirstPersists(b);
    var d := AddsAfterRemoval(c);
    var t := BothEnd(d);
    Then(AnyMessages, Initial(SETUP), a, b);
    Then(AnyMessages, Initial(SETUP), b, c);
    Then(AnyMessages, Initial(SETUP), c, d);
    Then(AnyMessages, Initial(SETUP), d, t);
    assert StateAfter(SETUP, []) == Initial(SETUP);
    run := ReachedByRun(SETUP, [], AnyMessages, t);
    name := "A";
    assert !Owned(t.cache, name);
    if AllFit(SETUP, run) {
      var key := QuietRelayHasNoGhosts(SETUP, run, name);
    }
  }
}
