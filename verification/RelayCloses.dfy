/**
 When a close holds, exactly. A close removes the live position of its connection's character, and
 handlers still in flight may bring it back; checked at the removal, a condition on those handlers
 decides whether they can.
 */
module RelayCloses {
  import opened HashStore
  import opened Positions
  import opened Relay
  import opened RelayAuthority
  import opened RelayPending
  import opened RelayClaims
  import opened RelayGhosts
  import opened RelayPaths
  import opened RelayUndisturbed
  import opened RelayDrain
  import opened RelayOverlap
  import Names = AllowedNames

  /** The handler may still make its name live: it can come to issue its point, or has issued it. */
  predicate CanRevive(claims: map<Key, Claim>, cache: map<Key, Name>, h: Handler) {
    CanWrite(claims, cache, h) || AtPoint(h)
  }

  ghost predicate NoReviver(s: State, name: Name) {
    forall id | id in s.handlers && Label(s.handlers[id]) == name :: !CanRevive(s.setup.claims, s.cache, s.handlers[id])
  }

  // ---- Without a reviver, the name stays away ----

  ghost predicate Gone(s: State, name: Name) {
    name !in s.live && NoReviver(s, name)
  }

  lemma ResumeStaysGone(s: State, id: Hid, name: Name)
    requires Gone(s, name) && id in s.handlers && s.handlers[id].ready
    ensures Gone(Resume(s, id), name)
  {
    var h, t := s.handlers[id], Resume(s, id);
    ResumeGoesOn(s, id);
    hide Resume;
    if id in t.handlers {
      SameJobSameLabel(h, t.handlers[id]);
    }
    hide Label;
    forall w | w in t.handlers && Label(t.handlers[w]) == name
      ensures !CanRevive(t.setup.claims, t.cache, t.handlers[w])
    {
      if w == id {
        RankFalls(s, h);
      } else {
        assert !CanRevive(s.setup.claims, s.cache, s.handlers[w]);
      }
    }
  }

  lemma RepliedStaysTimid(s: State)
    requires PendingInv(s) && ClaimsInv(s) && QueueOk(s.queue, s.handlers) && s.queue != []
    ensures var (id, claims) := (s.queue[0].h, s.setup.claims);
            && id in s.handlers && Label(Replied(s)) == Label(s.handlers[id])
            && (CanRevive(claims, s.cache, Replied(s)) ==> CanRevive(claims, s.cache, s.handlers[id]))
  {
    var c := s.queue[0];
    HeadIsQueued(s);
    RepliedIsListed(s);
    var h, h' := s.handlers[c.h], Replied(s);
    assert h'.ready && h' == h.(ready := true, reply := h'.reply);
    assert Label(h') == Label(h);
    hide Label, AllowedIn, QueueOk, PendingInv, ClaimsInv, Replied;
  }

  lemma DeliverStaysGone(s: State, name: Name)
    requires Gone(s, name) && Sound(s) && s.queue != []
    ensures Gone(Deliver(s), name)
  {
    var t, id := Deliver(s), s.queue[0].h;
    RepliedStaysTimid(s);
    DeliverShape(s);
    hide Deliver, Replied, Label, CanRevive, Sound;
  }

  lemma EffectStaysGone(s: State, id: Hid, name: Name)
    requires Gone(s, name) && id in s.handlers && !s.handlers[id].ready && !OnConnectionStore(s.handlers[id].at)
    ensures Gone(Effect(s, id), name)
  {
    var t := Effect(s, id);
    EffectServes(s, id);
    assert Label(t.handlers[id]) == Label(s.handlers[id]);
    hide Effect, Beside, Served, Label, Printed, MayBeAdmitted;
  }

  lemma ReceiveStaysGone(s: State, id: Hid, key: Key, msg: Message, name: Name)
    requires Gone(s, name) && id !in s.handlers && Welcome(NotUnder(name), s, DoReceive(id, key, msg))
    ensures Gone(Receive(s, id, key, msg), name)
  {
    ReceiveShape(s, id, key, msg);
    hide Receive, Started, Label, CanRevive;
  }

  lemma StepStaysGone(s: State, a: Action, name: Name)
    requires Gone(s, name) && Sound(s) && Enabled(s, a) && Welcome(NotUnder(name), s, a)
    ensures Gone(Next(s, a), name)
  {
    hide Gone, Sound, Receive, Resume, Deliver, Effect, InTurn, Welcome, SameRelay;
    match a {
      case DoReceive(h, key, msg) => ReceiveStaysGone(s, h, key, msg, name);
      case DoResume(h) => ResumeStaysGone(s, h, name);
      case DoDeliver => DeliverStaysGone(s, name);
      case DoEffect(h) => EffectStaysGone(s, h, name);
      case _ =>
        OthersLeave(s, a);
        hide Next;
        FewerStaysGone(s, Next(s, a), name);
    }
  }

  lemma FewerStaysGone(s: State, t: State, name: Name)
    requires Gone(s, name) && SameRelay(s, t) && t.live <= s.live
    ensures Gone(t, name)
  {
    hide Label, CanRevive;
  }

  lemma {:induction false} PathStaysGone(s: State, steps: seq<Action>, t: State, name: Name)
    requires Gone(s, name) && Sound(s) && Leads(NotUnder(name), s, steps, t)
    ensures Gone(t, name)
    decreases |steps|
  {
    if steps != [] {
      hide Gone, Sound, Next, Enabled, Welcome;
      StepStaysGone(s, steps[0], name);
      SoundStep(s, steps[0]);
      PathStaysGone(Next(s, steps[0]), steps[1..], t, name);
    }
  }

  // ---- A reviver brings it back ----

  lemma OldestServed(m: Newcomers, s: State) returns (t: State)
    requires Sound(s) && s.issued != []
    ensures Reach(m, s, t) && Sound(t) && |t.issued| < |s.issued|
    ensures var id := s.issued[0];
            && id in s.handlers && t.handlers == s.handlers[id := s.handlers[id].(ready := true)]
            && t.live == LiveAfter(s.handlers[id], s.live)
  {
    var id := s.issued[0];
    OldestIsInTurn(s);
    hide Sound, Reach, InTurn, Effect, Beside, Served, LiveAfter;
    EffectServes(s, id);
    Act(m, s, DoEffect(id));
    SoundStep(s, DoEffect(id));
    WithoutIsShorter(s.issued, id);
    t := Effect(s, id);
  }

  lemma PointIsIssued(s: State, id: Hid)
    requires Sound(s) && id in s.handlers && AtPoint(s.handlers[id])
    ensures id in s.issued
  {
    assert Outstanding(s.handlers, id);
  }

  /** The commands that were issued before take effect, and then the point. */
  lemma {:induction false} PointIsAdded(m: Newcomers, s: State, id: Hid) returns (t: State)
    requires Sound(s) && id in s.handlers && AtPoint(s.handlers[id])
    ensures Reach(m, s, t) && Label(s.handlers[id]) in t.live
    decreases |s.issued|
  {
    hide Sound, Reach, Label, Printed;
    PointIsIssued(s, id);
    var u := OldestServed(m, s);
    if s.issued[0] == id {
      t := u;
    } else {
      t := PointIsAdded(m, u, id);
      Then(m, s, u, t);
    }
  }

  /** A handler that the lists grant what it asks, if it still asks, gets to its point all by itself. */
  lemma WriterWrites(m: Newcomers, s: State, id: Hid) returns (t: State)
    requires Sound(s) && Configured(s.setup.ttl) && id in s.handlers
             && CanWrite(s.setup.claims, s.cache, s.handlers[id])
    requires s.handlers[id].at.AwaitAllowed? ==> WillBeAdmitted(s.conns, s.handlers[id])
    ensures Reach(m, s, t) && Label(s.handlers[id]) in t.live
  {
    hide Sound, Reach, Beside, Label;
    var a := Settle(m, s);
    SetupBeside(s, a);
    ServedPasses(s, a, id);
    var b := Pass(m, a, id);
    SetupBeside(a, b);
    SameJobSameLabel(a.handlers[id], b.handlers[id]);
    t := Drive(m, b, id);
    Then(m, s, a, b);
    Then(m, s, b, t);
  }

  lemma ServedPasses(s: State, t: State, id: Hid)
    requires Served(s, t) && t.cache == s.cache && Sound(t) && Settled(t)
    requires id in s.handlers && CanWrite(s.setup.claims, s.cache, s.handlers[id])
    requires s.handlers[id].at.AwaitAllowed? ==> WillBeAdmitted(s.conns, s.handlers[id])
    ensures id in t.handlers && WillPass(t.cache, t.handlers[id]) && Label(t.handlers[id]) == Label(s.handlers[id])
  {
    SettledIsReady(t);
    SameJobSameLabel(s.handlers[id], t.handlers[id]);
    hide Label, AllowedIn, Sound;
  }

  /** An upgrade of the connection brings what its token says. */
  lemma AskIsGranted(m: Newcomers, s: State, id: Hid) returns (t: State)
    requires Sound(s) && m != RelayAlone && id in s.handlers
    requires s.handlers[id].at.AwaitAllowed? && MayBeAdmitted(s.setup.claims, s.handlers[id])
    ensures Reach(m, s, t) && Sound(t) && t.setup == s.setup && t.cache == s.cache && t.handlers == s.handlers
    ensures WillBeAdmitted(t.conns, t.handlers[id])
  {
    var u := FreshId(s.upgrades.Keys);
    AskIsListed(s, id);
    hide Sound, Reach, AllowedIn, Label, HGet, Names.Split, MayBeAdmitted;
    t := UpgradesUndisturbed(m, s, u, s.handlers[id].key);
    GrantedNow(s, t, id);
    ReachesSound(m, s, t);
  }

  /** Any reviver can bring its name back without a message. */
  lemma CloseIsUndone(m: Newcomers, s: State, id: Hid) returns (t: State)
    requires Sound(s) && Configured(s.setup.ttl) && id in s.handlers
             && CanRevive(s.setup.claims, s.cache, s.handlers[id])
    requires m == RelayAlone && s.handlers[id].at.AwaitAllowed? ==> WillBeAdmitted(s.conns, s.handlers[id])
    ensures Reach(m, s, t) && Label(s.handlers[id]) in t.live
  {
    hide Sound, Reach, WillBeAdmitted, Label, MayBeAdmitted;
    if AtPoint(s.handlers[id]) {
      t := PointIsAdded(m, s, id);
    } else if s.handlers[id].at.AwaitAllowed? && m != RelayAlone {
      var a := AskIsGranted(m, s, id);
      t := WriterWrites(m, a, id);
      Then(m, s, a, t);
    } else {
      t := WriterWrites(m, s, id);
    }
  }

  // ---- Exactly ----

  /**
   From a state without the name, it stays away unless a message brings it, if and only if no handler
   can revive it.
   */
  lemma StaysAwayExactly(s: State, name: Name)
    requires Sound(s) && Configured(s.setup.ttl) && name !in s.live
    ensures (forall t | Reach(NotUnder(name), s, t) :: name !in t.live) <==> NoReviver(s, name)
  {
    if NoReviver(s, name) {
      forall t | Reach(NotUnder(name), s, t)
        ensures name !in t.live
      {
        var steps :| Leads(NotUnder(name), s, steps, t);
        PathStaysGone(s, steps, t, name);
      }
    } else {
      var id :| id in s.handlers && Label(s.handlers[id]) == name && CanRevive(s.setup.claims, s.cache, s.handlers[id]);
      hide Sound, CanRevive, Label;
      var t := CloseIsUndone(NotUnder(name), s, id);
    }
  }

  /**
   A close or a shutdown holds at its removal step, whatever happens next short of a message under the
   removed name, if and only if no handler in flight can revive that name.
   */
  lemma CloseHoldsExactly(setup: Setup, run: seq<Action>, c: ActorId)
    requires Configured(setup.ttl) && IsRun(setup, run)
    requires c in StateAfter(setup, run).closes
    requires StateAfter(setup, run).closes[c].Removing? || StateAfter(setup, run).closes[c].LastRemoving?
    ensures var (s, name) := (StateAfter(setup, run), StateAfter(setup, run).closes[c].name);
            var t := CloseNext(s, c);
            && name !in t.live
            && ((forall u | Reach(NotUnder(name), t, u) :: name !in u.live) <==> NoReviver(s, name))
  {
    var s := StateAfter(setup, run);
    var name := s.closes[c].name;
    SoundRun(setup, run);
    RunKeepsSetup(setup, run);
    SoundStep(s, DoCloseNext(c));
    var t := CloseNext(s, c);
    assert t.handlers == s.handlers && t.cache == s.cache && t.setup == s.setup && name !in t.live;
    hide Sound, CanRevive, Label, Reach, CloseNext;
    StaysAwayExactly(t, name);
  }

  // ---- Without help ----

  /** Those who ask for the name and may get it will get it as the lists stand. */
  ghost predicate NameIsGranted(s: State, name: Name) {
    forall id | id in s.handlers && s.handlers[id].at.AwaitAllowed? && Label(s.handlers[id]) == name
                && MayBeAdmitted(s.setup.claims, s.handlers[id]) ::
      WillBeAdmitted(s.conns, s.handlers[id])
  }

  /** Then the relay's own steps decide: they can bring the name back if and only if some handler can revive it. */
  lemma StaysAwayExactlyAlone(s: State, name: Name)
    requires Sound(s) && Configured(s.setup.ttl) && name !in s.live && NameIsGranted(s, name)
    ensures (forall t | Reach(RelayAlone, s, t) :: name !in t.live) <==> NoReviver(s, name)
  {
    if NoReviver(s, name) {
      StaysAwayExactly(s, name);
      hide Reach, NoReviver, Sound;
      forall t | Reach(RelayAlone, s, t)
        ensures name !in t.live
      {
        Anyway(NotUnder(name), s, t);
      }
    } else {
      var id :| id in s.handlers && Label(s.handlers[id]) == name
                && CanRevive(s.setup.claims, s.cache, s.handlers[id]);
      hide Sound, Label, WillBeAdmitted, MayBeAdmitted, Reach;
      var t := CloseIsUndone(RelayAlone, s, id);
    }
  }
}
