/** What can happen from a state on, by the relay's own steps or with messages and others on the way. */
module RelayPaths {
  import opened HashStore
  import opened Positions
  import opened Relay
  import opened RelayAuthority
  import opened RelayPending
  import opened RelayClaims
  import opened RelayGhosts
  import Names = AllowedNames

  /** What may come in on the way: nothing but the relay's own steps, no messages, or some of them, or any. */
  datatype Newcomers = RelayAlone | NoMessages | NotUnder(name: Name) | FittingMessages | AnyMessages

  predicate Own(a: Action) {
    a.DoResume? || a.DoDeliver? || a.DoEffect?
  }

  ghost predicate Welcome(m: Newcomers, s: State, a: Action) {
    match m
    case RelayAlone => Own(a)
    case NoMessages => !a.DoReceive?
    case NotUnder(name) => a.DoReceive? && a.key != "" ==> Label(Started(s.cache, a.key, a.msg)) != name
    case FittingMessages => Fits(s, a)
    case AnyMessages => true
  }

  /** The steps, one after the other, lead from the one state to the other. */
  ghost predicate Leads(m: Newcomers, s: State, steps: seq<Action>, t: State)
    decreases |steps|
  {
    if steps == [] then s == t
    else Enabled(s, steps[0]) && Welcome(m, s, steps[0]) && Leads(m, Next(s, steps[0]), steps[1..], t)
  }

  ghost predicate Reach(m: Newcomers, s: State, t: State) {
    exists steps :: Leads(m, s, steps, t)
  }

  lemma Stay(m: Newcomers, s: State)
    ensures Reach(m, s, s)
  {
    assert Leads(m, s, [], s);
  }

  lemma Go(m: Newcomers, s: State, a: Action)
    requires Enabled(s, a) && Welcome(m, s, a)
    ensures Reach(m, s, Next(s, a))
  {
    hide Next, Enabled, Welcome;
    assert Leads(m, Next(s, a), [], Next(s, a));
    assert [a][1..] == [];
    assert Leads(m, s, [a], Next(s, a));
  }

  /** The relay's own steps are welcome everywhere. */
  lemma Act(m: Newcomers, s: State, a: Action)
    requires Enabled(s, a) && Own(a)
    ensures Reach(m, s, Next(s, a))
  {
    assert Welcome(m, s, a);
    hide Next, Enabled, Welcome;
    Go(m, s, a);
  }

  /** Those of the ground station and the clock, unless the relay is alone. */
  lemma ActOutside(m: Newcomers, s: State, a: Action)
    requires Enabled(s, a) && !a.DoReceive? && m != RelayAlone
    ensures Reach(m, s, Next(s, a))
  {
    assert Welcome(m, s, a);
    hide Next, Enabled, Welcome;
    Go(m, s, a);
  }

  lemma {:induction false} LeadsOn(m: Newcomers, s: State, first: seq<Action>, t: State, second: seq<Action>, u: State)
    requires Leads(m, s, first, t) && Leads(m, t, second, u)
    ensures Leads(m, s, first + second, u)
    decreases |first|
  {
    hide Next, Enabled, Welcome;
    if first == [] {
      assert first + second == second;
    } else {
      LeadsOn(m, Next(s, first[0]), first[1..], t, second, u);
      assert (first + second)[1..] == first[1..] + second;
    }
  }

  lemma Then(m: Newcomers, s: State, t: State, u: State)
    requires Reach(m, s, t) && Reach(m, t, u)
    ensures Reach(m, s, u)
  {
    hide Leads;
    var first :| Leads(m, s, first, t);
    var second :| Leads(m, t, second, u);
    LeadsOn(m, s, first, t, second, u);
  }

  lemma {:induction false} LeadsAnyway(m: Newcomers, s: State, steps: seq<Action>, t: State)
    requires Leads(RelayAlone, s, steps, t)
    ensures Leads(m, s, steps, t)
    decreases |steps|
  {
    hide Next, Enabled, Label, Agrees;
    if steps != [] {
      LeadsAnyway(m, Next(s, steps[0]), steps[1..], t);
    }
  }

  /** What the relay reaches alone it can reach in any company. */
  lemma Anyway(m: Newcomers, s: State, t: State)
    requires Reach(RelayAlone, s, t)
    ensures Reach(m, s, t)
  {
    hide Leads;
    var steps :| Leads(RelayAlone, s, steps, t);
    LeadsAnyway(m, s, steps, t);
  }

  // ---- Runs go on ----

  lemma {:induction false} RunGoesOn(setup: Setup, run: seq<Action>, m: Newcomers, steps: seq<Action>, t: State)
    requires IsRun(setup, run) && Leads(m, StateAfter(setup, run), steps, t)
    ensures IsRun(setup, run + steps) && StateAfter(setup, run + steps) == t
    ensures m.FittingMessages? && AllFit(setup, run) ==> AllFit(setup, run + steps)
    decreases |steps|
  {
    hide Next, Enabled, Fits, Label;
    if steps == [] {
      assert run + steps == run;
    } else {
      var more := run + [steps[0]];
      assert more[..|more| - 1] == run;
      RunGoesOn(setup, more, m, steps[1..], t);
      assert more + steps[1..] == run + steps;
    }
  }

  /** Whatever can be reached from a run's end is a run's end. */
  lemma ReachedByRun(setup: Setup, run: seq<Action>, m: Newcomers, t: State) returns (run': seq<Action>)
    requires IsRun(setup, run) && Reach(m, StateAfter(setup, run), t)
    ensures run <= run' && IsRun(setup, run') && StateAfter(setup, run') == t
    ensures m.FittingMessages? && AllFit(setup, run) ==> AllFit(setup, run')
  {
    hide Leads;
    var steps :| Leads(m, StateAfter(setup, run), steps, t);
    RunGoesOn(setup, run, m, steps, t);
    run' := run + steps;
  }

  // ---- What every state on a path keeps ----

  ghost predicate Sound(s: State) {
    Inv(s) && PendingInv(s) && ClaimsInv(s)
  }

  lemma SoundStep(s: State, a: Action)
    requires Sound(s) && Enabled(s, a)
    ensures Sound(Next(s, a))
  {
    hide Inv, PendingInv, ClaimsInv, Next, Enabled;
    RelayAuthority.Step(s, a);
    RelayPending.Step(s, a);
    RelayClaims.Step(s, a);
  }

  lemma SoundRun(setup: Setup, run: seq<Action>)
    requires IsRun(setup, run)
    ensures Sound(StateAfter(setup, run))
  {
    hide Inv, PendingInv, ClaimsInv;
    RunKeepsInv(setup, run);
    RunKeepsPending(setup, run);
    RunKeepsClaims(setup, run);
  }

  lemma {:induction false} SoundPath(m: Newcomers, s: State, steps: seq<Action>, t: State)
    requires Sound(s) && Leads(m, s, steps, t)
    ensures Sound(t)
    decreases |steps|
  {
    hide Sound, Next, Enabled, Welcome;
    if steps != [] {
      SoundStep(s, steps[0]);
      SoundPath(m, Next(s, steps[0]), steps[1..], t);
    }
  }

  lemma ReachesSound(m: Newcomers, s: State, t: State)
    requires Sound(s) && Reach(m, s, t)
    ensures Sound(t)
  {
    hide Leads;
    var steps :| Leads(m, s, steps, t);
    SoundPath(m, s, steps, t);
  }

  lemma {:induction false} FittingPathHasNoGhosts(s: State, steps: seq<Action>, t: State)
    requires Sound(s) && GhostInv(s) && Leads(FittingMessages, s, steps, t)
    ensures GhostInv(t)
    decreases |steps|
  {
    if steps != [] {
      SoundStep(s, steps[0]);
      hide GhostInv, Inv, PendingInv, ClaimsInv, Next, Enabled, Fits;
      RelayGhosts.Step(s, steps[0]);
      FittingPathHasNoGhosts(Next(s, steps[0]), steps[1..], t);
    }
  }

  lemma {:induction false} PathKeepsSetup(m: Newcomers, s: State, steps: seq<Action>, t: State)
    requires Leads(m, s, steps, t)
    ensures t.setup == s.setup
    decreases |steps|
  {
    hide Next, Enabled, Welcome;
    if steps != [] {
      SetupStays(s, steps[0]);
      PathKeepsSetup(m, Next(s, steps[0]), steps[1..], t);
    }
  }

  lemma ReachKeepsSetup(m: Newcomers, s: State, t: State)
    requires Reach(m, s, t)
    ensures t.setup == s.setup
  {
    hide Leads;
    var steps :| Leads(m, s, steps, t);
    PathKeepsSetup(m, s, steps, t);
  }

  lemma ReceiveLog(s: State, id: Hid, key: Key, msg: Message)
    ensures s.log <= Receive(s, id, key, msg).log
  {
    hide Label, PositionOf, Switches, Player, CommandOf, Waiting, Arriving;
  }

  lemma SegmentsLog(s: State, id: Hid, h: Handler)
    ensures s.log <= Admit(s, id, h).log
    ensures s.log <= StartBroadcast(s, id, h).log
    ensures s.log <= CheckAndWrite(s, id, h).log
  {
    hide Label, PositionOf, UserFields, CommandOf, Waiting;
  }

  lemma QuietSegmentsLog(s: State, id: Hid)
    requires id in s.handlers
    requires var at := s.handlers[id].at;
             !at.AwaitAllowed? && !at.AwaitRemovePosition? && !at.AwaitCount? && !at.AwaitExpire?
    ensures Resume(s, id).log == s.log
  {
    hide Admit, StartBroadcast, CheckAndWrite, CommandOf, Waiting;
  }

  lemma ResumeLog(s: State, id: Hid)
    requires id in s.handlers
    ensures s.log <= Resume(s, id).log
  {
    var at := s.handlers[id].at;
    if at.AwaitAllowed? || at.AwaitRemovePosition? || at.AwaitCount? || at.AwaitExpire? {
      SegmentsLog(s, id, s.handlers[id]);
      hide Admit, StartBroadcast, CheckAndWrite, CommandOf, Waiting;
    } else {
      QuietSegmentsLog(s, id);
      hide Resume;
    }
  }

  lemma StoresLog(s: State, a: Action)
    requires Enabled(s, a) && (a.DoDeliver? || a.DoEffect?)
    ensures s.log <= Next(s, a).log
  {
    hide Wake, Executed, AllowedIn, UsersAfter, LiveAfter, Without;
  }

  lemma OthersLog(s: State, a: Action)
    requires Enabled(s, a) && !a.DoReceive? && !a.DoResume? && !a.DoDeliver? && !a.DoEffect?
    ensures Next(s, a).log == s.log
  {
    hide Purge, NextClose, ExpireSome, HSet, Persist, Names.Split, Names.Join;
  }

  /** Nothing that was logged is taken back. */
  lemma LogGrows(s: State, a: Action)
    requires Enabled(s, a)
    ensures s.log <= Next(s, a).log
  {
    hide Receive, Resume, Deliver, Effect, UpgradeWrite, UpgradeNext, CloseRead, ShutdownRead, CloseNext, Elapse;
    if a.DoReceive? {
      ReceiveLog(s, a.h, a.key, a.msg);
    } else if a.DoResume? {
      ResumeLog(s, a.h);
    } else if a.DoDeliver? || a.DoEffect? {
      StoresLog(s, a);
    } else {
      OthersLog(s, a);
    }
  }

  lemma {:induction false} PathKeepsLog(m: Newcomers, s: State, steps: seq<Action>, t: State)
    requires Leads(m, s, steps, t)
    ensures s.log <= t.log
    decreases |steps|
  {
    hide Next, Enabled, Welcome;
    if steps != [] {
      LogGrows(s, steps[0]);
      PathKeepsLog(m, Next(s, steps[0]), steps[1..], t);
    }
  }

  lemma ReachKeepsLog(m: Newcomers, s: State, t: State)
    requires Reach(m, s, t)
    ensures s.log <= t.log
  {
    hide Leads;
    var steps :| Leads(m, s, steps, t);
    PathKeepsLog(m, s, steps, t);
  }

  // ---- Handlers on the way ----

  /** The handler does what the other one did: same connection, message and captured name. */
  predicate SameJob(h: Handler, h': Handler) {
    h'.key == h.key && h'.msg == h.msg && h'.player == h.player
  }

  lemma SameJobSameLabel(h: Handler, h': Handler)
    requires SameJob(h, h')
    ensures Label(h') == Label(h) && Switches(h') == Switches(h)
  {
  }

  /** The handler's name is the current one of its connection. */
  predicate IsCached(cache: map<Key, Name>, h: Handler) {
    h.key in cache && cache[h.key] == Label(h)
  }
}
