/** Two concrete lives of one plan.  In the first it becomes Effective, its host rollback fails, and a crash before the
    gate is closed lets recover report FailedSafe with the candidate still exposed.  In the second it is rolled back
    twice, and a crash before the host answers leaves a gate that no recover can settle. */
module CoordinatorWitness {
  import opened Basics
  import opened Coordinator
  import opened CoordinatorSafety
  import G = Gate
  import R = GateRecovery
  import opened GateWitness

  const PLAN := Plan(ID, {"plugin"}, [Obligation("o", "r", "invoked", [0])], 0, "base", "body", false)
  const PROCESS := Process("h", "r", 0, "s", 1)
  const ITEM := Attestation(ID, "l", PROCESS, "o", "invoked", "n", 10, "plugin")
  const WELL := Answer(true, [PROCESS], Some("done"), "", DIGEST, DIGEST)
  const ILL := Answer(false, [], None, "host is down", DIGEST, DIGEST)
  const START := World(NEW_STORE, Some(G.Fresh(ROUTE, LEASE, 0, false)), true, Idle)

  lemma Drive(events: seq<Event>, w: World, e: Event) returns (events': seq<Event>, w': World)
    requires Run(START, events) == w
    ensures events' == events + [e] && w' == Step(w, e) && Run(START, events') == w'
  {
    hide Step;
    events', w' := events + [e], Step(w, e);
    assert events'[..|events|] == events;
  }

  // ---------------------------------------------------------------- the coordinator

  /** The one plan is in `state` and the coordinator at `pc`. */
  predicate Stands(w: World, state: State, launch: Option<string>, pc: Pc, s: G.GateState) {
    && w.signed && w.pc == pc && w.gate.Some? && GateAt(w.gate.value, s)
    && w.store.activations == map[ID := Activation(PLAN, state, launch)]
  }

  predicate Hostless(journal: seq<Entry>) { forall i :: 0 <= i < |journal| ==> !journal[i].HostRollback? }

  lemma {:induction false} HostlessHasNone(journal: seq<Entry>, p: PlanId)
    requires Hostless(journal)
    ensures LastHost(journal, p) == None
  {
    if journal != [] { HostlessHasNone(journal[..|journal| - 1], p); }
  }

  lemma Plans()
    ensures var w := Step(START, PlanCall(PLAN));
            && Stands(w, Planned, None, Staging(ID), G.CandidateStaged) && w.gate.value.pc == G.Idle
            && w.gate.value.ret.Returned?
            && w.store.generation == 0 && w.store.evidence == map[] && Hostless(w.store.journal)
  {
    Stages();
    hide G.Step, GateAt, Zeros;
    assert Predecessor(PLAN) == BASE;
  }

  lemma StagingEnds(w: World)
    requires Stands(w, Planned, None, Staging(ID), G.CandidateStaged) && w.gate.value.pc == G.Idle
             && w.gate.value.ret.Returned?
    ensures Step(w, Next(WELL)) == Ended(w)
  {
    hide G.Step, GateAt, Zeros;
  }

  lemma PlansAndStages() returns (events: seq<Event>, w: World)
    ensures Run(START, events) == w && Stands(w, Planned, None, Idle, G.CandidateStaged) && w.gate.value.pc == G.Idle
    ensures w.store.generation == 0 && w.store.evidence == map[] && Hostless(w.store.journal)
  {
    hide Step, GateAt, Zeros;
    Plans();
    events, w := Drive([], START, PlanCall(PLAN));
    StagingEnds(w);
    events, w := Drive(events, w, Next(WELL));
  }

  lemma Closes() returns (events: seq<Event>, w: World)
    ensures Run(START, events) == w && Stands(w, Prepared, None, Idle, G.CandidateClosed) && w.gate.value.pc == G.Idle
    ensures w.store.generation == 0 && w.store.evidence == map[]
  {
    hide G.Step, GateAt, Run, Zeros;
    events, w := PlansAndStages();
    events, w := Drive(events, w, Prepare(ID));
    assert w.pc == PrepareHost(ID);
    events, w := Drive(events, w, Next(WELL));
    CloseBegins(w.gate.value);
    events, w := Drive(events, w, Next(WELL));
    assert Stands(w, Prepared, None, Closing(ID), G.CandidateStaged);
    events, w := CloseCompletes(events, w);
    events, w := Drive(events, w, Next(WELL));
  }

  lemma CloseCompletes(events0: seq<Event>, w0: World) returns (events: seq<Event>, w: World)
    requires Run(START, events0) == w0 && Stands(w0, Prepared, None, Closing(ID), G.CandidateStaged)
             && w0.gate.value.pc == G.CloseEffect
    ensures Run(START, events) == w && Stands(w, Prepared, None, Closing(ID), G.CandidateClosed)
            && w.gate.value.pc == G.Idle
    ensures w.store == w0.store
  {
    hide G.Step, Run, Zeros;
    events, w := events0, w0;
    CloseGoes(w.gate.value);
    events, w := Drive(events, w, GateEvent(G.Go(G.Works)));
    CloseGoes(w.gate.value);
    events, w := Drive(events, w, GateEvent(G.Go(G.Works)));
    CloseEnds(w.gate.value);
    events, w := Drive(events, w, GateEvent(G.Go(G.Works)));
  }

  lemma LaunchAnswers() returns (events: seq<Event>, w: World)
    ensures Run(START, events) == w && Stands(w, Launching, Some("l"), LaunchReceipt(ID, [PROCESS]), G.CandidateClosed)
    ensures w.gate.value.pc == G.Idle && w.store.generation == 0 && w.store.evidence == map[]
  {
    hide G.Step, GateAt, Run, Zeros;
    events, w := Closes();
    events, w := Drive(events, w, Launch(ID, "l"));
    assert w.pc == LaunchHost(ID);
    events, w := Drive(events, w, Next(WELL));
  }

  lemma Launches() returns (events: seq<Event>, w: World)
    ensures Run(START, events) == w && Stands(w, Observing, Some("l"), Idle, G.CandidateClosed)
            && w.gate.value.pc == G.Idle
    ensures w.store.generation == 0 && w.store.evidence == map[]
    ensures Slot(ID, "r", 0) in w.store.inventory && w.store.inventory[Slot(ID, "r", 0)] == PROCESS
  {
    hide G.Step, GateAt, Run, Zeros;
    events, w := LaunchAnswers();
    assert [PROCESS][..0] == [];
    events, w := Drive(events, w, Next(WELL));
  }

  predicate Attested(st: Store) {
    && "n" in st.evidence && st.evidence["n"] == Evidence(ID, "l", PROCESS, "o", "invoked", 10, st.managerEpoch, true)
  }

  lemma Attests() returns (events: seq<Event>, w: World)
    ensures Run(START, events) == w && Stands(w, Observing, Some("l"), Idle, G.CandidateClosed)
            && w.gate.value.pc == G.Idle
    ensures w.store.generation == 0 && Attested(w.store)
    ensures Slot(ID, "r", 0) in w.store.inventory && w.store.inventory[Slot(ID, "r", 0)] == PROCESS
  {
    hide G.Step, GateAt, Run, Zeros;
    events, w := Launches();
    events, w := Drive(events, w, Observe(ID, ITEM, true));
  }

  lemma IsComplete(st: Store)
    requires Attested(st) && Slot(ID, "r", 0) in st.inventory && st.inventory[Slot(ID, "r", 0)] == PROCESS
    ensures EvidenceComplete(st, PLAN, 0)
  {
    assert Covers(st, ID, 0, PLAN.obligations[0], PLAN.obligations[0].ordinals[0], "n");
    assert CoveredAt(st, PLAN, 0, 0, 0);
  }

  lemma Commits() returns (events: seq<Event>, w: World)
    ensures Run(START, events) == w && Stands(w, CommitReady, Some("l"), CommitEffect(ID), G.CandidateClosed)
    ensures w.gate.value.pc == G.Idle && EvidenceCount(w.store, ID) >= 1
  {
    hide G.Step, GateAt, Run, Zeros, EvidenceComplete, EvidenceCount;
    events, w := Attests();
    IsComplete(w.store);
    events, w := Drive(events, w, Commit(ID, 0, true, 0));
    CountsOne(w.store, ID, "n");
  }

  lemma CountsOne(st: Store, p: PlanId, n: string)
    requires n in st.evidence && st.evidence[n].plan == p && st.evidence[n].valid
             && st.evidence[n].managerEpoch == st.managerEpoch
    ensures EvidenceCount(st, p) >= 1
  {
    var rows := set m | m in st.evidence && st.evidence[m].plan == p && st.evidence[m].valid
        && st.evidence[m].managerEpoch == st.managerEpoch;
    assert n in rows;
  }

  predicate Candidate(route: G.RouteState) { route.generation == Some(1) && route.snapshot == Some(G.PlanRef(ID)) }

  lemma OpenStarts() returns (events: seq<Event>, w: World)
    ensures Run(START, events) == w && Stands(w, CommitReady, Some("l"), OpeningGate(ID), G.Opening)
    ensures w.gate.value.pc.OpenEffect? && Proves(w.gate.value.pc.proof)
  {
    hide G.Step, Run, Zeros, EvidenceCount;
    events, w := Commits();
    OpenBegins(w.gate.value, OpenProofFor(w, w.gate.value, ID, WELL));
    events, w := Drive(events, w, Next(WELL));
  }

  lemma Exposes() returns (events: seq<Event>, w: World)
    ensures Run(START, events) == w && Stands(w, CommitReady, Some("l"), OpeningGate(ID), G.CandidateOpen)
    ensures w.gate.value.pc == G.Idle && w.gate.value.ret.Returned? && Candidate(w.gate.value.route)
  {
    hide G.Step, Run, Zeros;
    events, w := OpenStarts();
    OpenExposes(w.gate.value);
    events, w := Drive(events, w, GateEvent(G.Go(G.Works)));
    OpenLooks(w.gate.value);
    events, w := Drive(events, w, GateEvent(G.Go(G.Works)));
    OpenEnds(w.gate.value);
    events, w := Drive(events, w, GateEvent(G.Go(G.Works)));
  }

  lemma TakesEffect() returns (events: seq<Event>, w: World)
    ensures Run(START, events) == w && Stands(w, Effective, Some("l"), Idle, G.CandidateOpen)
    ensures w.gate.value.pc == G.Idle && Candidate(w.gate.value.route)
  {
    hide G.Step, GateAt, Run, Zeros;
    events, w := Exposes();
    events, w := Drive(events, w, Next(WELL));
    events, w := Drive(events, w, Next(WELL));
  }

  lemma HostFails() returns (events: seq<Event>, w: World)
    ensures Run(START, events) == w && Stands(w, Rollback, Some("l"), RollbackGate(ID, true), G.CandidateOpen)
    ensures w.gate.value.pc == G.Idle && Candidate(w.gate.value.route) && DirtyHost(w.store.journal, ID)
  {
    hide G.Step, GateAt, Run, Zeros;
    events, w := TakesEffect();
    events, w := Drive(events, w, RollbackCall(ID));
    assert w.pc == RollbackHost(ID);
    events, w := Drive(events, w, Next(ILL));
  }

  lemma Crashes(g: G.World, s: G.GateState)
    requires g.pc == G.Idle && GateAt(g, s)
    ensures var g' := G.Step(g, G.Crash); g'.pc == G.Idle && GateAt(g', s) && g'.db == g.db && g'.route == g.route
  {}

  /** The process dies before the gate is closed. */
  lemma Dies() returns (events: seq<Event>, w: World)
    ensures Run(START, events) == w && Stands(w, Rollback, Some("l"), Idle, G.CandidateOpen)
    ensures w.gate.value.pc == G.Idle && Candidate(w.gate.value.route) && DirtyHost(w.store.journal, ID)
  {
    hide G.Step, GateAt, Run, Zeros;
    events, w := HostFails();
    Crashes(w.gate.value, G.CandidateOpen);
    events, w := Drive(events, w, Restart);
  }

  lemma GateReconciles(g: G.World)
    requires GateAt(g, G.CandidateOpen) && g.pc == G.Idle
    ensures var g' := G.Step(g, G.Reconcile);
            && g'.pc == G.Idle && GateAt(g', G.CandidateOpen) && g'.route == g.route
            && g'.ret == G.Returned(G.VState(G.CandidateOpen))
  {
    ForwardIsQuiet(g.db.value.rows);
    hide G.Outstanding, G.Unanswered, G.LastRow, G.LeaseValid;
  }

  lemma GivesUpOpen() returns (events: seq<Event>, w: World)
    ensures Run(START, events) == w && Stands(w, Rollback, Some("l"), RecoverMark(ID, FailedSafe), G.CandidateOpen)
    ensures w.gate.value.pc == G.Idle && Candidate(w.gate.value.route)
  {
    hide G.Step, GateAt, Run, Zeros;
    events, w := Dies();
    GateReconciles(w.gate.value);
    LastHostIs(w.store.journal, ID);
    events, w := Drive(events, w, Recover(ID));
    assert w.pc == RecoverReconcile(ID);
    events, w := Drive(events, w, Next(WELL));
  }

  /** From an empty store and a fresh gate: a plan that recover has marked FailedSafe while the candidate is exposed. */
  lemma FailedSafeStaysExposed() returns (events: seq<Event>)
    ensures Initial(START)
    ensures var w := Run(START, events);
            && ID in w.store.activations && w.store.activations[ID].state == FailedSafe && w.pc == Idle
            && w.gate.Some? && w.gate.value.db.Some? && w.gate.value.db.value.state == G.CandidateOpen
            && Candidate(w.gate.value.route)
  {
    hide G.Step, Run, Zeros;
    var w;
    events, w := GivesUpOpen();
    events, w := Drive(events, w, Next(WELL));
  }

  // ---------------------------------------------------------------- a plan that cannot be recovered

  /** The one plan is in `state`, and no host receipt is on record. */
  predicate Unreceipted(w: World, state: State, pc: Pc) {
    && w.pc == pc && w.gate.Some? && Hostless(w.store.journal) && ID in w.store.activations
    && w.store.activations[ID].state == state && w.store.activations[ID].plan == PLAN
  }

  /** Preparing fails. */
  lemma PreparesIll() returns (events: seq<Event>, w: World)
    ensures Run(START, events) == w && Unreceipted(w, Preparing, Idle)
    ensures GateAt(w.gate.value, G.CandidateStaged) && w.gate.value.pc == G.Idle
  {
    hide G.Step, GateAt, Run, Zeros;
    events, w := PlansAndStages();
    events, w := Drive(events, w, Prepare(ID));
    assert w.pc == PrepareHost(ID);
    events, w := Drive(events, w, Next(ILL));
  }

  /** Recover rolls the gate back. */
  lemma RollsBackEarly() returns (events: seq<Event>, w: World)
    ensures Run(START, events) == w && Unreceipted(w, Preparing, PreOpenRollback(ID))
    ensures Back(w.gate.value) && w.gate.value.ret == G.Returned(G.VClass(G.RestoredStrong))
  {
    hide G.Step, GateAt, Run, Zeros, Restored, Back;
    events, w := PreparesIll();
    StagedRestores(w.gate.value);
    events, w := Drive(events, w, Recover(ID));
    assert Unreceipted(w, Preparing, PreOpenRollback(ID));
    events, w := Drive(events, w, GateEvent(G.Go(G.Works)));
    RestoredEnds(w.gate.value);
    events, w := Drive(events, w, GateEvent(G.Go(G.Works)));
  }

  lemma MarksReconcile() returns (events: seq<Event>, w: World)
    ensures Run(START, events) == w && Unreceipted(w, Reconcile, Idle) && Back(w.gate.value)
  {
    hide G.Step, Run, Zeros;
    events, w := RollsBackEarly();
    events, w := Drive(events, w, Next(WELL));
    assert w.pc == MarkReconcile(ID);
    events, w := Drive(events, w, Next(WELL));
  }

  lemma BackCrashes(g: G.World)
    requires Back(g)
    ensures Back(G.Step(g, G.Crash))
  {}

  /** The plan is rolled back, and the process dies before the host answers. */
  lemma DiesEarly() returns (events: seq<Event>, w: World)
    ensures Run(START, events) == w && Unreceipted(w, Rollback, Idle) && Back(w.gate.value)
  {
    hide G.Step, Run, Zeros, Back;
    events, w := MarksReconcile();
    GateIsIdle(w.gate.value);
    events, w := Drive(events, w, RollbackCall(ID));
    assert w.pc == RollbackHost(ID);
    BackCrashes(w.gate.value);
    events, w := Drive(events, w, Restart);
  }

  lemma GateIsIdle(g: G.World)
    requires Back(g)
    ensures g.pc == G.Idle
  {}

  lemma BackReconciles(g: G.World)
    requires Back(g)
    ensures var g' := G.Step(g, G.Reconcile); Back(g') && g'.ret == G.Returned(G.VState(G.RolledBack))
  {
    hide G.Outstanding, G.Unanswered, G.LastRow, G.LeaseValid;
  }

  /** Recover finds the gate restored and no host receipt, and fail-closes it. */
  lemma FailCloses() returns (events: seq<Event>, w: World)
    ensures Run(START, events) == w && Unreceipted(w, Rollback, RecoverClosing(ID))
    ensures CloseBegun(w.gate.value)
  {
    hide G.Step, Run, Zeros, Back;
    events, w := DiesEarly();
    GateIsIdle(w.gate.value);
    BackReconciles(w.gate.value);
    events, w := Drive(events, w, Recover(ID));
    assert w.pc == RecoverReconcile(ID);
    GateIsIdle(w.gate.value);
    HostlessHasNone(w.store.journal, ID);
    BackCloses(w.gate.value);
    events, w := Drive(events, w, Next(WELL));
  }

  /** fail_close has written its intent on the restored gate. */
  predicate CloseBegun(g: G.World) { g.db.Some? && g.pc == G.FcEffect(G.ThenClass) && R.Stuck(g.db.value) }

  lemma BackCloses(g: G.World)
    requires Back(g)
    ensures CloseBegun(G.Step(g, G.FailClose(1)))
  {
    hide G.Step, R.Stuck;
    R.FailCloseStarts(g, g.db.value);
  }

  lemma CloseRaises(g: G.World)
    requires CloseBegun(g)
    ensures var g' := G.Step(G.Step(G.Step(g, G.Go(G.Works)), G.Go(G.Works)), G.Go(G.Works));
            g'.db == g.db && g'.pc == G.Idle && g'.ret == G.Raised && g'.route == G.CLOSED_ROUTE
  {
    hide G.Step, R.Stuck;
    StuckIsRolledBack(g.db.value);
    R.FailCloseGoes(g, G.Works);
    R.FailCloseGoes(G.Step(g, G.Go(G.Works)), G.Works);
    R.FailCloseGoes(G.Step(G.Step(g, G.Go(G.Works)), G.Go(G.Works)), G.Works);
  }

  /** From an empty store and a fresh gate: a plan in Rollback over a stuck gate, its restored predecessor closed again;
      no recover moves it any more (HopelessStays). */
  lemma RecoveryGetsStuck() returns (events: seq<Event>)
    ensures Initial(START)
    ensures var w := Run(START, events);
            && ID in w.store.activations && w.store.activations[ID].state == Rollback && w.pc == Idle && w.gate.Some?
            && w.gate.value.pc == G.Idle && w.gate.value.db.Some? && R.Stuck(w.gate.value.db.value)
            && w.gate.value.route == G.CLOSED_ROUTE
  {
    hide G.Step, Run, Zeros, R.Stuck;
    var w;
    events, w := FailCloses();
    CloseRaises(w.gate.value);
    events, w := Drive(events, w, GateEvent(G.Go(G.Works)));
    events, w := Drive(events, w, GateEvent(G.Go(G.Works)));
    events, w := Drive(events, w, GateEvent(G.Go(G.Works)));
    assert Unreceipted(w, Rollback, RecoverClosing(ID));
    events, w := Drive(events, w, Next(WELL));
  }
}
