/** What holds in every run of the coordinator that drives an exposure gate. */
module CoordinatorSafety {
  import opened Basics
  import opened Coordinator
  import G = Gate
  import S = GateSafety
  import M = GateSimulation
  import C = GateCalls

  // ---------------------------------------------------------------- the gate's side

  predicate RollingBackAt(pc: G.Pc) { pc.RbEffect? || pc.RbClose? || pc.RbDecide? }

  ghost predicate GateOk(g: G.World) {
    && S.Inv(g) && M.Strict(g)
    && (RollingBackAt(g.pc) ==> g.db.Some? && g.db.value.state != G.Opening)
  }

  /** What any gate step guarantees to the coordinator. */
  ghost predicate Evolves(g: G.World, e: G.Event, g': G.World) {
    && GateOk(g') && S.Extends(g.db, g'.db)
    && (!e.Open? && g'.db.Some? && g'.db.value.state == G.Opening ==> g.db.Some? && g.db.value.state == G.Opening)
  }

  lemma OnlyRollbackRollsBack(g: G.World, e: G.Event)
    requires S.Inv(g) && RollingBackAt(G.Step(g, e).pc)
    ensures RollingBackAt(g.pc) || (g.pc == G.Idle && e.Rollback?)
    ensures e.Open? ==> G.Step(g, e) == g
  {
    hide S.DbOk, G.Begin, G.AdvanceUndo, G.AdvanceExamine, G.AdvanceForward;
    if g.pc == G.Idle { BeginRollsBack(g, e); }
    else if e.Go? {
      UndoRollsBack(g, g.db.value, e.traffic);
      OthersNeverRollBack(g, g.db.value, e.traffic);
    }
  }

  lemma BeginRollsBack(g: G.World, e: G.Event)
    requires g.pc == G.Idle
    ensures RollingBackAt(G.Begin(g, e).pc) ==> e.Rollback?
  {
    hide G.LastRow, G.IsSha256, G.Outstanding, G.Unanswered, G.LeaseValid, G.PredecessorMatches, G.Note, G.Move;
  }

  lemma UndoRollsBack(g: G.World, db: G.Db, t: G.Traffic)
    ensures RollingBackAt(G.AdvanceUndo(g, db, t).pc) ==> RollingBackAt(g.pc)
  {
    hide G.Note, G.Move, G.RestoredRoute, G.RecoveredOutcome;
  }

  lemma OthersNeverRollBack(g: G.World, db: G.Db, t: G.Traffic)
    ensures RollingBackAt(G.AdvanceExamine(g, db, t).pc) ==> RollingBackAt(g.pc)
    ensures RollingBackAt(G.AdvanceForward(g, db, t).pc) ==> RollingBackAt(g.pc)
  {
    hide G.LeaseValid, G.Note, G.Move, G.CandidateMatches, G.PredecessorBusy;
  }

  lemma GateMoves(g: G.World, e: G.Event)
    requires GateOk(g) && M.OffersNoOracle(g, e)
    requires e.Rollback? && g.db.Some? ==> g.db.value.state != G.Opening
    ensures Evolves(g, e, G.Step(g, e))
  {
    hide S.Inv, M.Strict, G.Step, S.Extends;
    S.StepKeeps(g, e);
    S.StepExtends(g, e);
    M.StepIsStrict(g, e);
    var g' := G.Step(g, e);
    if RollingBackAt(g'.pc) { OnlyRollbackRollsBack(g, e); assert g.db.Some? && g'.db.Some? by { BusyHasDb(g, e); } }
    if !e.Open? && g'.db.Some? && g'.db.value.state == G.Opening { C.OnlyOpenOpens(g, e); }
  }

  lemma BusyHasDb(g: G.World, e: G.Event)
    requires S.Inv(g) && S.Inv(G.Step(g, e)) && RollingBackAt(G.Step(g, e).pc)
             && (RollingBackAt(g.pc) || (g.pc == G.Idle && e.Rollback?))
    ensures g.db.Some? && G.Step(g, e).db.Some?
  {
    hide S.DbOk, G.Advance;
  }

  // ---------------------------------------------------------------- the invariant

  /** The last host receipt reports no error. */
  predicate CleanHost(journal: seq<Entry>, p: PlanId) {
    match LastHost(journal, p)
    case Some(HostRollback(_, _, error)) => error == None
    case _ => false
  }

  /** The last host receipt reports an error, or no outcome. */
  predicate DirtyHost(journal: seq<Entry>, p: PlanId) {
    match LastHost(journal, p)
    case Some(HostRollback(_, outcome, error)) => error.Some? || outcome == None
    case _ => false
  }

  /** The gate was staged for this plan. */
  predicate Holds(db: G.Db, plan: Plan) {
    && db.candidate == G.PlanRef(plan.id) && db.predecessor == Predecessor(plan)
    && db.candidateGeneration == plan.generation + 1
  }

  predicate PlanOk(st: Store, g: G.World, p: PlanId)
    requires p in st.activations && g.db.Some?
  {
    var a, s := st.activations[p], g.db.value.state;
    && a.plan.id == p && Holds(g.db.value, a.plan)
    && (a.state == Effective ==> C.Live(g))
    && (s == G.Opening ==> a.state == CommitReady)
    && (a.state == RolledBack ==> s == G.RolledBack && CleanHost(st.journal, p))
    && (a.state == FailedSafe ==> s == G.FailedSafe || DirtyHost(st.journal, p))
  }

  /** The plan the gate's database belongs to. */
  function Owner(g: G.World): set<PlanId> {
    if g.db.Some? && g.db.value.candidate.PlanRef? then {g.db.value.candidate.id} else {}
  }

  /** Exactly the owner is activated, beside a plan that is just being planned. */
  predicate OwnerOk(w: World, g: G.World) {
    && (g.db.Some? ==>
          && g.db.value.candidate.PlanRef? && g.db.value.candidate.id in w.store.activations
          && PlanOk(w.store, g, g.db.value.candidate.id))
    && match w.pc
       case Staging(p) =>
         && w.store.activations.Keys == Owner(g) + {p} && w.store.activations[p].state == Planned
         && g.pc == G.Idle && (g.ret.Returned? <==> p in Owner(g))
       case Deleting(p) => w.store.activations.Keys == Owner(g) + {p} && w.store.activations[p].state == Planned
           && p !in Owner(g)
       case _ => w.store.activations.Keys == Owner(g)
  }

  /** Where the running call may go from here. */
  predicate PcOk(w: World, g: G.World)
    requires w.pc != Idle && w.pc.plan in w.store.activations && g.db.Some?
  {
    var p := w.pc.plan;
    var state, s := w.store.activations[p].state, g.db.value.state;
    var clean, dirty := CleanHost(w.store.journal, p), DirtyHost(w.store.journal, p);
    match w.pc
    case PrepareHost(_) => state == Preparing && g.pc == G.Idle
    case PrepareReceipt(_) => state == Preparing && g.pc == G.Idle
    case Closing(_) => state == Prepared && C.During(C.ClosingCall, g)
    case LaunchHost(_) => state == Launching && g.pc == G.Idle
    case LaunchReceipt(_, _) => state == Launching && g.pc == G.Idle
    case CommitEffect(_) => state == CommitReady && g.pc == G.Idle
    case OpeningGate(_) => state == CommitReady && C.During(C.OpeningCall, g)
    case CommitReceipt(_) => state == CommitReady && g.pc == G.Idle && s == G.CandidateOpen
    case CommitReconcile(_) => state == CommitReady && C.During(C.ReconcilingCall, g)
    case CommitRollback(_) => state == CommitReady && C.During(C.RollingBackCall, g)
    case PreOpenRollback(_) => state in {Preparing, Launching, Observing} && C.During(C.RollingBackCall, g)
    case MarkEffective(_) => state == CommitReady && g.pc == G.Idle && s == G.CandidateOpen
    case MarkReconcile(_) => state in {Preparing, Launching, Observing, CommitReady} && g.pc == G.Idle && s != G.Opening
    case RollbackHost(_) => state == Rollback && g.pc == G.Idle
    case RollbackGate(_, failed) => state == Rollback && g.pc == G.Idle && (!failed ==> clean)
    case RollingBack(_) => state == Rollback && clean && C.During(C.RollingBackCall, g)
    case RollbackClosing(_, failed, _) => state == Rollback && (!failed ==> clean) && C.During(C.FailClosingCall, g)
    case RollbackReceipt(_, failed, verdict) =>
      && state == Rollback && g.pc == G.Idle && (!failed ==> clean)
      && (verdict != G.ClassSafetyUnknown ==> s == G.TargetOf(verdict))
      && (failed ==> G.TargetOf(verdict) != G.RolledBack)
    case RollbackMark(_, final) =>
      && state == Rollback && g.pc == G.Idle && (final == RolledBack ==> clean && s == G.RolledBack)
      && (final == FailedSafe ==> s == G.FailedSafe || dirty)
    case RecoverReconcile(_) => state == Rollback && C.During(C.ReconcilingCall, g)
    case RecoverClosing(_) => state == Rollback && C.During(C.FailClosingCall, g)
    case RecoverMark(_, final) =>
      && state == Rollback && g.pc == G.Idle && (final == RolledBack ==> clean && s == G.RolledBack)
      && (final == FailedSafe ==> s == G.FailedSafe || dirty)
    case Staging(_) => true
    case Deleting(_) => true
  }

  /** The invariant of a coordinator with a gate. */
  ghost predicate Inv(w: World) {
    w.gate.Some? ==>
      var g := w.gate.value;
      && GateOk(g) && OwnerOk(w, g)
      && (w.pc != Idle && !w.pc.Staging? && !w.pc.Deleting? ==>
            g.db.Some? && w.pc.plan in Owner(g) && PcOk(w, g))
  }

  // ---------------------------------------------------------------- store steps

  lemma LogHost(journal: seq<Entry>, e: Entry, p: PlanId)
    ensures !e.HostRollback? ==> LastHost(journal + [e], p) == LastHost(journal, p)
    ensures e.HostRollback? && e.plan == p ==> LastHost(journal + [e], p) == Some(e)
  {
    assert (journal + [e])[..|journal|] == journal;
  }

  /** The owner's state may move to `target`. */
  predicate Fits(st: Store, g: G.World, p: PlanId, target: State)
    requires g.db.Some?
  {
    && (target == Effective ==> C.Live(g))
    && (g.db.value.state == G.Opening ==> target == CommitReady)
    && (target == RolledBack ==> g.db.value.state == G.RolledBack && CleanHost(st.journal, p))
    && (target == FailedSafe ==> g.db.value.state == G.FailedSafe || DirtyHost(st.journal, p))
  }

  lemma MoveToOk(st: Store, g: G.World, p: PlanId, target: State)
    requires p in st.activations && g.db.Some? && PlanOk(st, g, p) && Fits(st, g, p, target)
             && MoveTo(st, p, target).Some?
    ensures var st' := MoveTo(st, p, target).value;
            && st'.activations.Keys == st.activations.Keys && PlanOk(st', g, p)
            && st'.activations[p] == st.activations[p].(state := target)
            && LastHost(st'.journal, p) == LastHost(st.journal, p)
  {
    hide LastHost, C.Live, Holds;
    LogHost(st.journal, Transitioned(p, st.activations[p].state, target), p);
  }

  lemma LogOk(st: Store, g: G.World, p: PlanId, e: Entry)
    requires p in st.activations && g.db.Some? && PlanOk(st, g, p)
             && (e.HostRollback? ==> st.activations[p].state !in {RolledBack, FailedSafe})
    ensures PlanOk(Log(st, e), g, p)
  {
    hide LastHost, C.Live, Holds;
    LogHost(st.journal, e, p);
  }

  // ---------------------------------------------------------------- gate steps under the coordinator

  /** A gate step that does not undo an Effective plan, nor open under another state than CommitReady. */
  lemma GateStepOk(st: Store, g: G.World, e: G.Event, p: PlanId)
    requires p in st.activations && GateOk(g) && g.db.Some? && PlanOk(st, g, p)
    requires M.OffersNoOracle(g, e) && (e.Rollback? ==> g.db.value.state != G.Opening)
    requires st.activations[p].state == Effective ==> C.Live(G.Step(g, e))
    requires e.Open? ==> st.activations[p].state == CommitReady
    ensures var g' := G.Step(g, e); GateOk(g') && g'.db.Some? && PlanOk(st, g', p) && Owner(g') == Owner(g)
  {
    hide G.Step, GateOk, LastHost, C.Live;
    GateMoves(g, e);
  }

  lemma IdleGateRests(g: G.World, e: G.Event)
    requires g.pc == G.Idle && S.Uninterrupted(e)
    ensures var g' := G.Step(g, e); g'.db == g.db && g'.pc == G.Idle && g'.ret == g.ret
  {}

  /** Whether the coordinator waits for a gate call, and which. */
  function Awaited(pc: Pc): Option<C.Call> {
    match pc
    case Closing(_) => Some(C.ClosingCall)
    case OpeningGate(_) => Some(C.OpeningCall)
    case CommitReconcile(_) => Some(C.ReconcilingCall)
    case RecoverReconcile(_) => Some(C.ReconcilingCall)
    case CommitRollback(_) => Some(C.RollingBackCall)
    case PreOpenRollback(_) => Some(C.RollingBackCall)
    case RollingBack(_) => Some(C.RollingBackCall)
    case RollbackClosing(_, _, _) => Some(C.FailClosingCall)
    case RecoverClosing(_) => Some(C.FailClosingCall)
    case _ => None
  }

  /** While a gate call runs, what is known of the plan speaks of the gate only through the call's promise. */
  lemma PcFrame(w: World, g: G.World, g': G.World)
    requires w.pc != Idle && w.pc.plan in w.store.activations && g.db.Some? && g'.db.Some? && PcOk(w, g)
    requires match Awaited(w.pc) case Some(c) => C.During(c, g') case None => g'.db == g.db && g'.pc == g.pc
    ensures PcOk(w.(gate := Some(g')), g')
  {
    hide C.During, CleanHost, DirtyHost;
  }

  lemma PcAwaits(w: World, g: G.World)
    requires w.pc != Idle && !w.pc.Staging? && !w.pc.Deleting? && w.pc.plan in w.store.activations && g.db.Some?
             && PcOk(w, g)
    ensures match Awaited(w.pc) case Some(c) => C.During(c, g) case None => g.pc == G.Idle
  {
    hide C.During, CleanHost, DirtyHost;
  }

  /** The environment and the running gate call keep the invariant. */
  lemma EnvironmentKeeps(w: World, g: G.World, e: G.Event)
    requires Inv(w) && w.gate == Some(g) && S.Uninterrupted(e)
    ensures Inv(w.(gate := Some(G.Step(g, e))))
  {
    hide G.Step, GateOk, PlanOk, PcOk, C.During, Awaited;
    var g' := G.Step(g, e);
    if g.pc == G.Idle { IdleGateRests(g, e); }
    EnvironmentOwner(w, g, e);
    assert S.Inv(g) by { GateOkInv(g); }
    if w.pc != Idle && !w.pc.Staging? && !w.pc.Deleting? {
      PcAwaits(w, g);
      if Awaited(w.pc).Some? { C.CallContinues(g, e, Awaited(w.pc).value); }
      PcFrame(w, g, g');
    }
  }

  lemma GateOkInv(g: G.World)
    requires GateOk(g)
    ensures S.Inv(g)
  {}

  lemma EnvironmentOwner(w: World, g: G.World, e: G.Event)
    requires Inv(w) && w.gate == Some(g)
             && (S.Uninterrupted(e) || e.Crash? || (w.pc == Idle && (e.Drain? || e.Observe?)))
    ensures var g' := G.Step(g, e);
            GateOk(g') && OwnerOk(w.(gate := Some(g')), g') && (g.db.Some? ==> g'.db.Some? && Owner(g') == Owner(g))
  {
    hide G.Step, LastHost, PcOk, S.Inv, M.Strict;
    GateMoves(g, e);
    if g.db.Some? {
      var p := g.db.value.candidate.id;
      if w.store.activations[p].state == Effective { C.LiveStays(g, e); }
      GateStepOk(w.store, g, e, p);
    } else { EmptyGateRests(g, e); }
    if w.pc.Staging? { QuietGate(g, e); }
  }

  lemma QuietGate(g: G.World, e: G.Event)
    requires g.pc == G.Idle && (S.Uninterrupted(e) || e.Crash?)
    ensures var g' := G.Step(g, e); g'.db == g.db && g'.pc == G.Idle && g'.ret == g.ret
  {}

  lemma EmptyGateRests(g: G.World, e: G.Event)
    requires S.Inv(g) && g.db == None && (S.Uninterrupted(e) || e.Crash? || e.Drain? || e.Observe?)
    ensures G.Step(g, e).db == None
  {}

  lemma GateEventKeeps(w: World, e: G.Event)
    requires Inv(w)
    ensures Inv(Step(w, GateEvent(e)))
  {
    hide G.Step, GateOk, OwnerOk, PcOk;
    if w.gate.Some? && External(w, e) {
      if S.Uninterrupted(e) { EnvironmentKeeps(w, w.gate.value, e); }
      else { EnvironmentOwner(w, w.gate.value, e); }
    }
  }

  lemma GateFaultKeeps(w: World, g: G.World)
    requires Inv(w) && w.gate == Some(g) && g.pc != G.Idle
    ensures Inv(w.(gate := Some(G.Step(g, G.Crash).(ret := G.Raised))))
  {
    hide G.Step, GateOk, CleanHost, DirtyHost, Holds, C.During;
    EnvironmentOwner(w, g, G.Crash);
    CrashedGate(g);
  }

  lemma RestartKeeps(w: World, g: G.World, st: Store)
    requires Inv(w) && w.gate == Some(g) && !w.pc.Staging? && !w.pc.Deleting?
    requires st.activations == w.store.activations && st.journal == w.store.journal
    ensures Inv(w.(store := st, gate := Some(G.Step(g, G.Crash)), pc := Idle))
    ensures g.pc == G.Idle ==> Inv(w.(pc := Idle))
  {
    hide G.Step, GateOk, CleanHost, DirtyHost, Holds, PcOk;
    EnvironmentOwner(w, g, G.Crash);
  }

  lemma FaultsKeep(w: World, e: Event)
    requires Inv(w) && (e == GateFault || e == Fault || e == Restart)
    ensures Inv(Step(w, e))
  {
    hide G.Step, GateOk, OwnerOk, PcOk;
    if w.gate.Some? {
      var g := w.gate.value;
      if e == GateFault { if g.pc != G.Idle { GateFaultKeeps(w, g); } }
      else if !w.pc.Staging? && !w.pc.Deleting? { RestartKeeps(w, g, Booted(w.store)); }
    }
  }

  lemma CrashedGate(g: G.World)
    ensures var g' := G.Step(g, G.Crash); g'.db == g.db && g'.pc == G.Idle
    ensures GateOk(G.Step(g, G.Crash)) ==> GateOk(G.Step(g, G.Crash).(ret := G.Raised))
    ensures forall c :: C.During(c, G.Step(g, G.Crash).(ret := G.Raised))
  {}

  // ---------------------------------------------------------------- coordinator calls

  /** The owner of the gate, when the coordinator is idle or inside a call of the owner. */
  lemma OwnerFacts(w: World, g: G.World, p: PlanId)
    requires Inv(w) && w.gate == Some(g) && !w.pc.Staging? && !w.pc.Deleting? && p in w.store.activations
    ensures g.db.Some? && GateOk(g) && Owner(g) == {p} && PlanOk(w.store, g, p) && w.store.activations.Keys == {p}
  {
    hide GateOk, PlanOk, PcOk;
  }

  /** What is left to show once store, gate and program point of the owner's call are known. */
  lemma Assemble(w: World, g: G.World, p: PlanId)
    requires w.gate == Some(g) && GateOk(g) && g.db.Some? && Owner(g) == {p} && w.store.activations.Keys == {p}
             && PlanOk(w.store, g, p)
    requires !w.pc.Staging? && !w.pc.Deleting? && (w.pc != Idle ==> w.pc.plan == p && PcOk(w, g))
    ensures Inv(w)
  {
    hide GateOk, PlanOk, PcOk;
  }

  lemma PlanCallKeeps(w: World, plan: Plan)
    requires Inv(w) && w.pc == Idle && GateIdle(w)
    ensures Inv(PlanBegins(w, plan))
  {
    hide GateOk, G.Step, PcOk, HasTargets, LastHost;
    var w' := PlanBegins(w, plan);
    if w' != w && w.gate.Some? {
      var g, e := w.gate.value, G.Stage(G.PlanRef(plan.id), Predecessor(plan));
      GateOkInv(g);
      StageOutcome(g, plan);
      GateMoves(g, e);
      if g.db.Some? {
        var q := g.db.value.candidate.id;
        LogHost(w.store.journal, Other(plan.id, "plan"), q);
        assert PlanOk(w'.store, g, q);
        GateStepOk(w'.store, g, e, q);
      }
    }
  }

  lemma StageOutcome(g: G.World, plan: Plan)
    requires S.Inv(g) && g.pc == G.Idle
    ensures var g' := G.Step(g, G.Stage(G.PlanRef(plan.id), Predecessor(plan)));
            && g'.pc == G.Idle
            && (g.db.Some? ==> g'.db == g.db && (g'.ret.Returned? ==> Holds(g.db.value, plan)))
            && (g.db == None ==> g'.db.Some? == g'.ret.Returned?)
            && (g.db == None && g'.db.Some? ==> Holds(g'.db.value, plan) && g'.db.value.state == G.CandidateStaged)
  {}

  /** A call of the idle coordinator's owner that only moves its state and notes it. */
  lemma MoveKeeps(w: World, p: PlanId, target: State, st: Store, pc: Pc)
    requires Inv(w) && w.pc == Idle && GateIdle(w) && w.gate.Some? && MoveTo(w.store, p, target).Some?
    requires Fits(w.store, w.gate.value, p, target)
    requires var m := MoveTo(w.store, p, target).value;
             && st.activations.Keys == m.activations.Keys
             && st.activations[p] == m.activations[p].(launchId := st.activations[p].launchId)
             && (st.journal == m.journal || exists e: Entry :: !e.HostRollback? && st.journal == m.journal + [e])
    requires pc != Idle ==> !pc.Staging? && !pc.Deleting? && pc.plan == p && PcOk(At(w, st, pc), w.gate.value)
    ensures Inv(At(w, st, pc))
  {
    hide GateOk, PcOk, LastHost, C.Live, Holds, MoveTo;
    var g := w.gate.value;
    MoveExists(w.store, p, target);
    OwnerFacts(w, g, p);
    MoveToOk(w.store, g, p, target);
    var m := MoveTo(w.store, p, target).value;
    if st.journal != m.journal {
      var e: Entry :| !e.HostRollback? && st.journal == m.journal + [e];
      LogHost(m.journal, e, p);
    }
    Assemble(At(w, st, pc), g, p);
  }

  lemma MoveExists(st: Store, p: PlanId, target: State)
    requires MoveTo(st, p, target).Some?
    ensures p in st.activations && Allowed(st.activations[p].state, target)
    ensures MoveTo(st, p, target).value.activations == st.activations[p := st.activations[p].(state := target)]
  {}

  lemma NotOpening(w: World, p: PlanId, target: State)
    requires Inv(w) && w.gate.Some? && !w.pc.Staging? && !w.pc.Deleting? && p in w.store.activations
    requires w.store.activations[p].state != CommitReady && target !in {Effective, RolledBack, FailedSafe}
    ensures w.gate.value.db.Some? && w.gate.value.db.value.state != G.Opening && Fits(w.store, w.gate.value, p, target)
  {
    hide GateOk, PcOk, LastHost, C.Live, Holds;
    OwnerFacts(w, w.gate.value, p);
  }

  lemma PrepareKeeps(w: World, p: PlanId)
    requires Inv(w) && w.pc == Idle && GateIdle(w)
    ensures Inv(Begin(w, Prepare(p)))
  {
    hide GateOk, OwnerOk, MoveTo, Fits;
    if w.gate.Some? && MoveTo(w.store, p, Preparing).Some? {
      MoveExists(w.store, p, Preparing);
      NotOpening(w, p, Preparing);
      var m := MoveTo(w.store, p, Preparing).value;
      MoveKeeps(w, p, Preparing, Log(m, Other(p, "prepare")), PrepareHost(p));
    }
  }

  lemma LaunchKeeps(w: World, p: PlanId, id: string)
    requires Inv(w) && w.pc == Idle && GateIdle(w)
    ensures Inv(LaunchBegins(w, p, id))
  {
    hide GateOk, OwnerOk, MoveTo, Fits;
    if w.gate.Some? && MoveTo(w.store, p, Launching).Some? {
      MoveExists(w.store, p, Launching);
      NotOpening(w, p, Launching);
      var w' := LaunchBegins(w, p, id);
      MoveKeeps(w, p, Launching, w'.store, LaunchHost(p));
    }
  }

  /** Evidence and inventory do not concern the gate. */
  lemma NoteKeeps(w: World, st: Store, e: Entry)
    requires Inv(w) && w.pc == Idle && !e.HostRollback?
    requires st.activations == w.store.activations && st.journal == w.store.journal + [e]
    ensures Inv(w.(store := st))
  {
    hide GateOk, LastHost, C.Live, Holds;
    if w.gate.Some? && w.gate.value.db.Some? { LogHost(w.store.journal, e, w.gate.value.db.value.candidate.id); }
  }

  lemma RollbackKeeps(w: World, p: PlanId)
    requires Inv(w) && w.pc == Idle && GateIdle(w)
    ensures Inv(RollbackBegins(w, p))
  {
    hide GateOk, OwnerOk, MoveTo, Fits;
    if w.gate.Some? && MoveTo(w.store, p, Rollback).Some? {
      MoveExists(w.store, p, Rollback);
      NotOpening(w, p, Rollback);
      MoveKeeps(w, p, Rollback, Log(MoveTo(w.store, p, Rollback).value, Other(p, "rollback")), RollbackHost(p));
    }
  }

  lemma SimpleMoveKeeps(w: World, p: PlanId, target: State)
    requires Inv(w) && w.pc == Idle && GateIdle(w) && MoveTo(w.store, p, target).Some?
    requires p in w.store.activations && w.store.activations[p].state != CommitReady
             && target !in {Effective, RolledBack, FailedSafe}
    ensures Inv(At(w, MoveTo(w.store, p, target).value, Idle))
  {
    hide GateOk, OwnerOk, MoveTo, Fits;
    if w.gate.Some? {
      NotOpening(w, p, target);
      MoveKeeps(w, p, target, MoveTo(w.store, p, target).value, Idle);
    }
  }

  lemma LeaseLostKeeps(w: World, p: PlanId)
    requires Inv(w) && w.pc == Idle && GateIdle(w)
    ensures Inv(LeaseLostBegins(w, p))
  {
    hide Inv, MoveTo, RollbackBegins;
    if MoveTo(w.store, p, Degraded).Some? {
      MoveExists(w.store, p, Degraded);
      SimpleMoveKeeps(w, p, Degraded);
      var m := MoveTo(w.store, p, Degraded).value;
      var w1 := At(w, m, Idle);
      assert w1 == w.(store := m);
      if m.activations[p].plan.fallbackProven {
        if MoveTo(m, p, Reconcile).Some? { MoveExists(m, p, Reconcile); SimpleMoveKeeps(w1, p, Reconcile); }
      } else { RollbackKeeps(w1, p); }
    }
  }

  lemma CommitKeeps(w: World, p: PlanId, expected: int, external: bool, now: int)
    requires Inv(w) && w.pc == Idle && GateIdle(w)
    ensures Inv(CommitBegins(w, p, expected, external, now))
  {
    hide GateOk, OwnerOk, MoveTo, Fits, EvidenceComplete, LeaseLostBegins;
    if p !in w.store.activations {}
    else if !external { LeaseLostKeeps(w, p); }
    else if w.gate.Some? && MoveTo(w.store, p, CommitReady).Some? {
      MoveExists(w.store, p, CommitReady);
      NotOpening(w, p, CommitReady);
      var w' := CommitBegins(w, p, expected, external, now);
      if w' != w { MoveKeeps(w, p, CommitReady, w'.store, CommitEffect(p)); }
    }
  }

  /** Handing the idle gate a call for the owner, and waiting for it. */
  lemma CallGateKeeps(w: World, g: G.World, p: PlanId, e: G.Event, c: C.Call, pc: Pc)
    requires Inv(w) && w.gate == Some(g) && !w.pc.Staging? && !w.pc.Deleting? && g.pc == G.Idle
             && p in w.store.activations
    requires C.Makes(e, c) && M.OffersNoOracle(g, e)
    requires w.store.activations[p].state != Effective
    requires c != C.OpeningCall || w.store.activations[p].state == CommitReady
    requires e.Rollback? ==> g.db.Some? && g.db.value.state != G.Opening
    requires pc != Idle && pc.plan == p && !pc.Staging? && !pc.Deleting?
    requires forall g' :: C.During(c, g') && g'.db.Some? ==> PcOk(w.(pc := pc), g')
    ensures Inv(CallGate(w, g, e, pc))
  {
    hide GateOk, G.Step, LastHost, C.During, PlanOk;
    OwnerFacts(w, g, p);
    GateOkInv(g);
    C.CallStarts(g, e, c);
    GateStepOk(w.store, g, e, p);
    var w' := CallGate(w, g, e, pc);
    assert PcOk(w', w'.gate.value);
    Assemble(w', w'.gate.value, p);
  }

  lemma RecoverKeeps(w: World, p: PlanId)
    requires Inv(w) && w.pc == Idle && GateIdle(w)
    ensures Inv(RecoverBegins(w, p))
  {
    hide GateOk, OwnerOk, MoveTo, Fits, G.Step, LastHost, C.During;
    if p in w.store.activations && w.gate.Some? {
      var a, g := w.store.activations[p], w.gate.value;
      if a.state == Rollback { CallGateKeeps(w, g, p, G.Reconcile, C.ReconcilingCall, RecoverReconcile(p)); }
      else if a.state == CommitReady { CallGateKeeps(w, g, p, G.Reconcile, C.ReconcilingCall, CommitReconcile(p)); }
      else if a.state in {Preparing, Launching, Observing} {
        NotOpening(w, p, Rollback);
        CallGateKeeps(w, g, p, G.Rollback(a.plan.generation + 1, None), C.RollingBackCall, PreOpenRollback(p));
      }
    }
  }

  lemma BeginKeeps(w: World, e: Event)
    requires Inv(w) && w.pc == Idle && GateIdle(w)
    ensures Inv(Begin(w, e))
  {
    hide Inv, PlanBegins, LaunchBegins, CommitBegins, RecoverBegins, RollbackBegins, LeaseLostBegins, MoveTo, GateIdle;
    match e
    case PlanCall(plan) => PlanCallKeeps(w, plan); return;
    case Prepare(p) => PrepareKeeps(w, p); return;
    case Launch(p, id) => LaunchKeeps(w, p, id); return;
    case Observe(p, item, verified) =>
      if Begin(w, e) != w { NoteKeeps(w, Begin(w, e).store, Other(p, "evidence")); }
      return;
    case Refresh(p, processes) =>
      if Begin(w, e) != w { NoteKeeps(w, Begin(w, e).store, Other(p, "refresh")); }
      return;
    case Commit(p, expected, external, now) => CommitKeeps(w, p, expected, external, now); return;
    case Recover(p) => RecoverKeeps(w, p); return;
    case Resume(p) =>
      if MoveTo(w.store, p, Observing).Some? { MoveExists(w.store, p, Observing); SimpleMoveKeeps(w, p, Observing); }
      return;
    case RollbackCall(p) => RollbackKeeps(w, p); return;
    case LeaseLost(p) => LeaseLostKeeps(w, p); return;
    case _ => return;
  }

  // ---------------------------------------------------------------- continuing a call

  /** The owner inside one of its calls. */
  predicate Calling(w: World, g: G.World, p: PlanId) {
    && w.gate == Some(g) && w.pc != Idle && !w.pc.Staging? && !w.pc.Deleting? && w.pc.plan == p
    && p in w.store.activations
  }

  lemma CallingFacts(w: World, g: G.World, p: PlanId)
    requires Inv(w) && Calling(w, g, p)
    ensures g.db.Some? && GateOk(g) && Owner(g) == {p} && PlanOk(w.store, g, p) && w.store.activations.Keys == {p}
            && PcOk(w, g)
  {
    hide GateOk, PlanOk, PcOk;
  }

  lemma EndKeeps(w: World, g: G.World, p: PlanId)
    requires Inv(w) && Calling(w, g, p)
    ensures Inv(Ended(w))
  {
    hide GateOk, PlanOk, PcOk;
    CallingFacts(w, g, p);
    Assemble(Ended(w), g, p);
  }

  /** The last transaction of a call: a note, a checked move, and the end. */
  lemma MarkKeeps(w: World, g: G.World, p: PlanId, st: Store, target: State)
    requires Inv(w) && Calling(w, g, p)
    requires st.activations == w.store.activations
    requires st.journal == w.store.journal || exists e: Entry :: !e.HostRollback? && st.journal == w.store.journal + [e]
    requires MoveTo(st, p, target).Some? ==> g.db.Some? && Fits(w.store, g, p, target)
    ensures Inv(Then(w, MoveTo(st, p, target), Idle))
    ensures MoveTo(st, p, target).Some? ==>
              forall note :: Inv(At(w, Log(MoveTo(st, p, target).value, Other(p, note)), Idle))
  {
    hide GateOk, PcOk, LastHost, C.Live, Holds, MoveTo;
    CallingFacts(w, g, p);
    EndKeeps(w, g, p);
    if MoveTo(st, p, target).Some? {
      if st.journal != w.store.journal {
        var e: Entry :| !e.HostRollback? && st.journal == w.store.journal + [e];
        LogHost(w.store.journal, e, p);
      }
      MoveToOk(st, g, p, target);
      var m := MoveTo(st, p, target).value;
      Assemble(At(w, m, Idle), g, p);
      forall note ensures Inv(At(w, Log(m, Other(p, note)), Idle)) {
        LogHost(m.journal, Other(p, note), p);
        Assemble(At(w, Log(m, Other(p, note)), Idle), g, p);
      }
    }
  }

  /** Going on to another program point of the same call. */
  lemma GoOnKeeps(w: World, g: G.World, p: PlanId, st: Store, pc: Pc)
    requires Inv(w) && Calling(w, g, p) && st.activations == w.store.activations
    requires st.journal == w.store.journal
             || exists e: Entry :: (e.HostRollback? ==> w.store.activations[p].state !in {RolledBack, FailedSafe})
                   && st.journal == w.store.journal + [e]
    requires pc != Idle && !pc.Staging? && !pc.Deleting? && pc.plan == p && g.db.Some? && PcOk(At(w, st, pc), g)
    ensures Inv(At(w, st, pc))
  {
    hide GateOk, PcOk, LastHost, C.Live, Holds;
    CallingFacts(w, g, p);
    if st.journal != w.store.journal {
      var e: Entry :| (e.HostRollback? ==> w.store.activations[p].state !in {RolledBack, FailedSafe})
          && st.journal == w.store.journal + [e];
      LogHost(w.store.journal, e, p);
    }
    Assemble(At(w, st, pc), g, p);
  }

  lemma DeleteKeeps(w: World, p: PlanId, st: Store)
    requires Inv(w) && w.pc == Deleting(p) && p in w.store.activations
    requires st.activations == w.store.activations - {p} && st.journal == Without(w.store.journal, p)
    ensures Inv(At(w, st, Idle))
  {
    hide GateOk, LastHost, C.Live, Holds, Without;
    if w.gate.Some? && w.gate.value.db.Some? { WithoutHost(w.store.journal, p, w.gate.value.db.value.candidate.id); }
  }

  lemma {:induction false} WithoutHost(journal: seq<Entry>, p: PlanId, q: PlanId)
    requires p != q
    ensures LastHost(Without(journal, p), q) == LastHost(journal, q)
  {
    hide LastHost;
    if journal != [] {
      var before, last := journal[..|journal| - 1], journal[|journal| - 1];
      WithoutHost(before, p, q);
      assert journal == before + [last];
      LastHostSnoc(before, last, q);
      LastHostSnoc(Without(before, p), last, q);
    }
  }

  lemma LastHostSnoc(journal: seq<Entry>, e: Entry, q: PlanId)
    ensures LastHost(journal + [e], q) == if e.HostRollback? && e.plan == q then Some(e) else LastHost(journal, q)
  {
    assert (journal + [e])[..|journal|] == journal;
  }

  lemma PrepareReceiptKeeps(w: World, g: G.World, p: PlanId)
    requires Inv(w) && Calling(w, g, p) && w.pc == PrepareReceipt(p)
    ensures Inv(PrepareReceipted(w, p))
  {
    hide GateOk, LastHost, C.Live, Holds, MoveTo, G.Step, C.During;
    var st := Log(w.store, Other(p, "prepared"));
    CallingFacts(w, g, p);
    MarkKeeps(w, g, p, st, Prepared);
    if MoveTo(st, p, Prepared).Some? {
      MoveExists(st, p, Prepared);
      var w1 := At(w, MoveTo(st, p, Prepared).value, Idle);
      var e := G.Close(w.store.activations[p].plan.generation + 1);
      CallGateKeeps(w1, g, p, e, C.ClosingCall, Closing(p));
      assert PrepareReceipted(w, p) == CallGate(w1, g, e, Closing(p));
    }
  }

  lemma LaunchReceiptKeeps(w: World, g: G.World, p: PlanId, processes: seq<Process>)
    requires Inv(w) && Calling(w, g, p) && w.pc == LaunchReceipt(p, processes)
    ensures Inv(LaunchReceipted(w, p, processes))
  {
    hide GateOk, LastHost, C.Live, Holds, MoveTo;
    CallingFacts(w, g, p);
    EndKeeps(w, g, p);
    MarkKeeps(w, g, p, Log(w.store.(inventory := Inventoried(w.store.inventory, p, processes)), Other(p, "launched")),
              Observing);
  }

  lemma OpenKeeps(w: World, g: G.World, p: PlanId, answer: Answer)
    requires Inv(w) && Calling(w, g, p) && w.pc == CommitEffect(p)
    ensures Inv(CommitContinues(w, p, answer))
  {
    hide GateOk, OwnerOk, LastHost, C.Live, G.Step, C.During, EvidenceCount;
    EndKeeps(w, g, p);
    if w.signed && g.db.Some? {
      CallingFacts(w, g, p);
      CallGateKeeps(w, g, p, G.Open(PlanOf(w, p).generation + 1, OpenProofFor(w, g, p, answer)), C.OpeningCall,
                    OpeningGate(p));
    }
  }

  lemma HostKeeps(w: World, g: G.World, p: PlanId, answer: Answer)
    requires Inv(w) && Calling(w, g, p) && w.pc == RollbackHost(p)
    ensures Inv(HostRolledBack(w, p, answer))
  {
    hide GateOk, OwnerOk, LastHost, C.Live, C.During;
    CallingFacts(w, g, p);
    var w' := HostRolledBack(w, p, answer);
    LogHost(w.store.journal, w'.store.journal[|w.store.journal|], p);
    GoOnKeeps(w, g, p, w'.store, w'.pc);
  }

  lemma RollbackGateKeeps(w: World, g: G.World, p: PlanId, failed: bool, restored: bool)
    requires Inv(w) && Calling(w, g, p) && w.pc == RollbackGate(p, failed)
    ensures Inv(RollbackTouchesGate(w, p, failed, restored))
  {
    hide GateOk, OwnerOk, LastHost, C.Live, G.Step, C.During, HostReported;
    CallingFacts(w, g, p);
    var generation := PlanOf(w, p).generation + 1;
    if failed { CallGateKeeps(w, g, p, G.FailClose(generation), C.FailClosingCall, RollbackClosing(p, failed, false)); }
    else { CallGateKeeps(w, g, p, G.Rollback(generation, None), C.RollingBackCall, RollingBack(p)); }
  }

  /** A finished gate call kept its promise. */
  lemma Answered(w: World, g: G.World, p: PlanId, c: C.Call)
    requires Inv(w) && Calling(w, g, p) && g.pc == G.Idle && C.During(c, g)
    ensures g.db.Some? && (g.ret.Returned? ==> C.Promised(c, g.db.value.state, g.ret.value))
  {
    hide GateOk, PlanOk, PcOk, C.Promised;
  }

  lemma CommitAnswerKeeps(w: World, g: G.World, p: PlanId)
    requires Inv(w) && Calling(w, g, p) && g.pc == G.Idle
             && (w.pc.OpeningGate? || w.pc.CommitReconcile? || w.pc.CommitRollback?)
    ensures Inv(GateAnswers(w, g, p))
  {
    hide GateOk, PlanOk, OwnerOk, LastHost, C.Live, G.Step, C.During;
    CallingFacts(w, g, p);
    EndKeeps(w, g, p);
    var w' := GateAnswers(w, g, p);
    var generation := PlanOf(w, p).generation + 1;
    match w.pc
    case OpeningGate(_) =>
      Answered(w, g, p, C.OpeningCall);
      if g.ret.Returned? { GoOnKeeps(w, g, p, w.store, w'.pc); }
      return;
    case CommitReconcile(_) =>
      Answered(w, g, p, C.ReconcilingCall);
      if g.ret.Returned? {
        if g.ret.value.state == G.CandidateClosed {
          CallGateKeeps(w, g, p, G.Rollback(generation, None), C.RollingBackCall, CommitRollback(p));
        } else { GoOnKeeps(w, g, p, w.store, w'.pc); }
      }
      return;
    case CommitRollback(_) =>
      Answered(w, g, p, C.RollingBackCall);
      if g.ret.Returned? { GoOnKeeps(w, g, p, w.store, w'.pc); }
      return;
  }

  lemma PreOpenAnswerKeeps(w: World, g: G.World, p: PlanId)
    requires Inv(w) && Calling(w, g, p) && g.pc == G.Idle && w.pc.PreOpenRollback?
    ensures Inv(GateAnswers(w, g, p))
  {
    hide GateOk, PlanOk, OwnerOk, LastHost, C.Live, G.Step, C.During;
    CallingFacts(w, g, p);
    EndKeeps(w, g, p);
    Answered(w, g, p, C.RollingBackCall);
    if g.ret.Returned? { GoOnKeeps(w, g, p, w.store, MarkReconcile(p)); }
  }

  lemma RollbackAnswerKeeps(w: World, g: G.World, p: PlanId)
    requires Inv(w) && Calling(w, g, p) && g.pc == G.Idle && w.pc.RollingBack?
    ensures Inv(GateAnswers(w, g, p))
  {
    hide GateOk, PlanOk, OwnerOk, CleanHost, DirtyHost, LastHost, C.Live, G.Step, C.During;
    CallingFacts(w, g, p);
    Answered(w, g, p, C.RollingBackCall);
    if g.ret.Returned? { GoOnKeeps(w, g, p, w.store, RollbackReceipt(p, false, g.ret.value.outcome)); }
    else {
      CallGateKeeps(w, g, p, G.FailClose(PlanOf(w, p).generation + 1), C.FailClosingCall,
                    RollbackClosing(p, false, true));
    }
  }

  lemma CloseAnswerKeeps(w: World, g: G.World, p: PlanId)
    requires Inv(w) && Calling(w, g, p) && g.pc == G.Idle && w.pc.RollbackClosing?
    ensures Inv(GateAnswers(w, g, p))
  {
    hide GateOk, PlanOk, OwnerOk, CleanHost, DirtyHost, LastHost, C.Live, G.Step, C.During;
    CallingFacts(w, g, p);
    var failed := w.pc.failed;
    Answered(w, g, p, C.FailClosingCall);
    if g.ret.Returned? { GoOnKeeps(w, g, p, w.store, RollbackReceipt(p, failed, g.ret.value.outcome)); }
    else if w.pc.last { GoOnKeeps(w, g, p, w.store, RollbackReceipt(p, failed, G.ClassSafetyUnknown)); }
    else {
      CallGateKeeps(w, g, p, G.FailClose(PlanOf(w, p).generation + 1), C.FailClosingCall,
                    RollbackClosing(p, failed, true));
    }
  }

  lemma {:induction false} LastHostIs(journal: seq<Entry>, p: PlanId)
    ensures LastHost(journal, p).Some? ==>
            LastHost(journal, p).value.HostRollback? && LastHost(journal, p).value.plan == p
  {
    if journal != [] { LastHostIs(journal[..|journal| - 1], p); }
  }

  lemma RecoverAnswerKeeps(w: World, g: G.World, p: PlanId)
    requires Inv(w) && Calling(w, g, p) && g.pc == G.Idle && w.pc.RecoverReconcile?
    ensures Inv(GateAnswers(w, g, p))
  {
    hide GateOk, PlanOk, OwnerOk, LastHost, C.Live, G.Step, C.During;
    CallingFacts(w, g, p);
    EndKeeps(w, g, p);
    Answered(w, g, p, C.ReconcilingCall);
    if g.ret.Returned? {
      LastHostIs(w.store.journal, p);
      var w' := RecoverDecides(w, g, p, g.ret.value.state);
      if w'.pc.RecoverMark? { GoOnKeeps(w, g, p, w.store, w'.pc); }
      else { CallGateKeeps(w, g, p, G.FailClose(PlanOf(w, p).generation + 1), C.FailClosingCall, RecoverClosing(p)); }
    }
  }

  lemma RecoverCloseAnswerKeeps(w: World, g: G.World, p: PlanId)
    requires Inv(w) && Calling(w, g, p) && g.pc == G.Idle && w.pc.RecoverClosing?
    ensures Inv(GateAnswers(w, g, p))
  {
    hide GateOk, PlanOk, OwnerOk, LastHost, C.Live, G.Step, C.During;
    CallingFacts(w, g, p);
    EndKeeps(w, g, p);
    Answered(w, g, p, C.FailClosingCall);
    if g.ret.Returned? { GoOnKeeps(w, g, p, w.store, RecoverMark(p, ClosedTargetFor(g.ret.value.outcome))); }
  }

  lemma AnswerKeeps(w: World, g: G.World, p: PlanId)
    requires Inv(w) && w.gate == Some(g) && AwaitsGate(w.pc) && w.pc.plan == p && p in w.store.activations
             && g.pc == G.Idle
    ensures Inv(GateAnswers(w, g, p))
  {
    if w.pc.Staging? { StagedKeeps(w, g, p); }
    else {
      hide Inv, GateAnswers;
      match w.pc
      case Closing(_) => EndKeeps(w, g, p); assert GateAnswers(w, g, p) == Ended(w)
          by { ClosedAnswer(w, g, p); } return;
      case OpeningGate(_) => CommitAnswerKeeps(w, g, p); return;
      case CommitReconcile(_) => CommitAnswerKeeps(w, g, p); return;
      case CommitRollback(_) => CommitAnswerKeeps(w, g, p); return;
      case RecoverReconcile(_) => RecoverAnswerKeeps(w, g, p); return;
      case RecoverClosing(_) => RecoverCloseAnswerKeeps(w, g, p); return;
      case PreOpenRollback(_) => PreOpenAnswerKeeps(w, g, p); return;
      case RollingBack(_) => RollbackAnswerKeeps(w, g, p); return;
      case RollbackClosing(_, _, _) => CloseAnswerKeeps(w, g, p); return;
    }
  }

  lemma ClosedAnswer(w: World, g: G.World, p: PlanId)
    requires w.pc.Closing? && p in w.store.activations
    ensures GateAnswers(w, g, p) == Ended(w)
  {}

  lemma StagedKeeps(w: World, g: G.World, p: PlanId)
    requires Inv(w) && w.gate == Some(g) && w.pc == Staging(p) && p in w.store.activations
    ensures Inv(GateAnswers(w, g, p))
  {
    hide GateOk, PlanOk, PcOk;
  }

  lemma AdvanceKeeps(w: World, answer: Answer)
    requires Inv(w) && w.pc != Idle && w.pc.plan in w.store.activations && w.gate.Some?
    ensures Inv(Advance(w, answer))
  {
    hide GateOk, OwnerOk, PlanOk, LastHost, C.Live, G.Step, C.During, MoveTo, GateAnswers, EvidenceCount, Without,
         Inventoried;
    var p, g := w.pc.plan, w.gate.value;
    if AwaitsGate(w.pc) { if g.pc == G.Idle { AnswerKeeps(w, g, p); } AwaitingAdvances(w, answer); return; }
    if w.pc.Deleting? { DeleteKeeps(w, p, Advance(w, answer).store); return; }
    CallingFacts(w, g, p);
    EndKeeps(w, g, p);
    match w.pc
    case PrepareHost(_) => GoOnKeeps(w, g, p, w.store, PrepareReceipt(p)); return;
    case PrepareReceipt(_) => PrepareReceiptKeeps(w, g, p); return;
    case LaunchHost(_) => GoOnKeeps(w, g, p, w.store, LaunchReceipt(p, answer.inventory)); return;
    case LaunchReceipt(_, processes) => LaunchReceiptKeeps(w, g, p, processes); return;
    case CommitEffect(_) => OpenKeeps(w, g, p, answer); return;
    case RollbackHost(_) => HostKeeps(w, g, p, answer); return;
    case RollbackGate(_, failed) => RollbackGateKeeps(w, g, p, failed, answer.ok); return;
    case _ => FinalKeeps(w, g, p, answer); return;
  }

  lemma AwaitingAdvances(w: World, answer: Answer)
    requires AwaitsGate(w.pc) && w.pc.plan in w.store.activations && w.gate.Some?
    ensures Advance(w, answer) == if w.gate.value.pc == G.Idle then GateAnswers(w, w.gate.value, w.pc.plan) else w
  {
    hide GateAnswers;
  }

  lemma FinalKeeps(w: World, g: G.World, p: PlanId, answer: Answer)
    requires Inv(w) && Calling(w, g, p)
    requires w.pc.CommitReceipt? || w.pc.MarkEffective? || w.pc.MarkReconcile? || w.pc.RollbackReceipt?
             || w.pc.RollbackMark? || w.pc.RecoverMark?
    ensures Inv(Advance(w, answer))
  {
    hide Inv, Advance;
    if w.pc.CommitReceipt? || w.pc.MarkEffective? || w.pc.MarkReconcile? { CommitMarkKeeps(w, g, p, answer); }
    else if w.pc.RollbackReceipt? { RollbackReceiptKeeps(w, g, p, answer); }
    else { RollbackMarkKeeps(w, g, p, answer); }
  }

  lemma CommitMarkKeeps(w: World, g: G.World, p: PlanId, answer: Answer)
    requires Inv(w) && Calling(w, g, p)
    requires w.pc.CommitReceipt? || w.pc.MarkEffective? || w.pc.MarkReconcile?
    ensures Inv(Advance(w, answer))
  {
    hide GateOk, OwnerOk, PlanOk, CleanHost, DirtyHost, G.Step, C.During, MoveTo, GateAnswers;
    CallingFacts(w, g, p);
    EndKeeps(w, g, p);
    match w.pc
    case CommitReceipt(_) => MarkKeeps(w, g, p, Log(w.store, Other(p, "committed")), Effective); return;
    case MarkEffective(_) => MarkKeeps(w, g, p, Log(w.store, Other(p, "commit.reconcile")), Effective); return;
    case MarkReconcile(_) => MarkKeeps(w, g, p, w.store, Reconcile); return;
  }

  lemma RollbackReceiptKeeps(w: World, g: G.World, p: PlanId, answer: Answer)
    requires Inv(w) && Calling(w, g, p) && w.pc.RollbackReceipt?
    ensures Inv(Advance(w, answer))
  {
    hide GateOk, OwnerOk, PlanOk, LastHost, G.Step, C.During, MoveTo, GateAnswers;
    CallingFacts(w, g, p);
    LogHost(w.store.journal, Other(p, "rollback.traffic"), p);
    GoOnKeeps(w, g, p, Log(w.store, Other(p, "rollback.traffic")),
              RollbackMark(p, TargetFor(w.pc.failed, w.pc.verdict)));
  }

  lemma RollbackMarkKeeps(w: World, g: G.World, p: PlanId, answer: Answer)
    requires Inv(w) && Calling(w, g, p)
    requires w.pc.RollbackMark? || w.pc.RecoverMark?
    ensures Inv(Advance(w, answer))
  {
    hide GateOk, OwnerOk, PlanOk, LastHost, G.Step, C.During, MoveTo, GateAnswers;
    CallingFacts(w, g, p);
    OpeningFact(w.store, g, p);
    match w.pc
    case RollbackMark(_, final) =>
      RollbackTargets(w.store, p, final);
      MarkKeeps(w, g, p, w.store, final);
      return;
    case RecoverMark(_, final) =>
      var st := Log(w.store, Other(p, "rollback.recover"));
      RollbackTargets(st, p, final);
      MarkKeeps(w, g, p, st, final);
      return;
  }

  lemma OpeningFact(st: Store, g: G.World, p: PlanId)
    requires p in st.activations && g.db.Some? && PlanOk(st, g, p)
    ensures g.db.value.state == G.Opening ==> st.activations[p].state == CommitReady
  {}

  lemma RollbackTargets(st: Store, p: PlanId, final: State)
    requires p in st.activations && st.activations[p].state == Rollback
    ensures MoveTo(st, p, final).Some? ==> final in {RolledBack, FailedSafe, SafetyUnknown}
  {}

  // ---------------------------------------------------------------- whole runs

  lemma StepKeeps(w: World, e: Event)
    requires Inv(w)
    ensures Inv(Step(w, e)) && (w.gate.Some? <==> Step(w, e).gate.Some?)
  {
    hide GateOk, OwnerOk, PcOk, Begin, Advance, G.Step;
    StepKeepsGate(w, e);
    if w.gate.Some? {
      match e
      case GateEvent(ge) => GateEventKeeps(w, ge); return;
      case GateFault => FaultsKeep(w, e); return;
      case Fault => FaultsKeep(w, e); return;
      case Restart => FaultsKeep(w, e); return;
      case Next(answer) =>
        if w.pc != Idle {
          PlanIsActivated(w);
          AdvanceKeeps(w, answer);
        }
        return;
      case _ => if w.pc == Idle && GateIdle(w) { BeginKeeps(w, e); } return;
    }
  }

  lemma PlanIsActivated(w: World)
    requires Inv(w) && w.gate.Some? && w.pc != Idle
    ensures w.pc.plan in w.store.activations
  {
    hide GateOk, PlanOk, PcOk;
  }

  lemma StepKeepsGate(w: World, e: Event)
    ensures w.gate.Some? <==> Step(w, e).gate.Some?
  {
    hide G.Step, MoveTo, EvidenceComplete, HasTargets, HostReported, LastHost, Without, Inventoried, EvidenceCount;
    hide Begin, Advance;
    if !e.GateEvent? && !e.GateFault? && !e.Fault? && !e.Restart? {
      if e.Next? { if w.pc != Idle && w.pc.plan in w.store.activations { AdvanceKeepsGate(w, e.answer); } }
      else { BeginKeepsGate(w, e); }
    }
  }

  lemma BeginKeepsGate(w: World, e: Event)
    ensures w.gate.Some? <==> Begin(w, e).gate.Some?
  {
    hide G.Step, MoveTo, EvidenceComplete, HasTargets;
  }

  lemma AdvanceKeepsGate(w: World, answer: Answer)
    requires w.pc != Idle && w.pc.plan in w.store.activations
    ensures w.gate.Some? <==> Advance(w, answer).gate.Some?
  {
    hide G.Step, MoveTo, HostReported, LastHost, Without, Inventoried, EvidenceCount;
  }

  lemma {:induction false} RunKeeps(w: World, events: seq<Event>)
    requires Inv(w)
    ensures Inv(Run(w, events)) && (w.gate.Some? <==> Run(w, events).gate.Some?)
    decreases |events|
  {
    hide Inv, Step;
    if events != [] {
      RunKeeps(w, events[..|events| - 1]);
      StepKeeps(Run(w, events[..|events| - 1]), events[|events| - 1]);
    }
  }

  /** A coordinator with an empty store and a gate that was never staged. */
  ghost predicate Initial(w: World) {
    w.store == NEW_STORE && w.pc == Idle && w.gate.Some? && w.gate.value.db == None && w.gate.value.pc == G.Idle
  }

  /** Over every run from an empty store, for any crashes, faults and order of calls: the gate is staged for every plan
      past Planned; an Effective plan is exposed by it; a RolledBack plan rests on a receipt of the exact restore of its
      predecessor and on a host receipt without error; a FailedSafe plan has a gate in FAILED_SAFE by a closing receipt,
      or a host receipt with an error or without an outcome; and the gate never starts a rollback from OPENING. */
  lemma EveryRunIsSafe(w: World, events: seq<Event>, p: PlanId)
    requires Initial(w) && p in Run(w, events).store.activations && Run(w, events).store.activations[p].state != Planned
    ensures var w' := Run(w, events);
            var a := w'.store.activations[p];
            && w'.gate.Some? && w'.gate.value.db.Some?
            && var g := w'.gate.value;
            && a.plan.id == p && Holds(g.db.value, a.plan)
            && (a.state == Effective ==> g.db.value.state in {G.CandidateOpen, G.Draining})
            && (a.state == RolledBack ==>
                  && g.db.value.state == G.RolledBack && CleanHost(w'.store.journal, p)
                  && exists i :: 0 <= i < |g.db.value.rows| && g.db.value.rows[i].to == Some(G.RolledBack)
                                 && M.IsStrongReceipt(g.db.value.rows[i]))
            && (a.state == FailedSafe ==>
                  || DirtyHost(w'.store.journal, p)
                  || (g.db.value.state == G.FailedSafe
                      && exists i :: 0 <= i < |g.db.value.rows| && g.db.value.rows[i].to == Some(G.FailedSafe)
                                     && M.IsClosingReceipt(g.db.value.rows, i)))
            && (RollingBackAt(g.pc) ==> g.db.value.state != G.Opening)
  {
    hide LastHost, Step, Run, PcOk, S.Inv, CleanHost, DirtyHost, Holds, M.Strict, M.IsStrongReceipt, M.IsClosingReceipt;
    InitiallyOk(w);
    RunKeeps(w, events);
    M.SettledRests(Run(w, events).gate.value);
  }

  lemma InitiallyOk(w: World)
    requires Initial(w)
    ensures Inv(w)
  {}

  // ---------------------------------------------------------------- no way back

  /** Once the gate settled, it stays settled whatever the coordinator does. */
  lemma StepSettles(w: World, e: Event)
    requires Inv(w) && w.gate.Some? && w.gate.value.db.Some? && G.Terminal(w.gate.value.db.value.state)
    ensures Step(w, e).gate.Some? && Step(w, e).gate.value.db.Some?
    ensures Step(w, e).gate.value.db.value.state == w.gate.value.db.value.state
    ensures Step(w, e).gate.value.db.value.candidate == w.gate.value.db.value.candidate
  {
    hide Inv, Step, G.Step, S.Extends;
    GateOnlySteps(w, e);
    var g := w.gate.value;
    var ge :| AtMost(g, Step(w, e), ge);
    S.StepExtends(g, ge);
    SettledExtends(g.db, G.Step(g, ge).db);
  }

  lemma SettledExtends(a: Option<G.Db>, b: Option<G.Db>)
    requires a.Some? && G.Terminal(a.value.state) && S.Extends(a, b)
    ensures b.Some? && b.value.state == a.value.state && b.value.candidate == a.value.candidate
  {}

  /** At most this gate step happened, seen from the database. */
  predicate AtMost(g: G.World, w': World, ge: G.Event) {
    w'.gate.Some? && (w'.gate.value.db == g.db || w'.gate.value.db == G.Step(g, ge).db)
  }

  /** Each coordinator step is at most one step of the gate. */
  lemma GateOnlySteps(w: World, e: Event)
    requires w.gate.Some?
    ensures exists ge :: AtMost(w.gate.value, Step(w, e), ge)
  {
    hide G.Step, Begin, Advance;
    var g, w' := w.gate.value, Step(w, e);
    match e
    case GateEvent(ge) => assert AtMost(g, w', ge); return;
    case Next(answer) =>
      if w.pc != Idle && w.pc.plan in w.store.activations {
        AdvanceSteps(w, answer);
      } else { assert AtMost(g, w', G.Crash); }
      return;
    case GateFault => assert AtMost(g, w', G.Crash); return;
    case Restart => assert AtMost(g, w', G.Crash); return;
    case Fault => assert AtMost(g, w', G.Crash); return;
    case _ =>
      if w.pc == Idle && GateIdle(w) { BeginSteps(w, e); assert w' == Begin(w, e); }
      else { assert AtMost(g, w', G.Crash); }
      return;
  }

  lemma BeginSteps(w: World, e: Event)
    requires w.gate.Some?
    ensures exists ge :: AtMost(w.gate.value, Begin(w, e), ge)
  {
    hide G.Step, MoveTo, EvidenceComplete, HasTargets;
    var g, w' := w.gate.value, Begin(w, e);
    match e
    case PlanCall(plan) => assert AtMost(g, w', G.Stage(G.PlanRef(plan.id), Predecessor(plan))); return;
    case Recover(p) =>
      if p in w.store.activations && w.store.activations[p].state in {Preparing, Launching, Observing} {
        assert AtMost(g, w', G.Rollback(w.store.activations[p].plan.generation + 1, None));
      } else { assert AtMost(g, w', G.Reconcile); }
      return;
    case _ => assert AtMost(g, w', G.Crash); return;
  }

  lemma AdvanceSteps(w: World, answer: Answer)
    requires w.gate.Some? && w.pc != Idle && w.pc.plan in w.store.activations
    ensures exists ge :: AtMost(w.gate.value, Advance(w, answer), ge)
  {
    hide G.Step, MoveTo, HostReported, LastHost, Without, Inventoried, EvidenceCount;
    var g, p, w' := w.gate.value, w.pc.plan, Advance(w, answer);
    var generation := PlanOf(w, p).generation + 1;
    match w.pc
    case PrepareReceipt(_) => assert AtMost(g, w', G.Close(generation)); return;
    case CommitEffect(_) =>
      if g.db.Some? { assert AtMost(g, w', G.Open(generation, OpenProofFor(w, g, p, answer))); }
      else { assert AtMost(g, w', G.Crash); }
      return;
    case RollbackGate(_, failed) =>
      if failed { assert AtMost(g, w', G.FailClose(generation)); }
         else { assert AtMost(g, w', G.Rollback(generation, None)); }
      return;
    case CommitReconcile(_) => assert AtMost(g, w', G.Rollback(generation, None)); return;
    case Idle => return;
    case _ => assert AtMost(g, w', G.FailClose(generation)); return;
  }

  /** A plan whose gate settled never becomes Effective afterwards. */
  lemma {:induction false} SettledPlanNeverEffective(w: World, events: seq<Event>, p: PlanId)
    requires Inv(w) && w.gate.Some? && w.gate.value.db.Some? && G.Terminal(w.gate.value.db.value.state)
    requires w.gate.value.db.value.candidate == G.PlanRef(p)
    ensures var w' := Run(w, events);
            && w'.gate.Some? && w'.gate.value.db.Some?
            && w'.gate.value.db.value.state == w.gate.value.db.value.state
            && w'.gate.value.db.value.candidate == G.PlanRef(p)
            && p in w'.store.activations && w'.store.activations[p].state != Effective
            && forall q :: q in w'.store.activations ==> w'.store.activations[q].state != Effective
    decreases |events|
  {
    hide Step, GateOk, PcOk;
    RunKeeps(w, events);
    if events != [] {
      var before := events[..|events| - 1];
      RunKeeps(w, before);
      SettledPlanNeverEffective(w, before, p);
      StepSettles(Run(w, before), events[|events| - 1]);
    }
  }
}
