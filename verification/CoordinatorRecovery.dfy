/** What an uninterrupted recover of a plan in Rollback makes of the gate
    (`recover` in src/vllm_hust_ext/durable_coordinator.py). */
module CoordinatorRecovery {
  import opened Basics
  import opened Coordinator
  import opened CoordinatorSafety
  import G = Gate
  import S = GateSafety
  import C = GateCalls
  import R = GateRecovery

  /** When recover gives the plan up and leaves the gate alone: the host receipt is bad, and reconcile finds an
      unsettled gate with nothing to settle. */
  predicate GivesUp(journal: seq<Entry>, p: PlanId, db: G.Db) {
    DirtyHost(journal, p) && !G.Terminal(db.state) && S.Quiet(db.rows)
  }

  /** Events of one uninterrupted coordinator call. */
  predicate Undisturbed(e: Event) { e.Next? || (e.GateEvent? && S.Uninterrupted(e.event)) }

  // ---------------------------------------------------------------- the gate's reconcile outside OPENING

  /** The log has grown since `db0`, and the gate has come to rest. */
  predicate Over(db0: G.Db, g: G.World) { Grown(db0, g) && G.Terminal(g.db.value.state) }

  predicate Grown(db0: G.Db, g: G.World) { g.db.Some? && |g.db.value.rows| > |db0.rows| }

  /** Reconcile is settling what it found. */
  predicate AtWork(db0: G.Db, g: G.World) {
    g.db == Some(db0) && g.pc != G.Idle && R.Settling(g.pc) && R.OnBranch(db0, g.pc)
  }

  /** A settling step asks, or fails and changes nothing, or records its receipt and leaves the gate terminal. */
  lemma GoSettles(g: G.World, db: G.Db, t: G.Traffic)
    requires AtWork(db, g)
    ensures var g' := G.Step(g, G.Go(t));
            || AtWork(db, g')
            || (g'.db == Some(db) && g'.pc == G.Idle && g'.ret == G.Raised)
            || (g'.pc == G.Idle && Over(db, g'))
  {
    hide G.Step, R.OnBranch;
    if R.Decides(g.pc) { R.BranchDecides(g, db, t); } else { R.BranchAsks(g, db, t); }
  }

  /** Reconcile outside OPENING returns at once exactly when there is nothing to settle. */
  lemma ReconcileOutside(g: G.World, db: G.Db)
    requires g.db == Some(db) && g.pc == G.Idle && db.state != G.Opening
    ensures var g' := G.Step(g, G.Reconcile);
            && g'.db == Some(db) && g'.route == g.route
            && (if S.Quiet(db.rows) then g'.pc == G.Idle && g'.ret == G.Returned(G.VState(db.state))
                else AtWork(db, g'))
  {
    hide G.Outstanding, G.Unanswered, G.LastRow, G.LeaseValid;
  }

  // ---------------------------------------------------------------- the call

  /** How far an uninterrupted recover came from `w0`. */
  ghost predicate Recovering(w0: World, p: PlanId, db0: G.Db, w: World) {
    && Inv(w) && w.gate.Some? && p in w.store.activations && p in w0.store.activations
    && (w.pc == Idle || (w.pc.plan == p && (w.pc.RecoverReconcile? || w.pc.RecoverClosing? || w.pc.RecoverMark?)))
    && (w.pc != Idle ==> w.store == w0.store)
    && var g := w.gate.value;
    && (g.db == Some(db0) || Grown(db0, g))
    && (w.pc.RecoverReconcile? ==>
          && (g.pc == G.Idle || AtWork(db0, g))
          && (g.pc == G.Idle && g.ret.Returned? ==> Over(db0, g) || (g.db == Some(db0) && S.Quiet(db0.rows))))
    && (w.pc.RecoverClosing? ==> Grown(db0, g))
    && (w.pc == Idle || w.pc.RecoverMark? ==> g.pc == G.Idle)
    && (G.Terminal(db0.state) ==> G.Terminal(g.db.value.state))
    && (if GivesUp(w0.store.journal, p, db0) then
          && g.db == Some(db0) && g.pc == G.Idle && !w.pc.RecoverClosing?
          && (w.pc.RecoverReconcile? ==> g.ret == G.Returned(G.VState(db0.state)))
          && (w.pc.RecoverMark? ==> w.pc.final == FailedSafe)
          && (w.pc == Idle ==> w.store.activations[p].state == FailedSafe)
        else !G.Terminal(db0.state) ==>
          && (w.pc.RecoverMark? ==> Over(db0, g) || w.pc.final != FailedSafe)
          && (w.pc == Idle ==> Over(db0, g) || w.store.activations[p].state != FailedSafe))
  }

  lemma RecoverStarts(w0: World, p: PlanId, g0: G.World, db0: G.Db)
    requires Inv(w0) && w0.gate == Some(g0) && w0.pc == Idle && g0.pc == G.Idle && g0.db == Some(db0)
    requires p in w0.store.activations && w0.store.activations[p].state == Rollback
    ensures Recovering(w0, p, db0, Step(w0, Recover(p))) && Step(w0, Recover(p)).gate.value.route == g0.route
  {
    hide Inv, G.Step, S.Quiet, DirtyHost;
    StepKeeps(w0, Recover(p));
    assert db0.state != G.Opening by { OwnerFacts(w0, g0, p); OpeningFact(w0.store, g0, p); }
    ReconcileOutside(g0, db0);
  }

  lemma GateRests(g: G.World, e: G.Event)
    requires g.pc == G.Idle && S.Uninterrupted(e)
    ensures var g' := G.Step(g, e);
            g'.db == g.db && g'.pc == G.Idle && g'.ret == g.ret && (!e.Drift? ==> g'.route == g.route)
  {
    hide G.Advance, G.Begin;
  }

  lemma GateGrows(g: G.World, e: G.Event, db0: G.Db)
    requires g.db == Some(db0) || Grown(db0, g)
    ensures var g' := G.Step(g, e);
            g'.db.Some? && |g'.db.value.rows| >= |db0.rows| && (Grown(db0, g) ==> Grown(db0, g'))
  {
    hide G.Step;
    S.StepExtends(g, e);
  }

  lemma GateSettles(g: G.World, e: G.Event)
    requires g.db.Some?
    ensures G.Step(g, e).db.Some? && (G.Terminal(g.db.value.state) ==> G.Terminal(G.Step(g, e).db.value.state))
  {
    hide G.Step;
    S.StepExtends(g, e);
  }

  lemma EnvironmentRecovers(w0: World, p: PlanId, db0: G.Db, w: World, e: G.Event)
    requires Recovering(w0, p, db0, w) && S.Uninterrupted(e)
    ensures Recovering(w0, p, db0, Step(w, GateEvent(e)))
  {
    hide Inv, G.Step, S.Quiet, DirtyHost, R.Settling, R.OnBranch;
    StepKeeps(w, GateEvent(e));
    var g := w.gate.value;
    GateSettles(g, e);
    assert Step(w, GateEvent(e)) == w.(gate := Some(G.Step(g, e)));
    if g.pc == G.Idle { GateRests(g, e); }
    else if w.pc.RecoverClosing? { GateGrows(g, e, db0); }
    else if e.Go? { GoSettles(g, db0, e.traffic); }
    else { BusyRests(g, e); }
  }

  lemma BusyRests(g: G.World, e: G.Event)
    requires S.Uninterrupted(e) && !e.Go?
    ensures var g' := G.Step(g, e); g'.db == g.db && g'.pc == g.pc && g'.ret == g.ret
  {
    hide G.Begin;
  }

  /** The gate's answer to reconcile, when it has one. */
  lemma ReconcileAnswered(w0: World, p: PlanId, db0: G.Db, w: World, answer: Answer)
    requires Recovering(w0, p, db0, w) && w.pc == RecoverReconcile(p)
    ensures Recovering(w0, p, db0, Step(w, Next(answer)))
  {
    hide Inv, G.Step, AtWork, S.Quiet, Advance;
    StepKeeps(w, Next(answer));
    var g := w.gate.value;
    RecoverAdvances(w, g, p, answer);
    assert w.store.activations[p].state == Rollback by { RollbackFact(w, p); }
    if g.pc == G.Idle && g.ret.Returned? {
      assert g.db.Some? && g.ret == G.Returned(G.VState(g.db.value.state)) by { PromisedState(w, g, p); }
      LastHostIs(w.store.journal, p);
      FailCloseGrows(g, w.store.activations[p].plan.generation + 1, db0, p, w);
      GateSettles(g, G.FailClose(w.store.activations[p].plan.generation + 1));
    }
  }

  lemma RollbackFact(w: World, p: PlanId)
    requires Inv(w) && w.gate.Some? && p in w.store.activations && w.pc != Idle && w.pc.plan == p
    requires w.pc.RecoverReconcile? || w.pc.RecoverClosing? || w.pc.RecoverMark?
    ensures w.store.activations[p].state == Rollback
  {
    hide GateOk, PlanOk, C.During;
    CallingFacts(w, w.gate.value, p);
  }

  lemma PromisedState(w: World, g: G.World, p: PlanId)
    requires Inv(w) && w.gate == Some(g) && w.pc == RecoverReconcile(p) && p in w.store.activations && g.pc == G.Idle
             && g.ret.Returned?
    ensures g.db.Some? && g.ret == G.Returned(G.VState(g.db.value.state))
  {
    hide GateOk, PlanOk, C.During;
    CallingFacts(w, g, p);
    Answered(w, g, p, C.ReconcilingCall);
  }

  lemma RecoverAdvances(w: World, g: G.World, p: PlanId, answer: Answer)
    requires w.gate == Some(g) && w.pc == RecoverReconcile(p) && p in w.store.activations
    ensures Step(w, Next(answer)) ==
            if g.pc != G.Idle then w
            else if g.ret.Returned? && g.ret.value.VState? then RecoverDecides(w, g, p, g.ret.value.state) else Ended(w)
  {
    hide RecoverDecides;
  }

  /** A fail_close of the owner's generation begins by recording its intent. */
  lemma FailCloseGrows(g: G.World, generation: int, db0: G.Db, p: PlanId, w: World)
    requires Inv(w) && w.gate == Some(g) && w.pc == RecoverReconcile(p) && p in w.store.activations && g.pc == G.Idle
    requires generation == w.store.activations[p].plan.generation + 1 && (g.db == Some(db0) || Grown(db0, g))
    ensures Grown(db0, G.Step(g, G.FailClose(generation)))
  {
    hide GateOk, C.During, CleanHost, DirtyHost, C.Live;
    CallingFacts(w, g, p);
    assert Holds(g.db.value, w.store.activations[p].plan);
  }

  lemma CloseAnswered(w0: World, p: PlanId, db0: G.Db, w: World, answer: Answer)
    requires Recovering(w0, p, db0, w) && w.pc == RecoverClosing(p)
    ensures Recovering(w0, p, db0, Step(w, Next(answer)))
  {
    hide Inv, G.Step, AtWork, S.Quiet, DirtyHost;
    StepKeeps(w, Next(answer));
    RollbackFact(w, p);
    if w.gate.value.pc == G.Idle && w.gate.value.ret.Returned? { PromisedClose(w, w.gate.value, p); }
  }

  lemma PromisedClose(w: World, g: G.World, p: PlanId)
    requires Inv(w) && w.gate == Some(g) && w.pc == RecoverClosing(p) && p in w.store.activations && g.pc == G.Idle
             && g.ret.Returned?
    ensures g.db.Some? && G.Terminal(g.db.value.state)
  {
    hide GateOk, PlanOk, C.During;
    CallingFacts(w, g, p);
    Answered(w, g, p, C.FailClosingCall);
  }

  lemma MarkRecovers(w0: World, p: PlanId, db0: G.Db, w: World, answer: Answer)
    requires Recovering(w0, p, db0, w) && w.pc.RecoverMark?
    ensures Recovering(w0, p, db0, Step(w, Next(answer)))
  {
    hide Inv, G.Step, AtWork, S.Quiet, DirtyHost, GateAnswers;
    StepKeeps(w, Next(answer));
    RollbackFact(w, p);
  }

  lemma StepRecovers(w0: World, p: PlanId, db0: G.Db, w: World, e: Event)
    requires Recovering(w0, p, db0, w) && Undisturbed(e)
    ensures Recovering(w0, p, db0, Step(w, e))
  {
    hide Recovering, Step;
    if e.GateEvent? { EnvironmentRecovers(w0, p, db0, w, e.event); }
    else {
      RecoveringPc(w0, p, db0, w);
      if w.pc.RecoverReconcile? { ReconcileAnswered(w0, p, db0, w, e.answer); }
      else if w.pc.RecoverClosing? { CloseAnswered(w0, p, db0, w, e.answer); }
      else if w.pc.RecoverMark? { MarkRecovers(w0, p, db0, w, e.answer); }
      else { NextRests(w, e.answer); }
    }
  }

  lemma RecoveringPc(w0: World, p: PlanId, db0: G.Db, w: World)
    requires Recovering(w0, p, db0, w)
    ensures w.pc == Idle || (w.pc.plan == p && (w.pc.RecoverReconcile? || w.pc.RecoverClosing? || w.pc.RecoverMark?))
  {
    hide Inv, G.Step, AtWork, S.Quiet, DirtyHost;
  }

  lemma NextRests(w: World, answer: Answer)
    requires w.pc == Idle
    ensures Step(w, Next(answer)) == w
  {
    hide Advance;
  }

  lemma {:induction false} RunRecovers(w0: World, p: PlanId, g0: G.World, db0: G.Db, events: seq<Event>)
    requires Inv(w0) && w0.gate == Some(g0) && w0.pc == Idle && g0.pc == G.Idle && g0.db == Some(db0)
    requires p in w0.store.activations && w0.store.activations[p].state == Rollback
    requires forall i :: 0 <= i < |events| ==> Undisturbed(events[i])
    ensures Recovering(w0, p, db0, Run(Step(w0, Recover(p)), events))
    decreases |events|
  {
    hide Inv, Step, Recovering;
    if events == [] { RecoverStarts(w0, p, g0, db0); }
    else {
      RunRecovers(w0, p, g0, db0, events[..|events| - 1]);
      StepRecovers(w0, p, db0, Run(Step(w0, Recover(p)), events[..|events| - 1]), events[|events| - 1]);
    }
  }

  /** An uninterrupted recover of a plan in Rollback, whatever the environment does meanwhile: it ends FailedSafe with
      the gate not settled if and only if it gives up, which can be read off journal and gate before the call; then it
      leaves the tables alone. */
  lemma FailedSafeStaysUnsettledIff(w0: World, p: PlanId, g0: G.World, db0: G.Db, events: seq<Event>)
    requires Inv(w0) && w0.gate == Some(g0) && w0.pc == Idle && g0.pc == G.Idle && g0.db == Some(db0)
    requires p in w0.store.activations && w0.store.activations[p].state == Rollback
    requires forall i :: 0 <= i < |events| ==> Undisturbed(events[i])
    requires Run(Step(w0, Recover(p)), events).pc == Idle
    ensures var w := Run(Step(w0, Recover(p)), events);
            && w.gate.Some? && w.gate.value.db.Some? && p in w.store.activations
            && (w.store.activations[p].state == FailedSafe && !G.Terminal(w.gate.value.db.value.state)
                <==> GivesUp(w0.store.journal, p, db0))
            && (GivesUp(w0.store.journal, p, db0) ==> w.gate.value.db == Some(db0))
  {
    hide Inv, Step, Run, DirtyHost, S.Quiet, AtWork;
    RunRecovers(w0, p, g0, db0, events);
  }

  /** And then the route is not touched either: without drift it is the one the call began with. */
  lemma {:induction false} GivingUpKeepsRoute(w0: World, p: PlanId, g0: G.World, db0: G.Db, events: seq<Event>)
    requires Inv(w0) && w0.gate == Some(g0) && w0.pc == Idle && g0.pc == G.Idle && g0.db == Some(db0)
    requires p in w0.store.activations && w0.store.activations[p].state == Rollback && GivesUp(w0.store.journal, p, db0)
    requires forall i :: 0 <= i < |events| ==>
             Undisturbed(events[i]) && !(events[i].GateEvent? && events[i].event.Drift?)
    ensures var w := Run(Step(w0, Recover(p)), events); w.gate.Some? && w.gate.value.route == g0.route
    decreases |events|
  {
    hide Inv, Step, Recovering, GivesUp;
    if events == [] { RecoverStarts(w0, p, g0, db0); RecoveringGate(w0, p, db0, Step(w0, Recover(p))); }
    else {
      var before, last := events[..|events| - 1], events[|events| - 1];
      GivingUpKeepsRoute(w0, p, g0, db0, before);
      RunRecovers(w0, p, g0, db0, before);
      var w := Run(Step(w0, Recover(p)), before);
      RecoveringGate(w0, p, db0, w);
      if last.GateEvent? { GateRests(w.gate.value, last.event); GateEventStep(w, last.event); }
      else { NextKeepsRoute(w0, p, db0, w, last.answer); }
    }
  }

  lemma RecoveringGate(w0: World, p: PlanId, db0: G.Db, w: World)
    requires Recovering(w0, p, db0, w)
    ensures w.gate.Some? && (GivesUp(w0.store.journal, p, db0) ==> w.gate.value.pc == G.Idle)
  {
    hide Inv, AtWork, GivesUp;
  }

  lemma GateEventStep(w: World, e: G.Event)
    requires w.gate.Some? && S.Uninterrupted(e)
    ensures Step(w, GateEvent(e)) == w.(gate := Some(G.Step(w.gate.value, e)))
  {
    hide G.Step;
  }

  lemma NextKeepsRoute(w0: World, p: PlanId, db0: G.Db, w: World, answer: Answer)
    requires Recovering(w0, p, db0, w) && GivesUp(w0.store.journal, p, db0)
    ensures Step(w, Next(answer)).gate == w.gate
  {
    hide Inv, G.Step, AtWork, S.Quiet, MoveTo;
    if w.pc.RecoverReconcile? {
      RecoverAdvances(w, w.gate.value, p, answer);
      LastHostIs(w.store.journal, p);
    }
  }
}
