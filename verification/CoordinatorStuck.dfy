/** Which plans in Rollback no recover can ever settle (`recover` in src/vllm_hust_ext/durable_coordinator.py). */
module CoordinatorStuck {
  import opened Basics
  import opened Coordinator
  import opened CoordinatorSafety
  import opened CoordinatorRecovery
  import G = Gate
  import S = GateSafety
  import R = GateRecovery

  /** The gate is rolled back, and recover would have it fail-closed, or already left it stuck. */
  predicate Hopeless(journal: seq<Entry>, p: PlanId, db: G.Db) {
    db.state == G.RolledBack && (LastHost(journal, p) == None || R.Stuck(db))
  }

  // ---------------------------------------------------------------- no environment helps

  predicate FailClosing(pc: G.Pc) {
    pc == G.FcEffect(G.ThenClass) || pc == G.FcQuery(G.ThenClass) || (pc.FcDecide? && pc.after == G.ThenClass)
  }

  /** A recover under way or ended that has settled nothing. */
  predicate Dead(w0: World, p: PlanId, db0: G.Db, w: World) {
    && w.store == w0.store && w.gate.Some?
    && var g := w.gate.value;
    && g.db.Some? && g.db.value.state == G.RolledBack && (LastHost(w0.store.journal, p).Some? ==> g.db == Some(db0))
    && (match w.pc
        case Idle => g.pc == G.Idle
        case RecoverReconcile(q) =>
          && q == p
          && (AtWork(db0, g)
              || (g.pc == G.Idle
                  && (g.ret == G.Raised || (LastHost(w0.store.journal, p) == None && g.ret == RESTORED))))
        case RecoverClosing(q) => q == p && (FailClosing(g.pc) || (g.pc == G.Idle && g.ret == G.Raised))
        case _ => false)
  }

  const RESTORED := G.Returned(G.VState(G.RolledBack))

  lemma DeadStart(w0: World, p: PlanId, g0: G.World, db0: G.Db)
    requires w0.gate == Some(g0) && w0.pc == Idle && g0.pc == G.Idle && g0.db == Some(db0)
             && Hopeless(w0.store.journal, p, db0)
    requires p in w0.store.activations && w0.store.activations[p].state == Rollback
    ensures Dead(w0, p, db0, Step(w0, Recover(p)))
  {
    hide G.Step, S.Quiet, R.Stuck;
    if R.Stuck(db0) { R.StuckIsNotQuiet(db0); }
    ReconcileOutside(g0, db0);
  }

  lemma DeadGo(journal: seq<Entry>, p: PlanId, g: G.World, db0: G.Db, t: G.Traffic)
    requires Hopeless(journal, p, db0) && AtWork(db0, g)
    ensures var g' := G.Step(g, G.Go(t));
            && g'.db.Some? && g'.db.value.state == G.RolledBack && (LastHost(journal, p).Some? ==> g'.db == Some(db0))
            && (AtWork(db0, g')
                || (g'.pc == G.Idle && (g'.ret == G.Raised || (LastHost(journal, p) == None && g'.ret == RESTORED))))
  {
    hide G.Step, R.OnBranch, R.Settling, R.Stuck, R.SettleTarget;
    if R.Decides(g.pc) {
      R.BranchDecides(g, db0, t);
      if R.Stuck(db0) { R.StuckIsNotQuiet(db0); R.StuckIff(db0); }
    } else { R.BranchAsks(g, db0, t); }
  }

  lemma FailCloseCalled(g: G.World, generation: int)
    requires g.pc == G.Idle && g.db.Some?
    ensures var g' := G.Step(g, G.FailClose(generation));
            && g'.db.Some? && g'.db.value.state == g.db.value.state
            && (if g.db.value.candidateGeneration == generation then g'.pc == G.FcEffect(G.ThenClass)
                else g'.pc == G.Idle && g'.ret == G.Raised)
  {}

  lemma DeadStep(w0: World, p: PlanId, db0: G.Db, w: World, e: Event)
    requires Dead(w0, p, db0, w) && Undisturbed(e) && Hopeless(w0.store.journal, p, db0) && p in w0.store.activations
    ensures Dead(w0, p, db0, Step(w, e))
  {
    hide G.Step, AtWork, Advance, Hopeless;
    var g := w.gate.value;
    if e.GateEvent? {
      GateEventStep(w, e.event);
      if g.pc == G.Idle { GateRests(g, e.event); WorkIsBusy(db0, g); }
      else if !e.event.Go? { BusyRests(g, e.event); SameWork(db0, g, G.Step(g, e.event)); }
      else if w.pc.RecoverReconcile? { DeadGo(w0.store.journal, p, g, db0, e.event.traffic); }
      else { R.FailCloseGoes(g, e.event.traffic); }
    } else if w.pc == Idle { NextRests(w, e.answer); }
    else if w.pc.RecoverReconcile? {
      RecoverAdvances(w, g, p, e.answer);
      WorkIsBusy(db0, g);
      FailCloseCalled(g.(pc := G.Idle), w.store.activations[p].plan.generation + 1);
    } else { ClosingAdvances(w, g, p, e.answer); }
  }

  lemma WorkIsBusy(db0: G.Db, g: G.World)
    ensures AtWork(db0, g) ==> g.pc != G.Idle
  {}

  lemma SameWork(db0: G.Db, g: G.World, g': G.World)
    requires g'.db == g.db && g'.pc == g.pc
    ensures AtWork(db0, g) <==> AtWork(db0, g')
  {}

  lemma ClosingAdvances(w: World, g: G.World, p: PlanId, answer: Answer)
    requires w.gate == Some(g) && w.pc == RecoverClosing(p) && p in w.store.activations
    ensures Step(w, Next(answer)) ==
            if g.pc != G.Idle then w
            else if g.ret.Returned? && g.ret.value.VClass? then
                    w.(pc := RecoverMark(p, ClosedTargetFor(g.ret.value.outcome))) else Ended(w)
  {}

  lemma DeadIsHopeless(w0: World, p: PlanId, db0: G.Db, w: World)
    requires Dead(w0, p, db0, w) && Hopeless(w0.store.journal, p, db0)
    ensures w.gate.Some? && w.gate.value.db.Some? && Hopeless(w.store.journal, p, w.gate.value.db.value)
  {
    hide AtWork, R.Stuck;
  }

  /** Whatever the environment does, recover leaves such a plan in Rollback, and hopeless. */
  lemma {:induction false} HopelessStays(w0: World, p: PlanId, g0: G.World, db0: G.Db, events: seq<Event>)
    requires w0.gate == Some(g0) && w0.pc == Idle && g0.pc == G.Idle && g0.db == Some(db0)
             && Hopeless(w0.store.journal, p, db0)
    requires p in w0.store.activations && w0.store.activations[p].state == Rollback
    requires forall i :: 0 <= i < |events| ==> Undisturbed(events[i])
    ensures Dead(w0, p, db0, Run(Step(w0, Recover(p)), events))
    ensures var w := Run(Step(w0, Recover(p)), events); Hopeless(w.store.journal, p, w.gate.value.db.value)
    decreases |events|
  {
    hide Step, Dead, Hopeless;
    if events == [] { DeadStart(w0, p, g0, db0); }
    else {
      HopelessStays(w0, p, g0, db0, events[..|events| - 1]);
      DeadStep(w0, p, db0, Run(Step(w0, Recover(p)), events[..|events| - 1]), events[|events| - 1]);
    }
    DeadIsHopeless(w0, p, db0, Run(Step(w0, Recover(p)), events));
  }

  // ---------------------------------------------------------------- otherwise some environment does

  /** Gate events as the coordinator's machine takes them. */
  function Lift(es: seq<G.Event>): (r: seq<Event>)
    ensures |r| == |es| && forall i :: 0 <= i < |es| ==> r[i] == GateEvent(es[i])
  {
    if es == [] then [] else Lift(es[..|es| - 1]) + [GateEvent(es[|es| - 1])]
  }

  lemma {:induction false} LiftRuns(w: World, g: G.World, es: seq<G.Event>)
    requires w.gate == Some(g) && forall i :: 0 <= i < |es| ==> S.Uninterrupted(es[i])
    ensures Run(w, Lift(es)) == w.(gate := Some(G.Run(g, es)))
    decreases |es|
  {
    hide G.Step, Step;
    if es != [] {
      var before, last := es[..|es| - 1], es[|es| - 1];
      LiftRuns(w, g, before);
      assert Lift(es)[..|es| - 1] == Lift(before);
      GateEventStep(w.(gate := Some(G.Run(g, before))), last);
    }
  }

  lemma {:induction false} RunConcat(w: World, a: seq<Event>, b: seq<Event>)
    ensures Run(w, a + b) == Run(Run(w, a), b)
    decreases |b|
  {
    hide Step;
    if b == [] { assert a + b == a; }
    else {
      RunConcat(w, a, b[..|b| - 1]);
      assert (a + b)[..|a + b| - 1] == a + b[..|b| - 1];
    }
  }

  /** How the environment makes a query answer `x`. */
  function Answering(x: Option<G.RouteState>): seq<G.Event> {
    if x.Some? then [G.Drift(x.value), G.Go(G.Works)] else [G.Tick(0), G.Go(G.RaisesBefore)]
  }

  lemma RunTwo(g: G.World, a: G.Event, b: G.Event)
    ensures G.Run(g, [a, b]) == G.Step(G.Step(g, a), b)
  {
    hide G.Step;
    S.RunLast(g, [], a);
    S.RunLast(g, [a], b);
    assert [] + [a] == [a] && [a] + [b] == [a, b];
  }

  lemma GateRunConcat(g: G.World, es: seq<G.Event>, e: G.Event)
    ensures G.Run(g, es + [e]) == G.Step(G.Run(g, es), e)
  {
    hide G.Step;
    S.RunLast(g, es, e);
  }

  /** The moment before the query, and what follows it. */
  lemma Prepares(g: G.World, x: Option<G.RouteState>) returns (g1: G.World, t: G.Traffic)
    requires g.pc != G.Idle
    ensures G.Run(g, Answering(x)) == G.Step(g1, G.Go(t)) && G.Seen(g1, t) == x && g1.db == g.db && g1.pc == g.pc
    ensures forall i :: 0 <= i < |Answering(x)| ==> S.Uninterrupted(Answering(x)[i])
  {
    hide G.Begin, G.Advance;
    var e := if x.Some? then G.Drift(x.value) else G.Tick(0);
    t := if x.Some? then G.Works else G.RaisesBefore;
    g1 := G.Step(g, e);
    RunTwo(g, e, G.Go(t));
  }

  /** A settling reconcile can be shown any answer. */
  lemma SettlesWith(g: G.World, db: G.Db, x: Option<G.RouteState>) returns (es: seq<G.Event>)
    requires AtWork(db, g) && !R.Decides(g.pc) && !g.pc.RecCloseQuery?
    ensures forall i :: 0 <= i < |es| ==> S.Uninterrupted(es[i])
    ensures G.Run(g, es).pc == G.Idle && R.Settled(db, G.Run(g, es), x)
  {
    hide G.Step, G.Run, R.OnBranch, R.Settled, G.Seen, Answering;
    if g.pc.RecCloseEffect? {
      var g' := G.Step(g, G.Go(G.Works));
      R.BranchAsks(g, db, G.Works);
      CloseEffectAsks(g, db);
      var rest := AsksAndDecides(g', db, x);
      es := [G.Go(G.Works)] + rest;
      GateRunFirst(g, G.Go(G.Works), rest);
    } else { es := AsksAndDecides(g, db, x); }
  }

  lemma CloseEffectAsks(g: G.World, db: G.Db)
    requires g.db == Some(db) && g.pc.RecCloseEffect?
    ensures G.Step(g, G.Go(G.Works)).pc.RecCloseQuery?
  {
    hide G.AdvanceExamine, G.AdvanceForward;
  }

  lemma {:induction false} GateRunFirst(g: G.World, e: G.Event, rest: seq<G.Event>)
    ensures G.Run(g, [e] + rest) == G.Run(G.Step(g, e), rest)
    decreases |rest|
  {
    hide G.Step;
    if rest == [] { assert [e] + rest == [e] && [e][..0] == []; }
    else {
      GateRunFirst(g, e, rest[..|rest| - 1]);
      assert ([e] + rest)[..|rest|] == [e] + rest[..|rest| - 1];
    }
  }

  lemma AsksAndDecides(g: G.World, db: G.Db, x: Option<G.RouteState>) returns (es: seq<G.Event>)
    requires AtWork(db, g) && R.Asks(g.pc)
    ensures forall i :: 0 <= i < |es| ==> S.Uninterrupted(es[i])
    ensures G.Run(g, es).pc == G.Idle && R.Settled(db, G.Run(g, es), x)
  {
    hide G.Step, G.Run, R.OnBranch, R.Settled, G.Seen, Answering;
    var g1, t := Prepares(g, x);
    R.AskedOnly(g1.pc);
    R.BranchAsks(g1, db, t);
    var g2 := G.Step(g1, G.Go(t));
    R.BranchDecides(g2, db, G.Works);
    es := Answering(x) + [G.Go(G.Works)];
    GateRunConcat(g, Answering(x), G.Go(G.Works));
  }

  /** And so can a fail_close; it returns where the gate can move to the state the answer calls for. */
  lemma ClosesWith(g: G.World, x: Option<G.RouteState>) returns (es: seq<G.Event>)
    requires g.db.Some? && g.pc == G.FcEffect(G.ThenClass) && G.CanMove(g.db.value, G.ClosedTarget(x))
    ensures forall i :: 0 <= i < |es| ==> S.Uninterrupted(es[i])
    ensures G.Run(g, es).pc == G.Idle && G.Run(g, es).ret == G.Returned(G.VClass(G.ClassOf(x)))
  {
    hide G.Step, G.Run, Answering, G.Seen, G.ClosedTarget, G.ClassOf;
    var g1 := G.Step(g, G.Go(G.Works));
    CloseGoesOn(g, G.Works);
    var g2, t := Prepares(g1, x);
    CloseGoesOn(g2, t);
    var g3 := G.Step(g2, G.Go(t));
    CloseGoesOn(g3, G.Works);
    es := [G.Go(G.Works)] + (Answering(x) + [G.Go(G.Works)]);
    GateRunConcat(g1, Answering(x), G.Go(G.Works));
    GateRunFirst(g, G.Go(G.Works), Answering(x) + [G.Go(G.Works)]);
  }

  lemma CloseGoesOn(g: G.World, t: G.Traffic)
    requires g.db.Some?
    ensures var g' := G.Step(g, G.Go(t));
            && (g.pc == G.FcEffect(G.ThenClass) ==> g'.db == g.db && g'.pc == G.FcQuery(G.ThenClass))
            && (g.pc == G.FcQuery(G.ThenClass) ==> g'.db == g.db && g'.pc == G.FcDecide(G.ThenClass, G.Seen(g, t)))
            && (g.pc.FcDecide? && g.pc.after == G.ThenClass && G.CanMove(g.db.value, G.ClosedTarget(g.pc.seen)) ==>
                  g'.pc == G.Idle && g'.ret == G.Returned(G.VClass(G.ClassOf(g.pc.seen))))
  {
    hide G.AdvanceUndo, G.AdvanceExamine, G.IsClosed, G.RowOf, G.Recorded, G.Allowed;
  }

  const ANSWER := Answer(true, [], None, "", "", "")

  /** The gate has answered reconcile with its state, and recover is about to decide. */
  ghost predicate Reconciled(w0: World, p: PlanId, w: World) {
    && Inv(w) && w.pc == RecoverReconcile(p) && w.store == w0.store && w.gate.Some? && p in w.store.activations
    && var g := w.gate.value;
    && g.pc == G.Idle && g.db.Some? && g.ret == G.Returned(G.VState(g.db.value.state))
    && (LastHost(w0.store.journal, p) == None ==> g.db.value.state != G.RolledBack)
  }

  lemma ReconcileCanReturn(w0: World, p: PlanId, g0: G.World, db0: G.Db) returns (events: seq<Event>)
    requires Inv(w0) && w0.gate == Some(g0) && w0.pc == Idle && g0.pc == G.Idle && g0.db == Some(db0)
             && db0.state != G.Opening
    requires p in w0.store.activations && w0.store.activations[p].state == Rollback
             && !Hopeless(w0.store.journal, p, db0)
    ensures forall i :: 0 <= i < |events| ==> Undisturbed(events[i])
    ensures Reconciled(w0, p, Run(Step(w0, Recover(p)), events))
  {
    hide Inv, G.Step, S.Quiet, R.Stuck, G.Run, Run, R.Settled, R.SettleTarget, AtWork;
    ReconcileOutside(g0, db0);
    var w1, g1 := Step(w0, Recover(p)), G.Step(g0, G.Reconcile);
    assert w1 == w0.(gate := Some(g1), pc := RecoverReconcile(p));
    if S.Quiet(db0.rows) {
      events := [];
      assert Run(w1, []) == w1 by { RunNothing(w1); }
    } else {
      var x := if db0.state == G.RolledBack then Some(R.PredecessorRoute(db0))
          else if db0.state == G.FailedSafe then Some(G.CLOSED_ROUTE) else None;
      ReconcileFirst(g0, db0);
      var es := SettlesWith(g1, db0, x);
      NotStuck(w0.store.journal, p, db0);
      SettlesWell(db0, x, G.Run(g1, es));
      events := Lift(es);
      LiftRuns(w1, g1, es);
    }
    StepKeeps(w0, Recover(p));
    RunKeeps(w1, events);
  }

  lemma RunNothing(w: World)
    ensures Run(w, []) == w
  {}

  lemma ReconcileFirst(g: G.World, db: G.Db)
    requires g.db == Some(db) && g.pc == G.Idle && !S.Quiet(db.rows)
    ensures var pc := G.Step(g, G.Reconcile).pc; !R.Decides(pc) && !pc.RecCloseQuery?
  {
    hide G.Outstanding, G.Unanswered, G.LastRow, G.LeaseValid;
  }

  lemma NotStuck(journal: seq<Entry>, p: PlanId, db: G.Db)
    requires !Hopeless(journal, p, db)
    ensures !R.Stuck(db)
  {
    hide G.Outstanding, G.Unanswered;
  }

  lemma SettlesWell(db: G.Db, x: Option<G.RouteState>, g: G.World)
    requires R.Settled(db, g, x) && !R.Stuck(db) && !S.Quiet(db.rows) && db.state != G.Opening
    requires x == if db.state == G.RolledBack then Some(R.PredecessorRoute(db))
             else if db.state == G.FailedSafe then Some(G.CLOSED_ROUTE) else None
    ensures g.db.Some? && g.ret == G.Returned(G.VState(g.db.value.state))
            && (g.db.value.state == G.RolledBack ==> db.state == G.RolledBack)
  {
    hide G.Outstanding, G.Unanswered;
  }

  /** Recover marks the plan, or has the gate fail-closed from a state that allows it. */
  lemma Decides(w0: World, p: PlanId, w: World) returns (w': World)
    requires Reconciled(w0, p, w)
    ensures w' == Step(w, Next(ANSWER)) && w'.store == w0.store && w'.gate.Some?
    ensures || (w'.pc.RecoverMark? && w'.pc.plan == p && w'.pc.final in {RolledBack, FailedSafe, SafetyUnknown})
            || (w'.pc == RecoverClosing(p) && w'.gate.value.pc == G.FcEffect(G.ThenClass) && w'.gate.value.db.Some?
                && w'.gate.value.db.value.state != G.RolledBack)
  {
    hide Inv, G.Step, Advance;
    var g := w.gate.value;
    w' := Step(w, Next(ANSWER));
    RecoverAdvances(w, g, p, ANSWER);
    FailCloseCalled(g, w.store.activations[p].plan.generation + 1);
    assert g.db.value.candidateGeneration == w.store.activations[p].plan.generation + 1 by { RightGeneration(w, g, p); }
  }

  lemma RightGeneration(w: World, g: G.World, p: PlanId)
    requires Inv(w) && w.gate == Some(g) && w.pc == RecoverReconcile(p) && p in w.store.activations
    ensures g.db.Some? && g.db.value.candidateGeneration == w.store.activations[p].plan.generation + 1
  {
    hide GateOk, CleanHost, DirtyHost;
    CallingFacts(w, g, p);
    assert Holds(g.db.value, w.store.activations[p].plan);
  }

  lemma CloseCanReturn(w: World, p: PlanId) returns (events: seq<Event>)
    requires w.pc == RecoverClosing(p) && p in w.store.activations && w.gate.Some?
             && w.gate.value.pc == G.FcEffect(G.ThenClass)
    requires w.gate.value.db.Some? && w.gate.value.db.value.state != G.RolledBack
    ensures forall i :: 0 <= i < |events| ==> Undisturbed(events[i])
    ensures var w' := Run(w, events);
            w'.store == w.store && w'.pc.RecoverMark? && w'.pc.plan == p
                && w'.pc.final in {RolledBack, FailedSafe, SafetyUnknown}
  {
    hide G.Step, G.Run, Run, Step;
    var g := w.gate.value;
    var x := if g.db.value.state == G.FailedSafe then Some(G.CLOSED_ROUTE) else None;
    var es := ClosesWith(g, x);
    LiftRuns(w, g, es);
    ClosingAdvances(Run(w, Lift(es)), G.Run(g, es), p, ANSWER);
    events := Lift(es) + [Next(ANSWER)];
    RunConcat(w, Lift(es), [Next(ANSWER)]);
    RunOne(Run(w, Lift(es)), Next(ANSWER));
  }

  lemma RunOne(w: World, e: Event)
    ensures Run(w, [e]) == Step(w, e)
  {
    hide Step;
    assert [e][..0] == [];
  }

  lemma Marks(w: World, p: PlanId)
    requires w.pc.RecoverMark? && w.pc.plan == p && w.pc.final in {RolledBack, FailedSafe, SafetyUnknown}
    requires p in w.store.activations && w.store.activations[p].state == Rollback
    ensures var w' := Step(w, Next(ANSWER));
            w'.pc == Idle && p in w'.store.activations && w'.store.activations[p].state == w.pc.final
  {}

  lemma MarksFrom(w: World, p: PlanId) returns (events: seq<Event>)
    requires w.gate.Some? && p in w.store.activations && w.store.activations[p].state == Rollback
    requires || (w.pc.RecoverMark? && w.pc.plan == p && w.pc.final in {RolledBack, FailedSafe, SafetyUnknown})
             || (w.pc == RecoverClosing(p) && w.gate.value.pc == G.FcEffect(G.ThenClass) && w.gate.value.db.Some?
                 && w.gate.value.db.value.state != G.RolledBack)
    ensures forall i :: 0 <= i < |events| ==> Undisturbed(events[i])
    ensures var w' := Run(w, events);
            w'.pc == Idle && p in w'.store.activations
                && w'.store.activations[p].state in {RolledBack, FailedSafe, SafetyUnknown}
  {
    hide Step, Run, Undisturbed;
    NextIsUndisturbed();
    events := [];
    if w.pc.RecoverClosing? { events := CloseCanReturn(w, p); } else { RunNothing(w); }
    var w' := Run(w, events);
    Marks(w', p);
    RunOne(w', Next(ANSWER));
    RunConcat(w, events, [Next(ANSWER)]);
    events := events + [Next(ANSWER)];
  }

  lemma RecoverCanEnd(w0: World, p: PlanId, g0: G.World, db0: G.Db) returns (events: seq<Event>)
    requires Inv(w0) && w0.gate == Some(g0) && w0.pc == Idle && g0.pc == G.Idle && g0.db == Some(db0)
             && db0.state != G.Opening
    requires p in w0.store.activations && w0.store.activations[p].state == Rollback
             && !Hopeless(w0.store.journal, p, db0)
    ensures forall i :: 0 <= i < |events| ==> Undisturbed(events[i])
    ensures var w := Run(Step(w0, Recover(p)), events);
            w.pc == Idle && p in w.store.activations
                && w.store.activations[p].state in {RolledBack, FailedSafe, SafetyUnknown}
  {
    hide Step, Run, Hopeless, Inv, Undisturbed, LastHost;
    NextIsUndisturbed();
    var w1 := Step(w0, Recover(p));
    var first := ReconcileCanReturn(w0, p, g0, db0);
    var w2 := Run(w1, first);
    var w3 := Decides(w0, p, w2);
    var rest := MarksFrom(w3, p);
    RunOne(w2, Next(ANSWER));
    RunConcat(w1, first, [Next(ANSWER)]);
    RunConcat(w1, first + [Next(ANSWER)], rest);
    events := first + [Next(ANSWER)] + rest;
  }

  lemma NextIsUndisturbed()
    ensures Undisturbed(Next(ANSWER))
  {}

  ghost predicate Ends(w0: World, p: PlanId, events: seq<Event>) {
    && (forall i :: 0 <= i < |events| ==> Undisturbed(events[i]))
    && var w := Run(Step(w0, Recover(p)), events); p in w.store.activations && w.store.activations[p].state != Rollback
  }

  /** A recover of a plan in Rollback can settle it under some behaviour of the environment if and only if the plan is
      not hopeless, which can be read off journal and gate before the call. */
  lemma RecoverableIff(w0: World, p: PlanId, g0: G.World, db0: G.Db)
    requires Inv(w0) && w0.gate == Some(g0) && w0.pc == Idle && g0.pc == G.Idle && g0.db == Some(db0)
    requires p in w0.store.activations && w0.store.activations[p].state == Rollback
    ensures (exists events :: Ends(w0, p, events)) <==> !Hopeless(w0.store.journal, p, db0)
  {
    hide Step, Run, Inv, Hopeless;
    assert db0.state != G.Opening by { OwnerFacts(w0, g0, p); OpeningFact(w0.store, g0, p); }
    if Hopeless(w0.store.journal, p, db0) {
      forall events | forall i :: 0 <= i < |events| ==> Undisturbed(events[i])
        ensures Run(Step(w0, Recover(p)), events).store == w0.store
      {
        HopelessStays(w0, p, g0, db0, events);
      }
    } else {
      var events := RecoverCanEnd(w0, p, g0, db0);
      assert Ends(w0, p, events);
    }
  }
}
