/** The gate refines the finite transaction model: every durable step is a stutter or a short
    sequence of model actions (src/vllm_hust_ext/exposure_gate.py against
    experiments/transaction_model/explore.py). */
module GateSimulation {
  import opened Basics
  import opened Gate
  import opened GateSafety
  import M = TransactionModel

  /** The lease the gate was staged under is current while the candidate may be exposed. */
  predicate Held(w: World) {
    w.db.Some? && w.db.value.state in {Opening, CandidateOpen, Draining} ==> LeaseValid(w, w.db.value.lease)
  }

  /** The model state a gate state stands for. */
  predicate Related(w: World, a: M.State) {
    match w.db
    case None => a == M.INITIAL
    case Some(db) =>
      match db.state
      case PredecessorOpen => false
      case CandidateStaged => a ==
          M.State(M.CandidateStaged, M.Predecessor, false, LeaseValid(w, db.lease), 0, false, false)
      case CandidateClosed => a ==
          M.State(M.CandidateClosed, M.Predecessor, false, LeaseValid(w, db.lease), 0, false, false)
      case Opening => a == M.State(M.Opening, M.Predecessor, true, true, 0, true, false)
      case CandidateOpen => a == M.State(M.CandidateOpen, M.Candidate, true, true, 1, true, true)
      case Draining => a == M.State(M.Draining, M.Candidate, true, true, 1, true, true)
      case RolledBack => a.phase == M.RolledBack && a.route == M.Predecessor && a.generation == 0 && !a.openIntent
          && !a.openReceipt
      case FailedSafe => a.phase == M.FailedSafe && a.route == M.Closed
      case SafetyUnknown => a.phase == M.SafetyUnknown && a.route == M.Unknown
  }

  /** The model actions a change of gate state stands for. */
  function StateActions(s: GateState, t: GateState): seq<M.Action> {
    if s == t then []
    else match t
      case CandidateClosed => [M.CloseCandidate]
      case Opening => [M.ObserveComplete, M.OpenIntent]
      case CandidateOpen => if s == Draining then [M.FinishDrain] else [M.OpenEffect, M.OpenReceipt]
      case Draining => [M.StartDrain]
      case RolledBack => [M.RollbackStrong]
      case FailedSafe => [M.RollbackFailedClosed]
      case SafetyUnknown => [M.RollbackFailedUnknown]
      case _ => []
  }

  function LeaseActions(before: bool, after: bool): seq<M.Action> {
    if before == after then [] else if after then [M.RenewLease] else [M.LoseLease]
  }

  /** The model actions of one gate step. */
  function ModelActions(w: World, w': World): seq<M.Action> {
    match (w.db, w'.db)
    case (None, Some(db')) => [M.Stage] + LeaseActions(true, LeaseValid(w', db'.lease))
    case (Some(db), Some(db')) =>
      if db.admissions.Keys != db'.admissions.Keys then [M.AdmitRequest]
      else if db.state != db'.state then StateActions(db.state, db'.state)
      else if PreOpen(db.state) then LeaseActions(LeaseValid(w, db.lease), LeaseValid(w', db.lease))
      else []
    case _ => []
  }

  // ---------------------------------------------------------------- how the gate's state moves

  /** Which state changes a single step can make, and that it moves nothing else the model sees. */
  predicate Moved(w: World, w': World) {
    match w.db
    case None => w'.db.Some? ==> w'.db.value.state == CandidateStaged && w'.db.value.lease == w'.lease
    case Some(db) =>
      && w'.db.Some? && w'.db.value.lease == db.lease
      && (w'.db.value.state == db.state || (Allowed(db.state, w'.db.value.state)))
      && (w'.db.value.state != db.state ==>
          w'.lease == w.lease && w'.now == w.now && w'.db.value.admissions.Keys == db.admissions.Keys)
      && (w'.db.value.state == Opening && db.state != Opening ==> LeaseValid(w, db.lease))
  }

  lemma ForwardMoves(w: World, db: Db, t: Traffic)
    requires w.db == Some(db)
    ensures AdvanceForward(w, db, t).lease == w.lease && AdvanceForward(w, db, t).now == w.now
    ensures AdvanceForward(w, db, t).db.Some?
    ensures w.pc.FinishRequest? ==> AdvanceForward(w, db, t).db.value.state == db.state
  {
    hide Move, Note, CandidateMatches, PredecessorBusy, ClassOf, ClosedTarget, LeaseValid;
  }

  lemma UndoMoves(w: World, db: Db, t: Traffic)
    ensures AdvanceUndo(w, db, t).lease == w.lease && AdvanceUndo(w, db, t).now == w.now
    ensures AdvanceExamine(w, db, t).lease == w.lease && AdvanceExamine(w, db, t).now == w.now
  {
    hide Move, Note, CandidateMatches, Persuasive, RestoredRoute, RecoveredOutcome, ClassOf, ClosedTarget;
  }

  lemma AdvanceMoves(w: World, db: Db, t: Traffic)
    requires Inv(w) && w.db == Some(db) && w.pc != Idle
    ensures Moved(w, Advance(w, db, t))
  {
    hide AdvanceForward, AdvanceUndo, AdvanceExamine, LeaseValid;
    AdvanceExtends(w, db, t);
    if w.pc.FinishRequest? {
      ForwardMoves(w, db, t);
    } else {
      AdvanceKeepsTables(w, db, t);
      ForwardMoves(w, db, t);
      UndoMoves(w, db, t);
    }
    AdvanceNeverOpens(w, db, t);
  }

  lemma MoveTargets()
    ensures forall db: Db, k, op, target, f, d {:trigger Move(db, k, op, target, f, d)} ::
              Move(db, k, op, target, f, d).Some? ==> Move(db, k, op, target, f, d).value.state == target
    ensures forall db: Db, k, op, f, d {:trigger Note(db, k, op, f, d)} :: Note(db, k, op, f, d).state == db.state
  {}

  lemma UndoNeverOpens(w: World, db: Db, t: Traffic)
    requires w.db == Some(db)
    ensures AdvanceUndo(w, db, t).db.Some? && (AdvanceUndo(w, db, t).db.value.state == Opening ==> db.state == Opening)
    ensures AdvanceExamine(w, db, t).db.Some?
            && (AdvanceExamine(w, db, t).db.value.state == Opening ==> db.state == Opening)
  {
    hide Move, Note, CandidateMatches, Persuasive, RestoredRoute, RecoveredOutcome, ClassOf;
    MoveTargets();
  }

  lemma ForwardNeverOpens(w: World, db: Db, t: Traffic)
    requires w.db == Some(db)
    ensures AdvanceForward(w, db, t).db.Some?
            && (AdvanceForward(w, db, t).db.value.state == Opening ==> db.state == Opening)
  {
    hide Move, Note, CandidateMatches, ClassOf, PredecessorBusy, LeaseValid;
    MoveTargets();
  }

  lemma AdvanceNeverOpens(w: World, db: Db, t: Traffic)
    requires w.db == Some(db)
    ensures Advance(w, db, t).db.Some? && (Advance(w, db, t).db.value.state == Opening ==> db.state == Opening)
  {
    hide AdvanceUndo, AdvanceExamine, AdvanceForward;
    UndoNeverOpens(w, db, t);
    ForwardNeverOpens(w, db, t);
  }

  lemma BeginMoves(w: World, e: Event)
    requires Inv(w) && w.pc == Idle
    ensures Moved(w, Begin(w, e))
  {
    hide DbOk, LastRow, IsSha256, PredecessorMatches, Outstanding, Unanswered;
  }

  lemma StepMoves(w: World, e: Event)
    requires Inv(w)
    ensures Moved(w, Step(w, e))
  {
    hide Begin, Advance, DbOk, LeaseValid;
    match e
    case Go(t) => if w.pc != Idle { AdvanceMoves(w, w.db.value, t); }
    case Drift(_) =>
    case SetLease(_) =>
    case Tick(_) =>
    case Crash =>
    case _ => if w.pc == Idle { BeginMoves(w, e); }
  }

  // ---------------------------------------------------------------- the simulation

  lemma ExecuteTwo(a: M.State, x: M.Action, y: M.Action)
    ensures M.Execute(a, []) == Some(a)
    ensures M.Execute(a, [x]) == M.Transition(a, x)
    ensures M.Transition(a, x).Some? ==> M.Execute(a, [x, y]) == M.Transition(M.Transition(a, x).value, y)
  {
    assert [x][..0] == [];
    assert [x, y][..1] == [x];
  }

  /** The moves of the gate's state, as model actions. */
  lemma StateActionsRelate(w: World, w': World, a: M.State)
    requires w.db.Some? && w'.db.Some? && Related(w, a) && Held(w) && Moved(w, w')
    requires w'.db.value.state != w.db.value.state
    ensures M.Execute(a, StateActions(w.db.value.state, w'.db.value.state)).Some?
    ensures Related(w', M.Execute(a, StateActions(w.db.value.state, w'.db.value.state)).value)
  {
    hide M.Execute;
    var actions := StateActions(w.db.value.state, w'.db.value.state);
    if |actions| == 1 { ExecuteTwo(a, actions[0], actions[0]); }
    else { ExecuteTwo(a, actions[0], actions[1]); }
  }

  /** Lease changes before exposure, and steps the model does not see. */
  lemma QuietRelate(w: World, w': World, a: M.State)
    requires w.db.Some? && w'.db.Some? && Related(w, a) && w'.db.value.lease == w.db.value.lease
    requires w'.db.value.state == w.db.value.state
    ensures var actions := if PreOpen(w.db.value.state)
                           then LeaseActions(LeaseValid(w, w.db.value.lease), LeaseValid(w', w.db.value.lease)) else [];
            M.Execute(a, actions).Some? && Related(w', M.Execute(a, actions).value)
  {
    hide M.Execute;
    ExecuteTwo(a, M.LoseLease, M.LoseLease);
    ExecuteTwo(a, M.RenewLease, M.RenewLease);
  }

  lemma StageRelate(w: World, w': World)
    requires w.db == None && w'.db.Some? && Moved(w, w')
    ensures var actions := [M.Stage] + LeaseActions(true, LeaseValid(w', w'.db.value.lease));
            M.Execute(M.INITIAL, actions).Some? && Related(w', M.Execute(M.INITIAL, actions).value)
  {
    hide M.Execute;
    ExecuteTwo(M.INITIAL, M.Stage, M.LoseLease);
    assert [M.Stage] + [] == [M.Stage] && [M.Stage] + [M.LoseLease] == [M.Stage, M.LoseLease];
  }

  lemma ObserveKeepsClock(w: World, request: string, at: int, result: Option<AdmissionResult>)
    ensures var w' := Step(w, Observe(request, at, result)); w'.lease == w.lease && w'.now == w.now
  {
    hide PredecessorMatches;
  }

  /** A new admission is an enabled admit-request on the route it was admitted to. */
  lemma AdmissionIsEnabled(w: World, e: Event, a: M.State, id: string)
    requires Inv(w) && w.db.Some? && Related(w, a)
    requires id !in w.db.value.admissions && Step(w, e).db.Some? && id in Step(w, e).db.value.admissions
    ensures M.CanAdmit(a)
    ensures var admitted := Step(w, e).db.value.admissions[id];
            a.route == if admitted.generation == w.db.value.candidateGeneration then M.Candidate else M.Predecessor
  {
    hide Step;
    NothingAdmittedWhenBlocked(w, e, id);
    AdmittedGeneration(w, e, id);
  }

  lemma AdmittedGeneration(w: World, e: Event, id: string)
    requires Inv(w) && w.db.Some? && w.pc == Idle && e.Observe? && e.request == id
    requires id !in w.db.value.admissions && Step(w, e).db.Some? && id in Step(w, e).db.value.admissions
    ensures Some(Step(w, e).db.value.admissions[id].generation) == w.db.value.routeGeneration
  {
    hide PredecessorMatches, DbOk;
  }

  /** One gate step is a stutter or a sequence of model actions. */
  lemma StepSimulates(w: World, e: Event, a: M.State)
    requires Inv(w) && Related(w, a) && Held(w)
    ensures var w' := Step(w, e);
            M.Execute(a, ModelActions(w, w')).Some? && Related(w', M.Execute(a, ModelActions(w, w')).value)
  {
    hide Step, Inv, M.Execute, LeaseValid, Related, StateActions, LeaseActions, M.Transition;
    var w' := Step(w, e);
    StepMoves(w, e);
    StepExtends(w, e);
    if w.db == None {
      assert a == M.INITIAL by { InitiallyRelated(w, a); }
      if w'.db.Some? { StageRelate(w, w'); }
      else { ExecuteTwo(a, M.Stage, M.Stage); InitiallyRelated(w', a); }
    } else {
      var db, db' := w.db.value, w'.db.value;
      if db.admissions.Keys != db'.admissions.Keys {
        AdmissionSimulates(w, e, a);
      } else if db.state != db'.state {
        StateActionsRelate(w, w', a);
      } else {
        QuietRelate(w, w', a);
      }
    }
  }

  lemma InitiallyRelated(w: World, a: M.State)
    requires w.db == None
    ensures Related(w, a) <==> a == M.INITIAL
  {}

  lemma AdmissionSimulates(w: World, e: Event, a: M.State)
    requires Inv(w) && Related(w, a) && w.db.Some? && Step(w, e).db.Some?
    requires w.db.value.admissions.Keys != Step(w, e).db.value.admissions.Keys
    ensures M.Execute(a, [M.AdmitRequest]) == Some(a) && Related(Step(w, e), a)
  {
    hide Step, DbOk, M.Execute, M.Transition;
    StepExtends(w, e);
    var id :| id in Step(w, e).db.value.admissions && id !in w.db.value.admissions;
    AdmissionIsEnabled(w, e, a, id);
    ExecuteTwo(a, M.AdmitRequest, M.AdmitRequest);
    NothingAdmittedWhenBlocked(w, e, id);
    ObserveKeepsClock(w, e.request, e.admittedAt, e.result);
    StepMoves(w, e);
    AdmitStutters(a);
  }

  lemma AdmitStutters(a: M.State)
    ensures M.CanAdmit(a) ==> M.Transition(a, M.AdmitRequest) == Some(a)
  {}

  lemma {:induction false} ExecuteConcat(a: M.State, xs: seq<M.Action>, ys: seq<M.Action>)
    requires M.Execute(a, xs).Some? && M.Execute(M.Execute(a, xs).value, ys).Some?
    ensures M.Execute(a, xs + ys) == M.Execute(M.Execute(a, xs).value, ys)
    decreases |ys|
  {
    hide M.Transition;
    if ys == [] {
      assert xs + ys == xs;
    } else {
      ExecuteConcat(a, xs, ys[..|ys| - 1]);
      assert (xs + ys)[..|xs + ys| - 1] == xs + ys[..|ys| - 1];
    }
  }

  ghost predicate HeldThroughout(w: World, events: seq<Event>) {
    forall i :: 0 <= i <= |events| ==> Held(Run(w, events[..i]))
  }

  /** Every run of the gate, crashes and any route behaviour included, is simulated by the transaction model,
      provided the staged lease is current whenever the candidate may be exposed. */
  lemma {:induction false} RunSimulates(w: World, events: seq<Event>) returns (trace: seq<M.Action>, a: M.State)
    requires w.db == None && w.pc == Idle && HeldThroughout(w, events)
    ensures M.ReachableBy(a, trace) && Related(Run(w, events), a)
    ensures M.InvariantErrors(a) == []
    decreases |events|
  {
    hide Step, Held, Related, M.Execute, M.InvariantErrors;
    if events == [] {
      trace, a := [], M.INITIAL;
      ExecuteTwo(a, M.Stage, M.Stage);
      InitiallyRelated(w, a);
    } else {
      var n := |events| - 1;
      var before := Run(w, events[..n]);
      assert HeldThroughout(w, events[..n]) by {
        forall i | 0 <= i <= n ensures Held(Run(w, events[..n][..i])) { assert events[..n][..i] == events[..i]; }
      }
      var t, b := RunSimulates(w, events[..n]);
      RunKeeps(w, events[..n]);
      StepSimulates(before, events[n], b);
      var actions := ModelActions(before, Step(before, events[n]));
      trace, a := t + actions, M.Execute(b, actions).value;
      ExecuteConcat(M.INITIAL, t, actions);
    }
    assert M.ReachableBy(a, trace);
    M.EveryRunSatisfiesInvariants(a);
  }

  /** The lease hypothesis is needed: once opened, the gate keeps admitting candidate requests whatever becomes of the
      lease, while the model's lease loss ends all admission. */
  lemma LeaseLossDoesNotStopTheGate(w: World, a: M.State, id: string, at: int, lost: LeaseGrant)
    requires Inv(w) && w.pc == Idle && w.db.Some? && w.db.value.state in {CandidateOpen, Draining} && Related(w, a)
    requires w.route.generation == w.db.value.routeGeneration && w.route.fence == w.db.value.routeFence
             && w.route.fence != ClosedFence
    requires w.route.snapshot == Some(w.db.value.candidate) && id !in w.db.value.admissions
    requires lost != w.db.value.lease
    ensures var w' := Run(w, [SetLease(lost), Observe(id, at, None)]);
            && !LeaseValid(w', w.db.value.lease)
            && w'.db.Some? && id in w'.db.value.admissions
            && w'.db.value.admissions[id].generation == w.db.value.candidateGeneration
    ensures M.Transition(a, M.LoseLease).Some? && !M.CanAdmit(M.Transition(a, M.LoseLease).value)
  {
    hide DbOk, M.Transition, Step;
    var lapsed := w.(lease := lost);
    RunLast(w, [], SetLease(lost));
    RunLast(w, [SetLease(lost)], Observe(id, at, None));
    assert [] + [SetLease(lost)] == [SetLease(lost)];
    assert [SetLease(lost)] + [Observe(id, at, None)] == [SetLease(lost), Observe(id, at, None)];
    assert Step(w, SetLease(lost)) == lapsed by { SetLeaseStep(w, lost); }
    OpenRouteAdmits(lapsed, id, at);
    OpenModelLosesLease(a);
  }

  lemma SetLeaseStep(w: World, lost: LeaseGrant)
    ensures Step(w, SetLease(lost)) == w.(lease := lost)
  {}

  lemma OpenModelLosesLease(a: M.State)
    requires a.route == M.Candidate && a.leaseValid
    ensures M.Transition(a, M.LoseLease).Some? && !M.CanAdmit(M.Transition(a, M.LoseLease).value)
  {}

  lemma OpenRouteAdmits(w: World, id: string, at: int)
    requires Inv(w) && w.pc == Idle && w.db.Some? && w.db.value.state in {CandidateOpen, Draining}
    requires w.route.generation == w.db.value.routeGeneration && w.route.fence == w.db.value.routeFence
             && w.route.fence != ClosedFence
    requires w.route.snapshot == Some(w.db.value.candidate) && id !in w.db.value.admissions
    ensures var w' := Step(w, Observe(id, at, None));
            && w'.db.Some? && id in w'.db.value.admissions && w'.lease == w.lease && w'.now == w.now
            && w'.db.value.admissions[id].generation == w.db.value.candidateGeneration
  {
    hide LastRow, PredecessorMatches, AdmissionsOk, EventsOk, FirstOpen;
    var db := w.db.value;
    assert Step(w, Observe(id, at, None)) == ObserveCall(w, db, id, at, None);
  }

  // ---------------------------------------------------------------- strong rollback

  /** A receipt that reports the exact predecessor as restored. */
  predicate IsStrongReceipt(r: Row) {
    r.operation == RollbackOp && r.kind == Receipt && r.detail.classification == Some(RestoredStrong)
  }

  /** A receipt of a recovery close that reports the route it found. */
  predicate IsCloseReport(r: Row) { r.operation == RecoveryCloseOp && r.kind == Receipt && r.detail.actual.Some? }

  /** The i-th row reports a closed route, or completes an open after a reported recovery close. */
  predicate IsClosingReceipt(rows: seq<Row>, i: nat)
    requires i < |rows|
  {
    && rows[i].kind == Receipt
    && (rows[i].detail.classification == Some(ClassFailedSafe)
        || (rows[i].operation == OpenOp && exists j :: 0 <= j < i && IsCloseReport(rows[j])))
  }

  /** What a row that enters a settled state must be. */
  predicate Supported(rows: seq<Row>, i: nat)
    requires i < |rows|
  {
    && (rows[i].to == Some(RolledBack) ==> IsStrongReceipt(rows[i]))
    && (rows[i].to == Some(FailedSafe) ==> IsClosingReceipt(rows, i))
  }

  /** ROLLED_BACK is entered, and only ever entered, by a strong receipt, and FAILED_SAFE by a closing one. */
  ghost predicate OnlyStrong(rows: seq<Row>, state: GateState) {
    && (forall i :: 0 <= i < |rows| ==> Supported(rows, i))
    && (state in {RolledBack, FailedSafe} ==> exists i :: 0 <= i < |rows| && rows[i].to == Some(state))
  }

  predicate Reported(rows: seq<Row>) { exists j :: 0 <= j < |rows| && IsCloseReport(rows[j]) }

  /** No behavioral rollback is possible: the adapter restores exactly, or no behavioral oracle is offered. */
  ghost predicate Strict(w: World) {
    && w.pc != RbDecide(Behavioral)
    && (w.pc.RbEffect? ==> !w.behavioral || w.pc.oracle == None)
    && (w.pc.RecCloseAllReceipt? && !w.pc.error ==> w.pc.seen.Some?)
    && (w.db.Some? ==> OnlyStrong(w.db.value.rows, w.db.value.state))
    && (w.db.Some? && w.pc.RecFinish? && !w.pc.error ==> Reported(w.db.value.rows))
  }

  predicate OffersNoOracle(w: World, e: Event) { e.Rollback? ==> !w.behavioral || e.oracle == None }

  /** What a new row with this target must be. */
  predicate Fit(rows: seq<Row>, r: Row) {
    && (r.to == Some(RolledBack) ==> IsStrongReceipt(r))
    && (r.to == Some(FailedSafe) ==>
          r.kind == Receipt
              && (r.detail.classification == Some(ClassFailedSafe) || (r.operation == OpenOp && Reported(rows))))
  }

  lemma AppendStrong(rows: seq<Row>, state: GateState, r: Row, state': GateState)
    requires OnlyStrong(rows, state) && Fit(rows, r)
    requires state' in {RolledBack, FailedSafe} ==> state' == state || r.to == Some(state')
    ensures OnlyStrong(rows + [r], state')
  {
    var all := rows + [r];
    forall i | 0 <= i < |all| ensures Supported(all, i) {
      if i < |rows| { PrefixSupported(rows, r, i); } else { LastSupported(rows, r); }
    }
    if state' in {RolledBack, FailedSafe} {
      if r.to == Some(state') { assert all[|rows|].to == Some(state'); }
      else {
        var i :| 0 <= i < |rows| && rows[i].to == Some(state');
        assert all[i].to == Some(state');
      }
    }
  }

  lemma PrefixSupported(rows: seq<Row>, r: Row, i: nat)
    requires i < |rows| && Supported(rows, i)
    ensures Supported(rows + [r], i)
  {
    hide IsStrongReceipt, IsCloseReport;
    assert forall j :: 0 <= j <= i ==> (rows + [r])[j] == rows[j];
  }

  lemma LastSupported(rows: seq<Row>, r: Row)
    requires Fit(rows, r)
    ensures Supported(rows + [r], |rows|)
  {
    hide IsStrongReceipt, IsCloseReport;
    assert forall j :: 0 <= j < |rows| ==> (rows + [r])[j] == rows[j];
  }

  lemma PrimitivesStrong()
    ensures forall db: Db, k, op, f, d {:trigger Note(db, k, op, f, d)} ::
              OnlyStrong(db.rows, db.state) ==> OnlyStrong(Note(db, k, op, f, d).rows, Note(db, k, op, f, d).state)
    ensures forall db: Db, k, op, target, f, d {:trigger Move(db, k, op, target, f, d)} ::
              OnlyStrong(db.rows, db.state) && Fit(db.rows, RowOf(db, k, op, Some(target), f, d))
              && Move(db, k, op, target, f, d).Some? ==>
                OnlyStrong(Move(db, k, op, target, f, d).value.rows, Move(db, k, op, target, f, d).value.state)
  {
    hide OnlyStrong, Reported;
    forall db: Db, k, op, f, d | OnlyStrong(db.rows, db.state)
      ensures OnlyStrong(Note(db, k, op, f, d).rows, Note(db, k, op, f, d).state)
    {
      AppendStrong(db.rows, db.state, RowOf(db, k, op, None, f, d), db.state);
    }
    forall db: Db, k, op, target, f, d |
        OnlyStrong(db.rows, db.state) && Fit(db.rows, RowOf(db, k, op, Some(target), f, d))
        && Move(db, k, op, target, f, d).Some?
      ensures OnlyStrong(Move(db, k, op, target, f, d).value.rows, Move(db, k, op, target, f, d).value.state)
    {
      AppendStrong(db.rows, db.state, RowOf(db, k, op, Some(target), f, d), target);
    }
  }

  lemma ReportNoted(rows: seq<Row>, r: Row)
    requires IsCloseReport(r)
    ensures Reported(rows + [r])
  {
    assert (rows + [r])[|rows|] == r;
  }

  lemma RecoveredCloseIsStrict(w: World, db: Db, seen: Option<RouteState>)
    requires Strict(w) && w.db == Some(db) && w.pc.RecCloseDecide?
    ensures Strict(RecoveredClose(w, db, seen))
  {
    hide OnlyStrong, Move, Reported, IsClosed;
    PrimitivesStrong();
    var report :=
        RowOf(db, Receipt, RecoveryCloseOp, None, Some(ClosedFence), EMPTY.(actual := seen)).(from := Opening);
    AppendStrong(db.rows, db.state, report, db.state);
    if seen.Some? { ReportNoted(db.rows, report); }
  }

  lemma UndoIsStrict(w: World, db: Db, t: Traffic)
    requires Strict(w) && w.db == Some(db) && Undoing(w.pc)
    ensures Strict(AdvanceUndo(w, db, t))
  {
    PrimitivesStrong();
    hide OnlyStrong, Move, Note, RecoveredClose, Recorded, IsClosed, Reported;
    match w.pc
    case RecCloseDecide(seen) => RecoveredCloseIsStrict(w, db, seen); return;
    case RbEffect(_) => return;
    case RbDecide(_) => RecordedKeeps(Some(w.route)); return;
    case RecFcDecide(seen) => RecordedKeeps(seen); return;
    case _ => return;
  }

  lemma RecordedKeeps(seen: Option<RouteState>)
    ensures forall d :: Recorded(d, seen).rows == d.rows && Recorded(d, seen).state == d.state
  {}

  lemma ExamineIsStrict(w: World, db: Db, t: Traffic)
    requires Strict(w) && w.db == Some(db) && Examining(w.pc)
    ensures Strict(AdvanceExamine(w, db, t))
  {
    PrimitivesStrong();
    hide OnlyStrong, Move, CandidateMatches, Reported;
    if w.pc.RecCloseAllReceipt? && w.pc.seen.Some? {
      ReportNoted(db.rows, RowOf(db, Receipt, RecoveryCloseOp, None, Some(ClosedFence), EMPTY.(actual := w.pc.seen)));
    }
  }

  lemma FailCloseIsStrict(w: World, db: Db, after: Then, seen: Option<RouteState>)
    requires Strict(w) && w.db == Some(db)
    ensures Strict(FailCloseStep(w, db, after, seen)) && Strict(FailCloseIntent(w, db, after))
  {
    PrimitivesStrong();
    hide OnlyStrong, Move, Note, Recorded, IsClosed, Reported;
    RecordedKeeps(seen);
  }

  lemma OpenIsStrict(w: World, db: Db, proof: OpenProof, fence: Fence, actual: RouteState)
    requires Strict(w) && w.db == Some(db)
    ensures Strict(OpenStep(w, db, proof, fence, actual))
  {
    PrimitivesStrong();
    hide OnlyStrong, Move, Note, CandidateMatches;
  }

  lemma CloseIsStrict(w: World, db: Db, actual: RouteState)
    requires Strict(w) && w.db == Some(db)
    ensures Strict(CloseStep(w, db, actual)) && Strict(DrainStep(w, db))
  {
    PrimitivesStrong();
    hide OnlyStrong, Move, Note, PredecessorBusy;
  }

  lemma ForwardIsStrict(w: World, db: Db, t: Traffic)
    requires Strict(w) && w.db == Some(db) && !Undoing(w.pc) && !Examining(w.pc)
    ensures Strict(AdvanceForward(w, db, t))
  {
    hide OnlyStrong, LeaseValid, FailCloseStep, FailCloseIntent, OpenStep, CloseStep, DrainStep;
    match w.pc
    case FcIntent(after) => FailCloseIsStrict(w, db, after, None); return;
    case FcDecide(after, seen) => FailCloseIsStrict(w, db, after, seen); return;
    case CloseDecide(actual) => CloseIsStrict(w, db, actual); return;
    case OpenDecide(proof, fence, actual) => OpenIsStrict(w, db, proof, fence, actual); return;
    case DrainCheck => CloseIsStrict(w, db, w.route); return;
    case _ => return;
  }

  lemma BeginIsStrict(w: World, e: Event)
    requires Strict(w) && w.pc == Idle && OffersNoOracle(w, e)
    ensures Strict(Begin(w, e))
  {
    PrimitivesStrong();
    hide OnlyStrong, Move, Note, LastRow, IsSha256, PredecessorMatches, Outstanding, Unanswered, LeaseValid, StageCall,
         Reported, IsStrongReceipt, ObserveCall;
    if e.Stage? { StageIsStrict(w, e.candidate, e.predecessor); }
    if e.Observe? && w.db.Some? { ObserveIsStrict(w, w.db.value, e.request, e.admittedAt, e.result); }
  }

  lemma ObserveIsStrict(w: World, db: Db, request: string, at: int, result: Option<AdmissionResult>)
    requires Strict(w) && w.pc == Idle && w.db == Some(db)
    ensures Strict(ObserveCall(w, db, request, at, result))
  {
    hide OnlyStrong, PredecessorMatches, Reported;
  }

  lemma StageIsStrict(w: World, c: Snapshot, p: Snapshot)
    requires Strict(w) && w.pc == Idle
    ensures Strict(StageCall(w, c, p))
  {}

  /** Without behavioral rollback, ROLLED_BACK always rests on a receipt of an exact predecessor restore. */
  lemma StepIsStrict(w: World, e: Event)
    requires Inv(w) && Strict(w) && OffersNoOracle(w, e)
    ensures Strict(Step(w, e))
  {
    hide DbOk, OnlyStrong, AdvanceForward, AdvanceUndo, AdvanceExamine, Begin;
    match e
    case Go(t) =>
      if w.pc != Idle {
        if Undoing(w.pc) { UndoIsStrict(w, w.db.value, t); }
        else if Examining(w.pc) { ExamineIsStrict(w, w.db.value, t); }
        else { ForwardIsStrict(w, w.db.value, t); }
      }
    case Drift(_) =>
    case SetLease(_) =>
    case Tick(_) =>
    case Crash =>
    case _ => if w.pc == Idle { BeginIsStrict(w, e); }
  }

  /** No call of the run offers the behavioral oracle. */
  ghost predicate NoOracle(w: World, events: seq<Event>) {
    forall i :: 0 <= i < |events| ==> OffersNoOracle(Run(w, events[..i]), events[i])
  }

  /** Over every such run from a fresh gate: each row that entered ROLLED_BACK is a receipt of the exact predecessor
      restore and each that entered FAILED_SAFE a closing receipt, and a gate in one of these states has such a row. */
  lemma {:induction false} RunIsStrict(w: World, events: seq<Event>)
    requires w.db == None && w.pc == Idle && NoOracle(w, events)
    ensures Strict(Run(w, events))
    decreases |events|
  {
    hide Step, OnlyStrong, Reported;
    if events != [] {
      var n := |events| - 1;
      assert NoOracle(w, events[..n]) by {
        forall i | 0 <= i < n ensures OffersNoOracle(Run(w, events[..n][..i]), events[..n][i]) {
          assert events[..n][..i] == events[..i];
        }
      }
      RunIsStrict(w, events[..n]);
      RunKeeps(w, events[..n]);
      StepIsStrict(Run(w, events[..n]), events[n]);
    }
  }

  /** The model's route as the gate's tables show it: the recorded route before and during exposure, the receipt
      afterwards. */
  ghost predicate RouteShown(db: Db, route: M.Route) {
    match route
    case Predecessor =>
      if db.state == RolledBack then
        exists i :: 0 <= i < |db.rows| && db.rows[i].to == Some(RolledBack) && IsStrongReceipt(db.rows[i])
      else
        && db.routeGeneration == Some(db.predecessorGeneration)
        && db.routeFence == PredecessorFence(db.predecessorGeneration)
    case Candidate =>
      && db.routeGeneration == Some(db.candidateGeneration) && db.observedCandidate == Some(Digest(Some(db.candidate)))
      && FirstOpen(db.rows).Some? && db.rows[FirstOpen(db.rows).value].fence == Some(db.routeFence)
    case Closed => exists i :: 0 <= i < |db.rows| && db.rows[i].to == Some(FailedSafe) && IsClosingReceipt(db.rows, i)
    case Unknown => db.state == SafetyUnknown
  }

  lemma SettledRests(w: World)
    requires Strict(w)
    ensures w.db.Some? && w.db.value.state == RolledBack ==>
              exists i :: 0 <= i < |w.db.value.rows| && w.db.value.rows[i].to == Some(RolledBack)
                  && IsStrongReceipt(w.db.value.rows[i])
    ensures w.db.Some? && w.db.value.state == FailedSafe ==>
              exists i :: 0 <= i < |w.db.value.rows| && w.db.value.rows[i].to == Some(FailedSafe)
                  && IsClosingReceipt(w.db.value.rows, i)
  {
    hide IsStrongReceipt, IsClosingReceipt;
    if w.db.Some? && w.db.value.state in {RolledBack, FailedSafe} {
      var i :| 0 <= i < |w.db.value.rows| && w.db.value.rows[i].to == Some(w.db.value.state);
      assert Supported(w.db.value.rows, i);
    }
  }

  lemma StrictShowsRoute(w: World, a: M.State)
    requires Inv(w) && Strict(w) && Related(w, a) && w.db.Some?
    ensures RouteShown(w.db.value, a.route)
  {
    hide LastRow, AdmissionsOk, EventsOk, IntentOk, IsStrongReceipt, IsClosingReceipt, Strict;
    SettledRests(w);
  }

  /** Without a behavioral oracle the simulating model state has the route the gate's tables show. */
  lemma RunSimulatesRoute(w: World, events: seq<Event>) returns (trace: seq<M.Action>, a: M.State)
    requires w.db == None && w.pc == Idle && HeldThroughout(w, events) && NoOracle(w, events)
    ensures M.ReachableBy(a, trace) && Related(Run(w, events), a) && M.InvariantErrors(a) == []
    ensures Run(w, events).db.Some? ==> RouteShown(Run(w, events).db.value, a.route)
  {
    hide Inv, Strict, Related, Run, RouteShown, M.InvariantErrors;
    trace, a := RunSimulates(w, events);
    RunIsStrict(w, events);
    RunKeeps(w, events);
    if Run(w, events).db.Some? { StrictShowsRoute(Run(w, events), a); }
  }
}
