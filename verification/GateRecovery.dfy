/** Recovery over any number of crashed attempts, of an interrupted open and of every other state
    (`reconcile` in src/vllm_hust_ext/exposure_gate.py). */
module GateRecovery {
  import opened Basics
  import opened Gate
  import opened GateSafety

  /** Rows a reconcile may add: none of a rollback, and no new open intent. */
  predicate Neutral(r: Row) { r.operation != RollbackOp && !(r.operation == OpenOp && r.kind == Intent) }

  predicate Added(rows: seq<Row>, rows': seq<Row>) {
    rows <= rows' && forall i :: |rows| <= i < |rows'| ==> Neutral(rows'[i])
  }

  lemma AddedTransitive(a: seq<Row>, b: seq<Row>, c: seq<Row>)
    requires Added(a, b) && Added(b, c)
    ensures Added(a, c)
  {
    forall i | |a| <= i < |c| ensures Neutral(c[i]) { if i < |b| { assert c[i] == b[i]; } }
  }

  lemma {:induction false} AddedLast(a: seq<Row>, b: seq<Row>, op: Operation, kind: Kind)
    requires Added(a, b) && (op == RollbackOp || (op == OpenOp && kind == Intent))
    ensures LastRow(b, op, kind) == LastRow(a, op, kind)
    decreases |b|
  {
    if |b| > |a| {
      var before := b[..|b| - 1];
      assert b[|b| - 1] == b[|before|] && Neutral(b[|b| - 1]);
      AddedLast(a, before, op, kind);
    } else {
      assert a == b;
    }
  }

  /** Events of crashed and repeated attempts: reconcile, its continuations, crashes, and the environment. */
  predicate RecoveryEvent(e: Event) { e.Reconcile? || e.Crash? || Uninterrupted(e) }

  predicate Attempting(pc: Pc) { pc == Idle || (InReconcile(pc) && !pc.RecRbQuery? && !pc.RecRbDecide?) }

  /** Where attempts to recover the interrupted open `db0` may have led. */
  ghost predicate Recovering(db0: Db, w: World) {
    && Inv(w) && w.db.Some? && Added(db0.rows, w.db.value.rows) && Attempting(w.pc)
    && w.db.value.state in {Opening, CandidateOpen, FailedSafe, SafetyUnknown}
    && w.db.value.lease == db0.lease && w.db.value.candidate == db0.candidate
    && w.db.value.candidateGeneration == db0.candidateGeneration && w.db.value.candidateDigest == db0.candidateDigest
  }

  /** One step as seen from the table. */
  ghost predicate Harmless(db: Db, w': World) {
    && w'.db.Some? && Added(db.rows, w'.db.value.rows) && Attempting(w'.pc)
    && w'.db.value.state in {Opening, CandidateOpen, FailedSafe, SafetyUnknown}
    && w'.db.value.candidateDigest == db.candidateDigest
  }

  lemma NoteAdds(db: Db)
    ensures forall k, op, f, d {:trigger Note(db, k, op, f, d)} ::
              op != RollbackOp && !(op == OpenOp && k == Intent) ==> Added(db.rows, Note(db, k, op, f, d).rows)
    ensures forall k, op, target, f, d {:trigger Move(db, k, op, target, f, d)} ::
              Move(db, k, op, target, f, d).Some? ==>
                && Move(db, k, op, target, f, d).value.state == target
                && Move(db, k, op, target, f, d).value.candidateDigest == db.candidateDigest
                && (op != RollbackOp && !(op == OpenOp && k == Intent) ==>
                    Added(db.rows, Move(db, k, op, target, f, d).value.rows))
    ensures Added(db.rows, db.rows)
  {}

  lemma UndoHarmless(w: World, db: Db, t: Traffic)
    requires w.db == Some(db) && Undoing(w.pc) && Attempting(w.pc) && !w.pc.RecCloseDecide?
    requires db.state in {Opening, CandidateOpen, FailedSafe, SafetyUnknown}
    ensures Harmless(db, AdvanceUndo(w, db, t))
  {
    NoteAdds(db);
    hide Note, Move, Added, IsClosed;
  }

  lemma RecoveryCloseHarmless(w: World, db: Db, seen: Option<RouteState>)
    requires w.db == Some(db) && Attempting(w.pc) && db.state in {Opening, CandidateOpen, FailedSafe, SafetyUnknown}
    requires w.pc.RecCloseDecide?
    ensures Harmless(db, RecoveredClose(w, db, seen))
  {
    var noted := Append(db,
                        RowOf(db, Receipt, RecoveryCloseOp, None, Some(ClosedFence),
                              EMPTY.(actual := seen)).(from := Opening));
    assert Added(db.rows, noted.rows);
    NoteAdds(noted);
    NoteAdds(db);
    if Move(noted, Receipt, OpenOp, ClosedTarget(seen), None, CANCELLED).Some? {
      AddedTransitive(db.rows, noted.rows,
                      Move(noted, Receipt, OpenOp, ClosedTarget(seen), None, CANCELLED).value.rows);
    }
    hide Move, Added, RowOf, IsClosed;
  }

  lemma ExamineHarmless(w: World, db: Db, t: Traffic)
    requires Inv(w) && w.db == Some(db) && Examining(w.pc)
    ensures Harmless(db, AdvanceExamine(w, db, t))
  {
    NoteAdds(db);
    hide Note, Move, Added, CandidateMatches, DbOk;
    NoteKeepsHead(db);
  }

  lemma NoteKeepsHead(db: Db)
    ensures forall k, op, f, d {:trigger Note(db, k, op, f, d)} ::
              Note(db, k, op, f, d).state == db.state && Note(db, k, op, f, d).candidateDigest == db.candidateDigest
  {}

  lemma ForwardHarmless(w: World, db: Db, t: Traffic)
    requires Inv(w) && w.db == Some(db) && w.pc != Idle && Attempting(w.pc) && !Undoing(w.pc) && !Examining(w.pc)
    ensures Harmless(db, AdvanceForward(w, db, t))
  {
    NoteAdds(db);
    hide Note, Move, Added, DbOk, IsClosed, CloseStep, OpenStep, OpenEffectStep, DrainStep, FinishStep;
    NoteKeepsHead(db);
  }

  lemma ReconcileHarmless(w: World, db: Db)
    requires w.db == Some(db) && w.pc == Idle && db.state in {Opening, CandidateOpen, FailedSafe, SafetyUnknown}
    requires !Outstanding(db.rows, RollbackOp)
    ensures Harmless(db, ReconcileCall(w, db))
  {
    NoteAdds(db);
    hide Note, Move, Added, Outstanding, Unanswered, LastRow, LeaseValid;
    NoteKeepsHead(db);
  }

  lemma AttemptStep(w: World, e: Event)
    requires Inv(w) && w.db.Some? && Attempting(w.pc) && RecoveryEvent(e)
    requires w.db.value.state in {Opening, CandidateOpen, FailedSafe, SafetyUnknown}
             && !Outstanding(w.db.value.rows, RollbackOp)
    ensures Harmless(w.db.value, Step(w, e))
  {
    hide DbOk, AdvanceUndo, AdvanceExamine, AdvanceForward, ReconcileCall, Outstanding, Harmless;
    var db := w.db.value;
    if e.Go? && w.pc != Idle {
      if w.pc.RecCloseDecide? {
        RecoveryCloseHarmless(w, db, w.pc.seen);
        assert Step(w, e) == RecoveredClose(w, db, w.pc.seen) by { CloseDecideStep(w, db, e.traffic); }
      }
      else if Undoing(w.pc) { UndoHarmless(w, db, e.traffic); }
      else if Examining(w.pc) { ExamineHarmless(w, db, e.traffic); }
      else { ForwardHarmless(w, db, e.traffic); }
    } else if e.Reconcile? && w.pc == Idle {
      ReconcileHarmless(w, db);
    } else {
      QuietHarmless(w, e);
    }
  }

  lemma CloseDecideStep(w: World, db: Db, t: Traffic)
    requires w.pc.RecCloseDecide? && w.db == Some(db)
    ensures Step(w, Go(t)) == RecoveredClose(w, db, w.pc.seen)
  {
    hide AdvanceExamine, AdvanceForward, RecoveredClose;
  }

  lemma QuietHarmless(w: World, e: Event)
    requires w.db.Some? && Attempting(w.pc) && RecoveryEvent(e) && !(e.Go? && w.pc != Idle)
             && !(e.Reconcile? && w.pc == Idle)
    requires w.db.value.state in {Opening, CandidateOpen, FailedSafe, SafetyUnknown}
    ensures Harmless(w.db.value, Step(w, e))
  {
    hide Advance, Begin;
  }

  lemma StillSettled(db0: Db, db: Db)
    requires Added(db0.rows, db.rows) && !Outstanding(db0.rows, RollbackOp)
    ensures !Outstanding(db.rows, RollbackOp) && LastRow(db.rows, OpenOp, Intent) == LastRow(db0.rows, OpenOp, Intent)
  {
    hide LastRow;
    AddedLast(db0.rows, db.rows, RollbackOp, Intent);
    AddedLast(db0.rows, db.rows, RollbackOp, Receipt);
    AddedLast(db0.rows, db.rows, OpenOp, Intent);
  }

  lemma RecoveringStep(db0: Db, w: World, e: Event)
    requires Recovering(db0, w) && RecoveryEvent(e) && !Outstanding(db0.rows, RollbackOp)
    ensures Recovering(db0, Step(w, e))
  {
    hide Inv, Step, Outstanding, Extends, Added, Attempting;
    StillSettled(db0, w.db.value);
    StepKeeps(w, e);
    AttemptStep(w, e);
    StepExtends(w, e);
    ExtendsHead(w.db, Step(w, e).db);
    AddedTransitive(db0.rows, w.db.value.rows, Step(w, e).db.value.rows);
  }

  lemma ExtendsHead(a: Option<Db>, b: Option<Db>)
    requires Extends(a, b) && a.Some?
    ensures b.Some? && b.value.lease == a.value.lease && b.value.candidate == a.value.candidate
            && b.value.candidateGeneration == a.value.candidateGeneration
  {}

  /** Any number of attempts, crashed anywhere, keep the interrupted open's intent and its conditions. */
  lemma {:induction false} AttemptsKeep(w0: World, events: seq<Event>, db0: Db)
    requires Inv(w0) && w0.pc == Idle && w0.db == Some(db0) && db0.state == Opening
             && !Outstanding(db0.rows, RollbackOp)
    requires forall i :: 0 <= i < |events| ==> RecoveryEvent(events[i])
    ensures Recovering(db0, Run(w0, events))
    decreases |events|
  {
    hide Inv, Step, Outstanding;
    if events == [] { assert Added(db0.rows, db0.rows); }
    else {
      AttemptsKeep(w0, events[..|events| - 1], db0);
      RecoveringStep(db0, Run(w0, events[..|events| - 1]), events[|events| - 1]);
    }
  }

  // ---------------------------------------------------------------- attempts with a rollback outstanding

  /** The program points of a reconcile that settles an interrupted fail_close, recovery close or rollback. */
  predicate Settling(pc: Pc) {
    match pc
    case RecFcQuery | RecFcDecide(_) | RecCloseEffect | RecCloseQuery | RecCloseDecide(_)
       | RecRbQuery | RecRbDecide(_) => true
    case _ => false
  }

  predicate FrozenPc(pc: Pc) { pc == Idle || Settling(pc) }

  /** Attempts have changed nothing yet, or have settled the gate. */
  ghost predicate Frozen(db0: Db, w: World) {
    && Inv(w) && w.db.Some?
    && (if w.db.value.state == Opening then w.db == Some(db0) && FrozenPc(w.pc) else Terminal(w.db.value.state))
  }

  lemma UndoFreezes(w: World, db: Db, t: Traffic)
    requires w.db == Some(db) && db.state == Opening && FrozenPc(w.pc) && w.pc != Idle
    ensures var w' := AdvanceUndo(w, db, t);
            w'.db.Some? && if w'.db.value.state == Opening then w'.db == Some(db) && FrozenPc(w'.pc)
                else Terminal(w'.db.value.state)
  {
    hide IsClosed, RowOf, Id;
    match w.pc
    case RecFcDecide(_) => return;
    case RecCloseDecide(_) => return;
    case RecRbDecide(_) => return;
    case _ => return;
  }

  lemma ReconcileFreezes(w: World, db: Db)
    requires w.db == Some(db) && w.pc == Idle && db.state == Opening && Outstanding(db.rows, RollbackOp)
    ensures ReconcileCall(w, db).db == Some(db) && FrozenPc(ReconcileCall(w, db).pc)
  {
    hide Outstanding, Unanswered, LastRow, LeaseValid;
  }

  lemma OpeningFreezes(db0: Db, w: World, e: Event)
    requires Frozen(db0, w) && w.db.value.state == Opening && RecoveryEvent(e) && Outstanding(db0.rows, RollbackOp)
    ensures var w' := Step(w, e);
            w'.db.Some? && if w'.db.value.state == Opening then w'.db == Some(db0) && FrozenPc(w'.pc)
                else Terminal(w'.db.value.state)
  {
    hide DbOk, AdvanceUndo, AdvanceExamine, AdvanceForward, ReconcileCall, Outstanding;
    if e.Go? && w.pc != Idle { UndoFreezes(w, db0, e.traffic); }
    else if e.Reconcile? && w.pc == Idle { ReconcileFreezes(w, db0); }
  }

  lemma FrozenStep(db0: Db, w: World, e: Event)
    requires Frozen(db0, w) && RecoveryEvent(e) && Outstanding(db0.rows, RollbackOp)
    ensures Frozen(db0, Step(w, e))
  {
    hide Inv, Step, Outstanding, FrozenPc;
    StepKeeps(w, e);
    StepExtends(w, e);
    if w.db.value.state == Opening { OpeningFreezes(db0, w, e); }
  }

  /** With a rollback outstanding no attempt, crashed anywhere, changes the table before it settles the gate. */
  lemma {:induction false} AttemptsFreeze(w0: World, events: seq<Event>, db0: Db)
    requires Inv(w0) && w0.pc == Idle && w0.db == Some(db0) && db0.state == Opening && Outstanding(db0.rows, RollbackOp)
    requires forall i :: 0 <= i < |events| ==> RecoveryEvent(events[i])
    ensures Frozen(db0, Run(w0, events))
    decreases |events|
  {
    hide Inv, Step, Outstanding;
    if events != [] {
      AttemptsFreeze(w0, events[..|events| - 1], db0);
      FrozenStep(db0, Run(w0, events[..|events| - 1]), events[|events| - 1]);
    }
  }

  // ---------------------------------------------------------------- settling an interrupted intent, as a call

  function PredecessorRoute(db: Db): RouteState {
    RouteState(Some(db.predecessorGeneration), PredecessorFence(db.predecessorGeneration), Some(db.predecessor))
  }

  predicate Asks(pc: Pc) { pc.RecFcQuery? || pc.RecCloseQuery? || pc.RecRbQuery? }

  predicate Decides(pc: Pc) { pc.RecFcDecide? || pc.RecCloseDecide? || pc.RecRbDecide? }

  /** The settling call asked for the route, and this was the answer; None where the adapter raised. */
  ghost predicate Queried(w1: World, events: seq<Event>, seen: Option<RouteState>) {
    exists i :: 0 <= i < |events| && events[i].Go? && Asks(Run(w1, events[..i]).pc)
        && seen == Seen(Run(w1, events[..i]), events[i].traffic)
  }

  lemma QueriedSnoc(w1: World, events: seq<Event>, e: Event)
    ensures forall x :: Queried(w1, events + [e], x) <==>
              Queried(w1, events, x) || (e.Go? && Asks(Run(w1, events).pc) && x == Seen(Run(w1, events), e.traffic))
  {
    hide Run, Seen, Asks;
    var all := events + [e];
    assert all[..|events|] == events;
    assert forall i :: 0 <= i < |events| ==> all[i] == events[i] && all[..i] == events[..i];
    forall x | Queried(w1, events, x) ensures Queried(w1, all, x) {
      var i :| 0 <= i < |events| && events[i].Go? && Asks(Run(w1, events[..i]).pc)
          && x == Seen(Run(w1, events[..i]), events[i].traffic);
      assert all[i] == events[i] && all[..i] == events[..i];
    }
    if e.Go? && Asks(Run(w1, events).pc) {
      assert all[|events|] == e && Queried(w1, all, Seen(Run(w1, events), e.traffic));
    }
  }

  /** The state the answer calls for: a fail_close and a recovery close come before a rollback. */
  function SettleTarget(db: Db, seen: Option<RouteState>): GateState {
    if Outstanding(db.rows, FailCloseOp) || Unanswered(db.rows, RecoveryCloseOp) then ClosedTarget(seen)
    else TargetOf(RecoveredOutcome(db, seen))
  }

  predicate OnBranch(db: Db, pc: Pc) {
    match pc
    case RecFcQuery | RecFcDecide(_) => Outstanding(db.rows, FailCloseOp)
    case RecCloseEffect | RecCloseQuery | RecCloseDecide(_) => Unanswered(db.rows, RecoveryCloseOp)
    case RecRbQuery | RecRbDecide(_) => Blocks(db.rows)
    case _ => false
  }

  /** How a settling reconcile ends: in the state its answer calls for, or raising with nothing changed where the gate
      cannot move there. */
  ghost predicate Settled(db0: Db, w: World, seen: Option<RouteState>) {
    var t := SettleTarget(db0, seen);
    if CanMove(db0, t) then
       w.ret == Returned(VState(t)) && w.db.Some? && w.db.value.state == t && |w.db.value.rows| > |db0.rows|
    else w.ret == Raised && w.db == Some(db0)
  }

  /** How far the settling branch came. */
  ghost predicate Branch(w1: World, events: seq<Event>, db0: Db) {
    var w := Run(w1, events);
    && (w.pc == Idle || (Settling(w.pc) && w.db == Some(db0) && OnBranch(db0, w.pc)))
    && (w.pc != Idle && !Decides(w.pc) ==> forall x :: !Queried(w1, events, x))
    && (Decides(w.pc) ==> forall x :: Queried(w1, events, x) <==> x == w.pc.seen)
    && (w.pc == Idle ==>
        exists x :: Queried(w1, events, x) && Settled(db0, w, x) && forall y :: Queried(w1, events, y) ==> y == x)
  }

  lemma BranchStarts(w0: World, db0: Db)
    requires w0.pc == Idle && w0.db == Some(db0) && !Quiet(db0.rows)
    ensures Branch(Step(w0, Reconcile), [], db0)
    ensures Step(w0, Reconcile).route == w0.route && (Blocks(db0.rows) ==> Step(w0, Reconcile).pc == RecRbQuery)
  {
    hide Outstanding, Unanswered, LastRow, LeaseValid;
  }

  lemma MoveMeans(db: Db)
    ensures forall k, op, target, f, d {:trigger Move(db, k, op, target, f, d)} ::
              && (Move(db, k, op, target, f, d).Some? <==> CanMove(db, target))
              && (CanMove(db, target) ==> Move(db, k, op, target, f, d).value.state == target
                                          && |Move(db, k, op, target, f, d).value.rows| > |db.rows|)
  {}

  lemma RecordedMeans(seen: Option<RouteState>)
    ensures forall d :: Recorded(d, seen).rows == d.rows && Recorded(d, seen).state == d.state
  {}

  lemma BranchDecides(w: World, db: Db, t: Traffic)
    requires w.db == Some(db) && Decides(w.pc) && OnBranch(db, w.pc)
    ensures Step(w, Go(t)).pc == Idle && Settled(db, Step(w, Go(t)), w.pc.seen)
    ensures Step(w, Go(t)).route == w.route
  {
    hide AdvanceExamine, AdvanceForward, IsClosed, Move, Outstanding, Unanswered, Recorded, CanMove, RecoveredOutcome,
         RowOf;
    MoveMeans(db);
    match w.pc
    case RecFcDecide(seen) => RecordedMeans(seen); return;
    case RecCloseDecide(seen) => CloseSettles(w, db, seen); return;
    case RecRbDecide(_) => return;
  }

  lemma CloseSettles(w: World, db: Db, seen: Option<RouteState>)
    requires w.db == Some(db)
    ensures var w' := RecoveredClose(w, db, seen);
            && w'.pc == Idle && w'.route == w.route
            && if CanMove(db, ClosedTarget(seen))
               then w'.ret == Returned(VState(ClosedTarget(seen))) && w'.db.Some?
                   && w'.db.value.state == ClosedTarget(seen)
                    && |w'.db.value.rows| > |db.rows|
               else w'.ret == Raised && w'.db == Some(db)
  {
    hide IsClosed;
  }

  lemma BranchAsks(w: World, db: Db, t: Traffic)
    requires w.db == Some(db) && Settling(w.pc) && !Decides(w.pc) && OnBranch(db, w.pc)
    ensures var w' := Step(w, Go(t));
            && w'.db == w.db && w'.pc != Idle && Settling(w'.pc) && OnBranch(db, w'.pc)
            && (Decides(w'.pc) <==> Asks(w.pc))
            && (Asks(w.pc) ==> w'.pc.seen == Seen(w, t) && w'.route == w.route)
  {
    hide AdvanceExamine, AdvanceForward, Outstanding, Unanswered;
  }

  lemma BranchStep(w1: World, events: seq<Event>, e: Event, db0: Db)
    requires Branch(w1, events, db0) && Uninterrupted(e)
    requires Run(w1, events + [e]) == Step(Run(w1, events), e)
    ensures Branch(w1, events + [e], db0)
  {
    hide Run, Queried, Step, OnBranch, Settling, SettleTarget, Seen;
    var w := Run(w1, events);
    QueriedSnoc(w1, events, e);
    if e.Go? && Decides(w.pc) { BranchDecides(w, db0, e.traffic); }
    else if e.Go? && w.pc != Idle { BranchAsks(w, db0, e.traffic); AskedOnly(w.pc); }
    else { EnvironmentRests(w, e); }
  }

  lemma AskedOnly(pc: Pc)
    ensures Asks(pc) ==> !Decides(pc)
  {}

  lemma EnvironmentRests(w: World, e: Event)
    requires Uninterrupted(e) && (e.Go? ==> w.pc == Idle)
    ensures var w' := Step(w, e);
            w'.db == w.db && w'.pc == w.pc && w'.ret == w.ret && (!e.Drift? ==> w'.route == w.route)
  {
    hide Begin, Advance;
  }

  lemma {:induction false} BranchRuns(w0: World, events: seq<Event>, db0: Db)
    requires w0.pc == Idle && w0.db == Some(db0) && !Quiet(db0.rows)
    requires forall i :: 0 <= i < |events| ==> Uninterrupted(events[i])
    ensures Branch(Step(w0, Reconcile), events, db0)
    decreases |events|
  {
    hide Step, Branch, Run, Quiet;
    var w1 := Step(w0, Reconcile);
    if events == [] { BranchStarts(w0, db0); }
    else {
      var before, last := events[..|events| - 1], events[|events| - 1];
      assert events == before + [last];
      BranchRuns(w0, before, db0);
      RunLast(w1, before, last);
      BranchStep(w1, before, last, db0);
    }
  }

  /** A calm call: nothing drifts and the adapter works. */
  predicate Calm(e: Event) { Uninterrupted(e) && !e.Drift? && (e.Go? ==> e == Go(Works)) }

  /** Then the rollback branch is shown the route the call began with. */
  lemma {:induction false} CalmBranch(w0: World, events: seq<Event>, db0: Db)
    requires w0.pc == Idle && w0.db == Some(db0) && Blocks(db0.rows)
    requires forall i :: 0 <= i < |events| ==> Calm(events[i])
    ensures var w1 := Step(w0, Reconcile);
            Run(w1, events).route == w0.route && forall x :: Queried(w1, events, x) ==> x == Some(w0.route)
    decreases |events|
  {
    hide Step, Run, Blocks, Queried, OnBranch, Settled;
    var w1 := Step(w0, Reconcile);
    assert !Quiet(db0.rows) by { BlocksIsNotQuiet(db0.rows); }
    if events == [] { BranchStarts(w0, db0); CalmStart(w1); }
    else {
      var before, last := events[..|events| - 1], events[|events| - 1];
      assert events == before + [last];
      CalmBranch(w0, before, db0);
      BranchRuns(w0, before, db0);
      RunLast(w1, before, last);
      QueriedSnoc(w1, before, last);
      CalmStep(Run(w1, before), db0, last);
    }
  }

  lemma BlocksIsNotQuiet(rows: seq<Row>)
    requires Blocks(rows)
    ensures !Quiet(rows)
  {
    hide Outstanding, Unanswered;
  }

  lemma CalmStart(w1: World)
    ensures Run(w1, []) == w1 && forall x :: !Queried(w1, [], x)
  {}

  lemma CalmStep(w: World, db: Db, e: Event)
    requires w.pc == Idle || (Settling(w.pc) && w.db == Some(db) && OnBranch(db, w.pc))
    requires Blocks(db.rows) && Calm(e)
    ensures Step(w, e).route == w.route && (e.Go? ==> Seen(w, e.traffic) == Some(w.route))
  {
    hide Begin, AdvanceExamine, AdvanceForward, IsClosed, Move, Outstanding, Unanswered, Recorded, RecoveredOutcome,
         RowOf;
  }

  // ---------------------------------------------------------------- reconcile as a call

  /** The last open intent's fence. */
  ghost function IntentFence(db: Db): Option<Fence> {
    var k := LastRow(db.rows, OpenOp, Intent);
    if k.Some? then db.rows[k.value].fence else None
  }

  lemma OpeningHasIntent(db: Db)
    requires DbOk(db) && db.state == Opening
    ensures LastRow(db.rows, OpenOp, Intent).Some? && IntentFence(db).Some?
  {
    hide LastRow, RouteOk, AdmissionsOk, EventsOk;
  }

  /** Reconcile in every state, whatever the environment does meanwhile.  With an intent to settle it ends in the state
      that the one answer it got about the route calls for, and raises with nothing changed exactly where the gate
      cannot move there. With none it returns the state it found, and from OPENING one it left for: CANDIDATE_OPEN
      exactly when it was shown the candidate under the intent's fence. */
  lemma ReconcileVerdict(w0: World, events: seq<Event>, db0: Db)
    requires Inv(w0) && w0.pc == Idle && w0.db == Some(db0)
    requires forall i :: 0 <= i < |events| ==> Uninterrupted(events[i])
    requires Run(Step(w0, Reconcile), events).pc == Idle
    ensures var w1 := Step(w0, Reconcile);
            var w := Run(w1, events);
            if !Quiet(db0.rows) then
              exists x :: Queried(w1, events, x) && Settled(db0, w, x) && forall y :: Queried(w1, events, y) ==> y == x
            else if db0.state != Opening then w.db == Some(db0) && w.ret == Returned(VState(db0.state))
            else
              && w.db.Some? && w.ret == Returned(VState(w.db.value.state))
              && w.db.value.state in {CandidateOpen, FailedSafe, SafetyUnknown} && IntentFence(db0).Some?
              && (w.db.value.state == CandidateOpen <==> SawCandidate(w1, events, db0, IntentFence(db0).value))
              && (w.db.value.state == CandidateOpen ==> LeaseValid(w0, db0.lease))
  {
    hide Run, Step, DbOk, Outstanding, Unanswered, Queried, LastRow, Observed, LeaseValid, CandidateMatches, Settled,
         SettleTarget;
    if !Quiet(db0.rows) { BranchRuns(w0, events, db0); }
    else if db0.state != Opening { QuietReturns(w0, events, db0); }
    else {
      OpeningHasIntent(db0);
      ReconcileIsJustified(w0, events, db0, IntentFence(db0).value);
    }
  }

  lemma {:induction false} QuietReturns(w0: World, events: seq<Event>, db0: Db)
    requires w0.pc == Idle && w0.db == Some(db0) && Quiet(db0.rows) && db0.state != Opening
    requires forall i :: 0 <= i < |events| ==> Uninterrupted(events[i])
    ensures var w := Run(Step(w0, Reconcile), events);
            w.pc == Idle && w.db == Some(db0) && w.ret == Returned(VState(db0.state))
    decreases |events|
  {
    hide Run, Step, Quiet;
    var w1 := Step(w0, Reconcile);
    if events == [] { QuietStarts(w0, db0); CalmStart(w1); }
    else {
      var before, last := events[..|events| - 1], events[|events| - 1];
      assert events == before + [last];
      QuietReturns(w0, before, db0);
      RunLast(w1, before, last);
      EnvironmentRests(Run(w1, before), last);
    }
  }

  lemma QuietStarts(w0: World, db0: Db)
    requires w0.pc == Idle && w0.db == Some(db0) && Quiet(db0.rows) && db0.state != Opening
    ensures var w := Step(w0, Reconcile); w.pc == Idle && w.db == Some(db0) && w.ret == Returned(VState(db0.state))
  {
    hide Outstanding, Unanswered, LastRow, LeaseValid;
  }

  /** Reconcile of OPENING raises exactly when it takes its rollback branch and the route it is shown is exactly the
      predecessor; then it changed nothing.  Otherwise it returns the state it left OPENING for. */
  lemma ReconcileOfOpening(w0: World, events: seq<Event>, db0: Db)
    requires Inv(w0) && w0.pc == Idle && w0.db == Some(db0) && db0.state == Opening
    requires forall i :: 0 <= i < |events| ==> Uninterrupted(events[i])
    requires Run(Step(w0, Reconcile), events).pc == Idle
    ensures var w1 := Step(w0, Reconcile);
            var w := Run(w1, events);
            && w.db.Some?
            && (w.ret == Raised <==> Blocks(db0.rows) && Queried(w1, events, Some(PredecessorRoute(db0))))
            && (w.ret == Raised ==> w.db == Some(db0))
            && (w.ret != Raised ==>
                  w.ret == Returned(VState(w.db.value.state))
                      && w.db.value.state in {CandidateOpen, FailedSafe, SafetyUnknown})
  {
    hide Run, Step, Inv, Quiet, Queried, LastRow, SawCandidate, LeaseValid, Settled;
    ReconcileVerdict(w0, events, db0);
    if Quiet(db0.rows) { if Blocks(db0.rows) { BlocksIsNotQuiet(db0.rows); } }
    else {
      var w1 := Step(w0, Reconcile);
      var x :| Queried(w1, events, x) && Settled(db0, Run(w1, events), x) && forall y :: Queried(w1, events, y) ==>
          y == x;
      OpeningSettles(db0, Run(w1, events), x);
    }
  }

  lemma OpeningSettles(db0: Db, w: World, x: Option<RouteState>)
    requires db0.state == Opening && Settled(db0, w, x) && !Quiet(db0.rows)
    ensures w.db.Some? && (w.ret == Raised <==> Blocks(db0.rows) && x == Some(PredecessorRoute(db0)))
    ensures w.ret == Raised ==> w.db == Some(db0)
    ensures w.ret != Raised ==>
            w.ret == Returned(VState(w.db.value.state)) && w.db.value.state in {FailedSafe, SafetyUnknown}
  {
    hide Outstanding, Unanswered, IsClosed;
  }

  /** With a working adapter and a route that does not drift, both conditions can be read before the call. */
  lemma ReconcileRaisesExactly(w0: World, events: seq<Event>, db0: Db)
    requires Inv(w0) && w0.pc == Idle && w0.db == Some(db0) && db0.state == Opening
    requires forall i :: 0 <= i < |events| ==> Calm(events[i])
    requires Run(Step(w0, Reconcile), events).pc == Idle
    ensures Run(Step(w0, Reconcile), events).ret == Raised <==> Blocks(db0.rows) && w0.route == PredecessorRoute(db0)
  {
    hide Run, Step, Inv, Blocks, Queried, Settled;
    ReconcileOfOpening(w0, events, db0);
    if Blocks(db0.rows) {
      CalmBranch(w0, events, db0);
      BlocksIsNotQuiet(db0.rows);
      BranchRuns(w0, events, db0);
    }
  }

  /** So can the condition for CANDIDATE_OPEN. */
  lemma ReconcileOpensExactly(w0: World, events: seq<Event>, db0: Db)
    requires Inv(w0) && w0.pc == Idle && w0.db == Some(db0) && db0.state == Opening && Quiet(db0.rows)
    requires forall i :: 0 <= i < |events| ==> Calm(events[i])
    requires Run(Step(w0, Reconcile), events).pc == Idle
    ensures var w := Run(Step(w0, Reconcile), events);
            && w.db.Some? && IntentFence(db0).Some?
            && (w.db.value.state == CandidateOpen <==>
                  LeaseValid(w0, db0.lease)
                      && CandidateMatches(db0, w0.route, IntentFence(db0).value, db0.candidateDigest))
  {
    hide Run, Step, Inv, Quiet, Observed, LeaseValid, CandidateMatches, IntentFence;
    ReconcileVerdict(w0, events, db0);
    CalmLook(w0, events, db0);
  }

  /** A calm reconcile under a current lease asks, and is shown the route it began with. */
  lemma {:induction false} CalmLook(w0: World, events: seq<Event>, db0: Db)
    requires Inv(w0) && w0.pc == Idle && w0.db == Some(db0) && db0.state == Opening && Quiet(db0.rows)
    requires forall i :: 0 <= i < |events| ==> Calm(events[i])
    ensures var w1 := Step(w0, Reconcile);
            var w := Run(w1, events);
            && (w.pc.RecQuery? ==> w.route == w0.route) && (forall r :: Observed(w1, events, r) ==> r == w0.route)
            && (LeaseValid(w0, db0.lease) ==> w.pc.RecQuery? || Observed(w1, events, w0.route))
    decreases |events|
  {
    hide Run, Step, Inv, Quiet, Observed, LeaseValid, IntentFence, Justified;
    var w1 := Step(w0, Reconcile);
    if events == [] { LookStarts(w0, db0); NothingObserved(w1); }
    else {
      var before, last := events[..|events| - 1], events[|events| - 1];
      assert events == before + [last];
      CalmLook(w0, before, db0);
      RunLast(w1, before, last);
      ObservedSnoc(w1, before, last);
      var w := Run(w1, before);
      if last.Go? && w.pc != Idle { LookGoes(w0, before, db0); }
      else { EnvironmentRests(w, last); }
    }
  }

  lemma NothingObserved(w1: World)
    ensures Run(w1, []) == w1 && forall r :: !Observed(w1, [], r)
  {}

  lemma LookStarts(w0: World, db0: Db)
    requires Inv(w0) && w0.pc == Idle && w0.db == Some(db0) && db0.state == Opening && Quiet(db0.rows)
    ensures var w1 := Step(w0, Reconcile); w1.route == w0.route && (LeaseValid(w0, db0.lease) ==> w1.pc.RecQuery?)
  {
    hide Outstanding, Unanswered, LastRow, LeaseValid, RouteOk, AdmissionsOk, EventsOk;
  }

  lemma LookGoes(w0: World, before: seq<Event>, db0: Db)
    requires Inv(w0) && w0.pc == Idle && w0.db == Some(db0) && db0.state == Opening && Quiet(db0.rows)
    requires forall i :: 0 <= i < |before| ==> Uninterrupted(before[i])
    requires Run(Step(w0, Reconcile), before).pc != Idle
    ensures !Step(Run(Step(w0, Reconcile), before), Go(Works)).pc.RecQuery?
  {
    hide Run, Step, DbOk, Outstanding, Unanswered, Observed, LeaseValid, LastRow, CandidateMatches;
    OpeningHasIntent(db0);
    ReconcileIsJustified(w0, before, db0, IntentFence(db0).value);
    StepKeeps(w0, Reconcile);
    RunKeeps(Step(w0, Reconcile), before);
    GoReconcile(Run(Step(w0, Reconcile), before), Works);
  }

  lemma SettlingNeverLooks(w0: World, events: seq<Event>, db0: Db)
    requires w0.pc == Idle && w0.db == Some(db0) && !Quiet(db0.rows)
    requires forall i :: 0 <= i < |events| ==> Uninterrupted(events[i])
    ensures forall r :: !Observed(Step(w0, Reconcile), events, r)
  {
    hide Run, Step, Quiet, Queried, Settled, OnBranch;
    forall i | 0 <= i < |events| ensures !Run(Step(w0, Reconcile), events[..i]).pc.RecQuery? {
      BranchRuns(w0, events[..i], db0);
    }
  }

  /** After a crash inside open, any number of crashed reconcile attempts, and one that is not cut short.  It raises
      exactly when the interrupted open found a rollback outstanding and nothing to settle before it, and the route it
      is shown is exactly the predecessor; then nothing changed.  Otherwise OPENING is left when it ends: for
      CANDIDATE_OPEN exactly when it asked, which it does under a current lease only, and was shown the candidate under
      the interrupted intent's fence, and else for an absorbing state. */
  lemma InterruptedOpenRecovers(w0: World, attempts: seq<Event>, final: seq<Event>, db0: Db, fence: Fence)
    requires Inv(w0) && w0.pc == Idle && w0.db == Some(db0) && db0.state == Opening && IntentFence(db0) == Some(fence)
    requires forall i :: 0 <= i < |attempts| ==> RecoveryEvent(attempts[i])
    requires Run(w0, attempts).pc == Idle && Run(w0, attempts).db.Some? && Run(w0, attempts).db.value.state == Opening
    requires forall i :: 0 <= i < |final| ==> Uninterrupted(final[i])
    ensures var w1 := Run(w0, attempts);
            var w2 := Step(w1, Reconcile);
            var w := Run(w2, final);
            && w.db.Some? && (w.pc != Idle ==> w.ret == Silent)
            && (w.pc == Idle ==>
                (w.ret == Raised <==> Blocks(db0.rows) && Queried(w2, final, Some(PredecessorRoute(db0)))))
            && (w.ret == Raised ==> w.db == Some(db0))
            && (w.pc == Idle && w.ret != Raised ==>
                  w.db.value.state in {CandidateOpen, FailedSafe, SafetyUnknown}
                      && w.ret == Returned(VState(w.db.value.state)))
            && (w.pc == Idle ==> (w.db.value.state == CandidateOpen <==> SawCandidate(w2, final, db0, fence)))
            && (w.pc == Idle && w.db.value.state == CandidateOpen ==> LeaseValid(w1, db0.lease))
  {
    hide Inv, Step, Observed, LeaseValid, Run, LastRow, Queried, Outstanding, Unanswered;
    var w1 := Run(w0, attempts);
    var db1 := w1.db.value;
    RunKeeps(w0, attempts);
    StepKeeps(w1, Reconcile);
    RunKeeps(Step(w1, Reconcile), final);
    if Run(Step(w1, Reconcile), final).pc != Idle {
      BusyIsSilent(Run(Step(w1, Reconcile), final));
      return;
    }
    if Outstanding(db0.rows, RollbackOp) {
      AttemptsFreeze(w0, attempts, db0);
    } else {
      AttemptsKeep(w0, attempts, db0);
      StillSettled(db0, db1);
      assert db1.rows[LastRow(db0.rows, OpenOp, Intent).value] == db0.rows[LastRow(db0.rows, OpenOp, Intent).value];
    }
    ReconcileOfOpening(w1, final, db1);
    OpensIffSeen(w1, final, db1, fence);
  }

  lemma BusyIsSilent(w: World)
    requires Inv(w) && w.pc != Idle
    ensures w.db.Some? && w.ret == Silent
  {}

  /** A reconcile of OPENING ends in CANDIDATE_OPEN exactly when it saw the candidate. */
  lemma OpensIffSeen(w1: World, final: seq<Event>, db1: Db, fence: Fence)
    requires Inv(w1) && w1.pc == Idle && w1.db == Some(db1) && db1.state == Opening && IntentFence(db1) == Some(fence)
    requires forall i :: 0 <= i < |final| ==> Uninterrupted(final[i])
    requires Run(Step(w1, Reconcile), final).pc == Idle
    ensures var w := Run(Step(w1, Reconcile), final);
            && w.db.Some?
            && (w.db.value.state == CandidateOpen <==> SawCandidate(Step(w1, Reconcile), final, db1, fence))
            && (w.db.value.state == CandidateOpen ==> LeaseValid(w1, db1.lease))
  {
    hide Inv, Step, Observed, LeaseValid, Run, IntentFence, Quiet, Blocks, Settled, CandidateMatches;
    ReconcileVerdict(w1, final, db1);
    if !Quiet(db1.rows) {
      SettlingNeverLooks(w1, final, db1);
      var x :| Queried(Step(w1, Reconcile), final, x) && Settled(db1, Run(Step(w1, Reconcile), final), x);
      OpeningSettles(db1, Run(Step(w1, Reconcile), final), x);
    }
  }

  // ---------------------------------------------------------------- an interrupted rollback under an interrupted open

  /** Everything open asks of its proof. */
  predicate Acceptable(w: World, db: Db, proof: OpenProof) {
    && proof.generation == db.candidateGeneration && Some(proof.planId) == PlanIdOf(db.candidate)
    && proof.candidateDigest == db.candidateDigest && proof.evidenceCount >= 1
    && IsSha256(proof.evidenceDigest) && IsSha256(proof.coverageDigest)
    && proof.lease == db.lease && LeaseValid(w, proof.lease)
  }

  lemma RollbackCut(w: World, db: Db)
    requires w.pc == Idle && w.db == Some(db)
    ensures var row := RowOf(db, Intent, RollbackOp, None, Some(PredecessorFence(db.predecessorGeneration)), EMPTY);
            Step(Step(w, Rollback(db.candidateGeneration, None)), Crash) ==
                w.(db := Some(Append(db, row)), ret := Silent, clean := false)
  {}

  lemma OpenCut(w: World, db: Db, proof: OpenProof)
    requires w.pc == Idle && w.db == Some(db) && db.state == CandidateClosed && Acceptable(w, db, proof)
    ensures var w' := Step(Step(w, Open(db.candidateGeneration, proof)), Crash);
            && w'.pc == Idle && w'.db.Some? && w'.db.value.state == Opening && w'.route == w.route
            && |w'.db.value.rows| == |db.rows| + 1
            && w'.db.value.rows[..|db.rows|] == db.rows
            && w'.db.value.rows[|db.rows|].operation == OpenOp && w'.db.value.rows[|db.rows|].kind == Intent
            && w'.db.value.predecessorGeneration == db.predecessorGeneration
            && w'.db.value.predecessor == db.predecessor
  {
    hide IsSha256, PlanIdOf, LeaseValid;
  }

  lemma SnocLast(rows: seq<Row>, r: Row, op: Operation, kind: Kind)
    ensures LastRow(rows + [r], op, kind) == if r.operation == op && r.kind == kind then Some(|rows|)
            else LastRow(rows, op, kind)
  {
    assert (rows + [r])[..|rows|] == rows;
  }

  /** A reconcile that finds the interrupted rollback looks at the route, then decides. */
  lemma ReconcileFindsRollback(w: World, db: Db)
    requires w.pc == Idle && w.db == Some(db) && db.state == Opening && Outstanding(db.rows, RollbackOp)
    requires !Outstanding(db.rows, FailCloseOp) && !Unanswered(db.rows, RecoveryCloseOp)
    requires w.route ==
             RouteState(Some(db.predecessorGeneration), PredecessorFence(db.predecessorGeneration),
                        Some(db.predecessor))
    ensures var w' := Step(Step(Step(w, Reconcile), Go(Works)), Go(Works));
            w'.ret == Raised && w'.db == Some(db) && w'.pc == Idle && w'.route == w.route
  {
    hide Outstanding, Unanswered, AdvanceExamine, AdvanceForward, RecoveredClose, RecoveredFailClose, RestoreStep,
         RollbackStep;
    var w1 := Step(w, Reconcile);
    assert w1 == At(w, db, RecRbQuery);
    var w2 := Step(w1, Go(Works));
    assert w2 == w1.(pc := RecRbDecide(Some(w.route)));
  }

  /** A rollback cut after its intent, then an open cut after its intent, the route still the predecessor: every
      reconcile raises and leaves OPENING as it is. */
  lemma RollbackThenOpenSticks(w: World, db: Db, proof: OpenProof)
    requires w.pc == Idle && w.db == Some(db) && db.state == CandidateClosed && Acceptable(w, db, proof)
    requires !Outstanding(db.rows, FailCloseOp) && !Unanswered(db.rows, RecoveryCloseOp)
    requires w.route ==
             RouteState(Some(db.predecessorGeneration), PredecessorFence(db.predecessorGeneration),
                        Some(db.predecessor))
    ensures var g := db.candidateGeneration;
            var stuck := Step(Step(Step(Step(w, Rollback(g, None)), Crash), Open(g, proof)), Crash);
            var after := Step(Step(Step(stuck, Reconcile), Go(Works)), Go(Works));
            && stuck.pc == Idle && stuck.db.Some? && stuck.db.value.state == Opening && Blocks(stuck.db.value.rows)
            && stuck.route == PredecessorRoute(stuck.db.value)
            && after.ret == Raised && after.db == stuck.db && after.pc == Idle && after.route == stuck.route
  {
    hide Step, LastRow, Acceptable;
    var row := RowOf(db, Intent, RollbackOp, None, Some(PredecessorFence(db.predecessorGeneration)), EMPTY);
    RollbackCut(w, db);
    var db1 := Append(db, row);
    var w1 := w.(db := Some(db1), ret := Silent, clean := false);
    assert Acceptable(w1, db1, proof) by { AcceptableSame(w, w1, db, db1, proof); }
    OpenCut(w1, db1, proof);
    var stuck := Step(Step(w1, Open(db.candidateGeneration, proof)), Crash);
    var rows := stuck.db.value.rows;
    var opening := rows[|db1.rows|];
    assert rows == db.rows + [row] + [opening];
    forall op, kind ensures LastRow(rows, op, kind) == if op == OpenOp && kind == Intent then Some(|db.rows| + 1)
                            else if op == RollbackOp && kind == Intent then Some(|db.rows|)
                                    else LastRow(db.rows, op, kind) {
      SnocLast(db.rows, row, op, kind);
      SnocLast(db.rows + [row], opening, op, kind);
    }
    assert Outstanding(rows, RollbackOp) by {
      assert LastRow(db.rows, RollbackOp, Receipt).Some? ==> LastRow(db.rows, RollbackOp, Receipt).value < |db.rows|;
    }
    ReconcileFindsRollback(stuck, stuck.db.value);
  }

  lemma AcceptableSame(w: World, w': World, db: Db, db': Db, proof: OpenProof)
    requires Acceptable(w, db, proof) && w'.lease == w.lease && w'.now == w.now
    requires db'.candidateGeneration == db.candidateGeneration && db'.candidate == db.candidate
             && db'.candidateDigest == db.candidateDigest && db'.lease == db.lease
    ensures Acceptable(w', db', proof)
  {}

  // ---------------------------------------------------------------- a fail_close after the rollback

  /** A restored gate with a close still to settle. */
  predicate Stuck(db: Db) {
    db.state == RolledBack && (Outstanding(db.rows, FailCloseOp) || Unanswered(db.rows, RecoveryCloseOp))
  }

  /** Exactly then no answer about the route lets reconcile settle what it found. */
  lemma StuckIff(db: Db)
    requires !Quiet(db.rows)
    ensures Stuck(db) <==> forall x :: !CanMove(db, SettleTarget(db, x))
  {
    hide Outstanding, Unanswered;
    if !Stuck(db) {
      var x := if db.state == RolledBack then Some(PredecessorRoute(db))
          else if db.state == FailedSafe then Some(CLOSED_ROUTE) else None;
      assert CanMove(db, SettleTarget(db, x));
    }
  }

  lemma StuckUndoes(w: World, db: Db, t: Traffic)
    requires w.db == Some(db) && Stuck(db) && Settling(w.pc) && OnBranch(db, w.pc)
    ensures var w' := Step(w, Go(t)); w'.db == Some(db) && (w'.pc == Idle || (Settling(w'.pc) && OnBranch(db, w'.pc)))
  {
    hide Step, Outstanding, Unanswered;
    if Decides(w.pc) { BranchDecides(w, db, t); } else { BranchAsks(w, db, t); }
  }

  lemma StuckStep(w: World, db: Db, e: Event)
    requires w.db == Some(db) && Stuck(db) && RecoveryEvent(e)
             && (w.pc == Idle || (Settling(w.pc) && OnBranch(db, w.pc)))
    ensures var w' := Step(w, e); w'.db == Some(db) && (w'.pc == Idle || (Settling(w'.pc) && OnBranch(db, w'.pc)))
  {
    hide Advance, Settling, OnBranch, Outstanding, Unanswered;
    if e.Go? && w.pc != Idle { StuckUndoes(w, db, e.traffic); }
    else if e.Reconcile? && w.pc == Idle { StuckStarts(w, db); }
  }

  lemma StuckStarts(w: World, db: Db)
    requires w.pc == Idle && w.db == Some(db) && Stuck(db)
    ensures var w' := Step(w, Reconcile); w'.db == Some(db) && Settling(w'.pc) && OnBranch(db, w'.pc)
  {
    hide Outstanding, Unanswered, LastRow, LeaseValid;
  }

  /** No number of attempts, crashed anywhere, changes anything. */
  lemma {:induction false} StuckStays(w0: World, events: seq<Event>, db0: Db)
    requires w0.pc == Idle && w0.db == Some(db0) && Stuck(db0)
    requires forall i :: 0 <= i < |events| ==> RecoveryEvent(events[i])
    ensures var w := Run(w0, events); w.db == Some(db0) && (w.pc == Idle || (Settling(w.pc) && OnBranch(db0, w.pc)))
    decreases |events|
  {
    hide Step, Stuck, Settling, OnBranch;
    if events != [] {
      StuckStays(w0, events[..|events| - 1], db0);
      StuckStep(Run(w0, events[..|events| - 1]), db0, events[|events| - 1]);
    }
  }

  /** And every reconcile that is not cut short raises, whatever route it is shown. */
  lemma StuckForEver(w0: World, attempts: seq<Event>, final: seq<Event>, db0: Db)
    requires Inv(w0) && w0.pc == Idle && w0.db == Some(db0) && Stuck(db0)
    requires forall i :: 0 <= i < |attempts| ==> RecoveryEvent(attempts[i])
    requires forall i :: 0 <= i < |final| ==> Uninterrupted(final[i])
    requires Run(w0, attempts).pc == Idle && Run(Step(Run(w0, attempts), Reconcile), final).pc == Idle
    ensures var w := Run(Step(Run(w0, attempts), Reconcile), final); w.ret == Raised && w.db == Some(db0)
  {
    hide Inv, Step, Run, Stuck, Queried;
    StuckStays(w0, attempts, db0);
    RunKeeps(w0, attempts);
    ReconcileVerdict(Run(w0, attempts), final, db0);
    StuckIsNotQuiet(db0);
    StuckIff(db0);
  }

  lemma StuckIsNotQuiet(db: Db)
    requires Stuck(db)
    ensures !Quiet(db.rows)
  {
    hide Outstanding, Unanswered;
  }

  /** fail_close of a restored gate: it has written its intent when it begins, and raises when it ends; the gate is
      stuck. */
  lemma {:induction false} FailCloseSticks(w: World, db: Db, events: seq<Event>)
    requires w.pc == Idle && w.db == Some(db) && db.state == RolledBack
    requires forall i :: 0 <= i < |events| ==> Uninterrupted(events[i])
    ensures var db' := Note(db, Intent, FailCloseOp, Some(ClosedFence), EMPTY);
            var w' := Run(Step(w, FailClose(db.candidateGeneration)), events);
            && w'.db == Some(db') && Stuck(db')
            && (w'.pc == FcEffect(ThenClass) || w'.pc == FcQuery(ThenClass)
                || (w'.pc.FcDecide? && w'.pc.after == ThenClass)
                || (w'.pc == Idle && w'.ret == Raised))
    decreases |events|
  {
    hide Run, Step, Stuck, Note;
    var w1 := Step(w, FailClose(db.candidateGeneration));
    if events == [] { FailCloseStarts(w, db); CalmStart(w1); }
    else {
      var before, last := events[..|events| - 1], events[|events| - 1];
      assert events == before + [last];
      FailCloseSticks(w, db, before);
      RunLast(w1, before, last);
      if last.Go? && Run(w1, before).pc != Idle { NoteKeepsHead(db); FailCloseGoes(Run(w1, before), last.traffic); }
      else { EnvironmentRests(Run(w1, before), last); }
    }
  }

  lemma FailCloseStarts(w: World, db: Db)
    requires w.pc == Idle && w.db == Some(db) && db.state == RolledBack
    ensures var db' := Note(db, Intent, FailCloseOp, Some(ClosedFence), EMPTY);
            var w' := Step(w, FailClose(db.candidateGeneration));
            w'.db == Some(db') && w'.pc == FcEffect(ThenClass) && w'.route == w.route && Stuck(db')
  {
    hide LastRow;
    var row := RowOf(db, Intent, FailCloseOp, None, Some(ClosedFence), EMPTY);
    SnocLast(db.rows, row, FailCloseOp, Intent);
    SnocLast(db.rows, row, FailCloseOp, Receipt);
  }

  lemma FailCloseGoes(w: World, t: Traffic)
    requires w.db.Some? && w.db.value.state == RolledBack
    requires w.pc == FcEffect(ThenClass) || w.pc == FcQuery(ThenClass) || (w.pc.FcDecide? && w.pc.after == ThenClass)
    ensures var w' := Step(w, Go(t));
            && w'.db == w.db
            && (w.pc.FcEffect? ==> w'.pc == FcQuery(ThenClass) && (t == Works ==> w'.route == CLOSED_ROUTE))
            && (w.pc.FcQuery? ==> w'.pc.FcDecide? && w'.pc.after == ThenClass && w'.route == w.route)
            && (w.pc.FcDecide? ==> w'.pc == Idle && w'.ret == Raised && w'.route == w.route)
  {
    hide AdvanceUndo, AdvanceExamine, IsClosed, RowOf;
  }
}
