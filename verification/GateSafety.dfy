/** What every run of the exposure gate keeps, for any behaviour of the traffic route,
    any lease history and a crash between any two steps. */
module GateSafety {
  import opened Basics
  import opened Gate

  predicate IsOpenOperation(o: Operation) { o in {OpenOp, OpenReconcileOp, RecoveryCloseOp} }

  /** A row that reports the candidate as opened. */
  predicate IsOpenReceipt(r: Row) { r.kind == Receipt && r.to == Some(CandidateOpen) && IsOpenOperation(r.operation) }

  /** The position of the first open receipt. */
  function FirstOpen(rows: seq<Row>): (k: Option<nat>)
    ensures k.Some? ==> k.value < |rows| && IsOpenReceipt(rows[k.value])
    ensures forall j :: 0 <= j < (if k.Some? then k.value else |rows|) ==> !IsOpenReceipt(rows[j])
  {
    if rows == [] then None
    else match FirstOpen(rows[..|rows| - 1])
      case Some(k) => Some(k)
      case None => if IsOpenReceipt(rows[|rows| - 1]) then Some(|rows| - 1) else None
  }

  lemma FirstOpenAppend(rows: seq<Row>, r: Row)
    ensures FirstOpen(rows + [r]) ==
            if FirstOpen(rows).Some? then FirstOpen(rows) else if IsOpenReceipt(r) then Some(|rows|) else None
  {
    assert (rows + [r])[..|rows|] == rows;
  }

  // ---------------------------------------------------------------- admissions

  /** A predecessor admission precedes the open receipt and carries the predecessor fence;
      a candidate admission follows it and carries its fence; there is no third kind. */
  predicate AdmissionOk(rows: seq<Row>, p: int, c: int, a: Admission) {
    && a.generation in {p, c}
    && a.transitionSeq <= |rows|
    && (a.generation == p ==>
          a.epoch == PredecessorFence(p) && (FirstOpen(rows).Some? ==> a.transitionSeq < FirstOpen(rows).value + 1))
    && (a.generation == c ==>
          && FirstOpen(rows).Some? && FirstOpen(rows).value + 1 <= a.transitionSeq
          && rows[FirstOpen(rows).value].fence == Some(a.epoch))
  }

  ghost predicate AdmissionsOk(db: Db) {
    forall id :: id in db.admissions ==>
        AdmissionOk(db.rows, db.predecessorGeneration, db.candidateGeneration, db.admissions[id])
  }

  /** The event log and the admission table tell the same story: one admit, then at most one finish. */
  ghost predicate EventsOk(events: seq<AdmissionEvent>, admissions: map<string, Admission>) {
    && (forall i :: 0 <= i < |events| ==>
          && events[i].request in admissions
          && events[i].generation == admissions[events[i].request].generation
          && events[i].epoch == admissions[events[i].request].epoch
          && (events[i].kind == Finish ==> admissions[events[i].request].finish.Some?))
    && (forall i, j :: 0 <= i < j < |events| && events[i].request == events[j].request ==>
          events[i].kind == Admit && events[j].kind == Finish)
  }

  // ---------------------------------------------------------------- the invariant

  /** An open intent row binds a proof for this candidate under the staged lease. */
  predicate IntentOk(db: Db, r: Row) {
    && r.fence.Some? && r.detail.proof.Some? && r.detail.proofDigest == r.detail.proof
    && r.detail.proof.value.candidateDigest == db.candidateDigest && r.detail.proof.value.lease == db.lease
  }

  ghost predicate Shape(db: Db) {
    && db.candidateGeneration == db.predecessorGeneration + 1
    && db.candidateDigest == Digest(Some(db.candidate))
    && db.predecessorDigest == Digest(Some(db.predecessor))
    && db.state != PredecessorOpen
    && 0 < |db.rows| && db.transitionSeq <= |db.rows|
    && (forall i :: 0 <= i < |db.rows| && db.rows[i].operation == OpenOp && db.rows[i].kind == Intent ==>
        IntentOk(db, db.rows[i]))
    && (db.state == Opening ==> LastRow(db.rows, OpenOp, Intent).Some?)
  }

  /** The recorded route: the predecessor until the open receipt, then exactly what it observed. */
  predicate RouteOk(db: Db) {
    && (PreOpen(db.state) || db.state == Opening ==>
          && FirstOpen(db.rows) == None
          && db.routeGeneration == Some(db.predecessorGeneration)
          && db.routeFence == PredecessorFence(db.predecessorGeneration))
    && (db.state in {CandidateOpen, Draining} ==>
          && FirstOpen(db.rows).Some? && FirstOpen(db.rows).value + 1 <= db.transitionSeq
          && db.routeGeneration == Some(db.candidateGeneration)
          && db.rows[FirstOpen(db.rows).value].fence == Some(db.routeFence)
          && db.observedCandidate == Some(db.candidateDigest))
  }

  predicate PcOk(db: Db, pc: Pc) {
    match pc
    case OpenEffect(proof, _) => db.state == Opening && proof.candidateDigest == db.candidateDigest
    case OpenQuery(proof, _) => db.state == Opening && proof.candidateDigest == db.candidateDigest
    case OpenDecide(proof, _, _) => db.state == Opening && proof.candidateDigest == db.candidateDigest
    case RecQuery(intent) => db.state == Opening && IntentOk(db, intent)
    case RecDecide(intent, _) => db.state == Opening && IntentOk(db, intent)
    case RecCloseAllEffect(intent) => db.state == Opening && IntentOk(db, intent)
    case RecCloseAllQuery(intent, _) => db.state == Opening && IntentOk(db, intent)
    case RecCloseAllReceipt(intent, _, _) => db.state == Opening && IntentOk(db, intent)
    case RecFinish(intent, _) => db.state == Opening && IntentOk(db, intent)
    case FcIntent(after) => after == ThenState ==> db.state == Opening
    case FcEffect(after) => after == ThenState ==> db.state == Opening
    case FcQuery(after) => after == ThenState ==> db.state == Opening
    case FcDecide(after, _) => after == ThenState ==> db.state == Opening
    case DrainCheck => db.state == Draining
    case _ => true
  }

  ghost predicate DbOk(db: Db) {
    Shape(db) && RouteOk(db) && AdmissionsOk(db) && EventsOk(db.events, db.admissions)
  }

  ghost predicate Inv(w: World) {
    match w.db
    case None => w.pc == Idle
    case Some(db) => DbOk(db) && PcOk(db, w.pc) && (w.pc != Idle ==> w.ret == Silent)
  }

  // ---------------------------------------------------------------- preservation

  lemma AppendKeepsAdmissions(db: Db, r: Row)
    requires AdmissionsOk(db)
    ensures AdmissionsOk(Append(db, r))
  {
    FirstOpenAppend(db.rows, r);
  }

  lemma NoteKeeps(db: Db, kind: Kind, op: Operation, fence: Option<Fence>, detail: Detail)
    requires DbOk(db) && !(op == OpenOp && kind == Intent)
    ensures DbOk(Note(db, kind, op, fence, detail))
  {
    hide IntentOk;
    var r := RowOf(db, kind, op, None, fence, detail);
    FirstOpenAppend(db.rows, r);
    AppendKeepsAdmissions(db, r);
    assert (db.rows + [r])[..|db.rows|] == db.rows;
    assert forall row :: IntentOk(Append(db, r), row) <==> IntentOk(db, row) by { IntentOkFrame(db, Append(db, r)); }
  }

  lemma IntentOkFrame(db: Db, db': Db)
    requires db.candidateDigest == db'.candidateDigest && db.lease == db'.lease
    ensures forall row :: IntentOk(db', row) <==> IntentOk(db, row)
  {}

  /** A committed move keeps everything but the recorded route, whatever is then written there. */
  lemma MoveKeeps(db: Db, kind: Kind, op: Operation, target: GateState, fence: Option<Fence>, detail: Detail, db': Db)
    requires DbOk(db) && Move(db, kind, op, target, fence, detail).Some?
    requires op == OpenOp && kind == Intent ==> IntentOk(db, RowOf(db, kind, op, Some(target), fence, detail))
    requires target == Opening ==> op == OpenOp && kind == Intent
    requires var m := Move(db, kind, op, target, fence, detail).value;
             db' == m.(routeGeneration := db'.routeGeneration, routeFence := db'.routeFence,
                       observedCandidate := db'.observedCandidate, observedPredecessor := db'.observedPredecessor,
                       proofDigest := db'.proofDigest)
    ensures Shape(db') && AdmissionsOk(db') && EventsOk(db'.events, db'.admissions)
    ensures FirstOpen(db'.rows) ==
            if FirstOpen(db.rows).Some? then FirstOpen(db.rows)
            else if kind == Receipt && target == CandidateOpen && IsOpenOperation(op) then Some(|db.rows|) else None
    ensures Terminal(target) ==> DbOk(db')
  {
    hide IntentOk, AdmissionOk, FirstOpen, Id;
    var r := RowOf(db, kind, op, Some(target), fence, detail);
    FirstOpenAppend(db.rows, r);
    AppendKeepsAdmissions(db, r);
    assert (db.rows + [r])[..|db.rows|] == db.rows;
    assert forall row :: IntentOk(db', row) <==> IntentOk(db, row) by { IntentOkFrame(db, db'); }
  }

  lemma AdmittedKeeps(db: Db, request: string, at: int, actual: RouteState)
    requires DbOk(db) && request !in db.admissions
    requires db.state != Opening && !Terminal(db.state)
    requires db.routeGeneration.Some? && actual.generation == db.routeGeneration && actual.fence == db.routeFence
    ensures DbOk(Admitted(db, request, at, actual, actual.generation.value))
  {
    hide IntentOk;
    var db' := Admitted(db, request, at, actual, actual.generation.value);
    IntentOkFrame(db, db');
    forall i | 0 <= i < |db.events| ensures db.events[i].request != request {}
  }

  lemma FinishKeepsEvents(db: Db, request: string, r: AdmissionResult)
    requires EventsOk(db.events, db.admissions) && request in db.admissions && db.admissions[request].finish == None
    ensures var a := db.admissions[request];
            EventsOk(db.events + [AdmissionEvent(request, Finish, a.generation, a.epoch, a.transitionSeq)],
                     db.admissions[request := a.(finish := Some(r))])
  {
    forall i | 0 <= i < |db.events| && db.events[i].request == request ensures db.events[i].kind == Admit {}
  }

  lemma FinishKeeps(w: World, db: Db, request: string, r: AdmissionResult)
    requires Inv(w) && w.db == Some(db)
    ensures Inv(FinishStep(w, db, request, r))
  {
    hide IntentOk, EventsOk, LastRow, FirstOpen;
    var w' := FinishStep(w, db, request, r);
    if w'.db != Some(db) {
      FinishKeepsEvents(db, request, r);
      IntentOkFrame(db, w'.db.value);
    }
  }

  lemma StageKeeps(w: World, c: Snapshot, p: Snapshot)
    requires Inv(w) && w.pc == Idle
    ensures Inv(StageCall(w, c, p))
  {
    if w.db == None && StageCall(w, c, p).db.Some? {
      var db := StageCall(w, c, p).db.value;
      assert |db.rows| == 1 && db.rows[0].operation == StageOp;
      FirstOpenAppend([], db.rows[0]);
      assert [] + [db.rows[0]] == db.rows;
      hide IntentOk, AdmissionOk, FirstOpen, LastRow;
      assert FirstOpen(db.rows) == None;
      assert DbOk(db);
    }
  }

  lemma OpenCallKeeps(w: World, db: Db, g: int, proof: OpenProof)
    requires Inv(w) && w.db == Some(db) && w.pc == Idle
    ensures Inv(OpenCall(w, db, g, proof))
  {
    var w' := OpenCall(w, db, g, proof);
    if w'.pc != Idle {
      var fence := IssuedFence(g, proof.lease.fencingToken, db.transitionSeq + 1);
      MoveKeeps(db, Intent, OpenOp, Opening, Some(fence), EMPTY.(proof := Some(proof), proofDigest := Some(proof)),
                w'.db.value);
    }
  }

  lemma DrainCallKeeps(w: World, db: Db, g: int)
    requires Inv(w) && w.db == Some(db) && w.pc == Idle
    ensures Inv(DrainCall(w, db, g))
  {
    var w' := DrainCall(w, db, g);
    if w'.db != w.db { MoveKeeps(db, Intent, DrainOp, Draining, None, EMPTY, w'.db.value); }
  }

  lemma ObserveCallKeeps(w: World, db: Db, request: string, at: int, result: Option<AdmissionResult>)
    requires Inv(w) && w.db == Some(db) && w.pc == Idle
    ensures Inv(ObserveCall(w, db, request, at, result))
  {
    hide Shape, AdmissionsOk, EventsOk;
    if ObserveCall(w, db, request, at, result).db != w.db { AdmittedKeeps(db, request, at, w.route); }
  }

  lemma LastIntentOk(db: Db)
    requires DbOk(db)
    ensures var k := LastRow(db.rows, OpenOp, Intent); k.Some? ==> IntentOk(db, db.rows[k.value])
  {
    hide LastRow, IntentOk, RouteOk, AdmissionsOk, EventsOk;
  }

  lemma ReconcileCallKeeps(w: World, db: Db)
    requires Inv(w) && w.db == Some(db) && w.pc == Idle
    ensures Inv(ReconcileCall(w, db))
  {
    hide DbOk, IntentOk, Outstanding, Unanswered, LeaseValid, LastRow, Id;
    LastIntentOk(db);
    var k := LastRow(db.rows, OpenOp, Intent);
    if k.Some? { NoteKeeps(db, Receipt, OpenOp, db.rows[k.value].fence, CANCELLED); }
  }

  lemma BeginKeeps(w: World, e: Event)
    requires Inv(w) && w.pc == Idle
    ensures Inv(Begin(w, e))
  {
    hide DbOk, StageCall, OpenCall, DrainCall, ObserveCall, ReconcileCall, Unanswered;
    if e.Stage? {
      StageKeeps(w, e.candidate, e.predecessor);
    } else if w.db.Some? {
      var db := w.db.value;
      match e
      case Close(_) => NoteKeeps(db, Intent, CloseOp, None, EMPTY);
      case Open(g, proof) => OpenCallKeeps(w, db, g, proof);
      case Drain(g) => DrainCallKeeps(w, db, g);
      case Observe(request, at, result) => ObserveCallKeeps(w, db, request, at, result);
      case Reconcile => ReconcileCallKeeps(w, db);
      case Rollback(_, _) =>
        NoteKeeps(db, Intent, RollbackOp, Some(PredecessorFence(db.predecessorGeneration)), EMPTY);
      case FailClose(_) => NoteKeeps(db, Intent, FailCloseOp, Some(ClosedFence), EMPTY);
      case _ =>
    }
  }

  lemma OpenReceiptKeeps(db: Db, op: Operation, fence: Fence, digest: Digest)
    requires DbOk(db) && db.state == Opening && digest == db.candidateDigest && op in {OpenOp, OpenReconcileOp}
    ensures OpenReceipt(db, op, fence, digest).Some? && DbOk(OpenReceipt(db, op, fence, digest).value)
  {
    MoveKeeps(db, Receipt, op, CandidateOpen, Some(fence), EMPTY.(observedCandidate := Some(digest)),
              OpenReceipt(db, op, fence, digest).value);
  }

  lemma CloseStepKeeps(w: World, db: Db, actual: RouteState)
    requires Inv(w) && w.db == Some(db)
    ensures Inv(CloseStep(w, db, actual))
  {
    var w' := CloseStep(w, db, actual);
    var observed := Some(Digest(actual.snapshot));
    if w'.pc != Idle {
      NoteKeeps(db, Receipt, CloseOp, Some(actual.fence), CANCELLED.(observedPredecessor := observed));
    } else if w'.db != w.db {
      MoveKeeps(db, Receipt, CloseOp, CandidateClosed, None,
                EMPTY.(actual := Some(actual), observedPredecessor := observed), w'.db.value);
    }
  }

  lemma DrainStepKeeps(w: World, db: Db)
    requires Inv(w) && w.db == Some(db) && db.state == Draining
    ensures Inv(DrainStep(w, db))
  {
    var w' := DrainStep(w, db);
    if w'.db != w.db { MoveKeeps(db, Receipt, DrainOp, CandidateOpen, None, EMPTY, w'.db.value); }
  }

  lemma FailCloseStepKeeps(w: World, db: Db, after: Then, seen: Option<RouteState>)
    requires Inv(w) && w.db == Some(db)
    ensures Inv(FailCloseStep(w, db, after, seen)) && Inv(RecoveredFailClose(w, db, seen))
  {
    hide Shape, RouteOk, AdmissionsOk, EventsOk;
    var w' := RecoveredFailClose(w, db, seen);
    if w'.db != w.db {
      MoveKeeps(db, Receipt, FailCloseOp, ClosedTarget(seen), None,
                EMPTY.(classification := Some(ClassOf(seen)), actual := seen), w'.db.value);
    }
  }

  lemma RollbackStepKeeps(w: World, db: Db, outcome: RollbackClass)
    requires Inv(w) && w.db == Some(db)
    ensures Inv(RollbackStep(w, db, outcome))
  {
    hide Shape, RouteOk, AdmissionsOk, EventsOk;
    var w' := RollbackStep(w, db, outcome);
    if w'.db != w.db {
      MoveKeeps(db, Receipt, RollbackOp, TargetOf(outcome), None,
                EMPTY.(classification := Some(outcome), actual := Some(w.route)), w'.db.value);
    }
  }

  lemma RecoveredRollbackKeeps(w: World, db: Db, seen: Option<RouteState>)
    requires Inv(w) && w.db == Some(db)
    ensures Inv(RecoveredRollback(w, db, seen))
  {
    hide Shape, RouteOk, AdmissionsOk, EventsOk, RecoveredOutcome;
    var w' := RecoveredRollback(w, db, seen);
    var outcome := RecoveredOutcome(db, seen);
    if w'.db != w.db {
      MoveKeeps(db, Receipt, RollbackOp, TargetOf(outcome), None,
                EMPTY.(classification := Some(outcome), actual := seen), w'.db.value);
    }
  }

  lemma UndoKeeps(w: World, db: Db, t: Traffic)
    requires Inv(w) && w.db == Some(db) && Undoing(w.pc)
    ensures Inv(AdvanceUndo(w, db, t))
  {
    hide DbOk, RollbackStep, RecoveredFailClose, RecoveredClose, RecoveredRollback, Persuasive, RestoredRoute;
    match w.pc
    case RbDecide(outcome) => RollbackStepKeeps(w, db, outcome);
    case RecFcDecide(seen) => FailCloseStepKeeps(w, db, ThenState, seen);
    case RecCloseDecide(seen) => RecoveredCloseKeeps(w, db, seen);
    case RecRbDecide(seen) => RecoveredRollbackKeeps(w, db, seen);
    case _ =>
  }

  lemma RecoveryFinishKeeps(w: World, db: Db, intent: Row, error: bool)
    requires Inv(w) && w.db == Some(db) && db.state == Opening
    ensures Inv(RecoveryFinish(w, db, intent, error))
  {
    hide Shape, RouteOk, AdmissionsOk, EventsOk;
    if error { NoteKeeps(db, Receipt, OpenOp, intent.fence, CANCELLED); }
    else { MoveKeeps(db, Receipt, OpenOp, FailedSafe, None, EMPTY, RecoveryFinish(w, db, intent, error).db.value); }
  }

  lemma ExamineKeeps(w: World, db: Db, t: Traffic)
    requires Inv(w) && w.db == Some(db) && Examining(w.pc)
    ensures Inv(AdvanceExamine(w, db, t))
  {
    hide DbOk, RecoveryFinish, OpenReceipt;
    match w.pc
    case RecQuery(intent) => NoteKeeps(db, Receipt, OpenOp, intent.fence, CANCELLED);
    case RecDecide(intent, actual) =>
      if CandidateMatches(db, actual, intent.fence.value, intent.detail.proof.value.candidateDigest) {
        OpenReceiptKeeps(db, OpenReconcileOp, actual.fence, Digest(actual.snapshot));
      } else {
        NoteKeeps(db, Intent, RecoveryCloseOp, Some(ClosedFence), EMPTY);
      }
    case RecCloseAllReceipt(_, _, seen) =>
      NoteKeeps(db, Receipt, RecoveryCloseOp, Some(ClosedFence), EMPTY.(actual := seen));
    case RecFinish(intent, error) => RecoveryFinishKeeps(w, db, intent, error);
    case _ =>
  }

  lemma ForwardKeeps(w: World, db: Db, t: Traffic)
    requires Inv(w) && w.db == Some(db) && w.pc != Idle && !Undoing(w.pc) && !Examining(w.pc)
    ensures Inv(AdvanceForward(w, db, t))
  {
    hide DbOk, FinishStep, CloseStep, DrainStep, FailCloseStep, OpenReceipt;
    match w.pc
    case CloseDecide(actual) => CloseStepKeeps(w, db, actual);
    case OpenDecide(proof, fence, actual) =>
      if CandidateMatches(db, actual, fence, proof.candidateDigest) {
        OpenReceiptKeeps(db, OpenOp, fence, Digest(actual.snapshot));
      } else {
        NoteKeeps(db, Receipt, OpenOp, Some(fence), CANCELLED);
      }
    case DrainCheck => DrainStepKeeps(w, db);
    case FinishRequest(request, r) => FinishKeeps(w, db, request, r);
    case FcIntent(_) => NoteKeeps(db, Intent, FailCloseOp, Some(ClosedFence), EMPTY);
    case FcDecide(after, seen) => FailCloseStepKeeps(w, db, after, seen);
    case _ =>
  }

  lemma AdvanceKeeps(w: World, db: Db, t: Traffic)
    requires Inv(w) && w.db == Some(db) && w.pc != Idle
    ensures Inv(Advance(w, db, t))
  {
    hide Inv, AdvanceUndo, AdvanceExamine, AdvanceForward;
    if Undoing(w.pc) { UndoKeeps(w, db, t); }
    else if Examining(w.pc) { ExamineKeeps(w, db, t); }
    else { ForwardKeeps(w, db, t); }
  }

  lemma RecoveredCloseKeeps(w: World, db: Db, seen: Option<RouteState>)
    requires Inv(w) && w.db == Some(db)
    ensures Inv(RecoveredClose(w, db, seen))
  {
    var r := RowOf(db, Receipt, RecoveryCloseOp, None, Some(ClosedFence), EMPTY.(actual := seen)).(from := Opening);
    var noted := Append(db, r);
    FirstOpenAppend(db.rows, r);
    AppendKeepsAdmissions(db, r);
    IntentOkFrame(db, noted);
    assert (db.rows + [r])[..|db.rows|] == db.rows;
    assert DbOk(noted);
    var w' := RecoveredClose(w, db, seen);
    if w'.db != w.db { MoveKeeps(noted, Receipt, OpenOp, ClosedTarget(seen), None, CANCELLED, w'.db.value); }
  }

  lemma StepKeeps(w: World, e: Event)
    requires Inv(w)
    ensures Inv(Step(w, e))
  {
    hide Begin, Advance;
    match e
    case Go(t) => if w.pc != Idle && w.db.Some? { AdvanceKeeps(w, w.db.value, t); }
    case Drift(_) =>
    case SetLease(_) =>
    case Tick(_) =>
    case Crash =>
    case _ => if w.pc == Idle { BeginKeeps(w, e); }
  }

  /** The gate invariant holds in every run from an unstaged gate. */
  lemma {:induction false} RunKeeps(w: World, events: seq<Event>)
    requires Inv(w)
    ensures Inv(Run(w, events))
    decreases |events|
  {
    if events != [] {
      RunKeeps(w, events[..|events| - 1]);
      StepKeeps(Run(w, events[..|events| - 1]), events[|events| - 1]);
    }
  }

  // ---------------------------------------------------------------- history

  /** The admission table only gains rows and finishes; the logs only gain entries; terminal states stay. */
  ghost predicate Extends(a: Option<Db>, b: Option<Db>) {
    a.Some? ==>
      && b.Some?
      && a.value.rows <= b.value.rows && a.value.events <= b.value.events
      && a.value.candidateGeneration == b.value.candidateGeneration && a.value.lease == b.value.lease
      && a.value.predecessor == b.value.predecessor && a.value.candidate == b.value.candidate
      && a.value.predecessorGeneration == b.value.predecessorGeneration
      && (Terminal(a.value.state) ==> b.value.state == a.value.state)
      && (forall id :: id in a.value.admissions ==>
            && id in b.value.admissions
            && b.value.admissions[id] == a.value.admissions[id].(finish := b.value.admissions[id].finish)
            && (a.value.admissions[id].finish.Some? ==> b.value.admissions[id] == a.value.admissions[id]))
  }

  lemma ExtendsTransitive(a: Option<Db>, b: Option<Db>, c: Option<Db>)
    requires Extends(a, b) && Extends(b, c)
    ensures Extends(a, c)
  {}

  lemma BeginExtends(w: World, e: Event)
    requires w.pc == Idle
    ensures Extends(w.db, Begin(w, e).db)
  {
    hide LastRow, PredecessorMatches, IsSha256, LeaseValid, Unanswered, Outstanding;
    if e.Stage? {
      hide CloseCall, OpenCall, DrainCall, ReconcileCall, RollbackCall, FailCloseIntent, ObserveCall;
    } else if e.Observe? {
      hide CloseCall, OpenCall, DrainCall, ReconcileCall, RollbackCall, FailCloseIntent, StageCall;
    } else if w.db.Some? {
      hide Begin;
      BeginTouches(w, e);
    }
  }

  lemma BeginTouches(w: World, e: Event)
    requires w.db.Some? && !e.Observe? && !e.Stage?
    ensures Begin(w, e).db.Some? && Touches(w.db.value, Begin(w, e).db.value)
  {
    hide LastRow, IsSha256, LeaseValid, Unanswered, Outstanding, ObserveCall, StageCall, Allowed;
    PrimitivesTouch(w.db.value);
    hide Note, Move;
    match e
    case Close(_) => return;
    case Open(_, _) => return;
    case Drain(_) => return;
    case Reconcile => return;
    case _ => return;
  }

  /** The parts of the database that audit rows and moves leave alone. */
  ghost predicate Touches(db: Db, db': Db) {
    && db.rows <= db'.rows && db.events == db'.events && db.admissions == db'.admissions
    && db.candidateGeneration == db'.candidateGeneration && db.predecessorGeneration == db'.predecessorGeneration
    && db.lease == db'.lease && db.predecessor == db'.predecessor && db.candidate == db'.candidate
    && (db'.state == db.state || Allowed(db.state, db'.state))
  }

  lemma PrimitivesTouch(db: Db)
    ensures forall k, op, f, d :: Touches(db, Note(db, k, op, f, d)) && Note(db, k, op, f, d).state == db.state
    ensures forall k, op, target, f, d {:trigger Move(db, k, op, target, f, d)} ::
              Move(db, k, op, target, f, d).Some? ==> Touches(db, Move(db, k, op, target, f, d).value)
  {}

  lemma UndoKeepsTables(w: World, db: Db, t: Traffic)
    requires w.db == Some(db)
    ensures AdvanceUndo(w, db, t).db.Some? && Touches(db, AdvanceUndo(w, db, t).db.value)
  {
    if w.pc.RecCloseDecide? {
      hide ClosedTarget, Allowed;
    } else {
      PrimitivesTouch(db);
      hide Note, Move, Persuasive, ClassOf, ClosedTarget, Allowed, RecoveredOutcome, TargetOf, RestoredRoute,
           RecoveredClose;
    }
  }

  lemma ExamineKeepsTables(w: World, db: Db, t: Traffic)
    requires w.db == Some(db)
    ensures AdvanceExamine(w, db, t).db.Some? && Touches(db, AdvanceExamine(w, db, t).db.value)
  {
    PrimitivesTouch(db);
    hide Note, Move, CandidateMatches, Allowed;
    match w.pc
    case RecDecide(_, _) => return;
    case RecFinish(_, _) => return;
    case RecQuery(_) => return;
    case RecCloseAllReceipt(_, _, _) => return;
    case _ => return;
  }

  lemma ForwardKeepsTables(w: World, db: Db, t: Traffic)
    requires w.db == Some(db) && !w.pc.FinishRequest?
    ensures AdvanceForward(w, db, t).db.Some? && Touches(db, AdvanceForward(w, db, t).db.value)
  {
    PrimitivesTouch(db);
    hide Note, Move, LeaseValid, PredecessorBusy, CandidateMatches, ClassOf, ClosedTarget, Allowed, FinishStep;
    match w.pc
    case CloseDecide(_) => return;
    case OpenEffect(_, _) => return;
    case OpenDecide(_, _, _) => return;
    case DrainCheck => return;
    case FcDecide(_, _) => return;
    case _ => return;
  }

  /** Continuing a call never touches the admission table, except to finish one request. */
  lemma AdvanceKeepsTables(w: World, db: Db, t: Traffic)
    requires w.db == Some(db) && !w.pc.FinishRequest?
    ensures Advance(w, db, t).db.Some? && Touches(db, Advance(w, db, t).db.value)
  {
    hide AdvanceUndo, AdvanceExamine, AdvanceForward, Touches;
    UndoKeepsTables(w, db, t);
    ExamineKeepsTables(w, db, t);
    ForwardKeepsTables(w, db, t);
  }

  lemma AdvanceExtends(w: World, db: Db, t: Traffic)
    requires w.db == Some(db)
    ensures Extends(w.db, Advance(w, db, t).db)
    ensures Advance(w, db, t).db.value.admissions.Keys == db.admissions.Keys
  {
    if w.pc.FinishRequest? {
    } else {
      hide Advance;
      AdvanceKeepsTables(w, db, t);
    }
  }

  lemma StepExtends(w: World, e: Event)
    ensures Extends(w.db, Step(w, e).db)
  {
    hide Begin, Advance;
    match e
    case Go(t) => if w.pc != Idle && w.db.Some? { AdvanceExtends(w, w.db.value, t); }
    case Drift(_) =>
    case SetLease(_) =>
    case Tick(_) =>
    case Crash =>
    case _ => if w.pc == Idle { BeginExtends(w, e); }
  }

  /** Each request keeps one generation and finishes at most once, and a terminal state is never left. */
  lemma {:induction false} RunExtends(w: World, events: seq<Event>)
    ensures Extends(w.db, Run(w, events).db)
    decreases |events|
  {
    if events != [] {
      var before := Run(w, events[..|events| - 1]);
      RunExtends(w, events[..|events| - 1]);
      StepExtends(before, events[|events| - 1]);
      ExtendsTransitive(w.db, before.db, Step(before, events[|events| - 1]).db);
    }
  }

  // ---------------------------------------------------------------- admission theorems

  /** Every run: candidate admissions follow the open receipt and carry its fence, predecessor
      admissions precede it, and the log holds one admit and at most one finish per request. */
  lemma EveryAdmissionIsSafe(w: World, events: seq<Event>, db: Db)
    requires w.db == None && w.pc == Idle && Run(w, events).db == Some(db)
    ensures forall id :: id in db.admissions ==>
              var a := db.admissions[id];
              var k := FirstOpen(db.rows);
              && (a.generation == db.predecessorGeneration || a.generation == db.candidateGeneration)
              && (a.generation == db.candidateGeneration ==>
                    k.Some? && k.value + 1 <= a.transitionSeq && db.rows[k.value].fence == Some(a.epoch))
              && (a.generation == db.predecessorGeneration ==>
                    a.epoch == PredecessorFence(db.predecessorGeneration)
                        && (k.Some? ==> a.transitionSeq < k.value + 1))
    ensures forall i, j :: 0 <= i < j < |db.events| && db.events[i].request == db.events[j].request ==>
              && db.events[i].kind == Admit && db.events[j].kind == Finish
              && db.events[i].generation == db.events[j].generation && db.events[i].epoch == db.events[j].epoch
  {
    RunKeeps(w, events);
  }

  /** A step that admits a request starts in a state that admits, on the recorded route. */
  lemma NothingAdmittedWhenBlocked(w: World, e: Event, id: string)
    requires Inv(w) && w.db.Some?
    requires id !in w.db.value.admissions && Step(w, e).db.Some? && id in Step(w, e).db.value.admissions
    ensures w.pc == Idle && e.Observe? && e.request == id
    ensures w.db.value.state in {CandidateStaged, CandidateClosed, CandidateOpen, Draining}
    ensures w.route.generation == w.db.value.routeGeneration && w.route.fence == w.db.value.routeFence
    ensures w.db.value.state in {CandidateOpen, Draining} ==> Digest(w.route.snapshot) == w.db.value.candidateDigest
    ensures w.db.value.state in {CandidateStaged, CandidateClosed} ==>
            Digest(w.route.snapshot) == w.db.value.predecessorDigest
  {
    if e.Go? {
      hide Advance;
      if w.pc != Idle { AdvanceExtends(w, w.db.value, e.traffic); }
    } else if e.Observe? {
      hide LastRow, Shape, AdmissionsOk, EventsOk, IsSha256;
    } else {
      hide Begin;
      if w.pc == Idle { BeginAdmitsOnlyByObserve(w, e); }
    }
  }

  lemma BeginAdmitsOnlyByObserve(w: World, e: Event)
    requires w.db.Some? && !e.Observe?
    ensures Begin(w, e).db.Some? && Begin(w, e).db.value.admissions == w.db.value.admissions
  {
    hide Begin;
    if !e.Stage? { BeginTouches(w, e); } else { StageKeepsTables(w, e); }
  }

  lemma StageKeepsTables(w: World, e: Event)
    requires w.db.Some? && e.Stage?
    ensures Begin(w, e).db == w.db
  {
    hide CloseCall, OpenCall, DrainCall, ReconcileCall, RollbackCall, FailCloseIntent, ObserveCall;
  }

  // ---------------------------------------------------------------- recovery

  predicate InReconcile(pc: Pc) {
    match pc
    case RecFcQuery | RecFcDecide(_) | RecCloseEffect | RecCloseQuery | RecCloseDecide(_) | RecRbQuery | RecRbDecide(_)
       | RecQuery(_) | RecDecide(_, _) | RecCloseAllEffect(_) | RecCloseAllQuery(_, _) | RecCloseAllReceipt(_, _, _)
       | RecFinish(_, _) => true
    case FcIntent(after) => after == ThenState
    case FcEffect(after) => after == ThenState
    case FcQuery(after) => after == ThenState
    case FcDecide(after, _) => after == ThenState
    case _ => false
  }

  /** How many continuations a call needs at most. */
  function Remaining(pc: Pc): nat {
    match pc
    case Idle => 0
    case CloseEffect => 7 case CloseQuery => 6 case CloseDecide(_) => 5
    case OpenEffect(_, _) => 7 case OpenQuery(_, _) => 6 case OpenDecide(_, _, _) => 5
    case DrainCheck => 1 case FinishRequest(_, _) => 1
    case FcIntent(_) => 4 case FcEffect(_) => 3 case FcQuery(_) => 2 case FcDecide(_, _) => 1
    case RbEffect(_) => 3 case RbClose => 2 case RbDecide(_) => 1
    case RecFcQuery => 2 case RecFcDecide(_) => 1
    case RecCloseEffect => 3 case RecCloseQuery => 2 case RecCloseDecide(_) => 1
    case RecRbQuery => 2 case RecRbDecide(_) => 1
    case RecQuery(_) => 10 case RecDecide(_, _) => 9
    case RecCloseAllEffect(_) => 8 case RecCloseAllQuery(_, _) => 7 case RecCloseAllReceipt(_, _,
            _) => 6 case RecFinish(_, _) => 5
  }

  /** Left alone by crashes, every call ends within ten continuations, whatever the adapter answers. */
  lemma EveryCallEnds(w: World, t: Traffic)
    requires Inv(w) && w.pc != Idle
    ensures Remaining(Step(w, Go(t)).pc) < Remaining(w.pc) <= 10
  {
    hide Note, Move, DbOk, CandidateMatches, Persuasive, PredecessorBusy, LeaseValid, RestoredRoute, RecoveredOutcome;
    hide AdvanceUndo, AdvanceExamine, AdvanceForward;
    UndoEnds(w, w.db.value, t);
    ExamineEnds(w, w.db.value, t);
    ForwardEnds(w, w.db.value, t);
  }

  lemma UndoEnds(w: World, db: Db, t: Traffic)
    ensures Undoing(w.pc) ==> Remaining(AdvanceUndo(w, db, t).pc) < Remaining(w.pc)
  {
    hide Move, Persuasive, RestoredRoute, RecoveredOutcome;
  }

  lemma ExamineEnds(w: World, db: Db, t: Traffic)
    ensures Examining(w.pc) ==> Remaining(AdvanceExamine(w, db, t).pc) < Remaining(w.pc)
  {
    hide Note, Move, CandidateMatches;
  }

  lemma ForwardEnds(w: World, db: Db, t: Traffic)
    ensures w.pc != Idle && !Undoing(w.pc) && !Examining(w.pc) ==>
            Remaining(AdvanceForward(w, db, t).pc) < Remaining(w.pc)
  {
    hide Note, Move, CandidateMatches, PredecessorBusy, LeaseValid;
  }

  /** What one continuation of a reconcile from OPENING does: the route it asks for is the one it decides on. */
  predicate ReconcileProgress(w: World, t: Traffic, w': World) {
    && w.db.Some? && w'.db.Some? && !w'.pc.RecQuery?
    && (w'.pc != Idle ==>
        InReconcile(w'.pc) && !w'.pc.RecRbQuery? && !w'.pc.RecRbDecide? && w'.db.value.state == Opening)
    && (w'.pc.RecDecide? <==> w.pc.RecQuery? && t == Works)
    && (w'.pc.RecDecide? ==> w'.db == w.db && w'.pc.intent == w.pc.intent && w'.pc.actual == w.route)
    && (w'.pc == Idle ==>
          && w'.ret == Returned(VState(w'.db.value.state))
          && w'.db.value.state in {CandidateOpen, FailedSafe, SafetyUnknown})
    && (w'.pc == Idle && w'.db.value.state == CandidateOpen <==>
          && w.pc.RecDecide? && w.pc.intent.fence.Some?
          && CandidateMatches(w.db.value, w.pc.actual, w.pc.intent.fence.value, w.db.value.candidateDigest))
  }

  lemma ExamineProgress(w: World, db: Db, t: Traffic)
    requires Inv(w) && w.db == Some(db) && Examining(w.pc)
    ensures ReconcileProgress(w, t, AdvanceExamine(w, db, t))
  {
    hide DbOk;
  }

  lemma FailCloseProgress(w: World, db: Db, t: Traffic)
    requires Inv(w) && w.db == Some(db) && !Examining(w.pc) && !Undoing(w.pc) && InReconcile(w.pc)
    ensures ReconcileProgress(w, t, AdvanceForward(w, db, t))
  {
    hide DbOk, CloseStep, OpenStep, OpenEffectStep, DrainStep, FinishStep;
  }

  lemma UndoProgress(w: World, db: Db, t: Traffic)
    requires Inv(w) && w.db == Some(db) && Undoing(w.pc) && InReconcile(w.pc) && !w.pc.RecRbQuery? && !w.pc.RecRbDecide?
    requires db.state == Opening
    ensures ReconcileProgress(w, t, AdvanceUndo(w, db, t))
  {
    hide DbOk, RestoreStep, RollbackStep, RecoveredRollback;
  }

  /** One continuation of a reconcile that started from OPENING with no rollback outstanding. */
  lemma GoReconcile(w: World, t: Traffic)
    requires Inv(w) && InReconcile(w.pc) && !w.pc.RecRbQuery? && !w.pc.RecRbDecide? && w.db.value.state == Opening
    ensures ReconcileProgress(w, t, Step(w, Go(t)))
  {
    hide DbOk, AdvanceUndo, AdvanceExamine, AdvanceForward, ReconcileProgress;
    if Undoing(w.pc) { UndoProgress(w, w.db.value, t); }
    else if Examining(w.pc) { ExamineProgress(w, w.db.value, t); }
    else { FailCloseProgress(w, w.db.value, t); }
  }

  /** What makes reconcile take its rollback branch: a rollback outstanding, and neither a fail_close nor a recovery
      close to settle first. */
  predicate Blocks(rows: seq<Row>) {
    Outstanding(rows, RollbackOp) && !Outstanding(rows, FailCloseOp) && !Unanswered(rows, RecoveryCloseOp)
  }

  /** Nothing for reconcile to settle. */
  predicate Quiet(rows: seq<Row>) {
    !Outstanding(rows, FailCloseOp) && !Unanswered(rows, RecoveryCloseOp) && !Outstanding(rows, RollbackOp)
  }

  /** Events during one uninterrupted call: its continuations and any move of the environment. */
  predicate Uninterrupted(e: Event) { e.Go? || e.Drift? || e.SetLease? || e.Tick? }

  /** Reconcile asked for the route of the interrupted open, and this was the answer. */
  ghost predicate Observed(w1: World, events: seq<Event>, r: RouteState) {
    exists i :: 0 <= i < |events| && events[i] == Go(Works) && Run(w1, events[..i]).pc.RecQuery?
        && Run(w1, events[..i]).route == r
  }

  /** The answer was the candidate under the intent's fence. */
  ghost predicate SawCandidate(w1: World, events: seq<Event>, db0: Db, fence: Fence) {
    exists r :: Observed(w1, events, r) && CandidateMatches(db0, r, fence, db0.candidateDigest)
  }

  /** What a reconcile of the interrupted open `db0` may have done after `events`. */
  ghost predicate Justified(w0: World, w1: World, events: seq<Event>, db0: Db, fence: Fence) {
    var w := Run(w1, events);
    && w.db.Some?
    && (w.pc.RecQuery? ==>
        w.db == Some(db0) && w.pc.intent.fence == Some(fence) && forall r :: !Observed(w1, events, r))
    && (w.pc.RecDecide? ==>
          && w.db == Some(db0) && w.pc.intent.fence == Some(fence)
          && forall r :: Observed(w1, events, r) <==> r == w.pc.actual)
    && (w.pc.RecQuery? || (exists r :: Observed(w1, events, r)) ==> LeaseValid(w0, db0.lease))
    && (w.pc != Idle ==> InReconcile(w.pc) && !w.pc.RecRbQuery? && !w.pc.RecRbDecide? && w.db.value.state == Opening)
    && (w.pc != Idle && !w.pc.RecDecide? ==> !SawCandidate(w1, events, db0, fence))
    && (w.pc == Idle ==>
          && w.ret == Returned(VState(w.db.value.state))
          && w.db.value.state in {CandidateOpen, FailedSafe, SafetyUnknown}
          && (w.db.value.state == CandidateOpen <==> SawCandidate(w1, events, db0, fence)))
  }

  lemma ObservedSnoc(w1: World, events: seq<Event>, e: Event)
    ensures forall r :: Observed(w1, events + [e], r) <==>
              Observed(w1, events, r) || (e == Go(Works) && Run(w1, events).pc.RecQuery? && Run(w1, events).route == r)
  {
    hide Run;
    var all := events + [e];
    assert all[..|events|] == events;
    assert forall i :: 0 <= i < |events| ==> all[i] == events[i] && all[..i] == events[..i];
    forall r | Observed(w1, events, r) ensures Observed(w1, all, r) {
      var i :| 0 <= i < |events| && events[i] == Go(Works) && Run(w1, events[..i]).pc.RecQuery?
          && Run(w1, events[..i]).route == r;
      assert all[i] == events[i] && all[..i] == events[..i];
    }
    if e == Go(Works) && Run(w1, events).pc.RecQuery? {
      assert all[|events|] == e && Observed(w1, all, Run(w1, events).route);
    }
  }

  lemma GoJustified(w0: World, w1: World, events: seq<Event>, t: Traffic, db0: Db, fence: Fence)
    requires Inv(Run(w1, events)) && Justified(w0, w1, events, db0, fence) && Run(w1, events).pc != Idle
    requires Run(w1, events + [Go(t)]) == Step(Run(w1, events), Go(t))
    ensures Justified(w0, w1, events + [Go(t)], db0, fence)
  {
    hide Run, Inv, Step, Observed, LeaseValid, InReconcile, CandidateMatches;
    GoReconcile(Run(w1, events), t);
    ObservedSnoc(w1, events, Go(t));
  }

  lemma EnvironmentJustified(w0: World, w1: World, events: seq<Event>, e: Event, db0: Db, fence: Fence)
    requires Justified(w0, w1, events, db0, fence) && Uninterrupted(e) && (e.Go? ==> Run(w1, events).pc == Idle)
    requires Run(w1, events + [e]) == Step(Run(w1, events), e)
    ensures Justified(w0, w1, events + [e], db0, fence)
  {
    hide Run, Observed, LeaseValid, InReconcile, CandidateMatches, Advance, Begin;
    ObservedSnoc(w1, events, e);
  }

  lemma ReconcileStarts(w0: World, db0: Db, fence: Fence)
    requires Inv(w0) && w0.pc == Idle && w0.db == Some(db0) && db0.state == Opening
    requires !Blocks(db0.rows)
    requires LastRow(db0.rows, OpenOp, Intent).Some?
             && db0.rows[LastRow(db0.rows, OpenOp, Intent).value].fence == Some(fence)
    ensures Justified(w0, Step(w0, Reconcile), [], db0, fence)
  {
    hide RouteOk, AdmissionsOk, EventsOk, Outstanding, Unanswered;
  }

  /** Crash-free reconcile of an interrupted open that does not take its rollback branch: it never raises, and when it
      ends it has left OPENING: for CANDIDATE_OPEN if and only if it asked for the route, which it does under a current
      lease only, and was shown the candidate under the intent's fence; otherwise for an absorbing state. */
  lemma {:induction false} ReconcileIsJustified(w0: World, events: seq<Event>, db0: Db, fence: Fence)
    requires Inv(w0) && w0.pc == Idle && w0.db == Some(db0) && db0.state == Opening
    requires !Blocks(db0.rows)
    requires LastRow(db0.rows, OpenOp, Intent).Some?
             && db0.rows[LastRow(db0.rows, OpenOp, Intent).value].fence == Some(fence)
    requires forall i :: 0 <= i < |events| ==> Uninterrupted(events[i])
    ensures Justified(w0, Step(w0, Reconcile), events, db0, fence)
    decreases |events|
  {
    hide Inv, Step, Justified, Run;
    var w1 := Step(w0, Reconcile);
    if events == [] {
      ReconcileStarts(w0, db0, fence);
    } else {
      var before, last := events[..|events| - 1], events[|events| - 1];
      assert events == before + [last];
      ReconcileIsJustified(w0, before, db0, fence);
      StepKeeps(w0, Reconcile);
      RunKeeps(w1, before);
      RunLast(w1, before, last);
      if last.Go? && Run(w1, before).pc != Idle {
        GoJustified(w0, w1, before, last.traffic, db0, fence);
      } else {
        EnvironmentJustified(w0, w1, before, last, db0, fence);
      }
    }
  }

  lemma RunLast(w: World, events: seq<Event>, e: Event)
    ensures Run(w, events + [e]) == Step(Run(w, events), e)
  {
    hide Step;
    assert (events + [e])[..|events|] == events;
  }
}
