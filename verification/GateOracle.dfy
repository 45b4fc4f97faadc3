/** The offline trace oracle (evaluate_trace in src/vllm_hust_ext/exposure_gate.py) and when the gate satisfies it. */
module GateOracle {
  import opened Basics
  import opened Gate
  import opened GateSafety

  // ---------------------------------------------------------------- what the oracle checks

  /** The oracle's own table; its DRAINING row is narrower than the gate's. */
  predicate OracleAllows(s: GateState, t: GateState) {
    if s == Draining then t == CandidateOpen else Allowed(s, t)
  }

  /** The state reached by replaying the rows. */
  function Replay(rows: seq<Row>): GateState {
    if rows == [] then PredecessorOpen
    else match rows[|rows| - 1].to
      case Some(t) => t
      case None => Replay(rows[..|rows| - 1])
  }

  /** The intents without a later receipt. */
  function Pending(rows: seq<Row>): set<Correlation> {
    if rows == [] then {} else PendingAfter(Pending(rows[..|rows| - 1]), rows[|rows| - 1])
  }

  function PendingAfter(pending: set<Correlation>, r: Row): set<Correlation> {
    if r.kind == Intent then pending + {r.id}
    else if r.operation == StageOp then pending
    else pending - {r.id}
  }

  /** A row continues the replayed state and pairs with its intent. */
  predicate Paired(replayed: GateState, pending: set<Correlation>, r: Row) {
    && r.from == replayed
    && (r.kind == Intent ==> r.id !in pending)
    && (r.kind == Receipt && r.operation != StageOp ==> r.id in pending)
  }

  predicate RowPasses(db: Db, replayed: GateState, pending: set<Correlation>, r: Row) {
    && Paired(replayed, pending, r)
    && (r.to.Some? && r.to.value != replayed ==> OracleAllows(replayed, r.to.value))
    && r.generation == db.candidateGeneration
  }

  ghost predicate RowsPass(db: Db) {
    forall i :: 0 <= i < |db.rows| ==> RowPasses(db, Replay(db.rows[..i]), Pending(db.rows[..i]), db.rows[i])
  }

  predicate OpenReceiptPasses(db: Db, r: Row) {
    IsOpenReceipt(r) ==> r.detail.observedCandidate == Some(db.candidateDigest)
  }

  predicate CloseReceiptPasses(db: Db, r: Row) {
    (r.operation == CloseOp && r.kind == Receipt && !r.detail.cancelled && r.detail.observedPredecessor.Some?) ==>
      r.detail.observedPredecessor == Some(db.predecessorDigest)
  }

  /** The final route clause. */
  predicate FinalRoutePasses(db: Db) {
    db.state == CandidateOpen ==>
      && db.routeGeneration == Some(db.candidateGeneration)
      && FirstOpen(db.rows).Some? && db.rows[FirstOpen(db.rows).value].fence == Some(db.routeFence)
      && db.observedCandidate == Some(db.candidateDigest)
  }

  predicate AdmissionPasses(db: Db, a: Admission) {
    var k := FirstOpen(db.rows);
    && (a.generation == db.candidateGeneration ==> k.Some? && k.value + 1 <= a.transitionSeq)
    && (a.generation == db.predecessorGeneration && k.Some? ==> a.transitionSeq < k.value + 1)
    && (a.generation == db.candidateGeneration || a.generation == db.predecessorGeneration)
    && (a.generation == db.candidateGeneration ==> k.Some? && db.rows[k.value].fence == Some(a.epoch))
    && (a.generation == db.predecessorGeneration ==> a.epoch == PredecessorFence(db.predecessorGeneration))
  }

  /** No request appears with two generations. */
  ghost predicate EventsPass(events: seq<AdmissionEvent>) {
    forall i, j :: 0 <= i < j < |events| && events[i].request == events[j].request ==>
        events[i].generation == events[j].generation
  }

  /** Everything the oracle demands of a trace, said without loops. */
  ghost predicate Passes(db: Db) {
    && db.rows != []
    && RowsPass(db) && Pending(db.rows) == {} && Replay(db.rows) == db.state
    && FinalRoutePasses(db)
    && (forall i :: 0 <= i < |db.rows| ==> OpenReceiptPasses(db, db.rows[i]) && CloseReceiptPasses(db, db.rows[i]))
    && EventsPass(db.events)
    && (forall id :: id in db.admissions ==> AdmissionPasses(db, db.admissions[id]))
  }

  datatype OracleError =
    | Missing | SourceMismatch(seqNo: nat) | DuplicateIntent(id: Correlation) | ReceiptWithoutIntent(id: Correlation)
    | UnknownTransition(from: GateState, to: GateState) | GenerationMismatch(seqNo: nat) | UnpairedIntents
    | FinalStateMismatch | MultipleOpenGenerations | FinalRouteMismatch | OpenSnapshotMismatch | CloseSnapshotMismatch
    | CrossedGeneration(request: string) | CandidateBeforeOpen(request: string) | PredecessorAfterOpen(request: string)
    | UnknownGeneration(request: string) | CandidateFence(request: string) | PredecessorFenceMismatch(request: string)

  // ---------------------------------------------------------------- the oracle itself

  /** Replays the transition rows, accumulating errors. */
  method ReplayTransitions(db: Db) returns (errors: seq<OracleError>)
    ensures errors == [] <==> RowsPass(db) && Pending(db.rows) == {} && Replay(db.rows) == db.state
  {
    hide Replay, Pending, OracleAllows;
    ReplayEmpty();
    errors := [];
    var replayed := PredecessorOpen;
    var pending: set<Correlation> := {};
    for i := 0 to |db.rows|
      invariant replayed == Replay(db.rows[..i]) && pending == Pending(db.rows[..i])
      invariant errors == [] <==>
                forall j :: 0 <= j < i ==> RowPasses(db, Replay(db.rows[..j]), Pending(db.rows[..j]), db.rows[j])
    {
      var row := db.rows[i];
      assert db.rows[..i + 1] == db.rows[..i] + [row];
      ReplayAppend(db.rows[..i], row);
      if row.from != replayed { errors := errors + [SourceMismatch(i + 1)]; }
      if row.kind == Intent {
        if row.id in pending { errors := errors + [DuplicateIntent(row.id)]; }
        pending := pending + {row.id};
      } else if row.operation != StageOp {
        if row.id !in pending { errors := errors + [ReceiptWithoutIntent(row.id)]; }
        pending := pending - {row.id};
      }
      if row.to.Some? && row.to.value != replayed {
        if !OracleAllows(replayed, row.to.value) { errors := errors + [UnknownTransition(replayed, row.to.value)]; }
        replayed := row.to.value;
      }
      if row.generation != db.candidateGeneration { errors := errors + [GenerationMismatch(i + 1)]; }
    }
    assert db.rows[..|db.rows|] == db.rows;
    if pending != {} { errors := errors + [UnpairedIntents]; }
    if replayed != db.state { errors := errors + [FinalStateMismatch]; }
  }

  /** Checks what open and close receipts say they observed. */
  method CheckReceipts(db: Db) returns (errors: seq<OracleError>)
    ensures errors == [] <==>
            forall i :: 0 <= i < |db.rows| ==> OpenReceiptPasses(db, db.rows[i]) && CloseReceiptPasses(db, db.rows[i])
  {
    errors := [];
    for i := 0 to |db.rows|
      invariant errors == [] <==>
                forall j :: 0 <= j < i ==> OpenReceiptPasses(db, db.rows[j]) && CloseReceiptPasses(db, db.rows[j])
    {
      if !OpenReceiptPasses(db, db.rows[i]) { errors := errors + [OpenSnapshotMismatch]; }
      if !CloseReceiptPasses(db, db.rows[i]) { errors := errors + [CloseSnapshotMismatch]; }
    }
  }

  /** Remembers the first generation of each request and compares the rest with it. */
  method CheckEvents(events: seq<AdmissionEvent>) returns (errors: seq<OracleError>)
    ensures errors == [] <==> EventsPass(events)
  {
    errors := [];
    var seen: map<string, int> := map[];
    for i := 0 to |events|
      invariant forall r :: r in seen <==> exists j :: 0 <= j < i && events[j].request == r
      invariant forall r :: r in seen ==>
                  exists j :: 0 <= j < i && events[j].request == r && events[j].generation == seen[r]
      invariant errors == [] <==> EventsPass(events[..i])
      invariant errors == [] ==> forall j :: 0 <= j < i ==>
                events[j].request in seen && events[j].generation == seen[events[j].request]
    {
      var e := events[i];
      if e.request !in seen {
        seen := seen[e.request := e.generation];
      } else if seen[e.request] != e.generation {
        ghost var k :| 0 <= k < i && events[k].request == e.request && events[k].generation == seen[e.request];
        assert events[..i + 1][k] == events[k] && events[..i + 1][i] == e;
        errors := errors + [CrossedGeneration(e.request)];
      }
      assert events[..i + 1] == events[..i] + [e];
    }
    assert events[..|events|] == events;
  }

  /** The checks on one admission row. */
  function AdmissionErrors(db: Db, id: string, a: Admission): seq<OracleError> {
    var k := FirstOpen(db.rows);
    var fence := if k.Some? then db.rows[k.value].fence else None;
    (if a.generation == db.candidateGeneration && (k == None || a.transitionSeq < k.value + 1) then
     [CandidateBeforeOpen(id)] else [])
    + (if a.generation == db.predecessorGeneration && k.Some? && a.transitionSeq >= k.value + 1 then
       [PredecessorAfterOpen(id)] else [])
    + (if a.generation != db.candidateGeneration && a.generation != db.predecessorGeneration then
       [UnknownGeneration(id)] else [])
    + (if a.generation == db.candidateGeneration && fence != Some(a.epoch) then [CandidateFence(id)] else [])
    + (if a.generation == db.predecessorGeneration && a.epoch != PredecessorFence(db.predecessorGeneration)
       then [PredecessorFenceMismatch(id)] else [])
  }

  method CheckAdmissions(db: Db) returns (errors: seq<OracleError>)
    ensures errors == [] <==> forall id :: id in db.admissions ==> AdmissionPasses(db, db.admissions[id])
  {
    errors := [];
    var left := db.admissions.Keys;
    while left != {}
      invariant left <= db.admissions.Keys
      invariant errors == [] <==>
                forall id :: id in db.admissions && id !in left ==> AdmissionPasses(db, db.admissions[id])
    {
      var id :| id in left;
      errors := errors + AdmissionErrors(db, id, db.admissions[id]);
      left := left - {id};
    }
  }

  lemma OneGeneration(db: Db, generations: set<int>)
    requires generations == set i | 0 <= i < |db.rows| && IsOpenReceipt(db.rows[i]) :: db.rows[i].generation
    requires |generations| > 1
    ensures !RowsPass(db)
  {
    if RowsPass(db) {
      forall g | g in generations ensures g == db.candidateGeneration {
        var i :| 0 <= i < |db.rows| && IsOpenReceipt(db.rows[i]) && db.rows[i].generation == g;
        assert RowPasses(db, Replay(db.rows[..i]), Pending(db.rows[..i]), db.rows[i]);
      }
      assert generations <= {db.candidateGeneration};
      SubsetSize(generations, {db.candidateGeneration});
      assert false;
    }
  }

  lemma SubsetSize<T>(a: set<T>, b: set<T>)
    requires a <= b
    ensures |a| <= |b|
  {
    assert b == a + (b - a);
  }

  /** The oracle: it reports no error exactly on the traces that pass declaratively. */
  method EvaluateTrace(store: Option<Db>) returns (errors: seq<OracleError>, firstOpenSeq: Option<nat>)
    ensures errors == [] <==> store.Some? && Passes(store.value)
    ensures firstOpenSeq.Some? ==>
            store.Some? && firstOpenSeq.value > 0 && FirstOpen(store.value.rows) == Some(firstOpenSeq.value - 1)
  {
    if store == None || store.value.rows == [] { return [Missing], None; }
    var db := store.value;
    firstOpenSeq := match FirstOpen(db.rows) case None => None case Some(k) => Some(k + 1);
    errors := ReplayTransitions(db);
    var generations := set i | 0 <= i < |db.rows| && IsOpenReceipt(db.rows[i]) :: db.rows[i].generation;
    if |generations| > 1 {
      OneGeneration(db, generations);
      errors := errors + [MultipleOpenGenerations];
    }
    if !FinalRoutePasses(db) { errors := errors + [FinalRouteMismatch]; }
    var receipts := CheckReceipts(db);
    var events := CheckEvents(db.events);
    var admissions := CheckAdmissions(db);
    errors := errors + receipts + events + admissions;
  }

  // ---------------------------------------------------------------- clean runs

  /** A row by which the gate left DRAINING for a terminal state. */
  predicate IsEscape(r: Row) { r.from == Draining && r.to.Some? && Terminal(r.to.value) }

  ghost predicate Escaped(rows: seq<Row>) { exists i :: 0 <= i < |rows| && IsEscape(rows[i]) }

  /** What every row of a clean run satisfies; the move is checked against the gate's own table. */
  predicate CleanRow(db: Db, replayed: GateState, pending: set<Correlation>, r: Row) {
    && Paired(replayed, pending, r)
    && (r.to.Some? ==> r.to.value == replayed || Allowed(replayed, r.to.value))
    && r.generation == db.candidateGeneration && r.id == Id(r.operation, db.candidateGeneration)
    && OpenReceiptPasses(db, r) && CloseReceiptPasses(db, r)
  }

  ghost predicate CleanDb(db: Db, pending: set<Correlation>) {
    && (forall i :: 0 <= i < |db.rows| ==> CleanRow(db, Replay(db.rows[..i]), Pending(db.rows[..i]), db.rows[i]))
    && Replay(db.rows) == db.state && Pending(db.rows) == pending
    && (Escaped(db.rows) ==> Terminal(db.state))
  }

  /** The operation whose intent the running call has recorded and not yet answered. */
  function CallOperation(pc: Pc): Option<Operation> {
    match pc
    case CloseEffect | CloseQuery | CloseDecide(_) => Some(CloseOp)
    case OpenEffect(_, _) | OpenQuery(_, _) | OpenDecide(_, _, _) => Some(OpenOp)
    case FcEffect(_) | FcQuery(_) | FcDecide(_, _) => Some(FailCloseOp)
    case RbEffect(_) | RbClose | RbDecide(_) => Some(RollbackOp)
    case _ => None
  }

  /** A drain stays pending while DRAINING, and for ever once DRAINING was left for a terminal state. */
  ghost function DrainPending(db: Db): set<Correlation> {
    if db.state == Draining || Escaped(db.rows) then {Id(DrainOp, db.candidateGeneration)} else {}
  }

  ghost function ExpectedPending(db: Db, pc: Pc): set<Correlation> {
    match CallOperation(pc)
    case None => DrainPending(db)
    case Some(op) => DrainPending(db) + {Id(op, db.candidateGeneration)}
  }

  predicate CleanPc(db: Db, pc: Pc) {
    && !InReconcile(pc) && (pc == Idle || pc.FinishRequest? ==> db.state != Opening)
    && (pc.CloseEffect? || pc.CloseQuery? || pc.CloseDecide? ==> db.state != CandidateClosed)
  }

  ghost predicate CleanInv(w: World) {
    w.clean && w.db.Some? ==>
      CleanDb(w.db.value, ExpectedPending(w.db.value, w.pc)) && CleanPc(w.db.value, w.pc)
  }

  lemma ReplayEmpty()
    ensures Replay([]) == PredecessorOpen && Pending([]) == {}
  {}

  lemma ReplayAppend(rows: seq<Row>, r: Row)
    ensures Replay(rows + [r]) == (if r.to.Some? then r.to.value else Replay(rows))
    ensures Pending(rows + [r]) == PendingAfter(Pending(rows), r)
    ensures Escaped(rows + [r]) <==> Escaped(rows) || IsEscape(r)
  {
    assert (rows + [r])[..|rows|] == rows;
    if Escaped(rows) {
      var i :| 0 <= i < |rows| && IsEscape(rows[i]);
      assert IsEscape((rows + [r])[i]);
    }
    if IsEscape(r) { assert IsEscape((rows + [r])[|rows|]); }
  }

  /** Appending a clean row keeps the trace clean. */
  lemma AppendClean(db: Db, pending: set<Correlation>, r: Row, db': Db)
    requires CleanDb(db, pending) && CleanRow(db, db.state, pending, r)
    requires db'.rows == db.rows + [r] && db'.candidateGeneration == db.candidateGeneration
    requires db'.candidateDigest == db.candidateDigest && db'.predecessorDigest == db.predecessorDigest
    requires db'.state == if r.to.Some? then r.to.value else db.state
    ensures CleanDb(db', PendingAfter(pending, r))
    ensures Escaped(db'.rows) <==> Escaped(db.rows) || IsEscape(r)
  {
    hide Replay, Pending, IsOpenReceipt, Escaped;
    ReplayAppend(db.rows, r);
    forall i | 0 <= i < |db'.rows|
      ensures CleanRow(db', Replay(db'.rows[..i]), Pending(db'.rows[..i]), db'.rows[i])
    {
      assert db'.rows[..i] == db.rows[..i];
      if i < |db.rows| { assert CleanRow(db, Replay(db.rows[..i]), Pending(db.rows[..i]), db.rows[i]); }
      else { assert db.rows[..i] == db.rows; }
    }
  }

  lemma NoteClean(db: Db, pending: set<Correlation>, kind: Kind, op: Operation, fence: Option<Fence>, detail: Detail)
    requires CleanDb(db, pending) && op != StageOp
    requires kind == Intent <==> Id(op, db.candidateGeneration) !in pending
    requires CloseReceiptPasses(db, RowOf(db, kind, op, None, fence, detail))
    ensures var db' := Note(db, kind, op, fence, detail);
            && CleanDb(db', if kind == Intent then pending + {Id(op, db.candidateGeneration)}
                       else pending - {Id(op, db.candidateGeneration)})
            && (Escaped(db'.rows) <==> Escaped(db.rows))
  {
    hide CleanDb, Escaped;
    AppendClean(db, pending, RowOf(db, kind, op, None, fence, detail), Note(db, kind, op, fence, detail));
  }

  lemma MoveClean(db: Db, pending: set<Correlation>, kind: Kind, op: Operation, target: GateState, fence: Option<Fence>,
                  detail: Detail, db': Db)
    requires CleanDb(db, pending) && op != StageOp && Move(db, kind, op, target, fence, detail).Some?
    requires kind == Intent <==> Id(op, db.candidateGeneration) !in pending
    requires CloseReceiptPasses(db, RowOf(db, kind, op, Some(target), fence, detail))
    requires OpenReceiptPasses(db, RowOf(db, kind, op, Some(target), fence, detail))
    requires var m := Move(db, kind, op, target, fence, detail).value;
             db' == m.(routeGeneration := db'.routeGeneration, routeFence := db'.routeFence,
                       observedCandidate := db'.observedCandidate, observedPredecessor := db'.observedPredecessor,
                       proofDigest := db'.proofDigest)
    ensures CleanDb(db', if kind == Intent then pending + {Id(op, db.candidateGeneration)}
                    else pending - {Id(op, db.candidateGeneration)})
    ensures Escaped(db'.rows) <==> Escaped(db.rows) || (db.state == Draining && Terminal(target))
  {
    hide CleanDb, Escaped;
    AppendClean(db, pending, RowOf(db, kind, op, Some(target), fence, detail), db');
  }

  /** An outstanding intent is a pending one. */
  lemma {:induction false} OutstandingIsPending(rows: seq<Row>, op: Operation, g: int)
    requires op in {CloseOp, FailCloseOp, RollbackOp, RecoveryCloseOp}
    requires forall i :: 0 <= i < |rows| ==> rows[i].id == Id(rows[i].operation, g)
    ensures Outstanding(rows, op) ==> Id(op, g) in Pending(rows)
    ensures Unanswered(rows, op) ==> Id(op, g) in Pending(rows)
    decreases |rows|
  {
    if rows != [] { OutstandingIsPending(rows[..|rows| - 1], op, g); }
  }

  lemma NothingOutstanding(w: World, db: Db)
    requires CleanInv(w) && w.clean && w.db == Some(db) && w.pc == Idle
    ensures !Outstanding(db.rows, FailCloseOp) && !Outstanding(db.rows, RollbackOp)
    ensures !Unanswered(db.rows, RecoveryCloseOp) && !Unanswered(db.rows, CloseOp)
  {
    hide Outstanding, Unanswered, Pending, Replay, Escaped;
    assert forall i :: 0 <= i < |db.rows| ==> db.rows[i].id == Id(db.rows[i].operation, db.candidateGeneration);
    OutstandingIsPending(db.rows, FailCloseOp, db.candidateGeneration);
    OutstandingIsPending(db.rows, RollbackOp, db.candidateGeneration);
    OutstandingIsPending(db.rows, RecoveryCloseOp, db.candidateGeneration);
    OutstandingIsPending(db.rows, CloseOp, db.candidateGeneration);
  }

  lemma StageClean(w: World, c: Snapshot, p: Snapshot)
    requires CleanInv(w) && w.pc == Idle
    ensures CleanInv(StageCall(w, c, p))
  {
    var w' := StageCall(w, c, p);
    if w.db == None && w'.db.Some? {
      var db := w'.db.value;
      assert |db.rows| == 1 && db.rows[..0] == [];
      assert CleanRow(db, PredecessorOpen, {}, db.rows[0]);
      assert !Escaped(db.rows);
    }
  }

  lemma BeginClean(w: World, e: Event)
    requires Inv(w) && CleanInv(w) && w.clean && w.pc == Idle
    ensures CleanInv(Begin(w, e))
  {
    hide CleanDb, Inv, Outstanding, Unanswered, Escaped, Move, StageCall, OpenCall, DrainCall, ObserveCall;
    if e.Stage? { StageClean(w, e.candidate, e.predecessor); }
    else if w.db.Some? {
      var db := w.db.value;
      NothingOutstanding(w, db);
      var pending := DrainPending(db);
      match e
      case Close(_) => NoteClean(db, pending, Intent, CloseOp, None, EMPTY);
      case Open(g, proof) => OpenCallClean(w, db, g, proof);
      case Drain(g) => DrainCallClean(w, db, g);
      case Observe(request, at, result) => ObserveCallClean(w, db, request, at, result);
      case Rollback(_, _) =>
        NoteClean(db, pending, Intent, RollbackOp, Some(PredecessorFence(db.predecessorGeneration)), EMPTY);
      case FailClose(_) => NoteClean(db, pending, Intent, FailCloseOp, Some(ClosedFence), EMPTY);
      case _ =>
    }
  }

  lemma OpenCallClean(w: World, db: Db, g: int, proof: OpenProof)
    requires CleanInv(w) && w.clean && w.pc == Idle && w.db == Some(db)
    ensures CleanInv(OpenCall(w, db, g, proof))
  {
    hide CleanDb, Escaped, IsSha256, LeaseValid;
    var w' := OpenCall(w, db, g, proof);
    if w'.pc != Idle {
      var fence := IssuedFence(g, proof.lease.fencingToken, db.transitionSeq + 1);
      MoveClean(db, DrainPending(db), Intent, OpenOp, Opening, Some(fence),
                EMPTY.(proof := Some(proof), proofDigest := Some(proof)), w'.db.value);
    }
  }

  lemma CleanIsEscapedTerminal(db: Db, pending: set<Correlation>)
    requires CleanDb(db, pending)
    ensures Escaped(db.rows) ==> Terminal(db.state)
  {}

  lemma DrainCallClean(w: World, db: Db, g: int)
    requires CleanInv(w) && w.clean && w.pc == Idle && w.db == Some(db)
    ensures CleanInv(DrainCall(w, db, g))
  {
    hide CleanDb, Escaped;
    var w' := DrainCall(w, db, g);
    if w'.db != w.db {
      CleanIsEscapedTerminal(db, DrainPending(db));
      MoveClean(db, DrainPending(db), Intent, DrainOp, Draining, None, EMPTY, w'.db.value);
      assert {} + {Id(DrainOp, db.candidateGeneration)} == DrainPending(w'.db.value);
    }
  }

  lemma TablesClean(db: Db, pending: set<Correlation>, db': Db)
    requires CleanDb(db, pending) && db' == db.(admissions := db'.admissions, events := db'.events)
    ensures CleanDb(db', pending)
  {
    hide Replay, Pending, Escaped, IsOpenReceipt;
    forall i | 0 <= i < |db.rows| ensures CleanRow(db', Replay(db.rows[..i]), Pending(db.rows[..i]), db.rows[i]) {
      assert CleanRow(db, Replay(db.rows[..i]), Pending(db.rows[..i]), db.rows[i]);
    }
  }

  lemma ObserveCallClean(w: World, db: Db, request: string, at: int, result: Option<AdmissionResult>)
    requires CleanInv(w) && w.clean && w.pc == Idle && w.db == Some(db)
    ensures CleanInv(ObserveCall(w, db, request, at, result))
  {
    hide CleanDb, Escaped, PredecessorMatches;
    var w' := ObserveCall(w, db, request, at, result);
    TablesClean(db, DrainPending(db), w'.db.value);
  }

  lemma CloseStepClean(w: World, db: Db, actual: RouteState)
    requires CleanInv(w) && w.clean && w.db == Some(db) && w.pc.CloseDecide?
    ensures CleanInv(CloseStep(w, db, actual))
  {
    hide CleanDb, Escaped;
    var w' := CloseStep(w, db, actual);
    var observed := Some(Digest(actual.snapshot));
    var pending := DrainPending(db) + {Id(CloseOp, db.candidateGeneration)};
    if w'.pc != Idle {
      NoteClean(db, pending, Receipt, CloseOp, Some(actual.fence), CANCELLED.(observedPredecessor := observed));
    } else if w'.db != w.db {
      MoveClean(db, pending, Receipt, CloseOp, CandidateClosed, None,
                EMPTY.(actual := Some(actual), observedPredecessor := observed), w'.db.value);
    }
    assert pending - {Id(CloseOp, db.candidateGeneration)} == DrainPending(db);
  }

  lemma OpenStepClean(w: World, db: Db, proof: OpenProof, fence: Fence, actual: RouteState)
    requires Inv(w) && CleanInv(w) && w.clean && w.db == Some(db) && w.pc == OpenDecide(proof, fence, actual)
    ensures CleanInv(OpenStep(w, db, proof, fence, actual))
  {
    hide CleanDb, Escaped, DbOk;
    var w' := OpenStep(w, db, proof, fence, actual);
    var pending := DrainPending(db) + {Id(OpenOp, db.candidateGeneration)};
    if w'.pc != Idle {
      NoteClean(db, pending, Receipt, OpenOp, Some(fence), CANCELLED);
    } else if w'.db != w.db {
      MoveClean(db, pending, Receipt, OpenOp, CandidateOpen, Some(fence),
                EMPTY.(observedCandidate := Some(Digest(actual.snapshot))), w'.db.value);
    }
    assert pending - {Id(OpenOp, db.candidateGeneration)} == DrainPending(db);
  }

  lemma DrainStepClean(w: World, db: Db)
    requires Inv(w) && CleanInv(w) && w.clean && w.db == Some(db) && w.pc == DrainCheck
    ensures CleanInv(DrainStep(w, db))
  {
    hide CleanDb, Escaped, DbOk, PredecessorBusy;
    var w' := DrainStep(w, db);
    if w'.db != w.db {
      CleanIsEscapedTerminal(db, DrainPending(db));
      MoveClean(db, DrainPending(db), Receipt, DrainOp, CandidateOpen, None, EMPTY, w'.db.value);
      assert DrainPending(db) - {Id(DrainOp, db.candidateGeneration)} == DrainPending(w'.db.value);
    }
  }

  lemma FinishClean(w: World, db: Db, request: string, r: AdmissionResult)
    requires CleanInv(w) && w.clean && w.db == Some(db) && w.pc == FinishRequest(request, r)
    ensures CleanInv(FinishStep(w, db, request, r))
  {
    hide CleanDb, Escaped;
    TablesClean(db, DrainPending(db), FinishStep(w, db, request, r).db.value);
  }

  /** A terminal move of the running call answers its intent. */
  lemma TerminalMoveClean(w: World, db: Db, op: Operation, target: GateState, detail: Detail, db': Db)
    requires CleanInv(w) && w.clean && w.db == Some(db) && CallOperation(w.pc) == Some(op)
             && op in {FailCloseOp, RollbackOp}
    requires Terminal(target) && Move(db, Receipt, op, target, None, detail).Some?
    requires var m := Move(db, Receipt, op, target, None, detail).value;
             db' == m.(routeGeneration := db'.routeGeneration, routeFence := db'.routeFence)
    ensures CleanDb(db', DrainPending(db')) && db'.state == target
  {
    hide CleanDb, Escaped;
    var id := Id(op, db.candidateGeneration);
    MoveClean(db, ExpectedPending(db, w.pc), Receipt, op, target, None, detail, db');
    assert ExpectedPending(db, w.pc) - {id} == DrainPending(db');
  }

  lemma ForwardClean(w: World, db: Db, t: Traffic)
    requires Inv(w) && CleanInv(w) && w.clean && w.db == Some(db) && w.pc != Idle && !Undoing(w.pc) && !Examining(w.pc)
    ensures CleanInv(AdvanceForward(w, db, t))
  {
    hide Inv, CleanDb, Escaped, Move, CloseStep, OpenStep, DrainStep, FinishStep;
    match w.pc
    case CloseDecide(actual) => CloseStepClean(w, db, actual);
    case OpenDecide(proof, fence, actual) => OpenStepClean(w, db, proof, fence, actual);
    case DrainCheck => DrainStepClean(w, db);
    case FinishRequest(request, r) => FinishClean(w, db, request, r);
    case FcIntent(_) => NoteClean(db, DrainPending(db), Intent, FailCloseOp, Some(ClosedFence), EMPTY);
    case FcDecide(after, seen) =>
      var detail := EMPTY.(classification := Some(ClassOf(seen)), actual := seen);
      if Move(db, Receipt, FailCloseOp, ClosedTarget(seen), None, detail).Some? {
        TerminalMoveClean(w, db, FailCloseOp, ClosedTarget(seen), detail, FailCloseStep(w, db, after, seen).db.value);
      }
    case _ =>
  }

  lemma UndoClean(w: World, db: Db, t: Traffic)
    requires Inv(w) && CleanInv(w) && w.clean && w.db == Some(db) && Undoing(w.pc)
    ensures CleanInv(AdvanceUndo(w, db, t))
  {
    hide Inv, CleanDb, Escaped, Move, Persuasive, RestoredRoute;
    match w.pc
    case RbDecide(outcome) =>
      var detail := EMPTY.(classification := Some(outcome), actual := Some(w.route));
      if Move(db, Receipt, RollbackOp, TargetOf(outcome), None, detail).Some? {
        TerminalMoveClean(w, db, RollbackOp, TargetOf(outcome), detail, RollbackStep(w, db, outcome).db.value);
      }
    case _ =>
  }

  lemma StepClean(w: World, e: Event)
    requires Inv(w) && CleanInv(w)
    ensures CleanInv(Step(w, e))
  {
    hide CleanDb, Escaped, Begin, AdvanceUndo, AdvanceForward, AdvanceExamine, DbOk;
    if !w.clean {
      CleanIsForever(w, e);
    } else if e.Go? {
      if w.pc != Idle {
        if Undoing(w.pc) { UndoClean(w, w.db.value, e.traffic); }
        else { ForwardClean(w, w.db.value, e.traffic); }
      }
    } else if w.pc == Idle && !e.Drift? && !e.SetLease? && !e.Tick? && !e.Crash? {
      BeginClean(w, e);
    }
  }

  lemma CleanIsForever(w: World, e: Event)
    requires !w.clean
    ensures !Step(w, e).clean
  {
    hide Move, Note, LastRow, PredecessorMatches, CandidateMatches, IsSha256, LeaseValid, PredecessorBusy, Persuasive,
         RestoredRoute, RecoveredOutcome, ClassOf, ClosedTarget;
  }

  lemma {:induction false} RunClean(w: World, events: seq<Event>)
    requires Inv(w) && CleanInv(w)
    ensures Inv(Run(w, events)) && CleanInv(Run(w, events))
    decreases |events|
  {
    hide Inv, CleanInv, Step;
    if events != [] {
      RunClean(w, events[..|events| - 1]);
      StepKeeps(Run(w, events[..|events| - 1]), events[|events| - 1]);
      StepClean(Run(w, events[..|events| - 1]), events[|events| - 1]);
    }
  }

  // ---------------------------------------------------------------- the verdict

  /** In a clean trace the rows pass the oracle exactly when none of them leaves DRAINING for a terminal state. */
  lemma CleanRowsPass(db: Db, pending: set<Correlation>)
    requires CleanDb(db, pending)
    ensures RowsPass(db) <==> !Escaped(db.rows)
  {
    hide Replay, Pending;
    forall i | 0 <= i < |db.rows|
      ensures RowPasses(db, Replay(db.rows[..i]), Pending(db.rows[..i]), db.rows[i]) <==> !IsEscape(db.rows[i])
    {
      assert CleanRow(db, Replay(db.rows[..i]), Pending(db.rows[..i]), db.rows[i]);
    }
  }

  /** Every run of normally returning calls is judged PASS exactly when it neither rests in DRAINING nor ever left
      DRAINING by a rollback or a fail-close; the traffic route and the lease may behave in any way. */
  lemma OracleVerdict(w: World, events: seq<Event>, db: Db)
    requires w.db == None && w.pc == Idle && w.clean
    requires Run(w, events).db == Some(db) && Run(w, events).pc == Idle && Run(w, events).clean
    ensures Passes(db) <==> db.state != Draining && !Escaped(db.rows)
  {
    RunClean(w, events);
    CleanRowsPass(db, DrainPending(db));
    hide Replay, Pending, Escaped, RowsPass, IsOpenReceipt;
    assert forall i :: 0 <= i < |db.rows| ==> CleanRow(db, Replay(db.rows[..i]), Pending(db.rows[..i]), db.rows[i]);
    assert forall id :: id in db.admissions ==>
             AdmissionOk(db.rows, db.predecessorGeneration, db.candidateGeneration, db.admissions[id]);
  }
}
