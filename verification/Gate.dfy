/** The durable exposure gate (src/vllm_hust_ext/exposure_gate.py) as a step machine.

    A world holds the gate's database, the external traffic route, the lease authority,
    the clock and the program point of the running call.  Each step is one database
    transaction, one call on the traffic adapter, one crash, or one move of the
    environment; a crash may therefore fall between any two of them. */
module Gate {
  import opened Basics

  datatype GateState =
    | PredecessorOpen | CandidateStaged | CandidateClosed | Opening | CandidateOpen
    | Draining | RolledBack | FailedSafe | SafetyUnknown

  datatype RollbackClass = RestoredStrong | Behavioral | ClassFailedSafe | ClassSafetyUnknown

  /** A JSON value: a bare plan id, an object, or the adapter's behavioral stand-in. */
  datatype Snapshot = PlanRef(id: string) | Document(generation: int, planId: string, body: string) | Equivalent

  /** An ideal (injective) digest. */
  datatype Digest = Digest(value: Option<Snapshot>)

  datatype Fence =
    | PredecessorFence(generation: int)
    | IssuedFence(generation: int, token: int, sequence: int)
    | ClosedFence | UnknownFence | ForeignFence(tag: string)

  datatype RouteState = RouteState(generation: Option<int>, fence: Fence, snapshot: Option<Snapshot>)

  const CLOSED_ROUTE := RouteState(None, ClosedFence, None)

  predicate IsClosed(r: RouteState) { r.generation == None && r.fence == ClosedFence }

  datatype LeaseGrant = LeaseGrant(holder: string, fencingToken: int, expiresAt: int)

  datatype OpenProof = OpenProof(planId: string, generation: int, evidenceCount: int, evidenceDigest: string,
                                 coverageDigest: string, lease: LeaseGrant, candidateDigest: Digest)

  datatype BehavioralOracle = BehavioralOracle(equivalent: bool, observationsDigest: string, oracle: string)

  datatype AdmissionResult = AdmissionResult(finishedAt: int, result: Option<string>, abort: Option<string>)

  datatype Kind = Intent | Receipt

  datatype Operation =
    | StageOp | CloseOp | OpenOp | OpenReconcileOp | RecoveryCloseOp | DrainOp | RollbackOp | FailCloseOp

  datatype Correlation = Correlation(operation: Operation, generation: int)

  /** The detail object of a transition row: the fields some reader consults. */
  datatype Detail = Detail(cancelled: bool, observedCandidate: Option<Digest>, observedPredecessor: Option<Digest>,
                           proof: Option<OpenProof>, proofDigest: Option<OpenProof>,
                           classification: Option<RollbackClass>, actual: Option<RouteState>)

  const EMPTY := Detail(false, None, None, None, None, None, None)
  const CANCELLED := EMPTY.(cancelled := true)

  datatype Row = Row(generation: int, kind: Kind, operation: Operation, id: Correlation, from: GateState,
                     to: Option<GateState>, fence: Option<Fence>, detail: Detail)

  datatype Admission = Admission(epoch: Fence, generation: int, admittedAt: int,
                                 finish: Option<AdmissionResult>, transitionSeq: nat)

  datatype AdmissionKind = Admit | Finish

  datatype AdmissionEvent = AdmissionEvent(request: string, kind: AdmissionKind, generation: int,
                                           epoch: Fence, transitionSeq: nat)

  datatype Db = Db(state: GateState, predecessorGeneration: int, candidateGeneration: int,
                   predecessor: Snapshot, candidate: Snapshot, routeGeneration: Option<int>, routeFence: Fence,
                   lease: LeaseGrant, transitionSeq: nat, proofDigest: Option<OpenProof>,
                   candidateDigest: Digest, observedCandidate: Option<Digest>,
                   predecessorDigest: Digest, observedPredecessor: Option<Digest>,
                   rows: seq<Row>, admissions: map<string, Admission>, events: seq<AdmissionEvent>)

  /** What follows an inner fail_close: return its class, raise, or return a reconciled state. */
  datatype Then = ThenClass | ThenRaise | ThenState

  /** The program point of the running call, with its local variables. */
  datatype Pc =
    | Idle
    | CloseEffect | CloseQuery | CloseDecide(actual: RouteState)
    | OpenEffect(proof: OpenProof, fence: Fence) | OpenQuery(proof: OpenProof, fence: Fence)
    | OpenDecide(proof: OpenProof, fence: Fence, actual: RouteState)
    | DrainCheck
    | FinishRequest(request: string, result: AdmissionResult)
    | FcIntent(after: Then) | FcEffect(after: Then) | FcQuery(after: Then)
    | FcDecide(after: Then, seen: Option<RouteState>)
    | RbEffect(oracle: Option<BehavioralOracle>) | RbClose | RbDecide(outcome: RollbackClass)
    | RecFcQuery | RecFcDecide(seen: Option<RouteState>)
    | RecCloseEffect | RecCloseQuery | RecCloseDecide(seen: Option<RouteState>)
    | RecRbQuery | RecRbDecide(seen: Option<RouteState>)
    | RecQuery(intent: Row) | RecDecide(intent: Row, actual: RouteState)
    | RecCloseAllEffect(intent: Row) | RecCloseAllQuery(intent: Row, error: bool)
    | RecCloseAllReceipt(intent: Row, error: bool, seen: Option<RouteState>) | RecFinish(intent: Row, error: bool)

  datatype Value =
    | VUnit | VGeneration(generation: int) | VFence(fence: Fence) | VBool(value: bool)
    | VState(state: GateState) | VClass(outcome: RollbackClass)

  /** How the last call ended: still running or killed, normally, or by raising. */
  datatype Ret = Silent | Returned(value: Value) | Raised

  /** `clean` remembers that no call so far raised or was killed. */
  datatype World = World(db: Option<Db>, route: RouteState, lease: LeaseGrant, now: int, behavioral: bool,
                         pc: Pc, ret: Ret, clean: bool)

  function Fresh(route: RouteState, lease: LeaseGrant, now: int, behavioral: bool): World {
    World(None, route, lease, now, behavioral, Idle, Silent, true)
  }

  /** How the traffic adapter answers one call. */
  datatype Traffic = Works | RaisesBefore | RaisesAfter

  datatype Event =
    | Stage(candidate: Snapshot, predecessor: Snapshot)
    | Close(generation: int)
    | Open(generation: int, proof: OpenProof)
    | Drain(generation: int)
    | Observe(request: string, admittedAt: int, result: Option<AdmissionResult>)
    | Reconcile
    | Rollback(generation: int, oracle: Option<BehavioralOracle>)
    | FailClose(generation: int)
    | Go(traffic: Traffic)
    | Crash
    | Drift(route: RouteState)
    | SetLease(lease: LeaseGrant)
    | Tick(now: int)

  // ---------------------------------------------------------------- primitives

  predicate Terminal(s: GateState) { s in {RolledBack, FailedSafe, SafetyUnknown} }

  predicate Allowed(s: GateState, t: GateState) {
    match s
    case PredecessorOpen => t in {CandidateStaged, FailedSafe, SafetyUnknown}
    case CandidateStaged => t in {CandidateClosed, RolledBack, FailedSafe, SafetyUnknown}
    case CandidateClosed => t in {Opening, RolledBack, FailedSafe, SafetyUnknown}
    case Opening => t in {CandidateOpen, FailedSafe, SafetyUnknown}
    case CandidateOpen => t in {Draining, RolledBack, FailedSafe, SafetyUnknown}
    case Draining => t in {CandidateOpen, RolledBack, FailedSafe, SafetyUnknown}
    case RolledBack | FailedSafe | SafetyUnknown => false
  }

  /** The default correlation: the operation up to its first dot. */
  function Id(operation: Operation, generation: int): Correlation {
    Correlation(if operation == OpenReconcileOp then OpenOp else operation, generation)
  }

  function Append(db: Db, row: Row): Db { db.(rows := db.rows + [row]) }

  function RowOf(db: Db, kind: Kind, operation: Operation, to: Option<GateState>, fence: Option<Fence>,
                 detail: Detail): Row {
    Row(db.candidateGeneration, kind, operation, Id(operation, db.candidateGeneration), db.state, to, fence, detail)
  }

  /** An audit row that leaves the state alone. */
  function Note(db: Db, kind: Kind, operation: Operation, fence: Option<Fence>, detail: Detail): Db {
    Append(db, RowOf(db, kind, operation, None, fence, detail))
  }

  predicate CanMove(db: Db, target: GateState) { target == db.state || Allowed(db.state, target) }

  /** The checked transition; its transaction aborts when the move is not allowed. */
  function Move(db: Db, kind: Kind, operation: Operation, target: GateState, fence: Option<Fence>,
                detail: Detail): Option<Db> {
    if !CanMove(db, target) then None
    else Some(Append(db, RowOf(db, kind, operation, Some(target), fence, detail))
              .(state := target, transitionSeq := |db.rows| + 1))
  }

  predicate HexDigit(c: char) { '0' <= c <= '9' || 'a' <= c <= 'f' }

  predicate IsSha256(s: string) {
    |s| == 71 && s[..7] == "sha256:" && forall i :: 7 <= i < 71 ==> HexDigit(s[i])
  }

  function PlanIdOf(s: Snapshot): Option<string> {
    match s
    case PlanRef(id) => Some(id)
    case Document(_, id, _) => Some(id)
    case Equivalent => None
  }

  predicate LeaseValid(w: World, grant: LeaseGrant) { w.lease == grant && grant.expiresAt >= w.now }

  /** The last row of an operation and kind. */
  function LastRow(rows: seq<Row>, operation: Operation, kind: Kind): (r: Option<nat>)
    ensures r.Some? ==> r.value < |rows| && rows[r.value].operation == operation && rows[r.value].kind == kind
    ensures forall j :: (if r.Some? then r.value < j else 0 <= j) && j < |rows| ==>
              rows[j].operation != operation || rows[j].kind != kind
  {
    if rows == [] then None
    else if rows[|rows| - 1].operation == operation && rows[|rows| - 1].kind == kind then Some(|rows| - 1)
    else LastRow(rows[..|rows| - 1], operation, kind)
  }

  /** An intent newer than every receipt of the same operation. */
  predicate Outstanding(rows: seq<Row>, operation: Operation) {
    match LastRow(rows, operation, Intent)
    case None => false
    case Some(i) =>
      match LastRow(rows, operation, Receipt)
      case None => true
      case Some(r) => r < i
  }

  /** An intent and no receipt at all under the operation's correlation. */
  predicate Unanswered(rows: seq<Row>, operation: Operation) {
    LastRow(rows, operation, Intent).Some? && LastRow(rows, operation, Receipt) == None
  }

  predicate PredecessorMatches(db: Db, actual: RouteState) {
    && actual.generation == Some(db.predecessorGeneration)
    && actual.fence == PredecessorFence(db.predecessorGeneration)
    && Digest(actual.snapshot) == db.predecessorDigest
  }

  predicate CandidateMatches(db: Db, actual: RouteState, fence: Fence, digest: Digest) {
    && actual.generation == Some(db.candidateGeneration) && actual.fence == fence && Digest(actual.snapshot) == digest
  }

  predicate PreOpen(s: GateState) { s in {PredecessorOpen, CandidateStaged, CandidateClosed} }

  function Finished(w: World, db: Db, v: Value): World { w.(db := Some(db), pc := Idle, ret := Returned(v)) }

  function Returning(w: World, v: Value): World { w.(pc := Idle, ret := Returned(v)) }

  function Raising(w: World): World { w.(pc := Idle, ret := Raised, clean := false) }

  function At(w: World, db: Db, pc: Pc): World { w.(db := Some(db), pc := pc, ret := Silent) }

  // ---------------------------------------------------------------- calls

  function StageCall(w: World, candidate: Snapshot, predecessor: Snapshot): World {
    if !predecessor.Document? then Raising(w)
    else
      var g := predecessor.generation;
      match w.db
      case Some(db) =>
        if db.candidateGeneration == g + 1 && db.candidate == candidate && db.predecessor == predecessor
           && db.routeFence == PredecessorFence(g)
        then Returning(w, VGeneration(g + 1)) else Raising(w)
      case None =>
        if w.route.generation != Some(g) || w.route.fence != PredecessorFence(g)
           || w.route.snapshot != Some(predecessor)
        then Raising(w)
        else
          var digest := Digest(Some(predecessor));
          var db := Db(PredecessorOpen, g, g + 1, predecessor, candidate, w.route.generation, w.route.fence, w.lease, 0,
                       None, Digest(Some(candidate)), None, digest, Some(digest), [], map[], []);
          match Move(db, Receipt, StageOp, CandidateStaged, None, EMPTY)
          case None => Raising(w)
          case Some(db') => Finished(w, db', VGeneration(g + 1))
  }

  function CloseCall(w: World, db: Db, generation: int): World {
    if db.candidateGeneration != generation then Raising(w)
    else if db.state == CandidateClosed then Returning(w, VUnit)
    else if Unanswered(db.rows, CloseOp) then At(w, db, CloseEffect)
    else At(w, Note(db, Intent, CloseOp, None, EMPTY), CloseEffect)
  }

  function OpenCall(w: World, db: Db, generation: int, proof: OpenProof): World {
    if proof.generation != generation || db.candidateGeneration != generation then Raising(w)
    else if Some(proof.planId) != PlanIdOf(db.candidate) then Raising(w)
    else if proof.candidateDigest != db.candidateDigest then Raising(w)
    else if proof.evidenceCount < 1 || !IsSha256(proof.evidenceDigest)
            || !IsSha256(proof.coverageDigest) then Raising(w)
    else if proof.lease != db.lease || !LeaseValid(w, proof.lease) then Raising(w)
    else if db.state == CandidateOpen then
      if db.proofDigest != Some(proof) then Raising(w) else Returning(w, VFence(db.routeFence))
    else if db.state == Opening then Raising(w)
    else
      var fence := IssuedFence(generation, proof.lease.fencingToken, db.transitionSeq + 1);
      match Move(db, Intent, OpenOp, Opening, Some(fence), EMPTY.(proof := Some(proof), proofDigest := Some(proof)))
      case None => Raising(w)
      case Some(db') => At(w, db'.(proofDigest := Some(proof)), OpenEffect(proof, fence))
  }

  function DrainCall(w: World, db: Db, generation: int): World {
    if db.candidateGeneration != generation then Raising(w)
    else if db.state == Draining then At(w, db, DrainCheck)
    else match Move(db, Intent, DrainOp, Draining, None, EMPTY)
      case None => Raising(w)
      case Some(db') => At(w, db', DrainCheck)
  }

  function Admitted(db: Db, request: string, admittedAt: int, actual: RouteState, g: int): Db {
    db.(admissions := db.admissions[request := Admission(actual.fence, g, admittedAt, None, db.transitionSeq)],
        events := db.events + [AdmissionEvent(request, Admit, g, actual.fence, db.transitionSeq)])
  }

  /** After the admission row exists: finish it, or return the chosen generation. */
  function AfterAdmission(w: World, db: Db, request: string, result: Option<AdmissionResult>): World
    requires request in db.admissions
  {
    match result
    case None => Finished(w, db, VGeneration(db.admissions[request].generation))
    case Some(r) => At(w, db, FinishRequest(request, r))
  }

  function ObserveCall(w: World, db: Db, request: string, admittedAt: int, result: Option<AdmissionResult>): World {
    if request in db.admissions then AfterAdmission(w, db, request, result)
    else if db.state == Opening || Terminal(db.state) then Raising(w)
    else if w.route.generation == None || w.route.fence == ClosedFence then Raising(w)
    else if PreOpen(db.state) && !PredecessorMatches(db, w.route) then At(w, db, FcIntent(ThenRaise))
    else if w.route.generation != db.routeGeneration || w.route.fence != db.routeFence
            || (w.route.generation == Some(db.candidateGeneration)
                && Some(Digest(w.route.snapshot)) != db.observedCandidate)
    then Raising(w)
    else AfterAdmission(w, Admitted(db, request, admittedAt, w.route, w.route.generation.value), request, result)
  }

  function ReconcileCall(w: World, db: Db): World {
    if Outstanding(db.rows, FailCloseOp) then At(w, db, RecFcQuery)
    else if Unanswered(db.rows, RecoveryCloseOp) then At(w, db, RecCloseEffect)
    else if Outstanding(db.rows, RollbackOp) then At(w, db, RecRbQuery)
    else if db.state != Opening then Returning(w, VState(db.state))
    else match LastRow(db.rows, OpenOp, Intent)
      case None => Raising(w)
      case Some(i) =>
        if db.rows[i].detail.proof == None then Raising(w)
        else
          var intent := db.rows[i];
          var proof := intent.detail.proof.value;
          if intent.detail.proofDigest != Some(proof) || proof.lease != db.lease || !LeaseValid(w, proof.lease)
          then At(w, Note(db, Receipt, OpenOp, intent.fence, CANCELLED), FcIntent(ThenState))
          else At(w, db, RecQuery(intent))
  }

  function RollbackCall(w: World, db: Db, generation: int, oracle: Option<BehavioralOracle>): World {
    if db.candidateGeneration != generation then Raising(w)
    else At(w, Note(db, Intent, RollbackOp, Some(PredecessorFence(db.predecessorGeneration)), EMPTY), RbEffect(oracle))
  }

  function FailCloseIntent(w: World, db: Db, after: Then): World {
    At(w, Note(db, Intent, FailCloseOp, Some(ClosedFence), EMPTY), FcEffect(after))
  }

  function Begin(w: World, e: Event): World {
    if e.Stage? then StageCall(w, e.candidate, e.predecessor)
    else match w.db
      case None => Raising(w)
      case Some(db) =>
        match e
        case Close(g) => CloseCall(w, db, g)
        case Open(g, proof) => OpenCall(w, db, g, proof)
        case Drain(g) => DrainCall(w, db, g)
        case Observe(request, at, result) => ObserveCall(w, db, request, at, result)
        case Reconcile => ReconcileCall(w, db)
        case Rollback(g, oracle) => RollbackCall(w, db, g, oracle)
        case FailClose(g) =>
          if db.candidateGeneration != g then Raising(w) else FailCloseIntent(w, db, ThenClass)
        case _ => w
  }

  // ---------------------------------------------------------------- traffic adapter

  function ClosedBy(w: World, t: Traffic): World { if t == RaisesBefore then w else w.(route := CLOSED_ROUTE) }

  function Seen(w: World, t: Traffic): Option<RouteState> { if t == Works then Some(w.route) else None }

  function RestoredRoute(w: World, db: Db): RouteState {
    RouteState(Some(db.predecessorGeneration), PredecessorFence(db.predecessorGeneration),
               Some(if w.behavioral then Equivalent else db.predecessor))
  }

  predicate Persuasive(oracle: Option<BehavioralOracle>) {
    match oracle
    case None => false
    case Some(o) =>
      o.equivalent && |o.observationsDigest| >= 7 && o.observationsDigest[..7] == "sha256:" && o.oracle != ""
  }

  function ClosedTarget(seen: Option<RouteState>): GateState {
    if seen.Some? && IsClosed(seen.value) then FailedSafe else SafetyUnknown
  }

  function ClassOf(seen: Option<RouteState>): RollbackClass {
    if seen.Some? && IsClosed(seen.value) then ClassFailedSafe else ClassSafetyUnknown
  }

  function TargetOf(c: RollbackClass): GateState {
    match c
    case RestoredStrong | Behavioral => RolledBack
    case ClassFailedSafe => FailedSafe
    case ClassSafetyUnknown => SafetyUnknown
  }

  function Recorded(db: Db, seen: Option<RouteState>): Db {
    match seen
    case None => db.(routeGeneration := None, routeFence := UnknownFence)
    case Some(r) => db.(routeGeneration := r.generation, routeFence := r.fence)
  }

  // ---------------------------------------------------------------- continuing a call

  function CloseStep(w: World, db: Db, actual: RouteState): World {
    var digest := Digest(actual.snapshot);
    if actual.generation != Some(db.predecessorGeneration) || actual.fence != db.routeFence
       || digest != db.predecessorDigest
    then At(w, Note(db, Receipt, CloseOp, Some(actual.fence), CANCELLED.(observedPredecessor := Some(digest))),
            FcIntent(ThenRaise))
    else match Move(db, Receipt, CloseOp, CandidateClosed, None,
                    EMPTY.(actual := Some(actual), observedPredecessor := Some(digest)))
      case None => Raising(w)
      case Some(db') => Finished(w, db'.(observedPredecessor := Some(digest)), VUnit)
  }

  /** The receipt of an open whose route was observed as the candidate. */
  function OpenReceipt(db: Db, operation: Operation, fence: Fence, digest: Digest): Option<Db> {
    match Move(db, Receipt, operation, CandidateOpen, Some(fence), EMPTY.(observedCandidate := Some(digest)))
    case None => None
    case Some(db') => Some(db'.(routeGeneration := Some(db.candidateGeneration), routeFence := fence,
                                observedCandidate := Some(digest)))
  }

  function OpenStep(w: World, db: Db, proof: OpenProof, fence: Fence, actual: RouteState): World {
    if !CandidateMatches(db, actual, fence, proof.candidateDigest)
    then At(w, Note(db, Receipt, OpenOp, Some(fence), CANCELLED), FcIntent(ThenRaise))
    else match OpenReceipt(db, OpenOp, fence, Digest(actual.snapshot))
      case None => Raising(w)
      case Some(db') => Finished(w, db', VFence(fence))
  }

  function OpenEffectStep(w: World, db: Db, proof: OpenProof, fence: Fence, t: Traffic): World {
    if t == RaisesBefore || !LeaseValid(w, proof.lease) then Raising(w)
    else
      var exposed := w.(route := RouteState(Some(db.candidateGeneration), fence, Some(db.candidate)));
      if t == RaisesAfter then Raising(exposed) else exposed.(pc := OpenQuery(proof, fence))
  }

  predicate PredecessorBusy(db: Db) {
    exists id :: id in db.admissions && db.admissions[id].generation == db.predecessorGeneration
        && db.admissions[id].finish == None
  }

  function DrainStep(w: World, db: Db): World {
    if PredecessorBusy(db) then Returning(w, VBool(false))
    else match Move(db, Receipt, DrainOp, CandidateOpen, None, EMPTY)
      case None => Raising(w)
      case Some(db') => Finished(w, db', VBool(true))
  }

  function FinishStep(w: World, db: Db, request: string, r: AdmissionResult): World {
    if request !in db.admissions then Raising(w)
    else
      var a := db.admissions[request];
      if r.result.None? == r.abort.None? || r.finishedAt < a.admittedAt || a.finish.Some? then Raising(w)
      else Finished(w, db.(admissions := db.admissions[request := a.(finish := Some(r))],
                           events := db.events
                               + [AdmissionEvent(request, Finish, a.generation, a.epoch, a.transitionSeq)]),
                    VGeneration(a.generation))
  }

  function FailCloseStep(w: World, db: Db, after: Then, seen: Option<RouteState>): World {
    match Move(db, Receipt, FailCloseOp, ClosedTarget(seen), None,
               EMPTY.(classification := Some(ClassOf(seen)), actual := seen))
    case None => Raising(w)
    case Some(db') =>
      var moved := w.(db := Some(Recorded(db', seen)));
      match after
      case ThenClass => Returning(moved, VClass(ClassOf(seen)))
      case ThenRaise => Raising(moved)
      case ThenState => Returning(moved, VState(ClosedTarget(seen)))
  }

  function RestoreStep(w: World, db: Db, oracle: Option<BehavioralOracle>, t: Traffic): World {
    if t == RaisesBefore then w.(pc := RbClose)
    else
      var restored := w.(route := RestoredRoute(w, db));
      if t == RaisesAfter then restored.(pc := RbClose)
      else if restored.route.snapshot == Some(db.predecessor) then restored.(pc := RbDecide(RestoredStrong))
      else if Persuasive(oracle) && w.behavioral then restored.(pc := RbDecide(Behavioral))
      else restored.(pc := RbClose)
  }

  function RollbackStep(w: World, db: Db, outcome: RollbackClass): World {
    match Move(db, Receipt, RollbackOp, TargetOf(outcome), None,
               EMPTY.(classification := Some(outcome), actual := Some(w.route)))
    case None => Raising(w)
    case Some(db') => Finished(w, Recorded(db', Some(w.route)), VClass(outcome))
  }

  function RecoveredFailClose(w: World, db: Db, seen: Option<RouteState>): World {
    match Move(db, Receipt, FailCloseOp, ClosedTarget(seen), None,
               EMPTY.(classification := Some(ClassOf(seen)), actual := seen))
    case None => Raising(w)
    case Some(db') => Finished(w, Recorded(db', seen), VState(ClosedTarget(seen)))
  }

  /** Both receipts of a recovery close are one transaction. */
  function RecoveredClose(w: World, db: Db, seen: Option<RouteState>): World {
    var noted := Append(db,
                        RowOf(db, Receipt, RecoveryCloseOp, None, Some(ClosedFence),
                              EMPTY.(actual := seen)).(from := Opening));
    match Move(noted, Receipt, OpenOp, ClosedTarget(seen), None, CANCELLED)
    case None => Raising(w)
    case Some(db') => Finished(w, db', VState(ClosedTarget(seen)))
  }

  function RecoveredOutcome(db: Db, seen: Option<RouteState>): RollbackClass {
    if seen == Some(RouteState(Some(db.predecessorGeneration), PredecessorFence(db.predecessorGeneration),
                               Some(db.predecessor)))
    then RestoredStrong
    else ClassOf(seen)
  }

  function RecoveredRollback(w: World, db: Db, seen: Option<RouteState>): World {
    var outcome := RecoveredOutcome(db, seen);
    match Move(db, Receipt, RollbackOp, TargetOf(outcome), None,
               EMPTY.(classification := Some(outcome), actual := seen))
    case None => Raising(w)
    case Some(db') => Finished(w, db', VState(TargetOf(outcome)))
  }

  function RecoveryDecide(w: World, db: Db, intent: Row, actual: RouteState): World {
    if intent.fence == None || intent.detail.proof == None then Raising(w)
    else if CandidateMatches(db, actual, intent.fence.value, intent.detail.proof.value.candidateDigest)
    then match OpenReceipt(db, OpenReconcileOp, actual.fence, Digest(actual.snapshot))
      case None => Raising(w)
      case Some(db') => Finished(w, db', VState(CandidateOpen))
    else At(w, Note(db, Intent, RecoveryCloseOp, Some(ClosedFence), EMPTY), RecCloseAllEffect(intent))
  }

  function RecoveryFinish(w: World, db: Db, intent: Row, error: bool): World {
    if error then At(w, Note(db, Receipt, OpenOp, intent.fence, CANCELLED), FcIntent(ThenState))
    else match Move(db, Receipt, OpenOp, FailedSafe, None, EMPTY)
      case None => Raising(w)
      case Some(db') => Finished(w, db'.(routeGeneration := None, routeFence := ClosedFence), VState(FailedSafe))
  }

  /** The program points of rollback and of the recovery branches of reconcile. */
  predicate Undoing(pc: Pc) {
    match pc
    case RbEffect(_) | RbClose | RbDecide(_) | RecFcQuery | RecFcDecide(_)
       | RecCloseEffect | RecCloseQuery | RecCloseDecide(_)
       | RecRbQuery | RecRbDecide(_) => true
    case _ => false
  }

  /** The program points of a reconcile that examines an interrupted open. */
  predicate Examining(pc: Pc) {
    match pc
    case RecQuery(_) | RecDecide(_, _) | RecCloseAllEffect(_) | RecCloseAllQuery(_, _) | RecCloseAllReceipt(_, _, _)
       | RecFinish(_, _) => true
    case _ => false
  }

  function AdvanceUndo(w: World, db: Db, t: Traffic): World {
    match w.pc
    case RbEffect(oracle) => RestoreStep(w, db, oracle, t)
    case RbClose => var c := ClosedBy(w, t); c.(pc := RbDecide(ClassOf(Some(c.route))))
    case RbDecide(outcome) => RollbackStep(w, db, outcome)
    case RecFcQuery => w.(pc := RecFcDecide(Seen(w, t)))
    case RecFcDecide(seen) => RecoveredFailClose(w, db, seen)
    case RecCloseEffect => ClosedBy(w, t).(pc := RecCloseQuery)
    case RecCloseQuery => w.(pc := RecCloseDecide(Seen(w, t)))
    case RecCloseDecide(seen) => RecoveredClose(w, db, seen)
    case RecRbQuery => w.(pc := RecRbDecide(Seen(w, t)))
    case RecRbDecide(seen) => RecoveredRollback(w, db, seen)
    case _ => w
  }

  function AdvanceExamine(w: World, db: Db, t: Traffic): World {
    match w.pc
    case RecQuery(intent) =>
      if t == Works then w.(pc := RecDecide(intent, w.route))
      else At(w, Note(db, Receipt, OpenOp, intent.fence, CANCELLED), FcIntent(ThenState))
    case RecDecide(intent, actual) => RecoveryDecide(w, db, intent, actual)
    case RecCloseAllEffect(intent) => ClosedBy(w, t).(pc := RecCloseAllQuery(intent, t != Works))
    case RecCloseAllQuery(intent, error) => w.(pc := RecCloseAllReceipt(intent, error || t != Works, Seen(w, t)))
    case RecCloseAllReceipt(intent, error, seen) =>
      At(w, Note(db, Receipt, RecoveryCloseOp, Some(ClosedFence), EMPTY.(actual := seen)), RecFinish(intent, error))
    case RecFinish(intent, error) => RecoveryFinish(w, db, intent, error)
    case _ => w
  }

  function AdvanceForward(w: World, db: Db, t: Traffic): World {
    match w.pc
    case CloseEffect => if t == Works then w.(pc := CloseQuery) else Raising(w)
    case CloseQuery => if t == Works then w.(pc := CloseDecide(w.route)) else Raising(w)
    case CloseDecide(actual) => CloseStep(w, db, actual)
    case OpenEffect(proof, fence) => OpenEffectStep(w, db, proof, fence, t)
    case OpenQuery(proof, fence) => if t == Works then w.(pc := OpenDecide(proof, fence, w.route)) else Raising(w)
    case OpenDecide(proof, fence, actual) => OpenStep(w, db, proof, fence, actual)
    case DrainCheck => DrainStep(w, db)
    case FinishRequest(request, r) => FinishStep(w, db, request, r)
    case FcIntent(after) => FailCloseIntent(w, db, after)
    case FcEffect(after) => ClosedBy(w, t).(pc := FcQuery(after))
    case FcQuery(after) => w.(pc := FcDecide(after, Seen(w, t)))
    case FcDecide(after, seen) => FailCloseStep(w, db, after, seen)
    case _ => w
  }

  /** Performs the next action of the running call. */
  function Advance(w: World, db: Db, t: Traffic): World {
    if Undoing(w.pc) then AdvanceUndo(w, db, t)
    else if Examining(w.pc) then AdvanceExamine(w, db, t)
    else AdvanceForward(w, db, t)
  }

  /** One step of the gate, its traffic adapter, or the environment. */
  function Step(w: World, e: Event): World {
    match e
    case Drift(r) => w.(route := r)
    case SetLease(g) => w.(lease := g)
    case Tick(t) => w.(now := t)
    case Crash => if w.pc == Idle then w else w.(pc := Idle, ret := Silent, clean := false)
    case Go(t) => if w.pc == Idle || w.db == None then w else Advance(w, w.db.value, t)
    case _ => if w.pc != Idle then w else Begin(w, e)
  }

  function Run(w: World, events: seq<Event>): World {
    if events == [] then w else Step(Run(w, events[..|events| - 1]), events[|events| - 1])
  }
}
