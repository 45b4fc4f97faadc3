/** The activation coordinator (src/vllm_hust_ext/durable_coordinator.py) as a step machine over its store,
    composed with the exposure gate's step machine when the traffic side is that gate. */
module Coordinator {
  import opened Basics
  import G = Gate

  type PlanId = string

  datatype State =
    | Planned | Preparing | Prepared | Launching | Observing | CommitReady | Effective
    | Degraded | Reconcile | Rollback | RolledBack | FailedSafe | SafetyUnknown

  predicate Allowed(s: State, t: State) {
    match s
    case Planned => t == Preparing
    case Preparing => t in {Prepared, Reconcile}
    case Prepared => t in {Launching, Rollback}
    case Launching => t in {Observing, Reconcile}
    case Observing => t in {CommitReady, Degraded, Reconcile, Rollback}
    case CommitReady => t in {Effective, Reconcile, FailedSafe}
    case Effective => t in {Degraded, Rollback}
    case Degraded => t in {Reconcile, Rollback}
    case Reconcile => t in {Observing, Rollback, FailedSafe}
    case Rollback => t in {RolledBack, FailedSafe, SafetyUnknown}
    case RolledBack | FailedSafe | SafetyUnknown => false
  }

  datatype Obligation = Obligation(id: string, role: string, event: string, ordinals: seq<int>)

  /** `generation` is the predecessor snapshot's; the rest of that snapshot is opaque here. */
  datatype Plan = Plan(id: PlanId, plugins: set<string>, obligations: seq<Obligation>,
                       generation: int, predecessorId: string, predecessorBody: string, fallbackProven: bool)

  function Predecessor(plan: Plan): G.Snapshot { G.Document(plan.generation, plan.predecessorId, plan.predecessorBody) }

  datatype Process = Process(host: string, role: string, ordinal: int, startId: string, epoch: int)

  datatype Attestation = Attestation(plan: PlanId, launchId: string, process: Process, obligation: string,
                                     event: string,
                                     nonce: string, expiresAt: int, artifact: string)

  datatype Activation = Activation(plan: Plan, state: State, launchId: Option<string>)

  /** An evidence row; the process key column carries the whole process identity. */
  datatype Evidence = Evidence(plan: PlanId, launchId: string, process: Process, obligation: string, event: string,
                               expiresAt: int, managerEpoch: nat, valid: bool)

  datatype Entry =
    | Transitioned(plan: PlanId, from: State, to: State)
    | CommitIntent(plan: PlanId, generation: int)
    | HostRollback(plan: PlanId, outcome: Option<string>, error: Option<string>)
    | Other(plan: PlanId, note: string)

  datatype Slot = Slot(plan: PlanId, role: string, ordinal: int)

  datatype Store = Store(generation: nat, managerEpoch: nat, activations: map<PlanId, Activation>, journal: seq<Entry>,
                         inventory: map<Slot, Process>, evidence: map<string, Evidence>)

  /** The program point of the running coordinator call. */
  datatype Pc =
    | Idle
    | Staging(plan: PlanId) | Deleting(plan: PlanId)
    | PrepareHost(plan: PlanId) | PrepareReceipt(plan: PlanId) | Closing(plan: PlanId)
    | LaunchHost(plan: PlanId) | LaunchReceipt(plan: PlanId, inventory: seq<Process>)
    | CommitEffect(plan: PlanId) | OpeningGate(plan: PlanId) | CommitReceipt(plan: PlanId)
    | CommitReconcile(plan: PlanId) | CommitRollback(plan: PlanId) | PreOpenRollback(plan: PlanId)
    | MarkEffective(plan: PlanId) | MarkReconcile(plan: PlanId)
    | RollbackHost(plan: PlanId) | RollbackGate(plan: PlanId, failed: bool) | RollingBack(plan: PlanId)
    | RollbackClosing(plan: PlanId, failed: bool, last: bool) | RollbackReceipt(plan: PlanId, failed: bool,
            verdict: G.RollbackClass)
    | RollbackMark(plan: PlanId, final: State)
    | RecoverReconcile(plan: PlanId) | RecoverClosing(plan: PlanId) | RecoverMark(plan: PlanId, final: State)

  datatype World = World(store: Store, gate: Option<G.World>, signed: bool, pc: Pc)

  const NEW_STORE := Store(0, 0, map[], [], map[], map[])

  /** What the host adapter and the digests supply to one continuation. */
  datatype Answer = Answer(ok: bool, inventory: seq<Process>, outcome: Option<string>, error: string,
                           evidenceDigest: string, coverageDigest: string)

  datatype Event =
    | PlanCall(plan: Plan) | Prepare(target: PlanId) | Launch(target: PlanId, launchId: string)
    | Observe(target: PlanId, item: Attestation, verified: bool)
    | Refresh(target: PlanId, processes: seq<Process>)
    | Commit(target: PlanId, expected: int, external: bool, now: int)
    | Recover(target: PlanId) | Resume(target: PlanId) | RollbackCall(target: PlanId) | LeaseLost(target: PlanId)
    | Next(answer: Answer)
    | GateEvent(event: G.Event)
    | GateFault
    | Fault
    | Restart

  // ---------------------------------------------------------------- store transactions

  function Log(st: Store, e: Entry): Store { st.(journal := st.journal + [e]) }

  /** The checked transition; None aborts the transaction. */
  function MoveTo(st: Store, p: PlanId, target: State): Option<Store> {
    if p !in st.activations || !Allowed(st.activations[p].state, target) then None
    else
      var a := st.activations[p];
      Some(Log(st.(activations := st.activations[p := a.(state := target)]), Transitioned(p, a.state, target)))
  }

  function Noted(st: Option<Store>, p: PlanId, note: string): Option<Store> {
    match st case None => None case Some(st') => Some(Log(st', Other(p, note)))
  }

  function Without(journal: seq<Entry>, p: PlanId): seq<Entry> {
    if journal == [] then []
    else
      var rest := Without(journal[..|journal| - 1], p);
      if journal[|journal| - 1].plan == p then rest else rest + [journal[|journal| - 1]]
  }

  /** Replaces the inventory rows of one plan; a repeated slot violates the primary key and aborts. */
  function Inventoried(inventory: map<Slot, Process>, p: PlanId, processes: seq<Process>): map<Slot, Process> {
    if processes == [] then map s | s in inventory && s.plan != p :: inventory[s]
    else
      var last := processes[|processes| - 1];
      Inventoried(inventory, p, processes[..|processes| - 1])[Slot(p, last.role, last.ordinal) := last]
  }

  predicate DistinctSlots(processes: seq<Process>) {
    forall i, j :: 0 <= i < j < |processes| ==>
        processes[i].role != processes[j].role || processes[i].ordinal != processes[j].ordinal
  }

  function Invalidated(evidence: map<string, Evidence>, p: Option<PlanId>): map<string, Evidence> {
    map n | n in evidence :: if p == None || p == Some(evidence[n].plan) then evidence[n].(valid := false)
        else evidence[n]
  }

  function Booted(st: Store): Store {
    st.(managerEpoch := st.managerEpoch + 1, evidence := Invalidated(st.evidence, None))
  }

  predicate HasTargets(plan: Plan) {
    plan.obligations != [] && forall i :: 0 <= i < |plan.obligations| ==> plan.obligations[i].ordinals != []
  }

  /** The rows `_evidence_complete` selects. */
  predicate Counted(st: Store, p: PlanId, now: int, n: string) {
    && n in st.evidence && st.evidence[n].plan == p && st.evidence[n].valid
    && st.evidence[n].managerEpoch == st.managerEpoch && st.evidence[n].expiresAt >= now
  }

  /** Only role, ordinal, epoch, obligation and event are compared with the inventory. */
  predicate Covers(st: Store, p: PlanId, now: int, o: Obligation, ordinal: int, n: string) {
    var slot := Slot(p, o.role, ordinal);
    && Counted(st, p, now, n) && slot in st.inventory
    && st.evidence[n].process.role == o.role && st.evidence[n].process.ordinal == ordinal
    && st.evidence[n].process.epoch == st.inventory[slot].epoch
    && st.evidence[n].obligation == o.id && st.evidence[n].event == o.event
  }

  /** Some row covers the k-th ordinal of the i-th obligation. */
  predicate CoveredAt(st: Store, plan: Plan, now: int, i: nat, k: nat)
    requires i < |plan.obligations| && k < |plan.obligations[i].ordinals|
  {
    exists n :: n in st.evidence && Covers(st, plan.id, now, plan.obligations[i], plan.obligations[i].ordinals[k], n)
  }

  predicate EvidenceComplete(st: Store, plan: Plan, now: int) {
    && HasTargets(plan)
    && forall i, k :: 0 <= i < |plan.obligations| && 0 <= k < |plan.obligations[i].ordinals| ==>
          CoveredAt(st, plan, now, i, k)
  }

  function EvidenceCount(st: Store, p: PlanId): nat {
    |set n | n in st.evidence && st.evidence[n].plan == p && st.evidence[n].valid
        && st.evidence[n].managerEpoch == st.managerEpoch|
  }

  /** The last host receipt of a rollback. */
  function LastHost(journal: seq<Entry>, p: PlanId): Option<Entry> {
    if journal == [] then None
    else if journal[|journal| - 1].HostRollback? && journal[|journal| - 1].plan == p then Some(journal[|journal| - 1])
    else LastHost(journal[..|journal| - 1], p)
  }

  // ---------------------------------------------------------------- control

  function Ended(w: World): World { w.(pc := Idle) }

  function At(w: World, st: Store, pc: Pc): World { w.(store := st, pc := pc) }

  function CallGate(w: World, g: G.World, e: G.Event, pc: Pc): World { w.(gate := Some(G.Step(g, e)), pc := pc) }

  /** Move and go on, or raise. */
  function Then(w: World, st: Option<Store>, pc: Pc): World {
    match st
    case None => Ended(w)
    case Some(st') => At(w, st', pc)
  }

  // ---------------------------------------------------------------- calls

  function PlanBegins(w: World, plan: Plan): World {
    if !HasTargets(plan) || plan.id in w.store.activations then w
    else
      var st := Log(w.store.(activations := w.store.activations[plan.id := Activation(plan, Planned, None)]),
                    Other(plan.id, "plan"));
      match w.gate
      case None => At(w, st, Idle)
      case Some(g) => CallGate(w.(store := st), g, G.Stage(G.PlanRef(plan.id), Predecessor(plan)), Staging(plan.id))
  }

  function PrepareBegins(w: World, p: PlanId): World {
    match MoveTo(w.store, p, Preparing)
    case None => w
    case Some(st) => At(w, Log(st, Other(p, "prepare")), PrepareHost(p))
  }

  function LaunchBegins(w: World, p: PlanId, launchId: string): World {
    match MoveTo(w.store, p, Launching)
    case None => w
    case Some(st) =>
      At(w, Log(st.(activations := st.activations[p := st.activations[p].(launchId := Some(launchId))]),
                Other(p, "launch")), LaunchHost(p))
  }

  function ObserveBegins(w: World, p: PlanId, item: Attestation, verified: bool): World {
    if p !in w.store.activations || w.store.activations[p].state !in {Observing, Reconcile} || !verified then w
    else
      var a, slot := w.store.activations[p], Slot(p, item.process.role, item.process.ordinal);
      if item.plan != p || Some(item.launchId) != a.launchId || item.artifact !in a.plan.plugins
         || slot !in w.store.inventory
         || w.store.inventory[slot].startId != item.process.startId
         || w.store.inventory[slot].epoch != item.process.epoch
         || item.nonce in w.store.evidence
      then w
      else
        w.(store := Log(w.store.(evidence := w.store.evidence[item.nonce :=
             Evidence(p, item.launchId, item.process, item.obligation, item.event, item.expiresAt, w.store.managerEpoch,
                      true)]),
             Other(p, "evidence")))
  }

  function RefreshBegins(w: World, p: PlanId, processes: seq<Process>): World {
    if p !in w.store.activations || w.store.activations[p].state !in {Observing, Reconcile}
       || !DistinctSlots(processes) then w
    else w.(store := Log(w.store.(inventory := Inventoried(w.store.inventory, p, processes),
                                  evidence := Invalidated(w.store.evidence, Some(p))), Other(p, "refresh")))
  }

  function RollbackBegins(w: World, p: PlanId): World {
    match MoveTo(w.store, p, Rollback)
    case None => Ended(w)
    case Some(st) => At(w, Log(st, Other(p, "rollback")), RollbackHost(p))
  }

  function LeaseLostBegins(w: World, p: PlanId): World {
    match MoveTo(w.store, p, Degraded)
    case None => w
    case Some(st) =>
      if st.activations[p].plan.fallbackProven then Then(w.(store := st), MoveTo(st, p, Reconcile), Idle)
      else RollbackBegins(w.(store := st), p)
  }

  function CommitBegins(w: World, p: PlanId, expected: int, external: bool, now: int): World {
    if p !in w.store.activations then w
    else if !external then LeaseLostBegins(w, p)
    else if !EvidenceComplete(w.store, w.store.activations[p].plan, now) then w
    else match MoveTo(w.store, p, CommitReady)
      case None => w
      case Some(st) =>
        if st.generation != expected || st.activations[p].plan.generation != expected then w
        else At(w, Log(st, CommitIntent(p, expected)).(generation := st.generation + 1), CommitEffect(p))
  }

  function RecoverBegins(w: World, p: PlanId): World {
    if p !in w.store.activations then w
    else
      var a := w.store.activations[p];
      match w.gate
      case None =>
        if a.state == Rollback then Then(w, MoveTo(w.store, p, FailedSafe), Idle)
        else if a.state in {Preparing, Launching, CommitReady} then
                Then(w, Noted(MoveTo(w.store, p, Reconcile), p, "reobserve"), Idle)
        else if a.state == Observing then Then(w, MoveTo(w.store, p, Reconcile), Idle)
        else w
      case Some(g) =>
        if a.state == Rollback then CallGate(w, g, G.Reconcile, RecoverReconcile(p))
        else if a.state == CommitReady then CallGate(w, g, G.Reconcile, CommitReconcile(p))
        else if a.state in {Preparing, Launching, Observing}
        then CallGate(w, g, G.Rollback(a.plan.generation + 1, None), PreOpenRollback(p))
        else w
  }

  /** The gate takes a coordinator's call only when no other call is running on it. */
  predicate GateIdle(w: World) { w.gate.Some? ==> w.gate.value.pc == G.Idle }

  function Begin(w: World, e: Event): World {
    match e
    case PlanCall(plan) => PlanBegins(w, plan)
    case Prepare(p) => PrepareBegins(w, p)
    case Launch(p, launchId) => LaunchBegins(w, p, launchId)
    case Observe(p, item, verified) => ObserveBegins(w, p, item, verified)
    case Refresh(p, processes) => RefreshBegins(w, p, processes)
    case Commit(p, expected, external, now) => CommitBegins(w, p, expected, external, now)
    case Recover(p) => RecoverBegins(w, p)
    case Resume(p) => Then(w, MoveTo(w.store, p, Observing), Idle)
    case RollbackCall(p) => RollbackBegins(w, p)
    case LeaseLost(p) => LeaseLostBegins(w, p)
    case _ => w
  }

  // ---------------------------------------------------------------- continuing

  function PlanOf(w: World, p: PlanId): Plan
    requires p in w.store.activations
  {
    w.store.activations[p].plan
  }

  function OpenProofFor(w: World, g: G.World, p: PlanId, answer: Answer): G.OpenProof
    requires p in w.store.activations && g.db.Some?
  {
    G.OpenProof(p, PlanOf(w, p).generation + 1, EvidenceCount(w.store, p), answer.evidenceDigest, answer.coverageDigest,
                g.lease, g.db.value.candidateDigest)
  }

  function CommitContinues(w: World, p: PlanId, answer: Answer): World
    requires p in w.store.activations
  {
    match w.gate
    case None => if answer.ok then w.(pc := CommitReceipt(p)) else Ended(w)
    case Some(g) =>
      if !w.signed || g.db == None then Ended(w)
      else CallGate(w, g, G.Open(PlanOf(w, p).generation + 1, OpenProofFor(w, g, p, answer)), OpeningGate(p))
  }

  /** The host answers the rollback; its receipt is journaled before the traffic is touched. */
  function HostRolledBack(w: World, p: PlanId, answer: Answer): World {
    var receipt := if answer.ok then HostRollback(p, answer.outcome, None)
        else HostRollback(p, None, Some(answer.error));
    At(w, Log(w.store, receipt), RollbackGate(p, !answer.ok))
  }

  /** Whether the last host receipt reports an outcome. */
  predicate HostReported(journal: seq<Entry>, p: PlanId) {
    match LastHost(journal, p)
    case Some(HostRollback(_, outcome, _)) => outcome.Some?
    case _ => false
  }

  /** A plain traffic adapter must also restore; `restored` is how it answers. */
  function RollbackTouchesGate(w: World, p: PlanId, failed: bool, restored: bool): World
    requires p in w.store.activations
  {
    match w.gate
    case None => w.(pc := RollbackMark(p, if failed || !restored || !HostReported(w.store.journal, p) then FailedSafe
                                       else RolledBack))
    case Some(g) =>
      var generation := PlanOf(w, p).generation + 1;
      if failed then CallGate(w, g, G.FailClose(generation), RollbackClosing(p, failed, false))
      else CallGate(w, g, G.Rollback(generation, None), RollingBack(p))
  }

  function TargetFor(failed: bool, verdict: G.RollbackClass): State {
    if verdict == G.ClassSafetyUnknown then SafetyUnknown
    else if failed || verdict == G.ClassFailedSafe then FailedSafe
    else RolledBack
  }

  function ClosedTargetFor(verdict: G.RollbackClass): State {
    if verdict == G.ClassFailedSafe then FailedSafe else SafetyUnknown
  }

  /** What recover decides once reconcile returned the gate state, and a host receipt is on record. */
  function RecoverDecides(w: World, g: G.World, p: PlanId, s: G.GateState): World
    requires p in w.store.activations
  {
    var generation := PlanOf(w, p).generation + 1;
    match LastHost(w.store.journal, p)
    case None => CallGate(w, g, G.FailClose(generation), RecoverClosing(p))
    case Some(receipt) =>
      if s == G.SafetyUnknown then w.(pc := RecoverMark(p, SafetyUnknown))
      else if s == G.FailedSafe || !receipt.HostRollback? || receipt.error.Some? || receipt.outcome == None
      then w.(pc := RecoverMark(p, FailedSafe))
      else if s == G.RolledBack then w.(pc := RecoverMark(p, RolledBack))
      else CallGate(w, g, G.FailClose(generation), RecoverClosing(p))
  }

  /** The gate call the coordinator was waiting for has ended. */
  function GateAnswers(w: World, g: G.World, p: PlanId): World
    requires p in w.store.activations
  {
    match w.pc
    case Staging(_) => if g.ret.Returned? then Ended(w) else w.(pc := Deleting(p))
    case Closing(_) => Ended(w)
    case OpeningGate(_) => if g.ret.Returned? then w.(pc := CommitReceipt(p)) else Ended(w)
    case CommitReconcile(_) =>
      if !g.ret.Returned? || !g.ret.value.VState? then Ended(w)
      else if g.ret.value.state == G.CandidateOpen then w.(pc := MarkEffective(p))
      else if g.ret.value.state == G.CandidateClosed
      then CallGate(w, g, G.Rollback(PlanOf(w, p).generation + 1, None), CommitRollback(p))
      else w.(pc := MarkReconcile(p))
    case CommitRollback(_) => if g.ret.Returned? then w.(pc := MarkReconcile(p)) else Ended(w)
    case PreOpenRollback(_) => if g.ret.Returned? then w.(pc := MarkReconcile(p)) else Ended(w)
    case RollingBack(_) =>
      if g.ret.Returned? && g.ret.value.VClass? then w.(pc := RollbackReceipt(p, false, g.ret.value.outcome))
      else CallGate(w, g, G.FailClose(PlanOf(w, p).generation + 1), RollbackClosing(p, false, true))
    case RollbackClosing(_, failed, last) =>
      if g.ret.Returned? && g.ret.value.VClass? then w.(pc := RollbackReceipt(p, failed, g.ret.value.outcome))
      else if last then w.(pc := RollbackReceipt(p, failed, G.ClassSafetyUnknown))
      else CallGate(w, g, G.FailClose(PlanOf(w, p).generation + 1), RollbackClosing(p, failed, true))
    case RecoverReconcile(_) =>
      if g.ret.Returned? && g.ret.value.VState? then RecoverDecides(w, g, p, g.ret.value.state) else Ended(w)
    case RecoverClosing(_) =>
      if g.ret.Returned? && g.ret.value.VClass? then w.(pc := RecoverMark(p, ClosedTargetFor(g.ret.value.outcome)))
         else Ended(w)
    case _ => w
  }

  predicate AwaitsGate(pc: Pc) {
    pc.Staging? || pc.Closing? || pc.OpeningGate? || pc.CommitReconcile? || pc.CommitRollback? || pc.PreOpenRollback?
    || pc.RollingBack? || pc.RollbackClosing? || pc.RecoverReconcile? || pc.RecoverClosing?
  }

  function PrepareReceipted(w: World, p: PlanId): World
    requires p in w.store.activations
  {
    match MoveTo(Log(w.store, Other(p, "prepared")), p, Prepared)
    case None => Ended(w)
    case Some(st) =>
      match w.gate
      case None => At(w, st, Idle)
      case Some(g) => CallGate(w.(store := st), g, G.Close(PlanOf(w, p).generation + 1), Closing(p))
  }

  function LaunchReceipted(w: World, p: PlanId, processes: seq<Process>): World {
    if !DistinctSlots(processes) then Ended(w)
    else Then(w, MoveTo(Log(w.store.(inventory := Inventoried(w.store.inventory, p, processes)), Other(p, "launched")),
                        p, Observing), Idle)
  }

  /** The next action of the running call; a host that fails outside rollback makes the call raise. */
  function Advance(w: World, answer: Answer): World
    requires w.pc != Idle && w.pc.plan in w.store.activations
  {
    var p := w.pc.plan;
    match w.pc
    case Deleting(_) =>
      At(w, w.store.(activations := w.store.activations - {p}, journal := Without(w.store.journal, p)), Idle)
    case PrepareHost(_) => if answer.ok then w.(pc := PrepareReceipt(p)) else Ended(w)
    case PrepareReceipt(_) => PrepareReceipted(w, p)
    case LaunchHost(_) => if answer.ok then w.(pc := LaunchReceipt(p, answer.inventory)) else Ended(w)
    case LaunchReceipt(_, processes) => LaunchReceipted(w, p, processes)
    case CommitEffect(_) => CommitContinues(w, p, answer)
    case CommitReceipt(_) => Then(w, MoveTo(Log(w.store, Other(p, "committed")), p, Effective), Idle)
    case MarkEffective(_) => Then(w, MoveTo(Log(w.store, Other(p, "commit.reconcile")), p, Effective), Idle)
    case MarkReconcile(_) => Then(w, Noted(MoveTo(w.store, p, Reconcile), p, "recovery"), Idle)
    case RollbackHost(_) => HostRolledBack(w, p, answer)
    case RollbackGate(_, failed) => RollbackTouchesGate(w, p, failed, answer.ok)
    case RollbackReceipt(_, failed, verdict) => At(w, Log(w.store, Other(p, "rollback.traffic")),
                                                   RollbackMark(p, TargetFor(failed, verdict)))
    case RollbackMark(_, final) => Then(w, MoveTo(w.store, p, final), Idle)
    case RecoverMark(_, final) => Then(w, MoveTo(Log(w.store, Other(p, "rollback.recover")), p, final), Idle)
    case Idle => w
    case _ =>
      match w.gate
      case None => Ended(w)
      case Some(g) => if g.pc == G.Idle then GateAnswers(w, g, p) else w
  }

  /** Gate events that do not come from the coordinator: the environment, and traffic or a drain while it is idle. */
  predicate External(w: World, e: G.Event) {
    e.Go? || e.Drift? || e.SetLease? || e.Tick? || (w.pc == Idle && (e.Drain? || e.Observe?))
  }

  function Step(w: World, e: Event): World {
    match e
    case GateEvent(ge) =>
      if w.gate.Some? && External(w, ge) then w.(gate := Some(G.Step(w.gate.value, ge))) else w
    case GateFault =>
      if w.gate.Some? && w.gate.value.pc != G.Idle then
         w.(gate := Some(G.Step(w.gate.value, G.Crash).(ret := G.Raised))) else w
    case Fault => if w.pc.Staging? || w.pc.Deleting? || !GateIdle(w) then w else Ended(w)
    case Restart =>
      if w.pc.Staging? || w.pc.Deleting? then w
      else w.(store := Booted(w.store),
              gate := (match w.gate case None => None case Some(g) => Some(G.Step(g, G.Crash))), pc := Idle)
    case Next(answer) =>
      if w.pc == Idle then w
      else if w.pc.plan !in w.store.activations then Ended(w)
      else Advance(w, answer)
    case _ => if w.pc == Idle && GateIdle(w) then Begin(w, e) else w
  }

  function Run(w: World, events: seq<Event>): World {
    if events == [] then w else Step(Run(w, events[..|events| - 1]), events[|events| - 1])
  }
}
