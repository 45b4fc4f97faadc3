/** Concrete lives of one gate: how it is staged, closed and opened, and three runs from a fresh gate that reach what
    the laws allow and one would not expect. */
module GateWitness {
  import opened Basics
  import opened Gate
  import S = GateSafety
  import R = GateRecovery
  import O = GateOracle

  const ID := "plan"
  const BASE := Document(0, "base", "body")
  const LEASE := LeaseGrant("manager", 1, 100)
  const ROUTE := RouteState(Some(0), PredecessorFence(0), Some(BASE))
  const DIGEST := "sha256:" + Zeros(64)
  const START := Fresh(ROUTE, LEASE, 0, false)

  function Zeros(n: nat): (s: string)
    ensures |s| == n && forall i :: 0 <= i < n ==> s[i] == '0'
  {
    if n == 0 then "" else Zeros(n - 1) + "0"
  }

  lemma Drive(events: seq<Event>, g: World, e: Event) returns (events': seq<Event>, g': World)
    requires Run(START, events) == g
    ensures events' == events + [e] && g' == Step(g, e) && Run(START, events') == g'
  {
    hide Step;
    events', g' := events + [e], Step(g, e);
    S.RunLast(START, events, e);
  }

  // ---------------------------------------------------------------- forward

  /** Only stage, close, open and drain have written to the log. */
  predicate Forward(rows: seq<Row>) {
    forall i :: 0 <= i < |rows| ==> rows[i].operation in {StageOp, CloseOp, OpenOp, DrainOp}
  }

  lemma ForwardIsQuiet(rows: seq<Row>)
    requires Forward(rows)
    ensures S.Quiet(rows)
  {
    hide LastRow;
  }

  predicate GateAt(g: World, s: GateState) {
    && g.lease == LEASE && g.now == 0 && g.clean && !g.behavioral && g.db.Some?
    && var db := g.db.value;
    && db.state == s && db.candidate == PlanRef(ID) && db.candidateGeneration == 1 && db.predecessorGeneration == 0
    && db.predecessor == BASE && db.candidateDigest == Digest(Some(PlanRef(ID)))
    && db.predecessorDigest == Digest(Some(BASE))
    && db.lease == LEASE && Forward(db.rows)
    && (s in {CandidateStaged, CandidateClosed} ==>
          db.routeGeneration == Some(0) && db.routeFence == PredecessorFence(0) && g.route == ROUTE)
  }

  lemma Stages()
    ensures var g := Step(Fresh(ROUTE, LEASE, 0, false), Stage(PlanRef(ID), BASE));
            GateAt(g, CandidateStaged) && g.pc == Idle && g.ret.Returned? && g.db.value.admissions == map[]
  {}

  /** A request was admitted to the predecessor and has not finished. */
  predicate Waits(g: World) {
    g.db.Some? && "q" in g.db.value.admissions && g.db.value.admissions["q"].generation == 0
        && g.db.value.admissions["q"].finish == None
  }

  lemma Admits(g: World)
    requires GateAt(g, CandidateStaged) && g.pc == Idle && g.db.value.admissions == map[]
    ensures var g' := Step(g, Observe("q", 0, None)); GateAt(g', CandidateStaged) && g'.pc == Idle && Waits(g')
  {
  }

  lemma CloseBegins(g: World)
    requires GateAt(g, CandidateStaged) && g.pc == Idle
    ensures var g' := Step(g, Close(1)); GateAt(g', CandidateStaged) && g'.pc == CloseEffect && (Waits(g) ==> Waits(g'))
  {
    hide LastRow;
  }

  lemma CloseGoes(g: World)
    requires GateAt(g, CandidateStaged)
    ensures g.pc == CloseEffect ==> Step(g, Go(Works)) == g.(pc := CloseQuery)
    ensures g.pc == CloseQuery ==> Step(g, Go(Works)) == g.(pc := CloseDecide(g.route))
  {
    hide AdvanceUndo, AdvanceExamine;
  }

  lemma CloseEnds(g: World)
    requires GateAt(g, CandidateStaged) && g.pc == CloseDecide(ROUTE)
    ensures var g' := Step(g, Go(Works)); GateAt(g', CandidateClosed) && g'.pc == Idle && (Waits(g) ==> Waits(g'))
  {
    hide AdvanceUndo, AdvanceExamine;
  }

  predicate Proves(proof: OpenProof) {
    && proof.planId == ID && proof.generation == 1 && proof.evidenceCount >= 1 && proof.evidenceDigest == DIGEST
    && proof.coverageDigest == DIGEST && proof.lease == LEASE && proof.candidateDigest == Digest(Some(PlanRef(ID)))
  }

  lemma DigestIsWellFormed()
    ensures IsSha256(DIGEST)
  {
    hide Zeros;
    assert DIGEST[..7] == "sha256:";
  }

  lemma OpenBegins(g: World, proof: OpenProof)
    requires GateAt(g, CandidateClosed) && g.pc == Idle && Proves(proof)
    ensures var g' := Step(g, Open(1, proof));
            GateAt(g', Opening) && g'.pc.OpenEffect? && g'.pc.proof == proof && (Waits(g) ==> Waits(g'))
  {
    DigestIsWellFormed();
    hide IsSha256;
  }

  lemma OpenExposes(g: World)
    requires GateAt(g, Opening) && g.pc.OpenEffect? && g.pc.proof.lease == LEASE
    ensures Step(g, Go(Works)) ==
            g.(route := RouteState(Some(1), g.pc.fence, Some(PlanRef(ID))), pc := OpenQuery(g.pc.proof, g.pc.fence))
  {
    hide AdvanceUndo, AdvanceExamine;
  }

  lemma OpenLooks(g: World)
    requires g.db.Some? && g.pc.OpenQuery?
    ensures Step(g, Go(Works)) == g.(pc := OpenDecide(g.pc.proof, g.pc.fence, g.route))
  {
    hide AdvanceUndo, AdvanceExamine;
  }

  lemma OpenEnds(g: World)
    requires GateAt(g, Opening) && g.pc.OpenDecide? && Proves(g.pc.proof)
    requires g.pc.actual == RouteState(Some(1), g.pc.fence, Some(PlanRef(ID)))
    ensures var g' := Step(g, Go(Works));
            && GateAt(g', CandidateOpen) && g'.pc == Idle && g'.ret.Returned? && g'.route == g.route
            && (Waits(g) ==> Waits(g'))
  {
    hide AdvanceUndo, AdvanceExamine;
  }

  lemma Shuts() returns (events: seq<Event>, g: World)
    ensures Run(START, events) == g && GateAt(g, CandidateClosed) && g.pc == Idle && Waits(g)
  {
    hide Step;
    Stages();
    events, g := Drive([], START, Stage(PlanRef(ID), BASE));
    Admits(g);
    events, g := Drive(events, g, Observe("q", 0, None));
    CloseBegins(g);
    events, g := Drive(events, g, Close(1));
    CloseGoes(g);
    events, g := Drive(events, g, Go(Works));
    CloseGoes(g);
    events, g := Drive(events, g, Go(Works));
    CloseEnds(g);
    events, g := Drive(events, g, Go(Works));
  }

  const PROOF := OpenProof(ID, 1, 1, DIGEST, DIGEST, LEASE, Digest(Some(PlanRef(ID))))

  lemma Opens() returns (events: seq<Event>, g: World)
    ensures Run(START, events) == g && GateAt(g, CandidateOpen) && g.pc == Idle && Waits(g)
  {
    hide Step, Zeros, Run;
    events, g := Shuts();
    OpenBegins(g, PROOF);
    events, g := Drive(events, g, Open(1, PROOF));
    OpenExposes(g);
    events, g := Drive(events, g, Go(Works));
    OpenLooks(g);
    events, g := Drive(events, g, Go(Works));
    OpenEnds(g);
    events, g := Drive(events, g, Go(Works));
  }

  // ---------------------------------------------------------------- what the oracle refuses

  lemma DrainBegins(g: World)
    requires GateAt(g, CandidateOpen) && g.pc == Idle && Waits(g)
    ensures var g' := Step(g, Drain(1)); GateAt(g', Draining) && g'.pc == DrainCheck && Waits(g')
  {}

  lemma DrainWaits(g: World)
    requires GateAt(g, Draining) && g.pc == DrainCheck && Waits(g)
    ensures Step(g, Go(Works)) == g.(pc := Idle, ret := Returned(VBool(false)))
  {
    hide AdvanceUndo, AdvanceExamine;
    assert PredecessorBusy(g.db.value);
  }

  lemma Drains() returns (events: seq<Event>, g: World)
    ensures Run(START, events) == g && GateAt(g, Draining) && g.pc == Idle
  {
    hide Step, Run;
    events, g := Opens();
    DrainBegins(g);
    events, g := Drive(events, g, Drain(1));
    DrainWaits(g);
    events, g := Drive(events, g, Go(Works));
  }

  /** Calls that all return: a drain with an unfinished predecessor request rests in DRAINING, and the oracle refuses
      the trace. */
  lemma RestsInDraining() returns (events: seq<Event>, db: Db)
    ensures var g := Run(START, events);
            g.db == Some(db) && g.pc == Idle && g.clean && db.state == Draining && !O.Passes(db)
  {
    hide Step, Run, O.Passes, O.Escaped;
    var g;
    events, g := Drains();
    db := g.db.value;
    O.OracleVerdict(START, events, db);
  }

  lemma RollbackRestores(g: World)
    requires g.db.Some? && g.pc == Idle && g.db.value.candidateGeneration == 1 && !g.behavioral
    ensures var g1 := Step(g, Rollback(1, None));
            var db1 := Note(g.db.value, Intent, RollbackOp, Some(PredecessorFence(g.db.value.predecessorGeneration)),
                            EMPTY);
            g1 == At(g, db1, RbEffect(None))
                && Step(g1, Go(Works)) == g1.(route := R.PredecessorRoute(db1), pc := RbDecide(RestoredStrong))
  {
    hide AdvanceExamine, AdvanceForward;
  }

  lemma RollbackRecords(g: World)
    requires g.db.Some? && g.pc == RbDecide(RestoredStrong) && Allowed(g.db.value.state, RolledBack)
    ensures var g' := Step(g, Go(Works));
            && g'.db.Some? && g'.pc == Idle && g'.clean == g.clean && g'.route == g.route && g'.ret.Returned?
            && g'.db.value.state == RolledBack
            && |g'.db.value.rows| > 0 && g'.db.value.rows[|g'.db.value.rows| - 1].from == g.db.value.state
            && g'.db.value.rows[|g'.db.value.rows| - 1].to == Some(RolledBack)
            && g'.db.value.candidateGeneration == g.db.value.candidateGeneration
  {
    hide AdvanceExamine, AdvanceForward;
  }

  /** Staged and rolled back: the log is settled and the predecessor is back. */
  predicate Back(g: World) {
    && g.pc == Idle && g.route == ROUTE && g.db.Some?
    && var db := g.db.value;
    db.state == RolledBack && db.candidateGeneration == 1 && db.candidate == PlanRef(ID) && S.Quiet(db.rows)
  }

  /** The rollback of a staged gate, its route restored but its receipt not yet written. */
  predicate Restored(g: World) {
    && g.pc == RbDecide(RestoredStrong) && g.route == ROUTE && g.db.Some?
    && var db := g.db.value;
    && db.state == CandidateStaged && db.candidateGeneration == 1 && db.candidate == PlanRef(ID) && |db.rows| > 0
    && Forward(db.rows[..|db.rows| - 1])
    && db.rows[|db.rows| - 1].operation == RollbackOp && db.rows[|db.rows| - 1].kind == Intent
  }

  lemma StagedRestores(g: World)
    requires GateAt(g, CandidateStaged) && g.pc == Idle
    ensures Restored(Step(Step(g, Rollback(1, None)), Go(Works))) && !Step(g, Rollback(1, None)).pc.Idle?
  {
    hide Step;
    RollbackRestores(g);
  }

  lemma RestoredEnds(g: World)
    requires Restored(g)
    ensures Back(Step(g, Go(Works))) && Step(g, Go(Works)).ret == Returned(VClass(RestoredStrong))
  {
    hide AdvanceExamine, AdvanceForward, LastRow;
    var rows := g.db.value.rows;
    var receipt := RowOf(g.db.value, Receipt, RollbackOp, Some(RolledBack), None,
                         EMPTY.(classification := Some(RestoredStrong), actual := Some(g.route)));
    assert Step(g, Go(Works)) == RollbackStep(g, g.db.value, RestoredStrong);
    SettledIsQuiet(rows[..|rows| - 1], rows[|rows| - 1], receipt);
    assert rows == rows[..|rows| - 1] + [rows[|rows| - 1]];
  }

  lemma SettledIsQuiet(rows: seq<Row>, intent: Row, receipt: Row)
    requires Forward(rows) && intent.operation == RollbackOp && intent.kind == Intent && receipt.operation == RollbackOp
             && receipt.kind == Receipt
    ensures S.Quiet(rows + [intent] + [receipt])
  {
    hide LastRow;
    ForwardIsQuiet(rows);
    forall op, k ensures LastRow(rows + [intent] + [receipt], op, k) ==
                         if op == RollbackOp then Some(if k == Intent then |rows| else |rows| + 1)
                            else LastRow(rows, op, k) {
      R.SnocLast(rows, intent, op, k);
      R.SnocLast(rows + [intent], receipt, op, k);
    }
  }

  /** Rolled back from there, all calls returning: the oracle refuses it although the gate is settled. */
  lemma EscapesDraining() returns (events: seq<Event>, db: Db)
    ensures var g := Run(START, events);
            g.db == Some(db) && g.pc == Idle && g.clean && db.state == RolledBack && !O.Passes(db)
  {
    hide Step, Run, O.Passes;
    var g;
    events, g := Drains();
    RollbackRestores(g);
    events, g := Drive(events, g, Rollback(1, None));
    events, g := Drive(events, g, Go(Works));
    RollbackRecords(g);
    events, g := Drive(events, g, Go(Works));
    db := g.db.value;
    assert O.IsEscape(db.rows[|db.rows| - 1]);
    O.OracleVerdict(START, events, db);
  }

  // ---------------------------------------------------------------- what reconcile cannot settle

  lemma ProofIsAcceptable(g: World)
    requires GateAt(g, CandidateClosed)
    ensures R.Acceptable(g, g.db.value, PROOF)
  {
    hide IsSha256, Zeros;
    DigestIsWellFormed();
  }

  /** A cut rollback and then a cut open: OPENING with the rollback outstanding and the route still the predecessor, so
      that every later reconcile raises (ReconcileRaisesExactly). */
  lemma OpenSticks() returns (events: seq<Event>, db: Db)
    ensures var g := Run(START, events);
            && S.Inv(g) && g.pc == Idle && g.db == Some(db) && db.state == Opening && S.Blocks(db.rows)
            && g.route == R.PredecessorRoute(db)
  {
    hide Step, Run, S.Blocks, S.Inv, IsSha256, Zeros, R.Acceptable, LastRow;
    var g;
    events, g := Shuts();
    ProofIsAcceptable(g);
    ForwardIsQuiet(g.db.value.rows);
    R.RollbackThenOpenSticks(g, g.db.value, PROOF);
    events, g := Drive(events, g, Rollback(1, None));
    events, g := Drive(events, g, Crash);
    events, g := Drive(events, g, Open(1, PROOF));
    events, g := Drive(events, g, Crash);
    db := g.db.value;
    StartIsOk();
    S.RunKeeps(START, events);
  }

  lemma StartIsOk()
    ensures S.Inv(START)
  {}

  /** A gate is rolled back and its predecessor restored; then fail_close closes the predecessor, raises, and leaves an
      intent that no reconcile can settle (StuckForEver). */
  lemma FailCloseAfterRollback() returns (events: seq<Event>, db: Db)
    ensures var g := Run(START, events);
            && S.Inv(g) && g.pc == Idle && g.ret == Raised && g.db == Some(db) && R.Stuck(db) && g.route == CLOSED_ROUTE
  {
    hide Step, S.Inv, R.Stuck;
    Stages();
    var g;
    events, g := Drive([], START, Stage(PlanRef(ID), BASE));
    RollbackRestores(g);
    events, g := Drive(events, g, Rollback(1, None));
    events, g := Drive(events, g, Go(Works));
    RollbackRecords(g);
    events, g := Drive(events, g, Go(Works));
    R.FailCloseStarts(g, g.db.value);
    events, g := Drive(events, g, FailClose(1));
    db := g.db.value;
    StuckIsRolledBack(db);
    R.FailCloseGoes(g, Works);
    events, g := Drive(events, g, Go(Works));
    R.FailCloseGoes(g, Works);
    events, g := Drive(events, g, Go(Works));
    R.FailCloseGoes(g, Works);
    events, g := Drive(events, g, Go(Works));
    StartIsOk();
    S.RunKeeps(START, events);
  }

  lemma StuckIsRolledBack(db: Db)
    requires R.Stuck(db)
    ensures db.state == RolledBack
  {}
}
