/** What the coordinator's evidence table and write-ahead journal guarantee over every run, with or without a gate. */
module CoordinatorEvidence {
  import opened Basics
  import opened Coordinator
  import G = Gate

  /** The states before the first observation; none is entered again. */
  predicate Early(s: State) { s in {Planned, Preparing, Prepared, Launching} }

  /** The row belongs to the plan's launch and to the process now in its slot. */
  predicate Current(st: Store, e: Evidence) {
    var slot := Slot(e.plan, e.process.role, e.process.ordinal);
    && e.plan in st.activations && st.activations[e.plan].launchId == Some(e.launchId)
    && slot in st.inventory
    && st.inventory[slot].startId == e.process.startId && st.inventory[slot].epoch == e.process.epoch
  }

  predicate RowOk(st: Store, e: Evidence) {
    && e.plan in st.activations && !Early(st.activations[e.plan].state) && e.managerEpoch <= st.managerEpoch
    && (e.valid ==> Current(st, e))
  }

  predicate EvidenceOk(st: Store) { forall n :: n in st.evidence ==> RowOk(st, st.evidence[n]) }

  /** The generations of the commit write-ahead rows, in journal order. */
  function Generations(journal: seq<Entry>): seq<int> {
    if journal == [] then []
    else
      var last := journal[|journal| - 1];
      Generations(journal[..|journal| - 1]) + (if last.CommitIntent? then [last.generation] else [])
  }

  function UpTo(n: nat): seq<int> { seq(n, i => i) }

  predicate JournalOk(st: Store) {
    && Generations(st.journal) == UpTo(st.generation)
    && (forall i :: 0 <= i < |st.journal| ==> st.journal[i].plan in st.activations)
    && (forall p :: p in st.activations ==> st.activations[p].plan.id == p)
  }

  /** A plan that is still being planned has committed nothing. */
  predicate Uncommitted(journal: seq<Entry>, p: PlanId) {
    forall i :: 0 <= i < |journal| && journal[i].plan == p ==> !journal[i].CommitIntent?
  }

  predicate PcOk(st: Store, pc: Pc) {
    pc != Idle ==>
      && pc.plan in st.activations
      && (pc.LaunchHost? || pc.LaunchReceipt? ==> st.activations[pc.plan].state == Launching)
      && (pc.Staging? || pc.Deleting? ==> st.activations[pc.plan].state == Planned && Uncommitted(st.journal, pc.plan))
  }

  ghost predicate Inv(w: World) { EvidenceOk(w.store) && JournalOk(w.store) && PcOk(w.store, w.pc) }

  // ---------------------------------------------------------------- store transactions

  lemma LogOk(st: Store, e: Entry)
    requires EvidenceOk(st) && JournalOk(st) && e.plan in st.activations && !e.CommitIntent?
    ensures EvidenceOk(Log(st, e)) && JournalOk(Log(st, e))
  {
    assert (st.journal + [e])[..|st.journal|] == st.journal;
  }

  lemma MoveToOk(st: Store, p: PlanId, target: State)
    requires EvidenceOk(st) && JournalOk(st) && MoveTo(st, p, target).Some?
    ensures var st' := MoveTo(st, p, target).value;
            && EvidenceOk(st') && JournalOk(st')
            && p in st.activations && st'.activations == st.activations[p := st.activations[p].(state := target)]
            && Allowed(st.activations[p].state, target) && st'.evidence == st.evidence
            && st'.generation == st.generation
  {
    var a := st.activations[p];
    hide Generations, UpTo;
    var moved := st.(activations := st.activations[p := a.(state := target)]);
    assert EvidenceOk(moved) by {
      forall n | n in moved.evidence ensures RowOk(moved, moved.evidence[n]) { assert RowOk(st, st.evidence[n]); }
    }
    LogOk(moved, Transitioned(p, a.state, target));
  }

  /** Every store transaction that only moves a plan and logs. */
  lemma Transactions()
    ensures forall st: Store, e: Entry {:trigger Log(st, e)} ::
              EvidenceOk(st) && JournalOk(st) && e.plan in st.activations && !e.CommitIntent? ==>
              EvidenceOk(Log(st, e)) && JournalOk(Log(st, e))
    ensures forall st: Store, p, t {:trigger MoveTo(st, p, t)} ::
              EvidenceOk(st) && JournalOk(st) && MoveTo(st, p, t).Some? ==>
              && EvidenceOk(MoveTo(st, p, t).value) && JournalOk(MoveTo(st, p, t).value) && p in st.activations
              && MoveTo(st, p, t).value.activations == st.activations[p := st.activations[p].(state := t)]
  {
    hide EvidenceOk, JournalOk, MoveTo, Log;
    forall st: Store, e: Entry | EvidenceOk(st) && JournalOk(st) && e.plan in st.activations && !e.CommitIntent?
      ensures EvidenceOk(Log(st, e)) && JournalOk(Log(st, e))
    {
      LogOk(st, e);
    }
    forall st: Store, p, t | EvidenceOk(st) && JournalOk(st) && MoveTo(st, p, t).Some?
      ensures EvidenceOk(MoveTo(st, p, t).value) && JournalOk(MoveTo(st, p, t).value) && p in st.activations
      ensures MoveTo(st, p, t).value.activations == st.activations[p := st.activations[p].(state := t)]
    {
      MoveToOk(st, p, t);
    }
  }

  lemma PlanOk(w: World, plan: Plan)
    requires Inv(w) && w.pc == Idle
    ensures Inv(PlanBegins(w, plan))
  {
    hide G.Step, HasTargets, Generations, UpTo;
    if PlanBegins(w, plan) != w {
      var st := w.store.(activations := w.store.activations[plan.id := Activation(plan, Planned, None)]);
      assert EvidenceOk(st) by {
        forall n | n in st.evidence ensures RowOk(st, st.evidence[n]) { assert RowOk(w.store, w.store.evidence[n]); }
      }
      LogOk(st, Other(plan.id, "plan"));
    }
  }

  lemma LaunchOk(w: World, p: PlanId, id: string)
    requires Inv(w) && w.pc == Idle
    ensures Inv(LaunchBegins(w, p, id))
  {
    hide JournalOk, MoveTo, Log;
    if MoveTo(w.store, p, Launching).Some? {
      MoveToOk(w.store, p, Launching);
      var m := MoveTo(w.store, p, Launching).value;
      var st := m.(activations := m.activations[p := m.activations[p].(launchId := Some(id))]);
      assert EvidenceOk(st) by {
        forall n | n in st.evidence ensures RowOk(st, st.evidence[n]) { assert RowOk(m, m.evidence[n]); }
      }
      assert JournalOk(st) by { JournalFrame(m, st); }
      LogOk(st, Other(p, "launch"));
      assert Log(st, Other(p, "launch")).activations == st.activations by { LogFrame(st, Other(p, "launch")); }
    }
  }

  lemma LogFrame(st: Store, e: Entry)
    ensures Log(st, e).activations == st.activations
  {}

  lemma JournalFrame(st: Store, st': Store)
    requires JournalOk(st) && st.journal == st'.journal && st.generation == st'.generation
    requires st.activations.Keys == st'.activations.Keys
    requires forall p :: p in st.activations ==> st'.activations[p].plan == st.activations[p].plan
    ensures JournalOk(st')
  {
    hide Generations, UpTo;
    forall i | 0 <= i < |st.journal| ensures st'.journal[i].plan in st'.activations {
      assert st.journal[i].plan in st.activations.Keys;
    }
  }

  lemma ObserveOk(w: World, p: PlanId, item: Attestation, verified: bool)
    requires Inv(w) && w.pc == Idle
    ensures Inv(ObserveBegins(w, p, item, verified))
  {
    hide JournalOk, Log;
    if ObserveBegins(w, p, item, verified) != w {
      var st := w.store;
      var row := Evidence(p, item.launchId, item.process, item.obligation, item.event, item.expiresAt, st.managerEpoch,
                          true);
      var st' := st.(evidence := st.evidence[item.nonce := row]);
      assert EvidenceOk(st') by {
        forall n | n in st'.evidence ensures RowOk(st', st'.evidence[n]) {
          if n == item.nonce { assert RowOk(st', row); } else { assert RowOk(st, st.evidence[n]); }
        }
      }
      assert JournalOk(st') by { JournalFrame(st, st'); }
      LogOk(st', Other(p, "evidence"));
    }
  }

  lemma InventoriedFrame(inventory: map<Slot, Process>, p: PlanId, processes: seq<Process>, slot: Slot)
    requires slot.plan != p && slot in inventory
    ensures slot in Inventoried(inventory, p, processes)
            && Inventoried(inventory, p, processes)[slot] == inventory[slot]
  {}

  /** New inventory for one plan is harmless when none of its rows is valid. */
  lemma InventoryOk(st: Store, p: PlanId, processes: seq<Process>)
    requires EvidenceOk(st) && forall n :: n in st.evidence && st.evidence[n].plan == p ==> !st.evidence[n].valid
    ensures EvidenceOk(st.(inventory := Inventoried(st.inventory, p, processes)))
  {
    hide Inventoried;
    var st' := st.(inventory := Inventoried(st.inventory, p, processes));
    forall n | n in st'.evidence ensures RowOk(st', st'.evidence[n]) {
      var e := st.evidence[n];
      assert RowOk(st, e);
      if e.valid { InventoriedFrame(st.inventory, p, processes, Slot(e.plan, e.process.role, e.process.ordinal)); }
    }
  }

  lemma InvalidatedOk(st: Store, p: Option<PlanId>)
    requires EvidenceOk(st)
    ensures EvidenceOk(st.(evidence := Invalidated(st.evidence, p)))
  {
    var st' := st.(evidence := Invalidated(st.evidence, p));
    forall n | n in st'.evidence ensures RowOk(st', st'.evidence[n]) { assert RowOk(st, st.evidence[n]); }
  }

  lemma RefreshOk(w: World, p: PlanId, processes: seq<Process>)
    requires Inv(w) && w.pc == Idle
    ensures Inv(RefreshBegins(w, p, processes))
  {
    hide JournalOk, Log, Inventoried, DistinctSlots;
    if p in w.store.activations {
      var st := w.store.(evidence := Invalidated(w.store.evidence, Some(p)));
      InvalidatedOk(w.store, Some(p));
      hide EvidenceOk;
      InventoryOk(st, p, processes);
      var st' := st.(inventory := Inventoried(st.inventory, p, processes));
      assert JournalOk(st') by { JournalFrame(w.store, st'); }
      LogOk(st', Other(p, "refresh"));
      assert st' ==
             w.store.(inventory := Inventoried(w.store.inventory, p, processes),
                      evidence := Invalidated(w.store.evidence, Some(p)));
    }
  }

  lemma CommitOk(w: World, p: PlanId, expected: int, external: bool, now: int)
    requires Inv(w) && w.pc == Idle
    ensures Inv(CommitBegins(w, p, expected, external, now))
  {
    hide EvidenceComplete, LeaseLostBegins, MoveTo;
    if p in w.store.activations && !external { LeaseLostOk(w, p); }
    else if MoveTo(w.store, p, CommitReady).Some? {
      MoveToOk(w.store, p, CommitReady);
      var m := MoveTo(w.store, p, CommitReady).value;
      if m.generation == expected {
        var st := Log(m, CommitIntent(p, expected)).(generation := m.generation + 1);
        assert st.journal[..|m.journal|] == m.journal;
        assert UpTo(m.generation) + [m.generation] == UpTo(m.generation + 1);
        assert EvidenceOk(st);
      }
    }
  }

  lemma LeaseLostOk(w: World, p: PlanId)
    requires Inv(w) && w.pc == Idle
    ensures Inv(LeaseLostBegins(w, p))
  {
    Transactions();
    hide EvidenceOk, JournalOk, MoveTo;
  }

  lemma BeginOk(w: World, e: Event)
    requires Inv(w) && w.pc == Idle
    ensures Inv(Begin(w, e))
  {
    hide EvidenceOk, JournalOk, MoveTo, PlanBegins, LaunchBegins, ObserveBegins, RefreshBegins, CommitBegins,
         LeaseLostBegins, G.Step;
    match e
    case PlanCall(plan) => PlanOk(w, plan); return;
    case Launch(p, id) => LaunchOk(w, p, id); return;
    case Observe(p, item, verified) => ObserveOk(w, p, item, verified); return;
    case Refresh(p, processes) => RefreshOk(w, p, processes); return;
    case Commit(p, expected, external, now) => CommitOk(w, p, expected, external, now); return;
    case LeaseLost(p) => LeaseLostOk(w, p); return;
    case _ => Transactions(); return;
  }

  lemma {:induction false} WithoutOk(journal: seq<Entry>, p: PlanId)
    ensures Uncommitted(journal, p) ==> Generations(Without(journal, p)) == Generations(journal)
    ensures forall i :: 0 <= i < |Without(journal, p)| ==>
            Without(journal, p)[i].plan != p && Without(journal, p)[i] in journal
  {
    if journal != [] {
      var before, last := journal[..|journal| - 1], journal[|journal| - 1];
      WithoutOk(before, p);
      if last.plan != p { assert (Without(before, p) + [last])[..|Without(before, p)|] == Without(before, p); }
    }
  }

  lemma DeleteOk(st: Store, p: PlanId, st': Store)
    requires EvidenceOk(st) && JournalOk(st) && p in st.activations && st.activations[p].state == Planned
             && Uncommitted(st.journal, p)
    requires st' == st.(activations := st.activations - {p}, journal := Without(st.journal, p))
    ensures EvidenceOk(st') && JournalOk(st')
  {
    hide Generations, UpTo, Without;
    WithoutOk(st.journal, p);
    forall n | n in st'.evidence ensures RowOk(st', st'.evidence[n]) { assert RowOk(st, st.evidence[n]); }
  }

  lemma LaunchReceiptOk(w: World, p: PlanId, processes: seq<Process>)
    requires Inv(w) && w.pc == LaunchReceipt(p, processes)
    ensures Inv(LaunchReceipted(w, p, processes))
  {
    hide JournalOk, Log, Inventoried, DistinctSlots, MoveTo;
    forall n | n in w.store.evidence ensures w.store.evidence[n].plan != p {
      assert RowOk(w.store, w.store.evidence[n]);
    }
    InventoryOk(w.store, p, processes);
    var st := w.store.(inventory := Inventoried(w.store.inventory, p, processes));
    assert JournalOk(st) by { JournalFrame(w.store, st); }
    hide EvidenceOk;
    LogOk(st, Other(p, "launched"));
    Transactions();
  }

  /** A gate's answer never touches the store. */
  lemma AnswersOk(w: World, g: G.World, p: PlanId)
    requires Inv(w) && AwaitsGate(w.pc) && w.pc.plan == p && p in w.store.activations
    ensures Inv(GateAnswers(w, g, p))
  {
    hide EvidenceOk, JournalOk, Uncommitted, G.Step, LastHost;
  }

  /** Moving on, or raising, with a store that is in order. */
  lemma ThenOk(w: World, st: Option<Store>)
    requires Inv(w) && (st.Some? ==> EvidenceOk(st.value) && JournalOk(st.value))
    ensures Inv(Then(w, st, Idle))
  {
    hide EvidenceOk, JournalOk;
  }

  lemma NotedOk(st: Store, p: PlanId, note: string, target: State)
    requires EvidenceOk(st) && JournalOk(st) && p in st.activations
    ensures var m := MoveTo(Log(st, Other(p, note)), p, target); m.Some? ==> EvidenceOk(m.value) && JournalOk(m.value)
    ensures var m := MoveTo(st, p, target);
            m.Some? ==> EvidenceOk(m.value) && JournalOk(m.value) && p in m.value.activations
  {
    hide EvidenceOk, JournalOk, MoveTo;
    LogOk(st, Other(p, note));
    Transactions();
  }

  lemma MarksOk(w: World, answer: Answer)
    requires Inv(w) && w.pc != Idle && w.pc.plan in w.store.activations
    requires w.pc.CommitReceipt? || w.pc.MarkEffective? || w.pc.MarkReconcile? || w.pc.RollbackMark?
             || w.pc.RecoverMark?
    ensures Inv(Advance(w, answer))
  {
    hide Inv, EvidenceOk, JournalOk, MoveTo, Log, GateAnswers, Then;
    var p, st := w.pc.plan, w.store;
    assert EvidenceOk(st) && JournalOk(st) by { StoreOk(w); }
    match w.pc
    case CommitReceipt(_) => NotedOk(st, p, "committed", Effective); ThenOk(w,
            MoveTo(Log(st, Other(p, "committed")), p, Effective)); return;
    case MarkEffective(_) =>
      NotedOk(st, p, "commit.reconcile", Effective);
      ThenOk(w, MoveTo(Log(st, Other(p, "commit.reconcile")), p, Effective));
      return;
    case MarkReconcile(_) =>
      NotedOk(st, p, "recovery", Reconcile);
      var m := MoveTo(st, p, Reconcile);
      if m.Some? { LogOk(m.value, Other(p, "recovery")); }
      ThenOk(w, Noted(m, p, "recovery"));
      return;
    case RollbackMark(_, final) => NotedOk(st, p, "", final); ThenOk(w, MoveTo(st, p, final)); return;
    case RecoverMark(_, final) =>
      NotedOk(st, p, "rollback.recover", final);
      ThenOk(w, MoveTo(Log(st, Other(p, "rollback.recover")), p, final));
      return;
  }

  lemma StoreOk(w: World)
    requires Inv(w)
    ensures EvidenceOk(w.store) && JournalOk(w.store)
  {}

  lemma ReceiptsOk(w: World, answer: Answer)
    requires Inv(w) && w.pc != Idle && w.pc.plan in w.store.activations
    requires w.pc.PrepareReceipt? || w.pc.RollbackHost? || w.pc.RollbackReceipt?
    ensures Inv(Advance(w, answer))
  {
    hide EvidenceOk, JournalOk, MoveTo, Uncommitted, GateAnswers, G.Step;
    Transactions();
    match w.pc
    case PrepareReceipt(_) => return;
    case RollbackHost(_) => return;
    case RollbackReceipt(_, _, _) => return;
  }

  lemma AdvanceOk(w: World, answer: Answer)
    requires Inv(w) && w.pc != Idle && w.pc.plan in w.store.activations
    ensures Inv(Advance(w, answer))
  {
    hide EvidenceOk, JournalOk, MoveTo, Uncommitted, Without, EvidenceCount, LaunchReceipted, HostReported, GateAnswers,
         G.Step;
    var p := w.pc.plan;
    if AwaitsGate(w.pc) {
      if w.gate.Some? { AnswersOk(w, w.gate.value, p); }
      return;
    }
    match w.pc
    case Deleting(_) => DeleteOk(w.store, p, Advance(w, answer).store); return;
    case LaunchReceipt(_, processes) => LaunchReceiptOk(w, p, processes); return;
    case PrepareHost(_) => return;
    case LaunchHost(_) => return;
    case CommitEffect(_) => return;
    case RollbackGate(_, _) => return;
    case PrepareReceipt(_) => ReceiptsOk(w, answer); return;
    case RollbackHost(_) => ReceiptsOk(w, answer); return;
    case RollbackReceipt(_, _, _) => ReceiptsOk(w, answer); return;
    case _ => MarksOk(w, answer); return;
  }

  lemma StepOk(w: World, e: Event)
    requires Inv(w)
    ensures Inv(Step(w, e))
  {
    hide EvidenceOk, JournalOk, Uncommitted, Begin, Advance, G.Step;
    match e
    case Next(answer) => if w.pc != Idle { AdvanceOk(w, answer); } return;
    case Restart => BootOk(w.store); return;
    case GateEvent(_) => return;
    case GateFault => return;
    case Fault => return;
    case _ => if w.pc == Idle { BeginOk(w, e); } return;
  }

  lemma BootOk(st: Store)
    requires EvidenceOk(st) && JournalOk(st)
    ensures EvidenceOk(Booted(st)) && JournalOk(Booted(st))
    ensures forall n :: n in Booted(st).evidence ==> !Booted(st).evidence[n].valid
  {
    hide JournalOk;
    InvalidatedOk(st, None);
    JournalFrame(st, Booted(st));
  }

  lemma {:induction false} RunOk(w: World, events: seq<Event>)
    requires Inv(w)
    ensures Inv(Run(w, events))
    decreases |events|
  {
    hide Inv, Step;
    if events != [] {
      RunOk(w, events[..|events| - 1]);
      StepOk(Run(w, events[..|events| - 1]), events[|events| - 1]);
    }
  }

  // ---------------------------------------------------------------- main results

  /** Every row `_evidence_complete` counts is of the plan's launch and of the process now in its slot, although only
      the epoch is compared there. */
  lemma CountedEvidenceIsCurrent(w: World, events: seq<Event>, p: PlanId, now: int, n: string)
    requires w.store == NEW_STORE && w.pc == Idle && Counted(Run(w, events).store, p, now, n)
    ensures var st := Run(w, events).store; Current(st, st.evidence[n]) && st.evidence[n].plan == p
  {
    hide Run;
    assert Inv(w);
    RunOk(w, events);
    assert RowOk(Run(w, events).store, Run(w, events).store.evidence[n]);
  }

  /** The commit write-ahead rows of every run carry 0, 1, ..., generation - 1, each once and in order. */
  lemma CommitsUseEachGenerationOnce(w: World, events: seq<Event>)
    requires w.store == NEW_STORE && w.pc == Idle
    ensures Generations(Run(w, events).store.journal) == UpTo(Run(w, events).store.generation)
  {
    hide Run;
    assert Inv(w);
    RunOk(w, events);
  }

  /** A commit is logged only when every required process has a counted row of this launch and of the process now
      running. */
  lemma CommitsAreWitnessed(w: World, events: seq<Event>, e: Event, p: PlanId, i: nat, k: nat)
    requires w.store == NEW_STORE && w.pc == Idle
    requires var st := Run(w, events).store;
             && e.Commit? && e.target == p && Step(Run(w, events), e).store.generation != st.generation
             && p in st.activations
             && i < |st.activations[p].plan.obligations| && k < |st.activations[p].plan.obligations[i].ordinals|
    ensures var st := Run(w, events).store;
            var o := st.activations[p].plan.obligations[i];
            exists n :: n in st.evidence && Counted(st, p, e.now, n) && Current(st, st.evidence[n])
                        && st.evidence[n].obligation == o.id && st.evidence[n].event == o.event
                        && st.evidence[n].process.role == o.role && st.evidence[n].process.ordinal == o.ordinals[k]
  {
    hide Run, Current;
    var w' := Run(w, events);
    assert EvidenceComplete(w'.store, w'.store.activations[p].plan, e.now) by { OnlyCompleteCommits(w', e, p); }
    var o := w'.store.activations[p].plan.obligations[i];
    assert w'.store.activations[p].plan.id == p by { assert Inv(w); RunOk(w, events); }
    CompleteAt(w'.store, w'.store.activations[p].plan, e.now, i, k);
    var n :| n in w'.store.evidence && Covers(w'.store, p, e.now, o, o.ordinals[k], n);
    CountedEvidenceIsCurrent(w, events, p, e.now, n);
  }

  lemma CompleteAt(st: Store, plan: Plan, now: int, i: nat, k: nat)
    requires EvidenceComplete(st, plan, now) && i < |plan.obligations| && k < |plan.obligations[i].ordinals|
    ensures exists n ::
              n in st.evidence && Covers(st, plan.id, now, plan.obligations[i], plan.obligations[i].ordinals[k], n)
  {
    assert CoveredAt(st, plan, now, i, k);
  }

  lemma OnlyCompleteCommits(w: World, e: Event, p: PlanId)
    requires e.Commit? && e.target == p && Step(w, e).store.generation != w.store.generation && p in w.store.activations
    ensures EvidenceComplete(w.store, w.store.activations[p].plan, e.now)
  {
    hide EvidenceComplete;
  }

  /** Rows are never removed, and of a row only its validity can be lost. */
  ghost predicate Grows(a: map<string, Evidence>, b: map<string, Evidence>) {
    forall n :: n in a ==> n in b && b[n] == a[n].(valid := b[n].valid) && (b[n].valid ==> a[n].valid)
  }

  lemma StepGrows(w: World, e: Event)
    ensures Grows(w.store.evidence, Step(w, e).store.evidence)
  {
    hide Begin, Advance, G.Step;
    match e
    case Next(answer) => if w.pc != Idle
        && w.pc.plan in w.store.activations { AdvanceKeepsEvidence(w, answer); } return;
    case GateEvent(_) => return;
    case GateFault => return;
    case Fault => return;
    case Restart => return;
    case _ => BeginGrows(w, e); return;
  }

  lemma BeginGrows(w: World, e: Event)
    ensures Grows(w.store.evidence, Begin(w, e).store.evidence)
  {
    hide G.Step, EvidenceComplete, HasTargets, Inventoried, DistinctSlots;
    match e
    case Observe(_, _, _) => return;
    case Refresh(_, _) => return;
    case Commit(_, _, _, _) => return;
    case Launch(_, _) => return;
    case _ => hide Grows; OthersKeepEvidence(w, e); assert Grows(w.store.evidence, w.store.evidence)
        by { GrowsReflexive(w.store.evidence); } return;
  }

  lemma GrowsReflexive(a: map<string, Evidence>)
    ensures Grows(a, a)
  {}

  lemma OthersKeepEvidence(w: World, e: Event)
    requires !e.Observe? && !e.Refresh? && !e.Commit? && !e.Launch?
    ensures Begin(w, e).store.evidence == w.store.evidence
  {
    hide G.Step, HasTargets;
  }

  lemma AdvanceKeepsEvidence(w: World, answer: Answer)
    requires w.pc != Idle && w.pc.plan in w.store.activations
    ensures Advance(w, answer).store.evidence == w.store.evidence
  {
    hide G.Step, LastHost, Without, Inventoried, EvidenceCount, HostReported, DistinctSlots;
  }

  lemma {:induction false} RunGrows(w: World, events: seq<Event>)
    ensures Grows(w.store.evidence, Run(w, events).store.evidence)
    decreases |events|
  {
    hide Step;
    if events != [] {
      RunGrows(w, events[..|events| - 1]);
      StepGrows(Run(w, events[..|events| - 1]), events[|events| - 1]);
    }
  }

  /** The step accepts a nonce. */
  predicate Accepts(w: World, e: Event, n: string) { n !in w.store.evidence && n in Step(w, e).store.evidence }

  /** No nonce is accepted twice, whatever lies between the two observations: other plans, restarts, refreshes. */
  lemma NonceIsNeverReplayed(w: World, first: Event, between: seq<Event>, second: Event, n: string)
    requires Accepts(w, first, n)
    ensures !Accepts(Run(Step(w, first), between), second, n)
  {
    hide Step, Run;
    RunGrows(Step(w, first), between);
  }
}
