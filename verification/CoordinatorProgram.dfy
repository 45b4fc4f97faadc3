/** ActivationCoordinator over its store with a plain traffic adapter, as the program it is.  Each method may be cut
    short at its fault points or by a crash, and is proved to be a run of the step machine. */
module CoordinatorProgram {
  import opened Basics
  import opened Coordinator
  import E = CoordinatorEvidence

  /** `trace` goes on after `before` with continuations of the running call under the given answers, or its end by a
      fault. */
  ghost predicate Tail(before: seq<Event>, trace: seq<Event>, answers: set<Answer>) {
    && |before| <= |trace| && trace[..|before|] == before
    && forall i :: |before| <= i < |trace| ==> (trace[i].Next? && trace[i].answer in answers) || trace[i].Fault?
  }

  /** It goes on with continuations only. */
  ghost predicate Went(before: seq<Event>, trace: seq<Event>) {
    |before| <= |trace| && trace[..|before|] == before && forall i :: |before| <= i < |trace| ==> trace[i].Next?
  }

  lemma RunLast(w: World, events: seq<Event>, e: Event)
    ensures Run(w, events + [e]) == Step(Run(w, events), e)
  {
    hide Step;
    assert (events + [e])[..|events|] == events;
  }

  /** The states in which recover has the traffic restored. */
  predicate Interrupted(s: State) { s in {Preparing, Launching, CommitReady, Observing} }

  /** How a rollback ends: refused before it starts, raising ROLLBACK_FAILED, or returning the new state. */
  datatype Outcome = Refused | RollbackFailed | Now(state: State)

  /** The outcome of a rollback that was not refused. */
  function RollbackOutcome(host: Answer, restore: Answer): Outcome {
    if host.ok && host.outcome.Some? && restore.ok then Now(RolledBack) else RollbackFailed
  }

  function StateAfter(outcome: Outcome): State {
    match outcome
    case Now(s) => s
    case _ => FailedSafe
  }

  const INITIAL := World(NEW_STORE, None, false, Idle)

  class ActivationCoordinator {
    var generation: nat
    var managerEpoch: nat
    var activations: map<PlanId, Activation>
    var journal: seq<Entry>
    var inventory: map<Slot, Process>
    var evidence: map<string, Evidence>
    var faults: set<string>

    ghost var trace: seq<Event>
    ghost var world: World

    function Rows(): Store
      reads this
    {
      Store(generation, managerEpoch, activations, journal, inventory, evidence)
    }

    /** The state of a plan, if there is one. */
    function StateOf(p: PlanId): Option<State>
      reads this`activations
    {
      if p in activations then Some(activations[p].state) else None
    }

    /** Only this plan's row may have changed. */
    twostate predicate OnlyPlan(p: PlanId)
      reads this`activations
    {
      activations - {p} == old(activations) - {p}
    }

    ghost predicate Synced()
      reads this
    {
      world.store == Rows() && world.gate == None && world == Run(INITIAL, trace)
    }

    ghost predicate Valid()
      reads this
    {
      Synced() && world.pc == Idle
    }

    /** The call, then only its continuations under the given answers; with no fault injected it is not cut short. */
    ghost predicate Called(before: seq<Event>, e: Event, answers: set<Answer>, calm: bool)
      reads this
    {
      Tail(before + [e], trace, answers) && (calm ==> Went(before + [e], trace))
    }

    constructor (faults: set<string>)
      ensures Valid() && trace == [] && this.faults == faults
    {
      this.faults := faults;
      generation, managerEpoch, activations, journal, inventory, evidence := 0, 0, map[], [], map[], map[];
      trace, world := [], INITIAL;
    }

    ghost method Take(e: Event)
      requires world == Run(INITIAL, trace)
      modifies this`world, this`trace
      ensures world == Step(old(world), e) && trace == old(trace) + [e] && world == Run(INITIAL, trace)
    {
      RunLast(INITIAL, trace, e);
      trace := trace + [e];
      world := Step(world, e);
    }

    ghost method Continue(answer: Answer)
      requires world == Run(INITIAL, trace) && world.pc != Idle && world.pc.plan in world.store.activations
      modifies this`world, this`trace
      ensures world == Advance(old(world), answer) && world == Run(INITIAL, trace)
              && trace == old(trace) + [Next(answer)]
    {
      hide Run, Advance;
      Take(Next(answer));
    }

    /** A fault point: the injected fault ends the call here, its transactions so far committed. */
    method Hit(point: string) returns (fault: bool)
      requires Synced() && !world.pc.Staging? && !world.pc.Deleting?
      modifies this`faults, this`world, this`trace
      ensures Synced() && faults == old(faults) - {point} && fault == (point in old(faults))
      ensures fault ==> world == old(world).(pc := Idle) && trace == old(trace) + [Fault]
      ensures !fault ==> world == old(world) && trace == old(trace)
    {
      hide Run;
      fault := point in faults;
      faults := faults - {point};
      if fault { Take(Fault); }
    }

    /** A fault point of a call that began at `since`. */
    method HitSince(point: string, ghost since: seq<Event>, ghost answers: set<Answer>, ghost calm: bool)
        returns (fault: bool)
      requires Synced() && !world.pc.Staging? && !world.pc.Deleting?
      requires Tail(since, trace, answers) && (calm ==> faults == {} && Went(since, trace))
      modifies this`faults, this`world, this`trace
      ensures Synced() && Tail(since, trace, answers) && (calm ==> faults == {} && Went(since, trace) && !fault)
      ensures fault ==> world == old(world).(pc := Idle)
      ensures !fault ==> world == old(world)
    {
      hide Run;
      fault := Hit(point);
    }

    ghost method ContinueSince(answer: Answer, since: seq<Event>, answers: set<Answer>, calm: bool)
      requires world == Run(INITIAL, trace) && world.pc != Idle && world.pc.plan in world.store.activations
      requires Tail(since, trace, answers) && answer in answers && (calm ==> Went(since, trace))
      modifies this`world, this`trace
      ensures world == Advance(old(world), answer) && world == Run(INITIAL, trace)
      ensures Tail(since, trace, answers) && (calm ==> Went(since, trace))
    {
      hide Run, Advance;
      Continue(answer);
    }

    /** A restart boots the store: a new manager epoch, and no evidence stays valid. */
    method Boot()
      requires Valid()
      modifies this`managerEpoch, this`evidence, this`world, this`trace
      ensures Valid() && trace == old(trace) + [Restart] && managerEpoch == old(managerEpoch) + 1
      ensures forall n :: n in evidence ==> !evidence[n].valid
    {
      hide Run;
      managerEpoch := managerEpoch + 1;
      evidence := map n | n in evidence :: evidence[n].(valid := false);
      Take(Restart);
      assert world.store.evidence == evidence;
    }

    /** `held` is whether the traffic adapter holds the predecessor without raising; the plan is stored by then. */
    method PlanActivation(plan: Plan, held: bool) returns (ok: bool)
      requires Valid()
      modifies this`activations, this`journal, this`world, this`trace
      ensures Valid() && trace == old(trace) + [PlanCall(plan)]
      ensures var fits := HasTargets(plan) && old(StateOf(plan.id)) == None;
              && (ok <==> fits && held) && (fits ==> StateOf(plan.id) == Some(Planned))
              && (!fits ==> Rows() == old(Rows()))
      ensures OnlyPlan(plan.id)
    {
      hide Run, HasTargets;
      Take(PlanCall(plan));
      if !HasTargets(plan) || plan.id in activations { return false; }
      activations := activations[plan.id := Activation(plan, Planned, None)];
      journal := journal + [Other(plan.id, "plan")];
      return held;
    }

    method ObserveEvidence(p: PlanId, item: Attestation, verified: bool) returns (ok: bool)
      requires Valid()
      modifies this`evidence, this`journal, this`world, this`trace
      ensures Valid() && trace == old(trace) + [Observe(p, item, verified)]
      ensures ok <==> item.nonce !in old(evidence) && item.nonce in evidence
    {
      hide Run;
      Take(Observe(p, item, verified));
      if p !in activations || activations[p].state !in {Observing, Reconcile} || !verified { return false; }
      var slot := Slot(p, item.process.role, item.process.ordinal);
      if item.plan != p || Some(item.launchId) != activations[p].launchId
         || item.artifact !in activations[p].plan.plugins
         || slot !in inventory || inventory[slot].startId != item.process.startId
         || inventory[slot].epoch != item.process.epoch
      {
        return false;
      }
      if item.nonce in evidence { return false; }
      evidence := evidence[item.nonce := Evidence(p, item.launchId, item.process, item.obligation, item.event,
                                                  item.expiresAt, managerEpoch, true)];
      journal := journal + [Other(p, "evidence")];
      return true;
    }

    /** The rows of one plan deleted, then inserted one by one; None when a primary key repeats. */
    method Insert(p: PlanId, processes: seq<Process>) returns (rows: Option<map<Slot, Process>>)
      ensures rows == if DistinctSlots(processes) then Some(Inventoried(inventory, p, processes)) else None
    {
      hide DistinctSlots;
      var result := map s | s in inventory && s.plan != p :: inventory[s];
      assert result == Inventoried(inventory, p, processes[..0]);
      NoSlots(processes[..0]);
      for i := 0 to |processes|
        invariant result == Inventoried(inventory, p, processes[..i]) && DistinctSlots(processes[..i])
      {
        hide Inventoried;
        var x := processes[i];
        assert processes[..i + 1] == processes[..i] + [x];
        InventoriedSnoc(inventory, p, processes[..i], x);
        if Slot(p, x.role, x.ordinal) in result { RepeatedSlot(processes, i); return None; }
        result := result[Slot(p, x.role, x.ordinal) := x];
      }
      assert processes[..|processes|] == processes;
      return Some(result);
    }

    method RefreshInventory(p: PlanId, processes: seq<Process>) returns (ok: bool)
      requires Valid()
      modifies this`inventory, this`evidence, this`journal, this`world, this`trace
      ensures Valid() && trace == old(trace) + [Refresh(p, processes)]
      ensures ok <==> old(StateOf(p)) in {Some(Observing), Some(State.Reconcile)} && DistinctSlots(processes)
      ensures ok ==> forall n :: n in evidence && evidence[n].plan == p ==> !evidence[n].valid
      ensures !ok ==> Rows() == old(Rows())
    {
      hide Run, Inventoried, DistinctSlots, Step;
      Begins(world, Refresh(p, processes));
      Take(Refresh(p, processes));
      if p !in activations || activations[p].state !in {Observing, Reconcile} { return false; }
      var rows := Insert(p, processes);
      if rows == None { return false; }
      inventory := rows.value;
      evidence := map n | n in evidence :: if evidence[n].plan == p then evidence[n].(valid := false) else evidence[n];
      assert evidence == Invalidated(old(evidence), Some(p));
      journal := journal + [Other(p, "refresh")];
      return true;
    }

    /** `_evidence_complete`: every obligation and ordinal has an observed row under the current inventory epoch. */
    method EvidenceIsComplete(plan: Plan, now: int) returns (complete: bool)
      ensures complete == EvidenceComplete(Rows(), plan, now)
    {
      hide CoveredAt;
      if !HasTargets(plan) { return false; }
      for i := 0 to |plan.obligations|
        invariant forall h, k :: 0 <= h < i && 0 <= k < |plan.obligations[h].ordinals| ==>
                  CoveredAt(Rows(), plan, now, h, k)
      {
        for j := 0 to |plan.obligations[i].ordinals|
          invariant forall k :: 0 <= k < j ==> CoveredAt(Rows(), plan, now, i, k)
        {
          if !CoveredAt(Rows(), plan, now, i, j) { return false; }
        }
      }
      return true;
    }

    // -------------------------------------------------------------- state-changing calls

    /** A transaction that makes the checked transition and logs; false aborts it. */
    method Transition(p: PlanId, target: State) returns (ok: bool)
      modifies this`activations, this`journal
      ensures ok <==> MoveTo(old(Rows()), p, target).Some?
      ensures ok <==> p in old(activations) && Allowed(old(activations)[p].state, target)
      ensures ok ==> activations == old(activations)[p := old(activations)[p].(state := target)]
      ensures ok ==> Rows() == MoveTo(old(Rows()), p, target).value
      ensures !ok ==> Rows() == old(Rows())
    {
      if p !in activations || !Allowed(activations[p].state, target) { return false; }
      var from := activations[p].state;
      activations := activations[p := activations[p].(state := target)];
      journal := journal + [Transitioned(p, from, target)];
      return true;
    }

    /** A write-ahead transaction: the checked transition and a journal entry. */
    method WriteAhead(p: PlanId, target: State, note: string) returns (ok: bool)
      modifies this`activations, this`journal
      ensures ok <==> MoveTo(old(Rows()), p, target).Some?
      ensures ok <==> p in old(activations) && Allowed(old(activations)[p].state, target)
      ensures ok ==> Rows() == Log(MoveTo(old(Rows()), p, target).value, Other(p, note)) && StateOf(p) == Some(target)
      ensures !ok ==> Rows() == old(Rows())
      ensures OnlyPlan(p)
    {
      hide MoveTo;
      ok := Transition(p, target);
      if ok { journal := journal + [Other(p, note)]; }
    }

    /** A receipt transaction: a journal entry and the checked transition. */
    method Record(p: PlanId, target: State, note: string)
      requires p in activations && Allowed(activations[p].state, target)
      modifies this`activations, this`journal
      ensures MoveTo(Log(old(Rows()), Other(p, note)), p, target) == Some(Rows()) && StateOf(p) == Some(target)
              && OnlyPlan(p)
    {
      hide MoveTo;
      journal := journal + [Other(p, note)];
      var ok := Transition(p, target);
    }

    /** The write-ahead transaction of prepare. */
    method LogPrepare(p: PlanId) returns (ok: bool)
      modifies this`activations, this`journal
      ensures ok <==> old(StateOf(p)) == Some(Planned)
      ensures StateOf(p) == (if ok then Some(Preparing) else old(StateOf(p))) && OnlyPlan(p)
      ensures forall w: World :: w.store == old(Rows()) && w.pc == Idle ==>
                PrepareBegins(w, p) == w.(store := Rows(), pc := if ok then PrepareHost(p) else Idle)
    {
      hide MoveTo;
      ok := WriteAhead(p, Preparing, "prepare");
    }

    /** The write-ahead transaction of launch. */
    method LogLaunch(p: PlanId, launchId: string) returns (ok: bool)
      modifies this`activations, this`journal
      ensures ok <==> old(StateOf(p)) == Some(Prepared)
      ensures StateOf(p) == (if ok then Some(Launching) else old(StateOf(p))) && OnlyPlan(p)
      ensures forall w: World :: w.store == old(Rows()) && w.pc == Idle ==>
                LaunchBegins(w, p, launchId) == w.(store := Rows(), pc := if ok then LaunchHost(p) else Idle)
    {
      hide MoveTo;
      ok := Transition(p, Launching);
      if !ok { return; }
      activations := activations[p := activations[p].(launchId := Some(launchId))];
      journal := journal + [Other(p, "launch")];
    }

    method Prepare(p: PlanId, host: Answer) returns (ok: bool)
      requires Valid()
      modifies this`activations, this`journal, this`faults, this`world, this`trace
      ensures Valid() && Called(old(trace), Event.Prepare(p), {host}, old(faults) == {})
      ensures StateOf(p) == if old(StateOf(p)) != Some(Planned) then old(StateOf(p))
              else Some(if ok then Prepared else Preparing)
      ensures ok ==> old(StateOf(p)) == Some(Planned)
      ensures old(faults) == {} ==> (ok <==> old(StateOf(p)) == Some(Planned) && host.ok)
      ensures OnlyPlan(p)
    {
      hide Run, MoveTo, Tail, Went, Step, PrepareBegins;
      Begins(world, Event.Prepare(p));
      Take(Event.Prepare(p));
      ghost var t1 := trace;
      Still(trace);
      ok := LogPrepare(p);
      if !ok { return; }
      ok := FinishPrepare(p, host, t1, old(faults) == {});
    }

    method FinishPrepare(p: PlanId, host: Answer, ghost since: seq<Event>, ghost calm: bool) returns (ok: bool)
      requires Synced() && StateOf(p) == Some(Preparing) && world.pc == PrepareHost(p)
      requires Tail(since, trace, {host}) && (calm ==> faults == {} && Went(since, trace))
      modifies this`activations, this`journal, this`faults, this`world, this`trace
      ensures Valid() && Tail(since, trace, {host}) && (calm ==> Went(since, trace))
      ensures StateOf(p) == Some(if ok then Prepared else Preparing) && OnlyPlan(p) && (calm ==> (ok <==> host.ok))
    {
      hide Run, MoveTo, Tail, Went, Advance;
      var fault := HitSince("prepare.after_wal", since, {host}, calm);
      if fault { return false; }
      PlainSteps(world, host);
      ContinueSince(host, since, {host}, calm);
      if !host.ok { return false; }
      fault := HitSince("prepare.after_side_effect", since, {host}, calm);
      if fault { return false; }
      PlainSteps(world, host);
      ContinueSince(host, since, {host}, calm);
      Record(p, Prepared, "prepared");
      return true;
    }

    method Launch(p: PlanId, launchId: string, host: Answer) returns (ok: bool)
      requires Valid()
      modifies this`activations, this`inventory, this`journal, this`faults, this`world, this`trace
      ensures Valid() && Called(old(trace), Event.Launch(p, launchId), {host}, old(faults) == {})
      ensures StateOf(p) == if old(StateOf(p)) != Some(Prepared) then old(StateOf(p))
              else Some(if ok then Observing else Launching)
      ensures ok ==> old(StateOf(p)) == Some(Prepared)
      ensures old(faults) == {} ==>
              (ok <==> old(StateOf(p)) == Some(Prepared) && host.ok && DistinctSlots(host.inventory))
      ensures OnlyPlan(p)
    {
      hide Run, MoveTo, Tail, Went, DistinctSlots, Step, LaunchBegins;
      Begins(world, Event.Launch(p, launchId));
      Take(Event.Launch(p, launchId));
      ghost var t1 := trace;
      Still(trace);
      ok := LogLaunch(p, launchId);
      if !ok { return; }
      ok := FinishLaunch(p, host, t1, old(faults) == {});
    }

    method FinishLaunch(p: PlanId, host: Answer, ghost since: seq<Event>, ghost calm: bool) returns (ok: bool)
      requires Synced() && StateOf(p) == Some(Launching) && world.pc == LaunchHost(p)
      requires Tail(since, trace, {host}) && (calm ==> faults == {} && Went(since, trace))
      modifies this`activations, this`inventory, this`journal, this`faults, this`world, this`trace
      ensures Valid() && Tail(since, trace, {host}) && (calm ==> Went(since, trace))
      ensures StateOf(p) == Some(if ok then Observing else Launching) && OnlyPlan(p)
      ensures calm ==> (ok <==> host.ok && DistinctSlots(host.inventory))
    {
      hide Run, MoveTo, Tail, Went, Advance, LaunchReceipted;
      var fault := HitSince("launch.after_wal", since, {host}, calm);
      if fault { return false; }
      PlainSteps(world, host);
      ContinueSince(host, since, {host}, calm);
      if !host.ok { return false; }
      fault := HitSince("launch.after_side_effect", since, {host}, calm);
      if fault { return false; }
      PlainSteps(world, host);
      Launched(world, p, host.inventory);
      ContinueSince(host, since, {host}, calm);
      ok := RecordLaunch(p, host.inventory);
    }

    /** The receipt transaction of launch. */
    method RecordLaunch(p: PlanId, processes: seq<Process>) returns (ok: bool)
      modifies this`activations, this`inventory, this`journal
      ensures forall w: World :: w.store == old(Rows()) ==> Rows() == LaunchReceipted(w, p, processes).store
      ensures ok <==> DistinctSlots(processes) && p in old(activations) && Allowed(old(activations)[p].state, Observing)
      ensures activations == if ok then old(activations)[p := old(activations)[p].(state := Observing)]
              else old(activations)
    {
      hide MoveTo, Inventoried, DistinctSlots;
      var rows := Insert(p, processes);
      if rows == None { return false; }
      var before, slots := journal, inventory;
      inventory, journal := rows.value, journal + [Other(p, "launched")];
      ok := Transition(p, Observing);
      if !ok { inventory, journal := slots, before; }
    }

    method Commit(p: PlanId, expected: int, external: bool, now: int, host: Answer, restore: Answer)
        returns (committed: Option<nat>)
      requires Valid()
      modifies this`generation, this`activations, this`journal, this`faults, this`world, this`trace
      ensures Valid()
              && Called(old(trace), Event.Commit(p, expected, external, now), {host, restore}, old(faults) == {})
      ensures committed.Some? <==> old(StateOf(p)) == Some(Observing) && StateOf(p) == Some(Effective)
      ensures committed.Some? ==> committed == Some(generation) && generation == old(generation) + 1 == expected + 1
      ensures committed.Some? ==> external && EvidenceComplete(old(Rows()), old(activations)[p].plan, now)
      ensures old(faults) == {} ==>
                (committed.Some? <==>
                 && external && host.ok && old(StateOf(p)) == Some(Observing) && old(generation) == expected
                                      && old(activations)[p].plan.generation == expected
                                      && EvidenceComplete(old(Rows()), old(activations)[p].plan, now))
      ensures OnlyPlan(p)
    {
      hide Run, MoveTo, EvidenceComplete, CommitBegins, LeaseLostBegins, Step, Tail, Went;
      Begins(world, Event.Commit(p, expected, external, now));
      CommitWithoutLease(world, p, expected, now);
      Take(Event.Commit(p, expected, external, now));
      ghost var t1 := trace;
      Still(trace);
      if p !in activations { return None; }
      if !external {
        var outcome := LostLease(p, host, restore, old(world));
        Continued(t1, trace, host, restore);
        return None;
      }
      committed := CommitHeld(p, expected, now, host, t1, {host, restore}, old(faults) == {}, old(world));
    }

    /** Commit under a valid external lease. */
    method CommitHeld(p: PlanId, expected: int, now: int, host: Answer, ghost since: seq<Event>,
                      ghost answers: set<Answer>, ghost calm: bool,
                      ghost before: World) returns (committed: Option<nat>)
      requires world == Run(INITIAL, trace) && world == CommitBegins(before, p, expected, true, now) && p in activations
      requires before.store == Rows() && before.gate == None && before.pc == Idle && host in answers
      requires Tail(since, trace, answers) && (calm ==> faults == {} && Went(since, trace))
      modifies this`generation, this`activations, this`journal, this`faults, this`world, this`trace
      ensures Valid() && Tail(since, trace, answers) && (calm ==> Went(since, trace))
      ensures committed.Some? <==> old(StateOf(p)) == Some(Observing) && StateOf(p) == Some(Effective)
      ensures committed.Some? ==> committed == Some(generation) && generation == old(generation) + 1 == expected + 1
      ensures committed.Some? ==> EvidenceComplete(old(Rows()), old(activations)[p].plan, now)
      ensures calm ==>
                (committed.Some? <==> && host.ok && old(StateOf(p)) == Some(Observing) && old(generation) == expected
                                      && old(activations)[p].plan.generation == expected
                                      && EvidenceComplete(old(Rows()), old(activations)[p].plan, now))
      ensures OnlyPlan(p)
    {
      hide Run, MoveTo, EvidenceComplete, CommitBegins, Step, Tail, Went;
      var ok := BeginCommit(p, expected, now);
      if !ok { return None; }
      ok := FinishCommit(p, host, since, answers, calm);
      committed := if ok then Some(generation) else None;
    }

    /** The evidence check of commit and its write-ahead transaction. */
    method BeginCommit(p: PlanId, expected: int, now: int) returns (ok: bool)
      requires p in activations
      modifies this`generation, this`activations, this`journal
      ensures ok <==>
              && old(StateOf(p)) == Some(Observing) && old(generation) == expected
              && old(activations)[p].plan.generation == expected
                      && EvidenceComplete(old(Rows()), old(activations)[p].plan, now)
      ensures StateOf(p) == (if ok then Some(CommitReady) else old(StateOf(p))) && OnlyPlan(p)
      ensures ok ==> generation == old(generation) + 1
      ensures forall w: World :: w.store == old(Rows()) && w.pc == Idle ==>
                CommitBegins(w, p, expected, true, now) ==
                    w.(store := Rows(), pc := if ok then CommitEffect(p) else Idle)
    {
      hide MoveTo, EvidenceComplete;
      MovedFacts(Rows(), p, CommitReady);
      ok := EvidenceIsComplete(activations[p].plan, now);
      if ok { ok := LogCommit(p, expected); }
    }

    /** The write-ahead transaction of commit: the transition, the intent, and the compare-and-swap of the
        generation. */
    method LogCommit(p: PlanId, expected: int) returns (ok: bool)
      requires p in activations
      modifies this`generation, this`activations, this`journal
      ensures var m := MoveTo(old(Rows()), p, CommitReady);
              && (ok <==> m.Some? && old(generation) == expected && old(activations)[p].plan.generation == expected)
              && (ok ==>
                    && p in activations
                    && Rows() == Log(m.value, CommitIntent(p, expected)).(generation := m.value.generation + 1))
              && (!ok ==> Rows() == old(Rows()))
      ensures ok ==> StateOf(p) == Some(CommitReady) && old(StateOf(p)) == Some(Observing)
      ensures OnlyPlan(p) && (ok <==> && old(StateOf(p)) == Some(Observing) && old(generation) == expected
                                      && old(activations)[p].plan.generation == expected)
    {
      var before, table := journal, activations;
      ok := Transition(p, CommitReady);
      if !ok { return; }
      if generation != expected || activations[p].plan.generation != expected {
        journal, activations := before, table;
        return false;
      }
      journal, generation := journal + [CommitIntent(p, expected)], generation + 1;
    }

    method FinishCommit(p: PlanId, host: Answer, ghost since: seq<Event>, ghost answers: set<Answer>, ghost calm: bool)
        returns (ok: bool)
      requires Synced() && StateOf(p) == Some(CommitReady) && world.pc == CommitEffect(p) && host in answers
      requires Tail(since, trace, answers) && (calm ==> faults == {} && Went(since, trace))
      modifies this`activations, this`journal, this`faults, this`world, this`trace
      ensures Valid() && Tail(since, trace, answers) && (calm ==> Went(since, trace))
      ensures StateOf(p) == Some(if ok then Effective else CommitReady) && OnlyPlan(p) && (calm ==> (ok <==> host.ok))
    {
      hide Run, MoveTo, Tail, Went, Advance;
      var fault := HitSince("commit.after_wal", since, answers, calm);
      if fault { return false; }
      PlainSteps(world, host);
      ContinueSince(host, since, answers, calm);
      if !host.ok { return false; }
      fault := HitSince("commit.after_side_effect", since, answers, calm);
      if fault { return false; }
      PlainSteps(world, host);
      ContinueSince(host, since, answers, calm);
      Record(p, Effective, "committed");
      return true;
    }

    method Resume(p: PlanId) returns (ok: bool)
      requires Valid()
      modifies this`activations, this`journal, this`world, this`trace
      ensures Valid() && trace == old(trace) + [Event.Resume(p)]
      ensures ok <==> old(StateOf(p)) in {Some(Launching), Some(State.Reconcile)}
      ensures StateOf(p) == (if ok then Some(Observing) else old(StateOf(p))) && OnlyPlan(p)
    {
      hide Run, MoveTo;
      Take(Event.Resume(p));
      ok := Transition(p, Observing);
    }

    /** Recovery with a plain traffic adapter; `restored` is how that adapter answers if it is asked to restore.
        None is a call that raises. */
    method Recover(p: PlanId, restored: bool) returns (now: Option<State>)
      requires Valid()
      modifies this`activations, this`journal, this`world, this`trace
      ensures Valid() && trace == old(trace) + (if now == None then [] else [Event.Recover(p)])
      ensures now == None <==> old(StateOf(p)) == None || (!restored && Interrupted(old(StateOf(p)).value))
      ensures StateOf(p) == if now.Some? then now else old(StateOf(p))
      ensures now.Some? ==> now == if old(StateOf(p)) == Some(Rollback) then Some(FailedSafe)
                                   else if Interrupted(old(StateOf(p)).value) then Some(State.Reconcile)
                                           else old(StateOf(p))
      ensures OnlyPlan(p) && (now == None ==> Rows() == old(Rows()))
    {
      hide Run, MoveTo, Step;
      Begins(world, Event.Recover(p));
      if p !in activations { return None; }
      var state := activations[p].state;
      if Interrupted(state) && !restored { return None; }
      Take(Event.Recover(p));
      if state == Rollback {
        var ok := Transition(p, FailedSafe);
      } else if state in {Preparing, Launching, CommitReady} {
        var ok := Transition(p, State.Reconcile);
        journal := journal + [Other(p, "reobserve")];
      } else if state == Observing {
        var ok := Transition(p, State.Reconcile);
      }
      return Some(activations[p].state);
    }

    method RollBack(p: PlanId, host: Answer, restore: Answer) returns (outcome: Outcome)
      requires Valid()
      modifies this`activations, this`journal, this`world, this`trace
      ensures Valid()
      ensures trace == old(trace) + [RollbackCall(p)]
              + (if outcome == Refused then [] else [Next(host), Next(restore), Next(restore)])
      ensures outcome == if p in old(activations) && Allowed(old(activations)[p].state, Rollback) then
              RollbackOutcome(host, restore) else Refused
      ensures StateOf(p) == if outcome == Refused then old(StateOf(p)) else Some(StateAfter(outcome))
      ensures OnlyPlan(p)
    {
      hide Run, Step, MoveTo;
      Begins(world, RollbackCall(p));
      Take(RollbackCall(p));
      var ok := WriteAhead(p, Rollback, "rollback");
      if !ok { return Refused; }
      outcome := FinishRollback(p, host, restore);
    }

    /** The host rolls back and its receipt is journaled; the traffic is restored, and the outcome is marked. */
    method FinishRollback(p: PlanId, host: Answer, restore: Answer) returns (outcome: Outcome)
      requires Synced() && StateOf(p) == Some(Rollback) && world.pc == RollbackHost(p)
      modifies this`activations, this`journal, this`world, this`trace
      ensures Valid() && trace == old(trace) + [Next(host), Next(restore), Next(restore)]
      ensures outcome == RollbackOutcome(host, restore) && StateOf(p) == Some(StateAfter(outcome)) && OnlyPlan(p)
    {
      hide Run, MoveTo, Advance, HostReported;
      PlainSteps(world, host);
      Continue(host);
      var receipt := if host.ok then HostRollback(p, host.outcome, None) else HostRollback(p, None, Some(host.error));
      LastReport(journal, receipt);
      journal := journal + [receipt];
      outcome := RestoreTraffic(p, !host.ok, restore);
      assert trace == old(trace) + [Next(host), Next(restore), Next(restore)];
    }

    method RestoreTraffic(p: PlanId, failed: bool, restore: Answer) returns (outcome: Outcome)
      requires Synced() && StateOf(p) == Some(Rollback) && world.pc == RollbackGate(p, failed)
      modifies this`activations, this`journal, this`world, this`trace
      ensures Valid() && trace == old(trace) + [Next(restore), Next(restore)]
      ensures outcome == if failed || !restore.ok || !old(HostReported(journal, p)) then RollbackFailed
              else Now(RolledBack)
      ensures StateOf(p) == Some(StateAfter(outcome)) && OnlyPlan(p)
    {
      hide Run, MoveTo, Advance, HostReported;
      PlainSteps(world, restore);
      Continue(restore);
      outcome := if failed || !restore.ok || !HostReported(journal, p) then RollbackFailed else Now(RolledBack);
      PlainSteps(world, restore);
      Continue(restore);
      var ok := Transition(p, StateAfter(outcome));
      assert trace == old(trace) + [Next(restore), Next(restore)];
    }

    method LoseLease(p: PlanId, host: Answer, restore: Answer) returns (outcome: Outcome)
      requires Valid()
      modifies this`activations, this`journal, this`world, this`trace
      ensures Valid() && Called(old(trace), LeaseLost(p), {host, restore}, true)
      ensures outcome == if old(StateOf(p)) !in {Some(Observing), Some(Effective)} then Refused
                         else if old(activations)[p].plan.fallbackProven then Now(State.Reconcile)
                                 else RollbackOutcome(host, restore)
      ensures StateOf(p) == if outcome == Refused then old(StateOf(p)) else Some(StateAfter(outcome))
      ensures OnlyPlan(p)
    {
      hide Run, LeaseLostBegins;
      Take(LeaseLost(p));
      Still(trace);
      outcome := LostLease(p, host, restore, old(world));
    }

    /** external_lease_lost, also as commit calls it. */
    method LostLease(p: PlanId, host: Answer, restore: Answer, ghost before: World) returns (outcome: Outcome)
      requires world == Run(INITIAL, trace) && world == LeaseLostBegins(before, p)
      requires before.store == Rows() && before.gate == None && before.pc == Idle
      modifies this`activations, this`journal, this`world, this`trace
      ensures Valid() && (trace == old(trace) || trace == old(trace) + [Next(host), Next(restore), Next(restore)])
      ensures outcome == if old(StateOf(p)) !in {Some(Observing), Some(Effective)} then Refused
                         else if old(activations)[p].plan.fallbackProven then Now(State.Reconcile)
                                 else RollbackOutcome(host, restore)
      ensures StateOf(p) == if outcome == Refused then old(StateOf(p)) else Some(StateAfter(outcome))
      ensures OnlyPlan(p)
    {
      hide Run, MoveTo;
      var ok := Transition(p, Degraded);
      if !ok { return Refused; }
      if activations[p].plan.fallbackProven {
        ok := Transition(p, State.Reconcile);
        return Now(State.Reconcile);
      }
      ok := WriteAhead(p, Rollback, "rollback");
      outcome := FinishRollback(p, host, restore);
    }
  }

  lemma LastReport(journal: seq<Entry>, receipt: Entry)
    requires receipt.HostRollback?
    ensures HostReported(journal + [receipt], receipt.plan) <==> receipt.outcome.Some?
  {}

  /** The first transaction of a call on an idle coordinator with a plain traffic adapter. */
  lemma Begins(w: World, e: Event)
    requires w.gate == None && w.pc == Idle
    ensures match e
            case Prepare(p) => Step(w, e) == PrepareBegins(w, p)
            case Launch(p, launchId) => Step(w, e) == LaunchBegins(w, p, launchId)
            case Commit(p, expected, external, now) => Step(w, e) == CommitBegins(w, p, expected, external, now)
            case Refresh(p, processes) => Step(w, e) == RefreshBegins(w, p, processes)
            case Recover(p) => Step(w, e) == RecoverBegins(w, p)
            case RollbackCall(p) => Step(w, e) == RollbackBegins(w, p)
            case LeaseLost(p) => Step(w, e) == LeaseLostBegins(w, p)
            case _ => true
  {
    hide PrepareBegins, LaunchBegins, CommitBegins, RefreshBegins, RecoverBegins, RollbackBegins, LeaseLostBegins;
  }

  /** The continuations of a call whose traffic adapter is a plain one. */
  lemma PlainSteps(w: World, answer: Answer)
    requires w.gate == None && w.pc != Idle && w.pc.plan in w.store.activations
    ensures var p := w.pc.plan;
            match w.pc
            case PrepareHost(_) => Advance(w, answer) == if answer.ok then w.(pc := PrepareReceipt(p)) else Ended(w)
            case PrepareReceipt(_) => Advance(w, answer) ==
                Then(w, MoveTo(Log(w.store, Other(p, "prepared")), p, Prepared), Idle)
            case LaunchHost(_) => Advance(w, answer) == if answer.ok then w.(pc := LaunchReceipt(p, answer.inventory))
                else Ended(w)
            case LaunchReceipt(_, processes) => Advance(w, answer) == LaunchReceipted(w, p, processes)
            case CommitEffect(_) => Advance(w, answer) == if answer.ok then w.(pc := CommitReceipt(p)) else Ended(w)
            case CommitReceipt(_) => Advance(w, answer) ==
                Then(w, MoveTo(Log(w.store, Other(p, "committed")), p, Effective), Idle)
            case RollbackHost(_) => Advance(w, answer) == HostRolledBack(w, p, answer)
            case RollbackGate(_, failed) =>
              Advance(w, answer) ==
              w.(pc := RollbackMark(p, if failed || !answer.ok || !HostReported(w.store.journal, p) then FailedSafe
                                    else RolledBack))
            case RollbackMark(_, final) => Advance(w, answer) == Then(w, MoveTo(w.store, p, final), Idle)
            case _ => true
  {
    hide MoveTo, HostReported, GateAnswers, LaunchReceipted, HostRolledBack, Without;
  }

  lemma Launched(w: World, p: PlanId, processes: seq<Process>)
    ensures var w' := LaunchReceipted(w, p, processes); w'.gate == w.gate && w'.pc == Idle
  {
    hide MoveTo, Inventoried, DistinctSlots;
  }

  lemma CommitWithoutLease(w: World, p: PlanId, expected: int, now: int)
    requires w.pc == Idle
    ensures CommitBegins(w, p, expected, false, now) == if p in w.store.activations then LeaseLostBegins(w, p) else w
    ensures p !in w.store.activations ==> CommitBegins(w, p, expected, true, now) == w
  {
    hide LeaseLostBegins, MoveTo, EvidenceComplete;
  }

  lemma MovedFacts(st: Store, p: PlanId, target: State)
    ensures MoveTo(st, p, target).Some? ==>
              && p in st.activations && p in MoveTo(st, p, target).value.activations
              && MoveTo(st, p, target).value.generation == st.generation
              && MoveTo(st, p, target).value.activations[p].plan == st.activations[p].plan
  {}

  lemma Continued(t: seq<Event>, t': seq<Event>, host: Answer, restore: Answer)
    requires t' == t || t' == t + [Next(host), Next(restore), Next(restore)]
    ensures Tail(t, t', {host, restore}) && Went(t, t')
  {}

  lemma Still(t: seq<Event>)
    ensures (forall answers :: Tail(t, t, answers)) && Went(t, t)
  {}

  /** Whatever was called and wherever it was cut short, counted evidence is current and commits use each generation
      once. */
  lemma ProgramIsSound(c: ActivationCoordinator, p: PlanId, now: int, n: string)
    requires c.Valid()
    ensures Counted(c.Rows(), p, now, n) ==> E.Current(c.Rows(), c.evidence[n])
    ensures E.Generations(c.journal) == E.UpTo(c.generation)
  {
    hide Run, E.Current;
    if Counted(c.Rows(), p, now, n) { E.CountedEvidenceIsCurrent(INITIAL, c.trace, p, now, n); }
    E.CommitsUseEachGenerationOnce(INITIAL, c.trace);
  }

  lemma NoSlots(ps: seq<Process>)
    requires ps == []
    ensures DistinctSlots(ps)
  {}

  /** The slots of a plan in its new inventory are those of its processes. */
  lemma {:induction false} InventoriedSlots(inventory: map<Slot, Process>, p: PlanId, ps: seq<Process>, s: Slot)
    requires s.plan == p
    ensures s in Inventoried(inventory, p, ps) <==> exists k :: 0 <= k < |ps| && s == Slot(p, ps[k].role, ps[k].ordinal)
  {
    if ps != [] { InventoriedSlots(inventory, p, ps[..|ps| - 1], s); }
  }

  lemma InventoriedSnoc(inventory: map<Slot, Process>, p: PlanId, ps: seq<Process>, x: Process)
    ensures Inventoried(inventory, p, ps + [x]) == Inventoried(inventory, p, ps)[Slot(p, x.role, x.ordinal) := x]
    ensures DistinctSlots(ps + [x]) <==>
            DistinctSlots(ps) && Slot(p, x.role, x.ordinal) !in Inventoried(inventory, p, ps)
  {
    assert (ps + [x])[..|ps|] == ps;
    InventoriedSlots(inventory, p, ps, Slot(p, x.role, x.ordinal));
    hide Inventoried;
    var all := ps + [x];
    if DistinctSlots(all) {
      forall i, j | 0 <= i < j < |ps| ensures ps[i].role != ps[j].role || ps[i].ordinal != ps[j].ordinal {
        assert all[i] == ps[i] && all[j] == ps[j];
      }
      forall k | 0 <= k < |ps| ensures Slot(p, x.role, x.ordinal) != Slot(p, ps[k].role, ps[k].ordinal) {
        assert all[k] == ps[k] && all[|ps|] == x;
      }
    }
  }

  lemma RepeatedSlot(ps: seq<Process>, i: nat)
    requires i < |ps| && !DistinctSlots(ps[..i + 1])
    ensures !DistinctSlots(ps)
  {
    var a, b :| 0 <= a < b < i + 1 && ps[..i + 1][a].role == ps[..i + 1][b].role
        && ps[..i + 1][a].ordinal == ps[..i + 1][b].ordinal;
    assert ps[a].role == ps[b].role && ps[a].ordinal == ps[b].ordinal;
  }
}
