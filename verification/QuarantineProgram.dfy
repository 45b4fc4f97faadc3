/** The quarantine protocol as programs over the two evidence roots: append_event, the reconciler, prepare, commit_fault
    and finalize, each of which may die between any two durable actions.  Each is proved to be a run of the step
    machine. */
module QuarantineProgram {
  import opened Basics
  import opened Quarantine
  import S = QuarantineSafety
  import R = QuarantineRecovery

  /** `trace` goes on after `before` with steps of the lock's holder, or its death. */
  ghost predicate Tail(before: seq<Event>, trace: seq<Event>) {
    |before| <= |trace| && trace[..|before|] == before
    && forall i :: |before| <= i < |trace| ==> trace[i].Go? || trace[i].Crash? || trace[i].Fails?
  }

  /** It goes on with steps of the lock's holder only. */
  ghost predicate Went(before: seq<Event>, trace: seq<Event>) {
    |before| <= |trace| && trace[..|before|] == before && forall i :: |before| <= i < |trace| ==> trace[i] == Go
  }

  lemma Chain(a: seq<Event>, b: seq<Event>, c: seq<Event>, calm: bool)
    requires Tail(a, b) && Tail(b, c) && (calm ==> Went(a, b) && Went(b, c))
    ensures Tail(a, c) && (calm ==> Went(a, c))
  {
    assert c[..|a|] == c[..|b|][..|a|];
    forall i | |a| <= i < |c| ensures (c[i].Go? || c[i].Crash? || c[i].Fails?) && (calm ==> c[i] == Go) {
      if i < |b| { assert c[i] == c[..|b|][i]; }
    }
  }

  lemma RunLast(w: World, events: seq<Event>, e: Event)
    ensures Run(w, events + [e]) == Step(Run(w, events), e)
  {
    hide Step;
    assert (events + [e])[..|events|] == events;
  }

  /** A reconcile that is not cut short goes on to the same end. */
  lemma Undisturbed(w: World)
    ensures w.holder.Reconciling? ==> R.Complete(HolderStep(w)) == R.Complete(w)
    ensures !w.holder.Reconciling? ==> R.Complete(w) == w
  {
    hide ReconcileStep;
    if w.holder.Reconciling? { R.CompleteUnfolds(w); }
  }

  /** How one transaction fared: passed on, or the whole call is over. */
  datatype Status = Passed(wasRestored: bool) | Over(outcome: Outcome)

  class EvidenceRoots {
    var source: map<Name, File>
    var quarantine: map<Name, File>
    var fences: map<Name, Intent>
    var records: map<TxId, Records>
    var nextInode: nat
    var doom: Option<nat> // how many durable actions the running process survives; None: it does not die

    ghost var trace: seq<Event>
    ghost var world: World

    ghost predicate Synced()
      reads this
    {
      world.disk == Disk(source, quarantine, fences, records, nextInode) && world == Run(EMPTY, trace)
    }

    /** Nobody holds the lock. */
    ghost predicate Valid()
      reads this
    {
      Synced() && world.holder == Free && world.writers == map[]
    }

    /** The call, then only steps of the lock's holder; unless the conditions are calm it may die or fail on the way. */
    ghost predicate Called(before: seq<Event>, e: Event, o: Outcome, calm: bool)
      reads this
    {
      Tail(before + [e], trace) && o == world.last && (calm ==> Went(before + [e], trace) && o != Nothing)
    }

    constructor (doom: Option<nat>)
      ensures Valid() && trace == [] && this.doom == doom
    {
      this.doom := doom;
      source, quarantine, fences, records, nextInode := map[], map[], map[], map[], 1;
      trace, world := [], EMPTY;
    }

    ghost method Take(e: Event)
      requires world == Run(EMPTY, trace)
      modifies this`world, this`trace
      ensures world == Step(old(world), e) && trace == old(trace) + [e] && world == Run(EMPTY, trace)
    {
      RunLast(EMPTY, trace, e);
      trace := trace + [e];
      world := Step(world, e);
    }

    /** The holder of the lock acts. */
    ghost method Act()
      requires world == Run(EMPTY, trace)
      modifies this`world, this`trace
      ensures world == HolderStep(old(world)) && world == Run(EMPTY, trace) && Tail(old(trace), trace)
              && Went(old(trace), trace)
      ensures old(world).holder.Reconciling? ==> R.Complete(world) == R.Complete(old(world))
    {
      hide Run, R.Complete;
      Undisturbed(world);
      hide HolderStep;
      Take(Go);
    }

    /** Between two durable actions the process may die. */
    method MayDie() returns (died: bool)
      requires Synced()
      modifies this`doom, this`world, this`trace
      ensures Synced() && Tail(old(trace), trace)
      ensures old(doom) == None ==> !died && doom == None
      ensures died ==> world == old(world).(holder := Free, last := Nothing)
      ensures !died ==> world == old(world) && trace == old(trace) && Went(old(trace), trace)
    {
      hide Run;
      died := doom == Some(0);
      if died { Take(Crash); }
      else if doom.Some? { doom := Some(doom.value - 1); }
    }

    /** append_event: the fence is checked under the shared lock, then one whole record is appended. */
    method AppendEvent(writer: nat, journal: Name, raw: seq<Byte>) returns (appended: bool)
      requires Valid() && raw != [] && Whole(raw)
      modifies this`source, this`nextInode, this`world, this`trace
      ensures Valid() && appended == (journal !in fences)
      ensures appended ==>
                && journal in source
                && (forall j :: j in old(source) && j != journal ==> j in source && source[j] == old(source)[j])
                && source[journal].bytes == (if journal in old(source) then old(source)[journal].bytes else []) + raw
                && trace == old(trace) + [WriterOpens(writer, journal), WriterAppends(writer, raw), WriterEnds(writer)]
      ensures !appended ==> source == old(source) && trace == old(trace)
    {
      hide Run, HolderStep;
      if journal in fences { return false; }
      Take(WriterOpens(writer, journal));
      Take(WriterAppends(writer, raw));
      if journal in source {
        source := source[journal := source[journal].(bytes := source[journal].bytes + raw)];
      } else {
        source, nextInode := source[journal := File(nextInode, raw)], nextInode + 1;
      }
      Take(WriterEnds(writer));
      return true;
    }

    // -------------------------------------------------------------- reconcile

    /** A reconcile at the given point. */
    ghost predicate At(todo: seq<TxId>, stage: RecoveryStage, purpose: Purpose, restored: seq<TxId>,
                       finalized: seq<TxId>)
      reads this
    {
      world.holder == Reconciling(todo, stage, purpose, restored, finalized)
    }

    /** Publishes a blocked record and raises. */
    method Block(tx: TxId, reason: BlockReason)
      requires tx in records
      modifies this`records
      ensures records ==
              old(records)[tx := old(records)[tx].(blocked := Some(Blocked(old(records)[tx].intent,
                      old(records)[tx].applied, old(records)[tx].finalized, reason)))]
    {
      var r := records[tx];
      records := records[tx := r.(blocked := Some(Blocked(r.intent, r.applied, r.finalized, reason)))];
    }

    method RecoverFinalized(tx: TxId, ghost todo: seq<TxId>, ghost purpose: Purpose, ghost restored: seq<TxId>,
                            ghost finalized: seq<TxId>)
      returns (status: Status)
      requires Synced() && todo != [] && todo[0] == tx && tx in records
               && At(todo, Examine, purpose, restored, finalized)
      requires AppliedOk(records[tx]) && records[tx].finalized.Some? && records[tx].restored == None
               && records[tx].blocked == None
      modifies this`records, this`doom, this`world, this`trace
      ensures (status.Over? && status.outcome == Nothing) || R.Complete(world) == R.Complete(old(world))
      ensures Synced() && Tail(old(trace), trace) && world.writers == old(world).writers
      ensures old(doom) == None ==> doom == None && Went(old(trace), trace)
      ensures status.Over? ==>
              world.holder == Free && world.last == status.outcome && (old(doom) == None ==> status.outcome != Nothing)
      ensures status.Passed? ==>
              At(todo[1..], Examine, purpose, if status.wasRestored then restored + [tx] else restored,
                                    if status.wasRestored then finalized else finalized + [tx])
    {
      hide R.Complete;
      hide Run, ExamineRestored, ExamineRemnant, CommitStep, UndoStep, FinalizeStep, PrepareStep, SnapshotOf, Tail,
           Went, AppliedOk;
      var r := records[tx];
      var s := r.intent.snapshot;
      Act();
      if r.applied == None || !FinalizedOk(r) { return Over(Failed(Inconsistent)); }
      if SnapshotOf(quarantine, s.journal) != Some(s) { return Over(Failed(ArtifactDiffers)); }
      if s.journal !in fences { return Over(Failed(FenceMissing)); }
      if fences[s.journal] != r.intent { return Over(Failed(FenceDiffers)); }
      if s.journal in source { Block(tx, ReplacementAfterFinalize); return Over(Failed(Collision)); }
      return Passed(false);
    }

    method RecoverRestored(tx: TxId, ghost todo: seq<TxId>, ghost purpose: Purpose, ghost restored: seq<TxId>,
                           ghost finalized: seq<TxId>)
      returns (status: Status)
      requires Synced() && todo != [] && todo[0] == tx && tx in records
               && At(todo, Examine, purpose, restored, finalized)
      requires AppliedOk(records[tx]) && records[tx].restored.Some? && records[tx].finalized == None
               && records[tx].blocked == None
      modifies this`doom, this`world, this`trace
      ensures (status.Over? && status.outcome == Nothing) || R.Complete(world) == R.Complete(old(world))
      ensures Synced() && Tail(old(trace), trace) && world.writers == old(world).writers
      ensures old(doom) == None ==> doom == None && Went(old(trace), trace)
      ensures status.Over? ==>
              world.holder == Free && world.last == status.outcome && (old(doom) == None ==> status.outcome != Nothing)
      ensures status.Passed? ==>
              At(todo[1..], Examine, purpose, if status.wasRestored then restored + [tx] else restored,
                                    if status.wasRestored then finalized else finalized + [tx])
    {
      hide R.Complete;
      hide Run, ExamineFinalized, ExamineRemnant, CommitStep, UndoStep, FinalizeStep, PrepareStep, SnapshotOf, Tail,
           Went, AppliedOk;
      var r := records[tx];
      var s := r.intent.snapshot;
      Act();
      if !RestoredOk(r) { return Over(Failed(Inconsistent)); }
      if s.journal in fences {
        return Over(Failed(if fences[s.journal] != r.intent then FenceDiffers else FenceRemains));
      }
      if s.journal in quarantine { return Over(Failed(BytesRemain)); }
      var current := SnapshotOf(source, s.journal);
      if current == None { return Over(Failed(SourceUnsafe)); }
      if !SameAppendOnly(current.value, s) { return Over(Failed(NotContinuation)); }
      return Passed(true);
    }

    /** Brings a remnant's journal back to the source root, or finds it there. */
    method BringBack(tx: TxId, ghost todo: seq<TxId>, ghost purpose: Purpose, ghost restored: seq<TxId>,
                     ghost finalized: seq<TxId>)
      returns (status: Option<Outcome>, reason: RestoreReason)
      requires Synced() && todo != [] && todo[0] == tx && tx in records
               && At(todo, Examine, purpose, restored, finalized)
      requires AppliedOk(records[tx]) && records[tx].restored == None && records[tx].finalized == None
               && records[tx].blocked == None
      modifies this`source, this`quarantine, this`records, this`doom, this`world, this`trace
      ensures status == Some(Nothing) || R.Complete(world) == R.Complete(old(world))
      ensures Synced() && Tail(old(trace), trace) && world.writers == old(world).writers
      ensures old(doom) == None ==> doom == None && Went(old(trace), trace)
      ensures status.Some? ==> world.holder == Free && world.last == status.value && status.value != Nothing
      ensures status == None ==> At(todo, Unfence(reason), purpose, restored, finalized) && tx in records
    {
      hide R.Complete;
      hide Run, ExamineFinalized, ExamineRestored, CommitStep, UndoStep, FinalizeStep, PrepareStep, SnapshotOf, Tail,
           Went, AppliedOk;
      var r := records[tx];
      var s := r.intent.snapshot;
      var j := s.journal;
      reason := NoMoveObserved;
      Act();
      if j in source && j in quarantine { Block(tx, ReplacementCollision); status := Some(Failed(Collision)); return; }
      if j in quarantine {
        if j !in fences { status := Some(Failed(FenceMissing)); return; }
        if fences[j] != r.intent { status := Some(Failed(FenceDiffers)); return; }
        if SnapshotOf(quarantine, j) != Some(s) {
          Block(tx, VerificationFailed);
          status := Some(Failed(RestoreFailed));
          return;
        }
        source, quarantine := source[j := quarantine[j]], quarantine - {j};
        return None, if r.applied.Some? then AfterApplied else AfterMove;
      }
      if j in source {
        var current := SnapshotOf(source, j);
        if current == None { status := Some(Failed(SourceUnsafe)); return; }
        if !SameAppendOnly(current.value, s) { Block(tx, SourceChanged); status := Some(Failed(Changed)); return; }
        return None, NoMoveObserved;
      }
      Block(tx, MissingFromBoth);
      status := Some(Failed(Missing));
    }

    /** Removes the remnant's fence, then marks it restored. */
    method Unwind(tx: TxId, reason: RestoreReason, ghost todo: seq<TxId>, ghost purpose: Purpose,
                  ghost restored: seq<TxId>, ghost finalized: seq<TxId>)
      returns (status: Status)
      requires Synced() && todo != [] && todo[0] == tx && tx in records
               && At(todo, Unfence(reason), purpose, restored, finalized)
      modifies this`fences, this`records, this`doom, this`world, this`trace
      ensures (status.Over? && status.outcome == Nothing) || R.Complete(world) == R.Complete(old(world))
      ensures Synced() && Tail(old(trace), trace) && world.writers == old(world).writers
      ensures old(doom) == None ==> doom == None && Went(old(trace), trace)
      ensures status.Over? ==>
              world.holder == Free && world.last == status.outcome && (old(doom) == None ==> status.outcome != Nothing)
      ensures status.Passed? ==>
              At(todo[1..], Examine, purpose, if status.wasRestored then restored + [tx] else restored,
                                    if status.wasRestored then finalized else finalized + [tx])
    {
      hide R.Complete;
      hide Run, ExamineFinalized, ExamineRestored, ExamineRemnant, CommitStep, UndoStep, FinalizeStep, PrepareStep,
           Tail, Went;
      var r := records[tx];
      var j := r.intent.snapshot.journal;
      Act();
      if j in fences && fences[j] != r.intent { return Over(Failed(FenceDiffers)); }
      fences := fences - {j};
      ghost var t1 := trace;
      var died := MayDie();
      Chain(old(trace), t1, trace, old(doom) == None);
      if died { return Over(Nothing); }
      ghost var t2 := trace;
      var mark := Restored(r.intent, r.applied, reason);
      Act();
      Chain(old(trace), t2, trace, old(doom) == None);
      if r.restored.Some? && r.restored.value != mark { return Over(Failed(Conflict)); }
      records := records[tx := r.(restored := Some(mark))];
      return Passed(true);
    }

    /** One transaction of the reconcile loop. */
    method RecoverOne(tx: TxId, ghost todo: seq<TxId>, ghost purpose: Purpose, ghost restored: seq<TxId>,
                      ghost finalized: seq<TxId>)
      returns (status: Status)
      requires Synced() && todo != [] && todo[0] == tx && At(todo, Examine, purpose, restored, finalized)
      modifies this`source, this`quarantine, this`fences, this`records, this`doom, this`world, this`trace
      ensures (status.Over? && status.outcome == Nothing) || R.Complete(world) == R.Complete(old(world))
      ensures Synced() && Tail(old(trace), trace) && world.writers == old(world).writers
      ensures old(doom) == None ==> doom == None && Went(old(trace), trace)
      ensures status.Over? ==>
              world.holder == Free && world.last == status.outcome && (old(doom) == None ==> status.outcome != Nothing)
      ensures status.Passed? ==>
              At(todo[1..], Examine, purpose, if status.wasRestored then restored + [tx] else restored,
                                    if status.wasRestored then finalized else finalized + [tx])
    {
      hide R.Complete;
      hide Run, ExamineFinalized, ExamineRestored, ExamineRemnant, CommitStep, UndoStep, FinalizeStep, PrepareStep,
           Tail, Went, AppliedOk;
      if tx !in records || !AppliedOk(records[tx])
         || (records[tx].restored.Some? && (records[tx].finalized.Some? || records[tx].blocked.Some?))
      {
        Act();
        return Over(Failed(Inconsistent));
      }
      if records[tx].blocked.Some? { Act(); return Over(Failed(OperatorNeeded)); }
      if records[tx].finalized.Some? { status := RecoverFinalized(tx, todo, purpose, restored, finalized); return; }
      if records[tx].restored.Some? { status := RecoverRestored(tx, todo, purpose, restored, finalized); return; }
      var over, reason := BringBack(tx, todo, purpose, restored, finalized);
      if over.Some? { return Over(over.value); }
      ghost var t1 := trace;
      var died := MayDie();
      Chain(old(trace), t1, trace, old(doom) == None);
      if died { return Over(Nothing); }
      ghost var t2 := trace;
      status := Unwind(tx, reason, todo, purpose, restored, finalized);
      Chain(old(trace), t2, trace, old(doom) == None);
    }

    /** The reconcile loop over the sorted transaction names. */
    method ReconcileLocked(ghost purpose: Purpose)
        returns (over: Option<Outcome>, restored: seq<TxId>, finalized: seq<TxId>)
      requires Synced() && At(Quarantine.Sorted(records.Keys), Examine, purpose, [], [])
      modifies this`source, this`quarantine, this`fences, this`records, this`doom, this`world, this`trace
      ensures over == Some(Nothing) || R.Complete(world) == R.Complete(old(world))
      ensures Synced() && Tail(old(trace), trace) && world.writers == old(world).writers
      ensures old(doom) == None ==> doom == None && Went(old(trace), trace)
      ensures over.Some? ==>
              world.holder == Free && world.last == over.value && (old(doom) == None ==> over.value != Nothing)
      ensures over == None ==> At([], Examine, purpose, restored, finalized)
    {
      hide R.Complete;
      hide Run, ReconcileStep, HolderStep, Step, Tail, Went;
      var ids := Quarantine.Sorted(records.Keys);
      restored, finalized := [], [];
      Still(trace);
      for i := 0 to |ids|
        invariant Synced() && Tail(old(trace), trace) && world.writers == old(world).writers
        invariant old(doom) == None ==> doom == None && Went(old(trace), trace)
        invariant At(ids[i..], Examine, purpose, restored, finalized) && R.Complete(world) == R.Complete(old(world))
      {
        ghost var t0 := trace;
        var status := RecoverOne(ids[i], ids[i..], purpose, restored, finalized);
        Chain(old(trace), t0, trace, old(doom) == None);
        if status.Over? { over := Some(status.outcome); return; }
        if status.wasRestored { restored := restored + [ids[i]]; } else { finalized := finalized + [ids[i]]; }
        assert ids[i..][1..] == ids[i + 1..];
        ghost var t1 := trace;
        var died := MayDie();
        Chain(old(trace), t1, trace, old(doom) == None);
        if died { over := Some(Nothing); return; }
      }
      over := None;
    }

    method Reconcile() returns (o: Outcome)
      requires Valid()
      modifies this`source, this`quarantine, this`fences, this`records, this`doom, this`world, this`trace
      ensures Valid() && Called(old(trace), Event.Reconcile, o, old(doom) == None)
      ensures o != Nothing ==> world == R.Complete(Step(old(world), Event.Reconcile))
      ensures o != Nothing ==>
              (o.Reconciled? <==> R.Converges(old(world).disk)) && (o.Failed? <==> !R.Converges(old(world).disk))
      ensures o.Reconciled? ==> R.Recovered(world.disk, o.restored, o.finalized)
    {
      hide R.Complete, R.Converges, R.Recovered;
      assert S.Inv(world) by { S.EmptyInv(); S.RunKeeps(EMPTY, trace); }
      R.ReconcileConvergesExactly(world);
      hide Run, S.Inv, ExamineFinalized, ExamineRestored, ExamineRemnant, CommitStep, UndoStep, FinalizeStep,
           PrepareStep, Tail, Went;
      Take(Event.Reconcile);
      ghost var t1 := trace;
      var over, restored, finalized := ReconcileLocked(Standalone);
      Undisturbed(world);
      if over.Some? { return over.value; }
      ghost var t2 := trace;
      Act();
      Undisturbed(world);
      Chain(t1, t2, trace, old(doom) == None);
      return Reconciled(restored, finalized);
    }

    // -------------------------------------------------------------- prepare, commit, finalize

    /** A prepare reconciles first, then snapshots the journal and publishes the intent. */
    method Prepare(tx: TxId, journal: Name) returns (o: Outcome)
      requires Valid()
      modifies this`source, this`quarantine, this`fences, this`records, this`doom, this`world, this`trace
      ensures Valid() && Called(old(trace), Event.Prepare(tx, journal), o, old(doom) == None)
    {
      hide Run, ExamineFinalized, ExamineRestored, ExamineRemnant, CommitStep, UndoStep, FinalizeStep, SnapshotOf, Tail,
           Went;
      Take(Event.Prepare(tx, journal));
      ghost var t1 := trace;
      var over, restored, finalized := ReconcileLocked(ForPrepare(tx, journal));
      if over.Some? { return over.value; }
      ghost var t2 := trace;
      Act();
      Chain(t1, t2, trace, old(doom) == None);
      ghost var t3 := trace;
      Act();
      Chain(t1, t3, trace, old(doom) == None);
      var snapshot := SnapshotOf(source, journal);
      if snapshot == None { return Failed(SourceUnsafe); }
      var intent := Intent(tx, snapshot.value);
      if tx in records { return if records[tx].intent == intent then Done else Failed(Conflict); }
      records := records[tx := Records(intent, None, None, None, None)];
      return Done;
    }

    /** commit_fault: fence, move, mark applied, audit; a catchable failure is undone as far as it went. */
    method Commit(tx: TxId, failing: set<CommitStage>) returns (o: Outcome)
      requires Valid()
      modifies this`source, this`quarantine, this`fences, this`records, this`doom, this`world, this`trace
      ensures Valid() && Called(old(trace), Event.Commit(tx), o, old(doom) == None && failing == {})
    {
      hide Run, ReconcileStep, PrepareStep, UndoStep, FinalizeStep, SnapshotOf, Tail, Went;
      Take(Event.Commit(tx));
      ghost var t1 := trace;
      Still(trace);
      if tx !in records { return Failed(Missing); }
      var r := records[tx];
      if r.applied.Some? || r.finalized.Some? || r.restored.Some? || r.blocked.Some? { return Failed(AlreadySettled); }
      if SnapshotOf(source, r.intent.snapshot.journal) != Some(r.intent.snapshot) { return Failed(Changed); }
      o := Transact(tx, failing);
      Chain(t1, t1, trace, old(doom) == None && failing == {});
    }

    /** The handler's view of how far commit_fault came. */
    method Transact(tx: TxId, failing: set<CommitStage>) returns (o: Outcome)
      requires Synced() && tx in records && world.holder == Committing(tx, InstallFence)
      modifies this`source, this`quarantine, this`fences, this`records, this`doom, this`world, this`trace
      ensures Synced() && Tail(old(trace), trace) && world.writers == old(world).writers
      ensures old(doom) == None ==> doom == None && (failing == {} ==> Went(old(trace), trace))
      ensures world.holder == Free && world.last == o && (old(doom) == None ==> o != Nothing)
    {
      hide Run, ReconcileStep, PrepareStep, UndoStep, FinalizeStep, SnapshotOf, Tail, Went;
      var r := records[tx];
      var s := r.intent.snapshot;
      if InstallFence in failing { TakeFails(); return Failed(Changed); }
      Act();
      if s.journal in fences && fences[s.journal] != r.intent { return Failed(FenceDiffers); }
      fences := fences[s.journal := r.intent];
      ghost var t1 := trace;
      var died := MayDie();
      Chain(old(trace), t1, trace, old(doom) == None && failing == {});
      if died { return Nothing; }
      ghost var t2 := trace;
      o := MoveAndMark(tx, failing);
      Chain(old(trace), t2, trace, old(doom) == None && failing == {});
    }

    ghost method TakeFails()
      requires world == Run(EMPTY, trace) && world.holder.Committing?
      modifies this`world, this`trace
      ensures world == CommitFails(old(world), old(world).holder.transaction, old(world).holder.at)
      ensures world == Run(EMPTY, trace) && Tail(old(trace), trace)
    {
      hide Run, HolderStep;
      Take(Fails);
    }

    method MoveAndMark(tx: TxId, failing: set<CommitStage>) returns (o: Outcome)
      requires Synced() && tx in records && world.holder == Committing(tx, MoveAway)
      modifies this`source, this`quarantine, this`fences, this`records, this`doom, this`world, this`trace
      ensures Synced() && Tail(old(trace), trace) && world.writers == old(world).writers
      ensures old(doom) == None ==> doom == None && (failing == {} ==> Went(old(trace), trace))
      ensures world.holder == Free && world.last == o && (old(doom) == None ==> o != Nothing)
    {
      hide Run, ReconcileStep, PrepareStep, UndoStep, FinalizeStep, SnapshotOf, Tail, Went;
      var r := records[tx];
      var s := r.intent.snapshot;
      var fails := MoveAway in failing;
      if fails { TakeFails(); } else { Act(); }
      ghost var t1 := trace;
      if fails || s.journal in quarantine || SnapshotOf(source, s.journal) != Some(s) {
        o := Undo(tx, DropFence(false));
        Chain(old(trace), t1, trace, old(doom) == None && failing == {});
        return;
      }
      assert s.journal in source by { SnapshotPresent(source, s.journal); }
      source, quarantine := source - {s.journal}, quarantine[s.journal := source[s.journal]];
      var died := MayDie();
      Chain(old(trace), t1, trace, old(doom) == None && failing == {});
      if died { return Nothing; }
      ghost var t2 := trace;
      o := MarkAndAudit(tx, failing);
      Chain(old(trace), t2, trace, old(doom) == None && failing == {});
    }

    method MarkAndAudit(tx: TxId, failing: set<CommitStage>) returns (o: Outcome)
      requires Synced() && tx in records && world.holder == Committing(tx, MarkApplied)
      modifies this`source, this`quarantine, this`fences, this`records, this`doom, this`world, this`trace
      ensures Synced() && Tail(old(trace), trace) && world.writers == old(world).writers
      ensures old(doom) == None ==> doom == None && (failing == {} ==> Went(old(trace), trace))
      ensures world.holder == Free && world.last == o && (old(doom) == None ==> o != Nothing)
    {
      hide Run, ReconcileStep, PrepareStep, UndoStep, FinalizeStep, SnapshotOf, Tail, Went;
      var r := records[tx];
      if MarkApplied in failing {
        TakeFails();
        ghost var t0 := trace;
        o := Undo(tx, MoveBack);
        Chain(old(trace), t0, trace, old(doom) == None && failing == {});
        return;
      }
      Act();
      records := records[tx := r.(applied := Some(Applied(r.intent, r.intent.snapshot)))];
      ghost var t1 := trace;
      var died := MayDie();
      Chain(old(trace), t1, trace, old(doom) == None && failing == {});
      if died { return Nothing; }
      ghost var t2 := trace;
      if Audit in failing {
        TakeFails();
        Chain(old(trace), t2, trace, old(doom) == None && failing == {});
        ghost var t3 := trace;
        o := Undo(tx, MoveBack);
        Chain(old(trace), t3, trace, old(doom) == None && failing == {});
        return;
      }
      Act();
      Chain(old(trace), t2, trace, old(doom) == None && failing == {});
      return Done;
    }

    /** The exception handler of commit_fault, from the given point. */
    method Undo(tx: TxId, at: UndoStage) returns (o: Outcome)
      requires Synced() && tx in records && world.holder == Undoing(tx, at)
               && (at == MoveBack || at == DropFence(false))
      modifies this`source, this`quarantine, this`fences, this`records, this`doom, this`world, this`trace
      ensures Synced() && Tail(old(trace), trace) && world.writers == old(world).writers
      ensures old(doom) == None ==> doom == None && Went(old(trace), trace)
      ensures world.holder == Free && world.last == o && (old(doom) == None ==> o != Nothing)
    {
      hide Run, ReconcileStep, PrepareStep, CommitStep, FinalizeStep, SnapshotOf, Tail, Went;
      var s, moved := records[tx].intent.snapshot, at == MoveBack;
      Still(trace);
      if moved {
        Act();
        if s.journal in source || SnapshotOf(quarantine, s.journal) != Some(s) { return Failed(RestoreFailed); }
        assert s.journal in quarantine by { SnapshotPresent(quarantine, s.journal); }
        source, quarantine := source[s.journal := quarantine[s.journal]], quarantine - {s.journal};
        ghost var t1 := trace;
        var died := MayDie();
        Chain(old(trace), t1, trace, old(doom) == None);
        if died { return Nothing; }
      }
      ghost var t2 := trace;
      o := DropAndMark(tx, moved);
      Chain(old(trace), t2, trace, old(doom) == None);
    }

    method DropAndMark(tx: TxId, moved: bool) returns (o: Outcome)
      requires Synced() && tx in records && world.holder == Undoing(tx, DropFence(moved))
      modifies this`fences, this`records, this`doom, this`world, this`trace
      ensures Synced() && Tail(old(trace), trace) && world.writers == old(world).writers
      ensures old(doom) == None ==> doom == None && Went(old(trace), trace)
      ensures world.holder == Free && world.last == o && (old(doom) == None ==> o != Nothing)
    {
      hide Run, ReconcileStep, PrepareStep, CommitStep, FinalizeStep, SnapshotOf, Tail, Went;
      var r := records[tx];
      var j := r.intent.snapshot.journal;
      Act();
      if j in fences && fences[j] != r.intent { return Failed(FenceDiffers); }
      fences := fences - {j};
      if !moved { return Failed(Changed); }
      ghost var t1 := trace;
      var died := MayDie();
      Chain(old(trace), t1, trace, old(doom) == None);
      if died { return Nothing; }
      ghost var t2 := trace;
      Act();
      Chain(old(trace), t2, trace, old(doom) == None);
      var mark := Restored(r.intent, r.applied, CatchableFailure);
      if r.restored.Some? && r.restored.value != mark { return Failed(Conflict); }
      records := records[tx := r.(restored := Some(mark))];
      return Failed(Changed);
    }

    /** The runner finalizes an applied transaction. */
    method Finalize(tx: TxId, fact: string) returns (o: Outcome)
      requires Valid()
      modifies this`records, this`doom, this`world, this`trace
      ensures Valid() && trace == old(trace) + [Event.Finalize(tx, fact), Go] && o == world.last
    {
      hide Run, ReconcileStep, PrepareStep, CommitStep, UndoStep, SnapshotOf, Tail, Went, AppliedOk;
      Take(Event.Finalize(tx, fact));
      Take(Go);
      assert trace == old(trace) + [Event.Finalize(tx, fact), Go];
      if tx !in records { return Failed(Missing); }
      var r := records[tx];
      var s := r.intent.snapshot;
      if r.applied == None { return Failed(Missing); }
      if !AppliedOk(r) { return Failed(Inconsistent); }
      if r.restored.Some? || r.blocked.Some? { return Failed(AlreadySettled); }
      if SnapshotOf(quarantine, s.journal) != Some(s) { return Failed(ArtifactDiffers); }
      if s.journal !in fences { return Failed(FenceMissing); }
      if fences[s.journal] != r.intent { return Failed(FenceDiffers); }
      if s.journal in source { Block(tx, ReplacementCollision); return Failed(Collision); }
      var mark := Finalized(r.intent, r.applied.value, fact);
      if r.finalized.Some? { return if r.finalized.value == mark then Done else Failed(Conflict); }
      records := records[tx := r.(finalized := Some(mark))];
      return Done;
    }
  }

  lemma SnapshotPresent(directory: map<Name, File>, j: Name)
    ensures SnapshotOf(directory, j).Some? ==> j in directory
  {}

  /** Whatever was called and wherever it died, the roots satisfy the protocol's invariant. */
  lemma ProgramIsSafe(roots: EvidenceRoots)
    requires roots.Valid()
    ensures S.Inv(roots.world) && S.DiskOk(roots.world.disk)
  {
    hide Run;
    S.EmptyInv();
    S.RunKeeps(EMPTY, roots.trace);
  }

  lemma Still(t: seq<Event>)
    ensures Tail(t, t) && Went(t, t)
  {}
}
