/** What every crash-interleaved run of the evidence quarantine keeps. */
module QuarantineSafety {
  import opened Basics
  import opened Quarantine

  // ---------------------------------------------------------------- the invariant

  /** Each journal lies in exactly one root under an inode of its own, and holds whole records. */
  ghost predicate FilesOk(d: Disk) {
    && (forall j :: j in d.source ==> j !in d.quarantine)
    && (forall j :: FileAt(d, j).Some? ==> FileAt(d, j).value.inode < d.nextInode && Whole(FileAt(d, j).value.bytes))
    && (forall j, k :: j != k && FileAt(d, j).Some? && FileAt(d, k).Some? ==>
        FileAt(d, j).value.inode != FileAt(d, k).value.inode)
  }

  /** A quarantined journal is fenced, and every fence belongs to a recorded intent for that journal. */
  ghost predicate FencesOk(d: Disk) {
    && (forall j :: j in d.quarantine ==> j in d.fences)
    && (forall j :: j in d.fences ==>
          && d.fences[j].snapshot.journal == j && d.fences[j].transaction in d.records
          && d.records[d.fences[j].transaction].intent == d.fences[j])
  }

  /** One transaction: its record chain, and where its journal is. */
  predicate TxOk(d: Disk, tx: TxId)
    requires tx in d.records
  {
    var r := d.records[tx];
    var s := r.intent.snapshot;
    var f := FileAt(d, s.journal);
    && r.intent.transaction == tx && Whole(s.bytes) && |s.bytes| <= MAX_JOURNAL_BYTES
    && r.blocked == None && AppliedOk(r) && FinalizedOk(r) && RestoredOk(r)
    && (r.finalized == None || r.restored == None)
    && f.Some? && f.value.inode == s.inode && s.bytes <= f.value.bytes
    && (HoldsFence(d, r.intent) ==> f.value.bytes == s.bytes && r.restored == None)
    && (r.finalized.Some? ==> s.journal in d.quarantine && HoldsFence(d, r.intent))
    && (Unsettled(r) && s.journal in d.quarantine ==> HoldsFence(d, r.intent))
  }

  ghost predicate TransactionsOk(d: Disk) { forall tx :: tx in d.records ==> TxOk(d, tx) }

  /** A prepare reconciles first, so at most one transaction is ever unsettled. */
  ghost predicate OneUnsettled(records: map<TxId, Records>) {
    forall t, u :: t in records && u in records && Unsettled(records[t]) && Unsettled(records[u]) ==> t == u
  }

  ghost predicate DiskOk(d: Disk) { FilesOk(d) && FencesOk(d) && TransactionsOk(d) && OneUnsettled(d.records) }

  predicate Increasing(q: seq<TxId>) { forall i, j :: 0 <= i < j < |q| ==> q[i] < q[j] }

  /** The remaining names are sorted, and everything already passed is settled. */
  ghost predicate TodoOk(d: Disk, todo: seq<TxId>) {
    && Increasing(todo)
    && (forall i :: 0 <= i < |todo| ==> todo[i] in d.records)
    && (forall tx :: tx in d.records && tx !in todo ==> !Unsettled(d.records[tx]))
  }

  /** The journal of an unsettled transaction is back in the source directory. */
  predicate Back(d: Disk, tx: TxId) {
    tx in d.records && Unsettled(d.records[tx]) && d.records[tx].intent.snapshot.journal in d.source
  }

  predicate Exact(d: Disk, tx: TxId) {
    Back(d, tx) && SnapshotOf(d.source, d.records[tx].intent.snapshot.journal) == Some(d.records[tx].intent.snapshot)
  }

  predicate Away(d: Disk, tx: TxId) {
    tx in d.records && Unsettled(d.records[tx]) && d.records[tx].intent.snapshot.journal in d.quarantine
  }

  ghost predicate HolderOk(d: Disk, h: Holder) {
    match h
    case Free => true
    case Reconciling(todo, stage, _, _, _) =>
      && TodoOk(d, todo)
      && (stage != Examine ==> todo != [] && Back(d, todo[0]))
      && (stage.Settle? ==> d.records[todo[0]].intent.snapshot.journal !in d.fences)
    case Preparing(_, _) => forall tx :: tx in d.records ==> !Unsettled(d.records[tx])
    case Committing(tx, at) =>
      (match at
       case InstallFence => Exact(d, tx) && d.records[tx].applied == None
       case MoveAway => Exact(d, tx) && d.records[tx].applied == None && HoldsFence(d, d.records[tx].intent)
       case MarkApplied => Away(d, tx) && d.records[tx].applied == None
       case Audit => Away(d, tx))
    case Undoing(tx, undo) =>
      (match undo
       case MoveBack => Away(d, tx)
       case DropFence(_) => Back(d, tx)
       case MarkRestored => Back(d, tx) && d.records[tx].intent.snapshot.journal !in d.fences)
    case Finalizing(_, _) => true
  }

  /** Writers hold the lock shared, so none is active beside an exclusive holder, and none is past a fence. */
  ghost predicate WritersOk(w: World) {
    (w.writers != map[] ==> w.holder == Free) && forall id :: id in w.writers ==> w.writers[id] !in w.disk.fences
  }

  ghost predicate Inv(w: World) { DiskOk(w.disk) && HolderOk(w.disk, w.holder) && WritersOk(w) }

  // ---------------------------------------------------------------- consequences

  /** Any fence on the journal of an unsettled transaction is its own. */
  lemma UnsettledOwnsFence(d: Disk, tx: TxId)
    requires DiskOk(d) && tx in d.records && Unsettled(d.records[tx])
    requires d.records[tx].intent.snapshot.journal in d.fences
    ensures HoldsFence(d, d.records[tx].intent)
  {
    var j := d.records[tx].intent.snapshot.journal;
    var owner := d.fences[j].transaction;
    assert TxOk(d, tx) && TxOk(d, owner);
    if owner != tx { assert Unsettled(d.records[owner]) || d.records[owner].finalized.Some?; }
  }

  // ---------------------------------------------------------------- durable actions keep the disk

  /** A transaction sees only its record, its journal's place and its own fence. */
  lemma TxFrame(d: Disk, d': Disk, tx: TxId)
    requires tx in d.records && tx in d'.records && d'.records[tx] == d.records[tx] && TxOk(d, tx)
    requires var i := d.records[tx].intent; var j := i.snapshot.journal;
             && FileAt(d', j) == FileAt(d, j) && (HoldsFence(d', i) <==> HoldsFence(d, i))
             && (j in d'.quarantine <==> j in d.quarantine)
    ensures TxOk(d', tx)
  {}

  lemma SameFiles(d: Disk, d': Disk)
    requires FilesOk(d) && d'.nextInode == d.nextInode && (forall j :: j in d'.source ==> j !in d'.quarantine)
    requires forall j :: FileAt(d', j) == FileAt(d, j)
    ensures FilesOk(d')
  {}

  lemma WrittenFiles(d: Disk, j: Name, raw: seq<Byte>)
    requires FilesOk(d) && j !in d.quarantine && raw != [] && Whole(raw)
    ensures FilesOk(Written(d, j, raw))
    ensures forall k :: k != j ==> FileAt(Written(d, j, raw), k) == FileAt(d, k)
    ensures FileAt(d, j).Some? ==>
              && FileAt(Written(d, j, raw), j).Some?
              && FileAt(Written(d, j, raw), j).value == FileAt(d, j).value.(bytes := FileAt(d, j).value.bytes + raw)
  {
    var d' := Written(d, j, raw);
    assert forall k :: k != j ==> FileAt(d', k) == FileAt(d, k);
    if j in d.source { assert FileAt(d, j) == Some(d.source[j]); }
    var f := FileAt(d', j).value;
    assert Whole(f.bytes);
    forall k, l | k != l && FileAt(d', k).Some? && FileAt(d', l).Some?
      ensures FileAt(d', k).value.inode != FileAt(d', l).value.inode
    {
      if k != j { assert FileAt(d', k) == FileAt(d, k); }
      if l != j { assert FileAt(d', l) == FileAt(d, l); }
    }
  }

  lemma WrittenTx(d: Disk, j: Name, raw: seq<Byte>, tx: TxId)
    requires tx in d.records && TxOk(d, tx) && d.records[tx].intent.snapshot.journal == j && j !in d.fences
             && j !in d.quarantine
    ensures TxOk(Written(d, j, raw), tx)
  {
    var s := d.records[tx].intent.snapshot;
    assert j in d.source && s.bytes <= d.source[j].bytes <= d.source[j].bytes + raw;
  }

  lemma WrittenKeeps(d: Disk, j: Name, raw: seq<Byte>)
    requires DiskOk(d) && j !in d.fences && raw != [] && Whole(raw)
    ensures DiskOk(Written(d, j, raw))
  {
    hide FilesOk, TxOk, OneUnsettled;
    var d' := Written(d, j, raw);
    assert j !in d.quarantine;
    WrittenFiles(d, j, raw);
    forall tx | tx in d'.records ensures TxOk(d', tx) {
      assert TxOk(d, tx);
      if d.records[tx].intent.snapshot.journal != j { TxFrame(d, d', tx); } else { WrittenTx(d, j, raw, tx); }
    }
  }

  lemma IntentTx(d: Disk, i: Intent)
    requires FilesOk(d) && FencesOk(d) && i.transaction !in d.records
             && SnapshotOf(d.source, i.snapshot.journal) == Some(i.snapshot)
    ensures TxOk(Recorded(d, i.transaction, Records(i, None, None, None, None)), i.transaction)
  {
    var d' := Recorded(d, i.transaction, Records(i, None, None, None, None));
    assert i.snapshot.journal !in d.quarantine && FileAt(d', i.snapshot.journal) == Some(d.source[i.snapshot.journal]);
    assert !HoldsFence(d', i);
  }

  lemma IntentKeeps(d: Disk, i: Intent)
    requires DiskOk(d) && i.transaction !in d.records && (forall tx :: tx in d.records ==> !Unsettled(d.records[tx]))
    requires SnapshotOf(d.source, i.snapshot.journal) == Some(i.snapshot)
    ensures DiskOk(Recorded(d, i.transaction, Records(i, None, None, None, None)))
  {
    hide TxOk;
    var d' := Recorded(d, i.transaction, Records(i, None, None, None, None));
    SameFiles(d, d');
    IntentTx(d, i);
    hide FilesOk;
    forall tx | tx in d'.records ensures TxOk(d', tx) {
      if tx != i.transaction { assert TxOk(d, tx); TxFrame(d, d', tx); }
    }
  }

  lemma FencedTx(d: Disk, tx: TxId)
    requires tx in d.records && TxOk(d, tx) && Exact(d, tx)
    ensures TxOk(Fenced(d, d.records[tx].intent), tx)
  {}

  lemma UnfencedTx(d: Disk, tx: TxId)
    requires tx in d.records && TxOk(d, tx) && Back(d, tx) && d.records[tx].intent.snapshot.journal !in d.quarantine
    ensures TxOk(Unfenced(d, d.records[tx].intent.snapshot.journal), tx)
  {}

  lemma FencedKeeps(d: Disk, tx: TxId)
    requires DiskOk(d) && Exact(d, tx)
    ensures DiskOk(Fenced(d, d.records[tx].intent))
    ensures HoldsFence(Fenced(d, d.records[tx].intent), d.records[tx].intent)
  {
    hide OneUnsettled, TxOk;
    var i := d.records[tx].intent;
    var d' := Fenced(d, i);
    assert TxOk(d, tx);
    TxNamed(d, tx);
    if i.snapshot.journal in d.fences {
      UnsettledOwnsFence(d, tx);
      assert d' == d;
    } else {
      FencedTx(d, tx);
      SameFiles(d, d');
      hide FilesOk;
      OthersKeep(d, d', tx);
    }
  }

  lemma TxNamed(d: Disk, tx: TxId)
    requires tx in d.records && TxOk(d, tx)
    ensures d.records[tx].intent.transaction == tx
  {}

  predicate FenceChange(d: Disk, d': Disk, i: Intent) {
    (d' == Fenced(d, i) && i.snapshot.journal !in d.fences)
        || (d' == Unfenced(d, i.snapshot.journal) && HoldsFence(d, i))
  }

  /** Fence changes on a journal do not concern other transactions. */
  lemma OthersKeep(d: Disk, d': Disk, tx: TxId)
    requires TransactionsOk(d) && tx in d.records && d'.records == d.records && TxOk(d', tx)
    requires d'.source == d.source && d'.quarantine == d.quarantine
    requires var i := d.records[tx].intent; i.transaction == tx && FenceChange(d, d', i)
    requires forall j :: j in d.fences ==>
             d.fences[j].snapshot.journal == j && d.fences[j].transaction in d.records
                 && d.records[d.fences[j].transaction].intent == d.fences[j]
    ensures TransactionsOk(d')
  {
    hide TxOk;
    forall t | t in d'.records ensures TxOk(d', t) {
      assert TxOk(d, t);
      if t != tx { OtherFence(d, d', tx, t); TxFrame(d, d', t); }
    }
  }

  lemma OtherFence(d: Disk, d': Disk, tx: TxId, t: TxId)
    requires tx in d.records && t in d.records && t != tx && TxOk(d, t)
    requires var i := d.records[tx].intent; i.transaction == tx && FenceChange(d, d', i)
    ensures HoldsFence(d', d.records[t].intent) <==> HoldsFence(d, d.records[t].intent)
  {}

  lemma UnfencedKeeps(d: Disk, tx: TxId)
    requires DiskOk(d) && Back(d, tx) && HoldsFence(d, d.records[tx].intent)
    ensures DiskOk(Unfenced(d, d.records[tx].intent.snapshot.journal))
  {
    hide OneUnsettled, TxOk;
    var j := d.records[tx].intent.snapshot.journal;
    var d' := Unfenced(d, j);
    assert j !in d.quarantine && TxOk(d, tx);
    TxNamed(d, tx);
    UnfencedTx(d, tx);
    SameFiles(d, d');
    hide FilesOk;
    OthersKeep(d, d', tx);
  }

  lemma MovedTx(d: Disk, d': Disk, t: TxId)
    requires t in d.records && d'.records == d.records && d'.fences == d.fences && TxOk(d, t)
    requires FileAt(d', d.records[t].intent.snapshot.journal) == FileAt(d, d.records[t].intent.snapshot.journal)
    requires Unsettled(d.records[t]) ==> HoldsFence(d, d.records[t].intent)
    requires d.records[t].finalized.Some? ==> d.records[t].intent.snapshot.journal in d'.quarantine
    ensures TxOk(d', t)
  {}

  lemma MovedAwayKeeps(d: Disk, tx: TxId)
    requires DiskOk(d) && Exact(d, tx) && HoldsFence(d, d.records[tx].intent)
    ensures DiskOk(MovedAway(d, d.records[tx].intent.snapshot.journal))
  {
    hide TxOk;
    var j := d.records[tx].intent.snapshot.journal;
    var d' := MovedAway(d, j);
    SameFiles(d, d');
    hide FilesOk;
    forall t | t in d'.records ensures TxOk(d', t) {
      assert TxOk(d, t);
      if d.records[t].intent.snapshot.journal != j { TxFrame(d, d', t); } else { MovedTx(d, d', t); }
    }
  }

  lemma MovedBackKeeps(d: Disk, tx: TxId)
    requires DiskOk(d) && Away(d, tx)
    ensures DiskOk(MovedBack(d, d.records[tx].intent.snapshot.journal))
    ensures Back(MovedBack(d, d.records[tx].intent.snapshot.journal), tx)
  {
    hide TxOk;
    var j := d.records[tx].intent.snapshot.journal;
    var d' := MovedBack(d, j);
    assert j in d.fences;
    UnsettledOwnsFence(d, tx);
    SameFiles(d, d');
    hide FilesOk;
    forall t | t in d'.records ensures TxOk(d', t) {
      assert TxOk(d, t);
      if d.records[t].intent.snapshot.journal != j { TxFrame(d, d', t); }
      else { FinalizedOwns(d, tx, t); MovedTx(d, d', t); }
    }
  }

  /** A finalized transaction holds its journal's fence, so it shares the journal with no other holder. */
  lemma FinalizedOwns(d: Disk, tx: TxId, t: TxId)
    requires tx in d.records && t in d.records && TxOk(d, t) && TxOk(d, tx) && HoldsFence(d, d.records[tx].intent)
    requires d.records[t].intent.snapshot.journal == d.records[tx].intent.snapshot.journal
    ensures d.records[t].finalized.Some? ==> t == tx
  {}

  /** Publishing a later stage of one unsettled transaction. */
  lemma RecordKeeps(d: Disk, tx: TxId, r: Records)
    requires DiskOk(d) && tx in d.records && r.intent == d.records[tx].intent
    requires Unsettled(d.records[tx]) && TxOk(Recorded(d, tx, r), tx)
    ensures DiskOk(Recorded(d, tx, r))
  {
    hide TxOk;
    var d' := Recorded(d, tx, r);
    SameFiles(d, d');
    hide FilesOk;
    forall t | t in d'.records ensures TxOk(d', t) { if t != tx { assert TxOk(d, t); TxFrame(d, d', t); } }
  }

  // ---------------------------------------------------------------- steps

  lemma SettledKeeps(d: Disk, tx: TxId, mark: Restored)
    requires DiskOk(d) && Back(d, tx) && d.records[tx].intent.snapshot.journal !in d.fences
    requires mark.intent == d.records[tx].intent && mark.applied == d.records[tx].applied
    ensures DiskOk(Recorded(d, tx, d.records[tx].(restored := Some(mark))))
  {
    assert TxOk(d, tx);
    assert TxOk(Recorded(d, tx, d.records[tx].(restored := Some(mark))), tx);
    hide TxOk, FilesOk, FencesOk, OneUnsettled;
    RecordKeeps(d, tx, d.records[tx].(restored := Some(mark)));
  }

  lemma AppliedKeeps(d: Disk, tx: TxId)
    requires DiskOk(d) && Away(d, tx)
    ensures var r := d.records[tx]; DiskOk(Recorded(d, tx, r.(applied := Some(Applied(r.intent, r.intent.snapshot)))))
  {
    var r := d.records[tx];
    hide FencesOk, OneUnsettled;
    assert TxOk(d, tx);
    assert TxOk(Recorded(d, tx, r.(applied := Some(Applied(r.intent, r.intent.snapshot)))), tx);
    hide TxOk, FilesOk, FencesOk, OneUnsettled;
    RecordKeeps(d, tx, r.(applied := Some(Applied(r.intent, r.intent.snapshot))));
  }

  lemma FinalizedKeeps(d: Disk, tx: TxId, fact: string)
    requires DiskOk(d) && Away(d, tx) && d.records[tx].applied.Some?
    ensures var r := d.records[tx];
            DiskOk(Recorded(d, tx, r.(finalized := Some(Finalized(r.intent, r.applied.value, fact)))))
  {
    var r := d.records[tx];
    hide FencesOk, OneUnsettled;
    assert TxOk(d, tx);
    assert TxOk(Recorded(d, tx, r.(finalized := Some(Finalized(r.intent, r.applied.value, fact)))), tx);
    hide TxOk, FilesOk, FencesOk, OneUnsettled;
    RecordKeeps(d, tx, r.(finalized := Some(Finalized(r.intent, r.applied.value, fact))));
  }

  /** What TxOk says about the place of a journal. */
  lemma Placed(d: Disk, tx: TxId)
    requires FilesOk(d) && FencesOk(d) && tx in d.records && TxOk(d, tx)
    ensures var r := d.records[tx]; var s := r.intent.snapshot; var j := s.journal;
            && r.intent.transaction == tx && r.blocked == None && AppliedOk(r) && FinalizedOk(r) && RestoredOk(r)
            && (r.finalized == None || r.restored == None)
            && (j in d.source <==> j !in d.quarantine)
            && (j in d.source ==>
                d.source[j].inode == s.inode && s.bytes <= d.source[j].bytes && Whole(d.source[j].bytes))
            && (j in d.source && HoldsFence(d, r.intent) ==> SnapshotOf(d.source, j) == Some(s))
            && (Unsettled(r) && j in d.quarantine ==> HoldsFence(d, r.intent))
            && (j in d.quarantine && HoldsFence(d, r.intent) ==> SnapshotOf(d.quarantine, j) == Some(s))
            && (r.finalized.Some? ==> j in d.quarantine && HoldsFence(d, r.intent))
            && (r.restored.Some? ==> !HoldsFence(d, r.intent))
            && (j !in d.fences ==> j in d.source)
  {
    var j := d.records[tx].intent.snapshot.journal;
    assert FileAt(d, j).Some?;
  }

  lemma PlacedOnDisk(d: Disk, tx: TxId)
    requires DiskOk(d) && tx in d.records
    ensures var r := d.records[tx]; var s := r.intent.snapshot; var j := s.journal;
            && r.intent.transaction == tx && r.blocked == None && AppliedOk(r) && FinalizedOk(r) && RestoredOk(r)
            && (r.finalized == None || r.restored == None)
            && (j in d.source <==> j !in d.quarantine)
            && (j in d.source ==>
                d.source[j].inode == s.inode && s.bytes <= d.source[j].bytes && Whole(d.source[j].bytes))
            && (j in d.source && HoldsFence(d, r.intent) ==> SnapshotOf(d.source, j) == Some(s))
            && (Unsettled(r) && j in d.quarantine ==> HoldsFence(d, r.intent))
            && (j in d.quarantine && HoldsFence(d, r.intent) ==> SnapshotOf(d.quarantine, j) == Some(s))
            && (r.finalized.Some? ==> j in d.quarantine && HoldsFence(d, r.intent))
            && (r.restored.Some? ==> !HoldsFence(d, r.intent))
            && (j !in d.fences ==> j in d.source)
  {
    hide TxOk, FilesOk, FencesOk;
    assert TxOk(d, tx);
    Placed(d, tx);
  }

  predicate Fits(d: Disk, j: Name) { j in d.source ==> |d.source[j].bytes| <= MAX_JOURNAL_BYTES }

  /** What the examination of one transaction does; it never publishes a blocked record. */
  lemma ExamineOutcome(w: World, h: Holder)
    requires DiskOk(w.disk) && h.Reconciling? && h.todo != [] && h.todo[0] in w.disk.records && h.stage == Examine
    ensures var tx, d := h.todo[0], w.disk; var r := d.records[tx]; var j := r.intent.snapshot.journal;
            var w' := ReconcileStep(w, h);
            if r.finalized.Some? then w' == NextTransaction(w, h, h.restored, h.finalized + [tx])
            else if r.restored.Some? then
              if j !in d.fences && Fits(d, j) then w' == NextTransaction(w, h, h.restored + [tx], h.finalized)
              else w'.disk == d && w'.holder == Free && w'.last.Failed? && w'.writers == w.writers
            else if j in d.quarantine then
              w' == w.(disk := MovedBack(d, j),
                       holder := h.(stage := Unfence(if r.applied.Some? then AfterApplied else AfterMove)))
            else if Fits(d, j) then w' == w.(holder := h.(stage := Unfence(NoMoveObserved)))
            else w'.disk == d && w'.holder == Free && w'.last.Failed? && w'.writers == w.writers
  {
    hide DiskOk;
    PlacedOnDisk(w.disk, h.todo[0]);
    var tx, d := h.todo[0], w.disk;
    var r := d.records[tx];
    hide AppliedOk, FinalizedOk, RestoredOk, Whole;
    if r.finalized.Some? {
      hide ExamineRestored, ExamineRemnant;
    } else if r.restored.Some? {
      hide ExamineFinalized, ExamineRemnant;
      RestoredSnapshot(d, tx);
    } else {
      hide ExamineFinalized, ExamineRestored;
      RestoredSnapshot(d, tx);
    }
  }

  lemma RestoredSnapshot(d: Disk, tx: TxId)
    requires DiskOk(d) && tx in d.records
    ensures var s := d.records[tx].intent.snapshot; var current := SnapshotOf(d.source, s.journal);
            s.journal in d.source ==>
              && (current.Some? <==> Fits(d, s.journal))
              && (current.Some? ==> SameAppendOnly(current.value, s))
  {
    hide DiskOk;
    PlacedOnDisk(d, tx);
  }

  /** The examination never blocks, and hands an unsettled journal on in the source directory. */
  lemma ExamineKeeps(w: World, h: Holder)
    requires DiskOk(w.disk) && h.Reconciling? && TodoOk(w.disk, h.todo) && h.todo != [] && h.stage == Examine
    ensures var w' := ReconcileStep(w, h); DiskOk(w'.disk) && HolderOk(w'.disk, w'.holder)
  {
    hide DiskOk, Increasing, ReconcileStep;
    var tx, d := h.todo[0], w.disk;
    var r := d.records[tx];
    var j := r.intent.snapshot.journal;
    assert tx in d.records;
    ExamineOutcome(w, h);
    TodoTail(d, h.todo);
    PlacedOnDisk(d, tx);
    if Unsettled(r) && j in d.quarantine {
      MovedBackKeeps(d, tx);
      TodoFrame(d, MovedBack(d, j), h.todo);
    }
  }

  lemma TodoTail(d: Disk, todo: seq<TxId>)
    requires TodoOk(d, todo) && todo != []
    ensures Increasing(todo[1..]) && todo[0] !in todo[1..]
    ensures !Unsettled(d.records[todo[0]]) ==> TodoOk(d, todo[1..])
    ensures forall x :: x in todo <==> x == todo[0] || x in todo[1..]
  {
    assert todo == [todo[0]] + todo[1..];
  }

  lemma TodoFrame(d: Disk, d': Disk, todo: seq<TxId>)
    requires TodoOk(d, todo) && d'.records.Keys == d.records.Keys
    requires forall tx :: tx in d.records && !Unsettled(d.records[tx]) ==> !Unsettled(d'.records[tx])
    ensures TodoOk(d', todo)
  {}

  lemma UnfenceKeeps(w: World, h: Holder)
    requires DiskOk(w.disk) && h.Reconciling? && HolderOk(w.disk, h) && h.stage.Unfence?
    ensures var w' := ReconcileStep(w, h); DiskOk(w'.disk) && HolderOk(w'.disk, w'.holder)
    ensures var w' := ReconcileStep(w, h); var j := w.disk.records[h.todo[0]].intent.snapshot.journal;
            w' == w.(disk := if j in w.disk.fences then Unfenced(w.disk, j)
                     else w.disk, holder := h.(stage := Settle(h.stage.reason)))
  {
    hide DiskOk, TodoOk;
    var tx, d := h.todo[0], w.disk;
    var j := d.records[tx].intent.snapshot.journal;
    if j in d.fences {
      UnsettledOwnsFence(d, tx);
      UnfencedKeeps(d, tx);
      TodoFrame(d, Unfenced(d, j), h.todo);
    }
  }

  lemma SettleKeeps(w: World, h: Holder)
    requires DiskOk(w.disk) && h.Reconciling? && HolderOk(w.disk, h) && h.stage.Settle?
    ensures var w' := ReconcileStep(w, h); DiskOk(w'.disk) && HolderOk(w'.disk, w'.holder)
    ensures var w' := ReconcileStep(w, h); var tx := h.todo[0]; var r := w.disk.records[tx];
            w' == NextTransaction(w.(disk := Recorded(w.disk, tx,
                                                      r.(restored := Some(Restored(r.intent, r.applied,
                                                              h.stage.reason))))),
                                  h, h.restored + [tx], h.finalized)
  {
    hide DiskOk, Increasing;
    var tx, d := h.todo[0], w.disk;
    var r := d.records[tx];
    var mark := Restored(r.intent, r.applied, h.stage.reason);
    SettledKeeps(d, tx, mark);
    var d' := Recorded(d, tx, r.(restored := Some(mark)));
    TodoFrame(d, d', h.todo);
    TodoTail(d', h.todo);
  }

  lemma ReconcileKeeps(w: World, h: Holder)
    requires DiskOk(w.disk) && h.Reconciling? && HolderOk(w.disk, h)
    ensures var w' := ReconcileStep(w, h); DiskOk(w'.disk) && HolderOk(w'.disk, w'.holder)
  {
    if h.todo == [] {
      hide DiskOk;
    } else {
      match h.stage
      case Examine => ExamineKeeps(w, h);
      case Unfence(_) => UnfenceKeeps(w, h);
      case Settle(_) => SettleKeeps(w, h);
    }
  }

  lemma PrepareKeeps(w: World, tx: TxId, j: Name)
    requires DiskOk(w.disk) && HolderOk(w.disk, Preparing(tx, j))
    ensures var w' := PrepareStep(w, tx, j); DiskOk(w'.disk) && HolderOk(w'.disk, w'.holder)
  {
    hide DiskOk;
    var s := SnapshotOf(w.disk.source, j);
    if s.Some? && tx !in w.disk.records { IntentKeeps(w.disk, Intent(tx, s.value)); }
  }

  lemma CommitKeeps(w: World, tx: TxId, at: CommitStage)
    requires DiskOk(w.disk) && HolderOk(w.disk, Committing(tx, at))
    ensures var w' := CommitStep(w, tx, at); DiskOk(w'.disk) && HolderOk(w'.disk, w'.holder)
  {
    hide DiskOk;
    var d := w.disk;
    match at
    case InstallFence => FencedKeeps(d, tx); return;
    case MoveAway => MovedAwayKeeps(d, tx); return;
    case MarkApplied => AppliedKeeps(d, tx); return;
    case Audit => return;
  }

  lemma UndoKeeps(w: World, tx: TxId, at: UndoStage)
    requires DiskOk(w.disk) && HolderOk(w.disk, Undoing(tx, at))
    ensures var w' := UndoStep(w, tx, at); DiskOk(w'.disk) && HolderOk(w'.disk, w'.holder)
  {
    hide DiskOk;
    var d := w.disk;
    match at
    case MoveBack => MovedBackKeeps(d, tx); return;
    case DropFence(_) =>
      if d.records[tx].intent.snapshot.journal in d.fences { UnsettledOwnsFence(d, tx); UnfencedKeeps(d, tx); }
      return;
    case MarkRestored =>
      SettledKeeps(d, tx, Restored(d.records[tx].intent, d.records[tx].applied, CatchableFailure));
      return;
  }

  lemma FinalizeKeeps(w: World, tx: TxId, fact: string)
    requires DiskOk(w.disk)
    ensures var w' := FinalizeStep(w, tx, fact); DiskOk(w'.disk) && HolderOk(w'.disk, w'.holder)
  {
    hide DiskOk, AppliedOk, FinalizedOk, RestoredOk;
    if tx in w.disk.records {
      PlacedOnDisk(w.disk, tx);
      var r := w.disk.records[tx];
      if Unsettled(r) && r.applied.Some? && r.intent.snapshot.journal in w.disk.quarantine {
        FinalizedKeeps(w.disk, tx, fact);
      }
    }
  }

  lemma HolderStepKeeps(w: World)
    requires Inv(w)
    ensures Inv(HolderStep(w))
  {
    hide DiskOk, HolderOk, ReconcileStep, PrepareStep, CommitStep, UndoStep, FinalizeStep;
    HolderStepWriters(w);
    match w.holder
    case Free => return;
    case Reconciling(_, _, _, _, _) => ReconcileKeeps(w, w.holder); return;
    case Preparing(tx, j) => PrepareKeeps(w, tx, j); return;
    case Committing(tx, at) => CommitKeeps(w, tx, at); return;
    case Undoing(tx, at) => UndoKeeps(w, tx, at); return;
    case Finalizing(tx, fact) => FinalizeKeeps(w, tx, fact); return;
  }

  lemma HolderStepWriters(w: World)
    ensures HolderStep(w).writers == w.writers
  {
    hide SnapshotOf, SameAppendOnly, AppliedOk, FinalizedOk, RestoredOk, Unsettled;
  }

  lemma CommitFailsKeeps(w: World, tx: TxId, at: CommitStage)
    requires DiskOk(w.disk) && HolderOk(w.disk, Committing(tx, at))
    ensures HolderOk(CommitFails(w, tx, at).disk, CommitFails(w, tx, at).holder)
            && CommitFails(w, tx, at).disk == w.disk
  {
    hide DiskOk;
  }

  lemma BeginKeeps(w: World, purpose: Purpose)
    ensures HolderOk(w.disk, Begin(w, purpose).holder)
  {}

  lemma CommitCallKeeps(w: World, tx: TxId)
    requires DiskOk(w.disk) && HolderOk(w.disk, w.holder)
    ensures CommitCall(w, tx).disk == w.disk && HolderOk(w.disk, CommitCall(w, tx).holder)
  {
    hide DiskOk;
    if tx in w.disk.records { PlacedOnDisk(w.disk, tx); }
  }

  /** A writer past the fence check appends to a journal that no fence covers. */
  lemma WriterKeeps(w: World, id: nat, raw: seq<Byte>)
    requires Inv(w) && id in w.writers && raw != [] && Whole(raw)
    ensures Inv(w.(disk := Written(w.disk, w.writers[id], raw)))
  {
    hide DiskOk;
    WrittenKeeps(w.disk, w.writers[id], raw);
  }

  lemma StepKeeps(w: World, e: Event)
    requires Inv(w)
    ensures Inv(Step(w, e))
  {
    hide DiskOk, HolderOk, HolderStep, CommitFails, Begin, CommitCall;
    match e
    case WriterAppends(id, raw) => if id in w.writers && raw != [] && Whole(raw) { WriterKeeps(w, id, raw); } return;
    case Go => HolderStepKeeps(w); return;
    case Fails =>
      if w.holder.Committing? {
        CommitFailsKeeps(w, w.holder.transaction, w.holder.at);
        CommitFailsWriters(w, w.holder.transaction, w.holder.at);
      }
      return;
    case Reconcile => BeginKeeps(w, Standalone); BeginFrame(w, Standalone); return;
    case Prepare(tx, j) => BeginKeeps(w, ForPrepare(tx, j)); BeginFrame(w, ForPrepare(tx, j)); return;
    case Commit(tx) => CommitCallKeeps(w, tx); CommitCallWriters(w, tx); return;
    case Finalize(tx, fact) => FinalizingOk(w.disk, tx, fact); return;
    case Crash => FreeOk(w.disk); return;
    case _ => return;
  }

  lemma CommitFailsWriters(w: World, tx: TxId, at: CommitStage)
    ensures CommitFails(w, tx, at).writers == w.writers
  {}

  lemma BeginFrame(w: World, purpose: Purpose)
    ensures Begin(w, purpose).disk == w.disk && Begin(w, purpose).writers == w.writers
  {}

  lemma CommitCallWriters(w: World, tx: TxId)
    ensures CommitCall(w, tx).writers == w.writers
  {}

  lemma FreeOk(d: Disk)
    ensures HolderOk(d, Free)
  {}

  lemma FinalizingOk(d: Disk, tx: TxId, fact: string)
    ensures HolderOk(d, Finalizing(tx, fact))
  {}

  /** Every interleaving of writers, prepare, commit, finalize and reconcile, with crashes anywhere. */
  lemma {:induction false} RunKeeps(w: World, events: seq<Event>)
    requires Inv(w)
    ensures Inv(Run(w, events))
    decreases |events|
  {
    hide Inv, Step;
    if events != [] {
      RunKeeps(w, events[..|events| - 1]);
      StepKeeps(Run(w, events[..|events| - 1]), events[|events| - 1]);
    }
  }

  lemma EmptyInv()
    ensures Inv(EMPTY)
  {}

  /** The safety theorem in plain terms: every recorded journal is in exactly one root under its own inode; a finalized
      one equals its snapshot, is fenced and has no replacement; a restored one continues its snapshot; nothing is ever
      blocked; no transaction is both finalized and restored; every quarantined journal is fenced against writers. */
  lemma EveryRunIsSafe(events: seq<Event>)
    ensures var d := Run(EMPTY, events).disk;
            && (forall j :: j in d.source ==> j !in d.quarantine)
            && (forall j, k :: j in d.source && k in d.quarantine ==> d.source[j].inode != d.quarantine[k].inode)
            && (forall j :: j in d.quarantine ==> j in d.fences)
            && (forall tx :: tx in d.records ==>
                  var r := d.records[tx]; var s := r.intent.snapshot;
                  && r.blocked == None && (r.finalized == None || r.restored == None)
                  && (s.journal in d.source <==> s.journal !in d.quarantine)
                  && (s.journal in d.source ==>
                      d.source[s.journal].inode == s.inode && s.bytes <= d.source[s.journal].bytes)
                  && (s.journal in d.quarantine && r.restored == None ==>
                        d.quarantine[s.journal] == File(s.inode, s.bytes) && d.fences[s.journal] == r.intent)
                  && (r.finalized.Some? ==> s.journal in d.quarantine))
    ensures forall id, j :: j in Run(EMPTY, events).disk.fences ==> id in Run(EMPTY, events).writers ==>
            Run(EMPTY, events).writers[id] != j
  {
    EmptyInv();
    RunKeeps(EMPTY, events);
    hide Run;
    var d := Run(EMPTY, events).disk;
    assert DiskOk(d);
    forall j, k | j in d.source && k in d.quarantine ensures d.source[j].inode != d.quarantine[k].inode {
      assert FileAt(d, j) == Some(d.source[j]);
      assert k !in d.source && FileAt(d, k) == Some(d.quarantine[k]);
    }
    hide TxOk, DiskOk;
    forall tx | tx in d.records
      ensures var r := d.records[tx]; var s := r.intent.snapshot;
              && r.blocked == None && (r.finalized == None || r.restored == None)
              && (s.journal in d.source <==> s.journal !in d.quarantine)
              && (s.journal in d.source ==>
                  d.source[s.journal].inode == s.inode && s.bytes <= d.source[s.journal].bytes)
              && (s.journal in d.quarantine && r.restored == None ==>
                    d.quarantine[s.journal] == File(s.inode, s.bytes) && d.fences[s.journal] == r.intent)
              && (r.finalized.Some? ==> s.journal in d.quarantine)
    {
      PlacedOnDisk(d, tx);
    }
  }

  // ---------------------------------------------------------------- history

  /** Journals keep their inode and only grow; intents, applied, finalized and restored records never change once
      published. */
  ghost predicate Extends(a: Disk, b: Disk) {
    && (forall j :: FileAt(a, j).Some? ==>
          FileAt(b, j).Some? && FileAt(b, j).value.inode == FileAt(a, j).value.inode
              && FileAt(a, j).value.bytes <= FileAt(b, j).value.bytes)
    && (forall tx :: tx in a.records ==>
          && tx in b.records && b.records[tx].intent == a.records[tx].intent
          && (a.records[tx].applied.Some? ==> b.records[tx].applied == a.records[tx].applied)
          && (a.records[tx].finalized.Some? ==> b.records[tx] == a.records[tx])
          && (a.records[tx].restored.Some? ==> b.records[tx] == a.records[tx]))
  }

  lemma ExtendsTransitive(a: Disk, b: Disk, c: Disk)
    requires Extends(a, b) && Extends(b, c)
    ensures Extends(a, c)
  {
    forall j | FileAt(a, j).Some? ensures FileAt(a, j).value.bytes <= FileAt(c, j).value.bytes {
      assert FileAt(b, j).value.bytes <= FileAt(c, j).value.bytes;
    }
  }

  lemma SameExtends(a: Disk, b: Disk)
    requires b.records == a.records && forall j :: FileAt(b, j) == FileAt(a, j)
    ensures Extends(a, b)
  {}

  lemma RecordExtends(d: Disk, tx: TxId, r: Records)
    requires tx in d.records ==>
               && Unsettled(d.records[tx]) && r.intent == d.records[tx].intent
               && (d.records[tx].applied.Some? ==> r.applied == d.records[tx].applied)
    ensures Extends(d, Recorded(d, tx, r))
  {
    assert forall j :: FileAt(Recorded(d, tx, r), j) == FileAt(d, j);
  }

  lemma WrittenExtends(d: Disk, j: Name, raw: seq<Byte>)
    requires DiskOk(d) && j !in d.fences && raw != [] && Whole(raw)
    ensures Extends(d, Written(d, j, raw))
  {
    hide TransactionsOk, OneUnsettled;
    assert j !in d.quarantine;
    WrittenFiles(d, j, raw);
    hide FilesOk, FencesOk;
  }

  lemma MovedExtends(d: Disk, j: Name)
    requires FilesOk(d)
    ensures j in d.source ==> Extends(d, MovedAway(d, j))
    ensures j in d.quarantine ==> Extends(d, MovedBack(d, j))
  {
    if j in d.source { SameExtends(d, MovedAway(d, j)); }
    if j in d.quarantine { SameExtends(d, MovedBack(d, j)); }
  }

  lemma FilesOnDisk(d: Disk)
    requires DiskOk(d)
    ensures FilesOk(d)
  {}

  lemma ReconcileExtends(w: World, h: Holder)
    requires DiskOk(w.disk) && h.Reconciling? && HolderOk(w.disk, h)
    ensures Extends(w.disk, ReconcileStep(w, h).disk)
  {
    hide DiskOk, Extends;
    SameExtends(w.disk, w.disk);
    if h.todo != [] {
      var tx, d := h.todo[0], w.disk;
      assert tx in d.records;
      var j := d.records[tx].intent.snapshot.journal;
      FilesOnDisk(d);
      MovedExtends(d, j);
      match h.stage
      case Examine => ExamineOutcome(w, h); hide ReconcileStep; return;
      case Unfence(_) => UnfenceKeeps(w, h); SameExtends(d, Unfenced(d, j)); hide ReconcileStep; return;
      case Settle(reason) =>
        SettleKeeps(w, h);
        RecordExtends(d, tx,
                      d.records[tx].(restored := Some(Restored(d.records[tx].intent, d.records[tx].applied, reason))));
        hide ReconcileStep; return;
    }
  }

  lemma CommitExtends(w: World, tx: TxId, at: CommitStage)
    requires DiskOk(w.disk) && HolderOk(w.disk, Committing(tx, at))
    ensures Extends(w.disk, CommitStep(w, tx, at).disk)
  {
    hide DiskOk, Extends;
    var d := w.disk;
    var r := d.records[tx];
    SameExtends(d, d);
    FilesOnDisk(d);
    MovedExtends(d, r.intent.snapshot.journal);
    SameExtends(d, Fenced(d, r.intent));
    if at == MarkApplied { RecordExtends(d, tx, r.(applied := Some(Applied(r.intent, r.intent.snapshot)))); }
  }

  lemma UndoExtends(w: World, tx: TxId, at: UndoStage)
    requires DiskOk(w.disk) && HolderOk(w.disk, Undoing(tx, at))
    ensures Extends(w.disk, UndoStep(w, tx, at).disk)
  {
    hide DiskOk, Extends;
    var d := w.disk;
    var r := d.records[tx];
    SameExtends(d, d);
    FilesOnDisk(d);
    MovedExtends(d, r.intent.snapshot.journal);
    SameExtends(d, Unfenced(d, r.intent.snapshot.journal));
    if at == MarkRestored {
      RecordExtends(d, tx, r.(restored := Some(Restored(r.intent, r.applied, CatchableFailure))));
    }
  }

  lemma FinalizeExtends(w: World, tx: TxId, fact: string)
    requires DiskOk(w.disk)
    ensures Extends(w.disk, FinalizeStep(w, tx, fact).disk)
  {
    hide DiskOk, Extends, AppliedOk, FinalizedOk, RestoredOk;
    var d := w.disk;
    SameExtends(d, d);
    if tx in d.records {
      PlacedOnDisk(d, tx);
      var r := d.records[tx];
      if Unsettled(r) && r.applied.Some? {
        RecordExtends(d, tx, r.(finalized := Some(Finalized(r.intent, r.applied.value, fact))));
      }
    }
  }

  lemma PrepareExtends(w: World, tx: TxId, j: Name)
    ensures Extends(w.disk, PrepareStep(w, tx, j).disk)
  {
    hide Extends;
    SameExtends(w.disk, w.disk);
    var s := SnapshotOf(w.disk.source, j);
    if s.Some? && tx !in w.disk.records {
      RecordExtends(w.disk, tx, Records(Intent(tx, s.value), None, None, None, None));
    }
  }

  lemma StepExtends(w: World, e: Event)
    requires Inv(w)
    ensures Extends(w.disk, Step(w, e).disk)
  {
    hide DiskOk, HolderOk, Extends, ReconcileStep, PrepareStep, CommitStep, UndoStep, FinalizeStep;
    SameExtends(w.disk, w.disk);
    if e.Go? {
      match w.holder
      case Free => return;
      case Reconciling(_, _, _, _, _) => ReconcileExtends(w, w.holder); return;
      case Preparing(tx, j) => PrepareExtends(w, tx, j); return;
      case Committing(tx, at) => CommitExtends(w, tx, at); return;
      case Undoing(tx, at) => UndoExtends(w, tx, at); return;
      case Finalizing(tx, fact) => FinalizeExtends(w, tx, fact); return;
    } else if e.WriterAppends? {
      if e.writer in w.writers && e.raw != [] && Whole(e.raw) { WrittenExtends(w.disk, w.writers[e.writer], e.raw); }
    }
  }

  /** In every run bytes only grow under one inode, and a settled transaction is never changed by any actor. */
  lemma {:induction false} RunExtends(w: World, events: seq<Event>)
    requires Inv(w)
    ensures Extends(w.disk, Run(w, events).disk)
    decreases |events|
  {
    hide Inv, Step, Extends;
    if events == [] {
      SameExtends(w.disk, w.disk);
    } else {
      var before := Run(w, events[..|events| - 1]);
      RunKeeps(w, events[..|events| - 1]);
      RunExtends(w, events[..|events| - 1]);
      StepExtends(before, events[|events| - 1]);
      ExtendsTransitive(w.disk, before.disk, Step(before, events[|events| - 1]).disk);
    }
  }
}
