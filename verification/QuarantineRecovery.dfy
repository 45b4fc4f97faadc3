/** Exactly when reconcile converges (reconcile_quarantine_transactions in
    src/vllm_hust_ext/quarantine_transaction.py), from any state some crashed run can leave behind. */
module QuarantineRecovery {
  import opened Basics
  import opened Quarantine
  import opened QuarantineSafety

  function JournalOf(d: Disk, tx: TxId): Name
    requires tx in d.records
  {
    d.records[tx].intent.snapshot.journal
  }

  predicate UnsettledIn(d: Disk, tx: TxId) { tx in d.records && Unsettled(d.records[tx]) }

  /** A transaction stands in the way of recovery when its source journal outgrew the read limit, or when it was
      restored and its journal is fenced again by a transaction that recovery will not have undone before reaching
      it. */
  predicate Passable(d: Disk, tx: TxId)
    requires tx in d.records
  {
    var r, j := d.records[tx], JournalOf(d, tx);
    if j in d.fences then r.restored.Some? ==> UnsettledIn(d, d.fences[j].transaction) && d.fences[j].transaction < tx
    else r.finalized == None ==> Fits(d, j)
  }

  ghost predicate Converges(d: Disk) { forall tx :: tx in d.records ==> Passable(d, tx) }

  /** The condition on the transactions still to be examined. */
  ghost predicate Ahead(d: Disk, todo: seq<TxId>)
    requires forall i :: 0 <= i < |todo| ==> todo[i] in d.records
  {
    forall i :: 0 <= i < |todo| ==> Passable(d, todo[i])
  }

  /** Processed transactions precede the rest. */
  ghost predicate Ordered(d: Disk, todo: seq<TxId>) {
    forall p, i :: p in d.records && p !in todo && 0 <= i < |todo| ==> p < todo[i]
  }

  /** Processed restored transactions are unfenced and readable. */
  ghost predicate CleanBehind(d: Disk, todo: seq<TxId>) {
    forall p :: p in d.records && p !in todo && d.records[p].restored.Some? ==>
      JournalOf(d, p) !in d.fences && Fits(d, JournalOf(d, p))
  }

  /** The two result lists hold the processed transactions, in order. */
  ghost predicate Listed(d: Disk, todo: seq<TxId>, restored: seq<TxId>, finalized: seq<TxId>) {
    && Increasing(restored) && Increasing(finalized)
    && (forall x :: x in restored <==> x in d.records && x !in todo && d.records[x].restored.Some?)
    && (forall x :: x in finalized <==> x in d.records && x !in todo && d.records[x].finalized.Some?)
  }

  /** What is behind a reconcile on its way. */
  ghost predicate Behind(d: Disk, h: Holder) {
    && h.Reconciling? && Ordered(d, h.todo) && CleanBehind(d, h.todo) && Listed(d, h.todo, h.restored, h.finalized)
    && (h.stage != Examine && h.todo != [] && h.todo[0] in d.records ==> Fits(d, JournalOf(d, h.todo[0])))
  }

  ghost predicate Recovering(w: World) {
    && Inv(w) && w.holder.Reconciling? && w.holder.purpose == Standalone && Behind(w.disk, w.holder)
  }

  function Effort(h: Holder): nat {
    if h.Reconciling? then 4 * |h.todo| + (match h.stage case Examine => 3 case Unfence(_) => 2 case Settle(_) => 1)
       else 0
  }

  lemma StepsDecrease(w: World)
    requires w.holder.Reconciling?
    ensures Effort(ReconcileStep(w, w.holder).holder) < Effort(w.holder)
  {
    hide SnapshotOf, SameAppendOnly, AppliedOk, FinalizedOk, RestoredOk;
  }

  /** Continues a reconcile, undisturbed, to its end. */
  function Complete(w: World): World
    decreases Effort(w.holder)
  {
    if w.holder.Reconciling? then StepsDecrease(w); Complete(ReconcileStep(w, w.holder)) else w
  }

  // ---------------------------------------------------------------- one step

  /** Recovery reached the first name, so no unsettled transaction precedes it. */
  lemma NothingUnsettledBefore(d: Disk, todo: seq<TxId>, tx: TxId)
    requires TodoOk(d, todo) && todo != [] && UnsettledIn(d, tx)
    ensures todo[0] <= tx
  {
    assert tx in todo;
  }

  lemma AheadTail(d: Disk, todo: seq<TxId>)
    requires todo != [] && forall i :: 0 <= i < |todo| ==> todo[i] in d.records
    ensures Ahead(d, todo) <==> Passable(d, todo[0]) && Ahead(d, todo[1..])
  {
    hide Passable;
    forall i | 1 <= i < |todo| ensures todo[i] == todo[1..][i - 1] {}
    if Passable(d, todo[0]) && Ahead(d, todo[1..]) {
      forall i | 0 <= i < |todo| ensures Passable(d, todo[i]) {
        if i > 0 { assert Passable(d, todo[1..][i - 1]); }
      }
    }
  }

  lemma AheadSame(d: Disk, d': Disk, todo: seq<TxId>)
    requires forall i :: 0 <= i < |todo| ==> todo[i] in d.records && todo[i] in d'.records
    requires forall i :: 0 <= i < |todo| ==> (Passable(d', todo[i]) <==> Passable(d, todo[i]))
    ensures Ahead(d', todo) <==> Ahead(d, todo)
  {
    hide Passable;
  }

  /** Moving a journal back changes nothing for anyone: it is still fenced. */
  lemma MovedBackPassable(d: Disk, j: Name, tx: TxId)
    requires j in d.quarantine && j in d.fences && tx in d.records
    ensures Passable(MovedBack(d, j), tx) <==> Passable(d, tx)
  {}

  /** Dropping the fence of an unsettled transaction that fits leaves later restored ones passable. */
  lemma UnfencedPassable(d: Disk, h: TxId, tx: TxId)
    requires UnsettledIn(d, h) && HoldsFence(d, d.records[h].intent) && d.records[h].intent.transaction == h
    requires Fits(d, JournalOf(d, h)) && tx in d.records && (JournalOf(d, tx) == JournalOf(d, h) ==> h <= tx)
    ensures Passable(Unfenced(d, JournalOf(d, h)), tx) <==> Passable(d, tx)
  {}

  /** Publishing the restored record of an unfenced transaction matters to nobody else. */
  lemma SettledPassable(d: Disk, h: TxId, r: Records, tx: TxId)
    requires FencesOk(d) && UnsettledIn(d, h) && JournalOf(d, h) !in d.fences && tx in d.records && tx != h
    requires r.intent == d.records[h].intent && r.restored.Some?
    ensures Passable(Recorded(d, h, r), tx) <==> Passable(d, tx)
  {}

  /** One step either fails on an impassable transaction, or goes on with the same condition ahead. */
  ghost predicate Progress(w: World, w': World) {
    && w.holder.Reconciling? && TodoOk(w.disk, w.holder.todo)
    && if w'.holder.Reconciling? then
         && Recovering(w') && TodoOk(w'.disk, w'.holder.todo)
         && (Ahead(w'.disk, w'.holder.todo) <==> Ahead(w.disk, w.holder.todo))
         && (AllSettled(w.disk) ==> w'.disk == w.disk)
       else
         w'.holder == Free && w'.disk == w.disk && w'.last.Failed? && w'.writers == w.writers
             && !Ahead(w.disk, w.holder.todo)
  }

  ghost predicate AllSettled(d: Disk) { forall tx :: tx in d.records ==> !Unsettled(d.records[tx]) }

  lemma TodoOfInv(w: World)
    requires Inv(w) && w.holder.Reconciling?
    ensures TodoOk(w.disk, w.holder.todo)
  {}

  /** Passing the first name, whose record says whether it was restored or finalized. */
  lemma BehindNext(d: Disk, h: Holder, restored: seq<TxId>, finalized: seq<TxId>)
    requires Behind(d, h) && TodoOk(d, h.todo) && h.todo != [] && !Unsettled(d.records[h.todo[0]])
    requires var r := d.records[h.todo[0]];
             && (r.finalized == None || r.restored == None)
             && restored == h.restored + (if r.restored.Some? then [h.todo[0]] else [])
             && finalized == h.finalized + (if r.finalized.Some? then [h.todo[0]] else [])
             && (r.restored.Some? ==> JournalOf(d, h.todo[0]) !in d.fences && Fits(d, JournalOf(d, h.todo[0])))
    ensures Behind(d, Reconciling(h.todo[1..], Examine, h.purpose, restored, finalized))
  {
    TodoTail(d, h.todo);
    var tx, rest := h.todo[0], h.todo[1..];
    assert Ordered(d, rest) by {
      forall p, i | p in d.records && p !in rest && 0 <= i < |rest| ensures p < rest[i] {
        assert rest[i] == h.todo[i + 1];
      }
    }
    assert CleanBehind(d, rest) by { hide Listed, Ordered; }
    ListedNext(d, h.todo, h.restored, h.finalized);
    hide Ordered, CleanBehind, Listed;
  }

  lemma ListedNext(d: Disk, todo: seq<TxId>, restored: seq<TxId>, finalized: seq<TxId>)
    requires Listed(d, todo, restored, finalized) && Ordered(d, todo) && todo != [] && todo[0] in d.records
             && todo[0] !in todo[1..]
    requires forall x :: x in todo <==> x == todo[0] || x in todo[1..]
    requires var r := d.records[todo[0]]; r.finalized == None || r.restored == None
    ensures var r := d.records[todo[0]];
            Listed(d, todo[1..], restored + (if r.restored.Some? then [todo[0]] else []), finalized
                   + (if r.finalized.Some? then [todo[0]] else []))
  {
    var tx, r := todo[0], d.records[todo[0]];
    AppendIncreasing(restored, tx);
    AppendIncreasing(finalized, tx);
    var restored' := restored + (if r.restored.Some? then [tx] else []);
    var finalized' := finalized + (if r.finalized.Some? then [tx] else []);
    assert forall x :: x in restored' <==> x in restored || (x == tx && r.restored.Some?);
    assert forall x :: x in finalized' <==> x in finalized || (x == tx && r.finalized.Some?);
  }

  lemma AppendIncreasing(q: seq<TxId>, x: TxId)
    requires Increasing(q) && forall y :: y in q ==> y < x
    ensures Increasing(q + [x]) && q + [] == q
  {
    forall i, j | 0 <= i < j < |q + [x]| ensures (q + [x])[i] < (q + [x])[j] {
      assert (q + [x])[i] == q[i] && q[i] in q;
    }
  }

  lemma NextTransactionRecovers(w: World, h: Holder, restored: seq<TxId>, finalized: seq<TxId>, w': World)
    requires Recovering(w) && w.holder == h && h.todo != [] && TodoOk(w.disk, h.todo)
             && !Unsettled(w.disk.records[h.todo[0]])
    requires w' == NextTransaction(w, h, restored, finalized) && Inv(w')
    requires Behind(w.disk, Reconciling(h.todo[1..], Examine, h.purpose, restored, finalized))
    requires Passable(w.disk, h.todo[0])
    ensures Progress(w, w')
  {
    hide Inv, Behind, Passable;
    TodoTail(w.disk, h.todo);
    AheadTail(w.disk, h.todo);
  }

  lemma ExamineSettledRecovers(w: World)
    requires Recovering(w) && w.holder.stage == Examine && w.holder.todo != [] && TodoOk(w.disk, w.holder.todo)
    requires !Unsettled(w.disk.records[w.holder.todo[0]])
    ensures Progress(w, ReconcileStep(w, w.holder))
  {
    hide DiskOk, Ahead, Increasing;
    var h, d := w.holder, w.disk;
    var tx := h.todo[0];
    var r, j := d.records[tx], JournalOf(d, tx);
    assert tx in d.records;
    ExamineOutcome(w, h);
    PlacedOnDisk(d, tx);
    HolderStepKeeps(w);
    AheadTail(d, h.todo);
    hide ReconcileStep;
    if r.finalized.Some? {
      BehindNext(d, h, h.restored + [], h.finalized + [tx]);
      assert h.restored + [] == h.restored;
      hide Inv, Behind;
      NextTransactionRecovers(w, h, h.restored, h.finalized + [tx], ReconcileStep(w, h));
    } else if j !in d.fences && Fits(d, j) {
      BehindNext(d, h, h.restored + [tx], h.finalized + []);
      assert h.finalized + [] == h.finalized;
      hide Inv, Behind;
      NextTransactionRecovers(w, h, h.restored + [tx], h.finalized, ReconcileStep(w, h));
    } else {
      if j in d.fences && UnsettledIn(d, d.fences[j].transaction) {
        NothingUnsettledBefore(d, h.todo, d.fences[j].transaction);
      }
    }
  }

  lemma ExamineRemnantRecovers(w: World)
    requires Recovering(w) && w.holder.stage == Examine && w.holder.todo != [] && TodoOk(w.disk, w.holder.todo)
    requires Unsettled(w.disk.records[w.holder.todo[0]])
    ensures Progress(w, ReconcileStep(w, w.holder))
  {
    hide DiskOk, Ahead, Increasing;
    var h, d := w.holder, w.disk;
    var tx := h.todo[0];
    var r, j := d.records[tx], JournalOf(d, tx);
    assert tx in d.records;
    ExamineOutcome(w, h);
    PlacedOnDisk(d, tx);
    HolderStepKeeps(w);
    AheadTail(d, h.todo);
    hide ReconcileStep;
    var w' := ReconcileStep(w, h);
    if j in d.quarantine {
      var d' := MovedBack(d, j);
      assert j in d.fences;
      forall i | 0 <= i < |h.todo| ensures Passable(d', h.todo[i]) <==> Passable(d, h.todo[i]) {
        MovedBackPassable(d, j, h.todo[i]);
      }
      AheadSame(d, d', h.todo);
      assert Fits(d', j);
      assert Behind(d', w'.holder);
      TodoOfInv(w');
    } else if Fits(d, j) {
      assert Behind(d, w'.holder);
    } else {
      if j in d.fences { UnsettledOwnsFence(d, tx); }
    }
  }

  lemma UnfenceRecovers(w: World)
    requires Recovering(w) && w.holder.stage.Unfence?
    ensures Progress(w, ReconcileStep(w, w.holder))
  {
    hide DiskOk, Ahead, Increasing;
    var h, d := w.holder, w.disk;
    var tx := h.todo[0];
    var j := JournalOf(d, tx);
    UnfenceKeeps(w, h);
    HolderStepKeeps(w);
    PlacedOnDisk(d, tx);
    hide ReconcileStep;
    var w' := ReconcileStep(w, h);
    TodoOfInv(w');
    if j in d.fences {
      UnsettledOwnsFence(d, tx);
      var d' := Unfenced(d, j);
      forall i | 0 <= i < |h.todo| ensures Passable(d', h.todo[i]) <==> Passable(d, h.todo[i]) {
        assert h.todo[0] <= h.todo[i] by { TodoLeast(d, h.todo, i); }
        UnfencedPassable(d, tx, h.todo[i]);
      }
      AheadSame(d, d', h.todo);
      assert Behind(d', w'.holder);
    } else {
      assert Behind(d, w'.holder);
    }
  }

  lemma TodoLeast(d: Disk, todo: seq<TxId>, i: nat)
    requires TodoOk(d, todo) && i < |todo|
    ensures todo[0] <= todo[i]
  {}

  lemma SettleRecovers(w: World)
    requires Recovering(w) && w.holder.stage.Settle?
    ensures Progress(w, ReconcileStep(w, w.holder))
  {
    hide Ahead, Increasing, TransactionsOk, FilesOk, OneUnsettled;
    var h, d := w.holder, w.disk;
    var tx := h.todo[0];
    var r := d.records[tx];
    var r' := r.(restored := Some(Restored(r.intent, r.applied, h.stage.reason)));
    var d' := Recorded(d, tx, r');
    SettleKeeps(w, h);
    HolderStepKeeps(w);
    hide ReconcileStep;
    var w' := ReconcileStep(w, h);
    TodoOfInv(w');
    TodoTail(d, h.todo);
    AheadTail(d, h.todo);
    assert Passable(d, tx);
    forall i | 0 <= i < |h.todo[1..]| ensures Passable(d', h.todo[1..][i]) <==> Passable(d, h.todo[1..][i]) {
      assert h.todo[1..][i] in h.todo[1..];
      SettledPassable(d, tx, r', h.todo[1..][i]);
    }
    AheadSame(d, d', h.todo[1..]);
    TodoFrame(d, d', h.todo);
    SettleBehind(d, h, d', r');
  }

  lemma SettleBehind(d: Disk, h: Holder, d': Disk, r': Records)
    requires Behind(d, h) && TodoOk(d, h.todo) && h.todo != [] && h.stage.Settle?
    requires Unsettled(d.records[h.todo[0]]) && r'.intent == d.records[h.todo[0]].intent && r'.restored.Some?
             && r'.finalized == None
    requires d' == Recorded(d, h.todo[0], r') && JournalOf(d, h.todo[0]) !in d.fences && TodoOk(d', h.todo)
    ensures Behind(d', Reconciling(h.todo[1..], Examine, h.purpose, h.restored + [h.todo[0]], h.finalized))
  {
    assert Behind(d', h) by { hide Increasing; }
    hide Behind;
    assert h.finalized + [] == h.finalized;
    FitsHead(d', h);
    BehindNext(d', h, h.restored + [h.todo[0]], h.finalized + []);
  }

  lemma FitsHead(d: Disk, h: Holder)
    requires Behind(d, h) && h.stage != Examine && h.todo != [] && h.todo[0] in d.records
    ensures Fits(d, JournalOf(d, h.todo[0]))
  {}

  lemma RecoverStep(w: World)
    requires Recovering(w) && w.holder.todo != []
    ensures Progress(w, ReconcileStep(w, w.holder))
  {
    TodoOfInv(w);
    hide Inv, Behind, Progress, ReconcileStep;
    match w.holder.stage
    case Examine =>
      if Unsettled(w.disk.records[w.holder.todo[0]]) { ExamineRemnantRecovers(w); } else { ExamineSettledRecovers(w); }
    case Unfence(_) => UnfenceRecovers(w);
    case Settle(_) => SettleRecovers(w);
  }

  // ---------------------------------------------------------------- the theorems

  /** What a completed reconcile leaves behind and reports. */
  ghost predicate Recovered(d: Disk, restored: seq<TxId>, finalized: seq<TxId>) {
    && AllSettled(d)
    && Increasing(restored) && Increasing(finalized)
    && (forall x :: x in restored <==> x in d.records && d.records[x].restored.Some?)
    && (forall x :: x in finalized <==> x in d.records && d.records[x].finalized.Some?)
    && (forall tx :: tx in d.records && d.records[tx].restored.Some? ==>
          JournalOf(d, tx) !in d.fences && Fits(d, JournalOf(d, tx)))
  }

  lemma EmptyTodoRecovered(w: World)
    requires Recovering(w) && w.holder.todo == []
    ensures Recovered(w.disk, w.holder.restored, w.holder.finalized)
  {
    TodoOfInv(w);
    hide Inv, Increasing, Fits;
  }

  /** From any point of an undisturbed reconcile: it completes exactly when everything ahead is passable. */
  lemma {:induction false} CompleteConverges(w: World)
    requires Recovering(w) && TodoOk(w.disk, w.holder.todo)
    ensures var w' := Complete(w);
            && w'.holder == Free && w'.writers == w.writers && Inv(w')
            && (Ahead(w.disk, w.holder.todo) ==>
                w'.last.Reconciled? && Recovered(w'.disk, w'.last.restored, w'.last.finalized))
            && (!Ahead(w.disk, w.holder.todo) ==> w'.last.Failed?)
            && (AllSettled(w.disk) ==> w'.disk == w.disk)
    decreases Effort(w.holder)
  {
    StepsDecrease(w);
    RecoveringStepKeeps(w);
    var next := ReconcileStep(w, w.holder);
    CompleteUnfolds(w);
    if w.holder.todo == [] {
      EmptyTodoRecovered(w);
      EmptyTodoReleases(w);
      CompleteUnfolds(next);
    } else {
      RecoverStep(w);
      hide ReconcileStep, Recovering, Inv, Ahead, Complete, Recovered, Effort;
      if next.holder.Reconciling? {
        CompleteConverges(next);
        SettledStays(w, next);
      } else {
        CompleteUnfolds(next);
      }
    }
  }

  lemma SettledStays(w: World, next: World)
    requires Progress(w, next) && next.holder.Reconciling?
    ensures AllSettled(w.disk) ==> AllSettled(next.disk)
  {
    hide Recovering, Ahead, TodoOk;
  }

  lemma CompleteUnfolds(w: World)
    ensures Complete(w) == if w.holder.Reconciling? then Complete(ReconcileStep(w, w.holder)) else w
  {
    hide ReconcileStep;
  }

  lemma EmptyTodoReleases(w: World)
    requires w.holder.Reconciling? && w.holder.todo == [] && w.holder.purpose == Standalone
    ensures ReconcileStep(w, w.holder) == Release(w, Reconciled(w.holder.restored, w.holder.finalized))
  {}

  lemma RecoveringStepKeeps(w: World)
    requires Recovering(w)
    ensures Inv(ReconcileStep(w, w.holder)) && ReconcileStep(w, w.holder).writers == w.writers
  {
    HolderStepKeeps(w);
    HolderStepWriters(w);
    hide ReconcileStep, Inv;
  }

  lemma StartRecovers(w: World)
    requires Inv(w) && w.holder == Free && w.writers == map[]
    ensures var w1 := Step(w, Reconcile);
            && Recovering(w1) && TodoOk(w1.disk, w1.holder.todo) && w1.disk == w.disk && w1.writers == w.writers
            && (Ahead(w.disk, w1.holder.todo) <==> Converges(w.disk))
  {
    hide Inv, Passable, DiskOk;
    StepKeeps(w, Reconcile);
    var w1 := Step(w, Reconcile);
    TodoOfInv(w1);
    assert Behind(w1.disk, w1.holder) by { hide Sorted; }
    var todo := w1.holder.todo;
    assert forall tx :: tx in todo <==> tx in w.disk.records;
    if Ahead(w.disk, todo) {
      forall tx | tx in w.disk.records ensures Passable(w.disk, tx) {
        var i :| 0 <= i < |todo| && todo[i] == tx;
      }
    }
  }

  /** From every state a crashed run can leave, an undisturbed reconcile under the lease completes, settles every
      transaction and reports exactly the restored and finalized ones if and only if every transaction is passable;
      otherwise it raises.  It never blocks a transaction. */
  lemma ReconcileConvergesExactly(w: World)
    requires Inv(w) && w.holder == Free && w.writers == map[]
    ensures var w' := Complete(Step(w, Reconcile));
            && w'.holder == Free && Inv(w')
            && (w'.last.Reconciled? <==> Converges(w.disk)) && (w'.last.Failed? <==> !Converges(w.disk))
            && (w'.last.Reconciled? ==> Recovered(w'.disk, w'.last.restored, w'.last.finalized))
            && (forall tx :: tx in w'.disk.records ==> w'.disk.records[tx].blocked == None)
  {
    hide Inv, Complete, Recovering, Recovered, Ahead, Step, Converges;
    StartRecovers(w);
    CompleteConverges(Step(w, Reconcile));
    NeverBlocked(Complete(Step(w, Reconcile)));
  }

  lemma NeverBlocked(w: World)
    requires Inv(w)
    ensures forall tx :: tx in w.disk.records ==> w.disk.records[tx].blocked == None
  {
    hide DiskOk;
    forall tx | tx in w.disk.records ensures w.disk.records[tx].blocked == None { PlacedOnDisk(w.disk, tx); }
  }

  /** The protocol's own assumptions suffice: one transaction per journal and journals within the read limit. */
  lemma OnePerJournalConverges(w: World)
    requires Inv(w)
    requires forall t, u ::
               t in w.disk.records && u in w.disk.records && JournalOf(w.disk, t) == JournalOf(w.disk, u) ==> t == u
    requires forall j :: j in w.disk.source ==> Fits(w.disk, j)
    ensures Converges(w.disk)
  {
    var d := w.disk;
    hide TxOk, FilesOk, OneUnsettled;
    forall tx | tx in d.records ensures Passable(d, tx) {
      PlacedOnDisk(d, tx);
      var j := JournalOf(d, tx);
      if j in d.fences { assert JournalOf(d, d.fences[j].transaction) == j; }
    }
  }

  lemma RecoveredConverges(d: Disk, restored: seq<TxId>, finalized: seq<TxId>)
    requires Recovered(d, restored, finalized) && FencesOk(d)
    ensures Converges(d)
  {
    hide Increasing;
  }

  lemma {:induction false} IncreasingUnique(a: seq<TxId>, b: seq<TxId>)
    requires Increasing(a) && Increasing(b) && forall x :: x in a <==> x in b
    ensures a == b
    decreases |a|
  {
    if b != [] { assert b[0] in b; assert a != []; }
    if a != [] {
      assert a[0] in a && b != [];
      var i :| 0 <= i < |a| && a[i] == b[0];
      var k :| 0 <= k < |b| && b[k] == a[0];
      assert a[0] == b[0];
      assert forall x :: x in a[1..] <==> x in a && x != a[0] by { TailMembers(a); }
      assert forall x :: x in b[1..] <==> x in b && x != b[0] by { TailMembers(b); }
      IncreasingUnique(a[1..], b[1..]);
      assert a == [a[0]] + a[1..] && b == [b[0]] + b[1..];
    }
  }

  lemma TailMembers(a: seq<TxId>)
    requires Increasing(a) && a != []
    ensures forall x :: x in a[1..] <==> x in a && x != a[0]
  {
    assert a == [a[0]] + a[1..];
  }

  /** A second reconcile returns the same result and changes nothing. */
  lemma ReconcileIsIdempotent(w: World)
    requires Inv(w) && w.holder == Free && w.writers == map[] && Converges(w.disk)
    ensures var first := Complete(Step(w, Reconcile));
            Complete(Step(first, Reconcile)) == first
  {
    hide Inv, Complete, Recovering, Ahead, Step, Converges, Increasing, Fits;
    ReconcileConvergesExactly(w);
    StartRecovers(w);
    CompleteConverges(Step(w, Reconcile));
    var first := Complete(Step(w, Reconcile));
    FencesOfInv(first);
    RecoveredConverges(first.disk, first.last.restored, first.last.finalized);
    ReconcileConvergesExactly(first);
    StartRecovers(first);
    CompleteConverges(Step(first, Reconcile));
    var second := Complete(Step(first, Reconcile));
    IncreasingUnique(first.last.restored, second.last.restored);
    IncreasingUnique(first.last.finalized, second.last.finalized);
  }

  lemma FencesOfInv(w: World)
    requires Inv(w)
    ensures FencesOk(w.disk)
  {}

  // ---------------------------------------------------------------- crashed attempts

  /** An undisturbed reconcile is a run of the step machine. */
  lemma {:induction false} CompleteIsRun(w: World) returns (events: seq<Event>)
    ensures Complete(w) == Run(w, events) && forall i :: 0 <= i < |events| ==> events[i] == Go
    decreases Effort(w.holder)
  {
    hide ReconcileStep, Effort;
    CompleteUnfolds(w);
    if !w.holder.Reconciling? {
      events := [];
    } else {
      StepsDecrease(w);
      var rest := CompleteIsRun(ReconcileStep(w, w.holder));
      RunFirst(w, Go, rest);
      events := [Go] + rest;
    }
  }

  lemma {:induction false} RunFirst(w: World, e: Event, rest: seq<Event>)
    ensures Run(w, [e] + rest) == Run(Step(w, e), rest)
    decreases |rest|
  {
    hide Step;
    if rest == [] {
      assert [e] + rest == [e] && [e][..0] == [];
    } else {
      RunFirst(w, e, rest[..|rest| - 1]);
      assert ([e] + rest)[..|[e] + rest| - 1] == [e] + rest[..|rest| - 1];
    }
  }

  /** Idle, or inside a standalone reconcile, with everything passable. */
  ghost predicate Recoverable(w: World) {
    && Inv(w) && w.writers == map[] && Converges(w.disk)
    && (w.holder == Free || (Recovering(w) && TodoOk(w.disk, w.holder.todo)))
  }

  predicate RecoveryEvent(e: Event) { e.Reconcile? || e.Go? || e.Crash? }

  /** Every step of a reconcile keeps every transaction passable, so a later attempt still converges. */
  lemma ReconcileKeepsConverges(w: World)
    requires Recovering(w) && TodoOk(w.disk, w.holder.todo) && w.holder.todo != [] && Converges(w.disk)
    ensures Converges(ReconcileStep(w, w.holder).disk)
  {
    var h, d := w.holder, w.disk;
    var tx := h.todo[0];
    var j := JournalOf(d, tx);
    assert tx in d.records;
    hide Behind, Passable;
    assert h.stage != Examine ==> Fits(d, j) by { if h.stage != Examine { FitsHead(d, h); } }
    match h.stage
    case Examine =>
      hide TxOk, FilesOk, OneUnsettled, TransactionsOk;
      ExamineOutcome(w, h);
      hide ReconcileStep;
      if Unsettled(d.records[tx]) && j in d.quarantine {
        forall t | t in d.records ensures Passable(MovedBack(d, j), t) { MovedBackPassable(d, j, t); }
      }
      return;
    case Unfence(_) =>
      UnfenceKeeps(w, h);
      hide ReconcileStep;
      if j in d.fences {
        UnsettledOwnsFence(d, tx);
        PlacedOnDisk(d, tx);
        hide DiskOk;
        forall t | t in d.records ensures Passable(Unfenced(d, j), t) { UnfencedStaysPassable(d, tx, t); }
      }
      return;
    case Settle(reason) =>
      SettleKeeps(w, h);
      hide ReconcileStep;
      var r := d.records[tx];
      var r' := r.(restored := Some(Restored(r.intent, r.applied, reason)));
      forall t | t in d.records ensures Passable(Recorded(d, tx, r'), t) {
        if t != tx { SettledPassable(d, tx, r', t); } else { SettledSelfPassable(d, tx, r'); }
      }
      return;
  }

  lemma UnfencedStaysPassable(d: Disk, h: TxId, tx: TxId)
    requires UnsettledIn(d, h) && HoldsFence(d, d.records[h].intent) && d.records[h].intent.transaction == h
    requires Fits(d, JournalOf(d, h)) && tx in d.records && Passable(d, tx)
    ensures Passable(Unfenced(d, JournalOf(d, h)), tx)
  {}

  lemma SettledSelfPassable(d: Disk, h: TxId, r: Records)
    requires h in d.records && JournalOf(d, h) !in d.fences && Fits(d, JournalOf(d, h))
             && r.intent == d.records[h].intent
    ensures Passable(Recorded(d, h, r), h)
  {}

  lemma RecoveryStepStays(w: World, e: Event)
    requires Recoverable(w) && RecoveryEvent(e)
    ensures Recoverable(Step(w, e))
  {
    hide Inv, Converges, Behind, Ahead;
    StepKeeps(w, e);
    match e
    case Reconcile => if w.holder == Free { StartRecovers(w); } return;
    case Crash => return;
    case Go =>
      if w.holder.Reconciling? {
        HolderStepWriters(w);
        if w.holder.todo == [] {
          EmptyTodoReleases(w);
          hide ReconcileStep;
        } else {
          RecoverStep(w);
          ReconcileKeepsConverges(w);
          hide ReconcileStep;
        }
      }
      return;
  }

  /** After any number of crashed attempts, an undisturbed reconcile still completes. */
  lemma {:induction false} CrashedAttemptsStillConverge(w: World, events: seq<Event>)
    requires Inv(w) && w.holder == Free && w.writers == map[] && Converges(w.disk)
    requires forall i :: 0 <= i < |events| ==> RecoveryEvent(events[i])
    ensures Recoverable(Run(w, events))
    ensures Complete(Step(Step(Run(w, events), Crash), Reconcile)).last.Reconciled?
    decreases |events|
  {
    hide Inv, Converges, Step, Complete, Recovering;
    if events != [] {
      CrashedAttemptsStillConverge(w, events[..|events| - 1]);
      RecoveryStepStays(Run(w, events[..|events| - 1]), events[|events| - 1]);
    }
    var now := Run(w, events);
    CrashFrees(now);
    RecoveryStepStays(now, Crash);
    ReconcileConvergesExactly(Step(now, Crash));
  }

  lemma CrashFrees(w: World)
    ensures Step(w, Crash).holder == Free && Step(w, Crash).disk == w.disk && Step(w, Crash).writers == w.writers
  {}

  /** The promise of the protocol in one piece: whatever writers, prepare, commit, finalize and reconcile did, and
      wherever any of them died, once no writer is left a reconcile settles every intent, provided each journal had one
      transaction and stayed within the read limit.  The reconcile is itself a run of the protocol's steps, returned as
      `recovery`. */
  lemma EveryCrashedRunRecovers(events: seq<Event>) returns (recovery: seq<Event>)
    requires var d := Run(EMPTY, events).disk;
             && (forall t, u :: t in d.records && u in d.records && JournalOf(d, t) == JournalOf(d, u) ==> t == u)
             && (forall j :: j in d.source ==> Fits(d, j))
    requires Run(EMPTY, events).writers == map[]
    ensures forall i :: 0 <= i < |recovery| ==> recovery[i] == Go
    ensures var w := Run(Step(Step(Run(EMPTY, events), Crash), Reconcile), recovery);
            && w == Complete(Step(Step(Run(EMPTY, events), Crash), Reconcile))
            && w.last.Reconciled? && Recovered(w.disk, w.last.restored, w.last.finalized)
            && (forall tx :: tx in w.disk.records ==> w.disk.records[tx].blocked == None)
  {
    hide Inv, Step, Complete, Converges, Recovered, Run, Fits;
    var w := Run(EMPTY, events);
    EmptyInv();
    RunKeeps(EMPTY, events);
    StepKeeps(w, Crash);
    CrashFrees(w);
    OnePerJournalConverges(Step(w, Crash));
    ReconcileConvergesExactly(Step(w, Crash));
    recovery := CompleteIsRun(Step(Step(w, Crash), Reconcile));
  }

  // ---------------------------------------------------------------- two transactions on one journal

  /** A journal with a restored and a finalized transaction stops every later reconcile, whatever happens next. */
  lemma RestoredTwinStopsRecovery(w: World, events: seq<Event>, r: TxId, f: TxId)
    requires Inv(w) && r in w.disk.records && f in w.disk.records && JournalOf(w.disk, r) == JournalOf(w.disk, f)
    requires w.disk.records[r].restored.Some? && w.disk.records[f].finalized.Some?
    ensures !Converges(Run(w, events).disk)
  {
    hide Step, DiskOk;
    RunKeeps(w, events);
    RunExtends(w, events);
    hide Run;
    var d := Run(w, events).disk;
    PlacedOnDisk(d, f);
    assert !Passable(d, r);
  }

  lemma Then(events: seq<Event>, w: World, e: Event) returns (events': seq<Event>, w': World)
    requires Run(EMPTY, events) == w
    ensures events' == events + [e] && w' == Step(w, e) && Run(EMPTY, events') == w'
  {
    hide Step;
    events', w' := events + [e], Step(w, e);
    assert events'[..|events'| - 1] == events;
  }

  const WORKER: Name := "worker.jsonl"
  const JOURNAL := File(1, [NEWLINE])
  const FIRST := Intent(1, Snapshot(WORKER, 1, [NEWLINE]))
  const SECOND := Intent(2, Snapshot(WORKER, 1, [NEWLINE]))
  const ABORTED := Records(FIRST, None, None, Some(Restored(FIRST, None, NoMoveObserved)), None)
  const PREPARED := Records(SECOND, None, None, None, None)
  const APPLIED := PREPARED.(applied := Some(Applied(SECOND, SECOND.snapshot)))

  predicate Resting(w: World, d: Disk) { w.disk == d && w.writers == map[] && w.holder == Free }

  lemma TwinPrepares() returns (events: seq<Event>)
    ensures Resting(Run(EMPTY, events),
                    Disk(map[WORKER := JOURNAL], map[], map[], map[1 := Records(FIRST, None, None, None, None)], 2))
  {
    RunNothing(EMPTY);
    hide Run;
    var w := EMPTY;
    events := [];
    events, w := Then(events, w, WriterOpens(0, WORKER));
    events, w := Then(events, w, WriterAppends(0, [NEWLINE]));
    events, w := Then(events, w, WriterEnds(0));
    assert Resting(w, Disk(map[WORKER := JOURNAL], map[], map[], map[], 2));
    events, w := Then(events, w, Prepare(1, WORKER));
    events, w := Then(events, w, Go);
    events, w := Then(events, w, Go);
  }

  lemma TwinAborts() returns (events: seq<Event>)
    ensures Resting(Run(EMPTY, events), Disk(map[WORKER := JOURNAL], map[], map[], map[1 := ABORTED], 2))
  {
    events := TwinPrepares();
    hide Run;
    var w := Run(EMPTY, events);
    events, w := Then(events, w, Reconcile);
    OneName(w.disk, 1);
    assert w.holder == Reconciling([1], Examine, Standalone, [], []);
    events, w := Then(events, w, Go);
    events, w := Then(events, w, Go);
    events, w := Then(events, w, Go);
    events, w := Then(events, w, Go);
  }

  lemma TwinPreparesAgain() returns (events: seq<Event>)
    ensures Resting(Run(EMPTY, events), Disk(map[WORKER := JOURNAL], map[], map[], map[1 := ABORTED, 2 := PREPARED], 2))
  {
    events := TwinAborts();
    hide Run;
    var w := Run(EMPTY, events);
    events, w := Then(events, w, Prepare(2, WORKER));
    OneName(w.disk, 1);
    assert w.holder == Reconciling([1], Examine, ForPrepare(2, WORKER), [], []);
    events, w := Then(events, w, Go);
    events, w := Then(events, w, Go);
    events, w := Then(events, w, Go);
  }

  lemma TwinCommits() returns (events: seq<Event>)
    ensures Resting(Run(EMPTY, events),
                    Disk(map[], map[WORKER := JOURNAL], map[WORKER := SECOND], map[1 := ABORTED, 2 := APPLIED], 2))
  {
    events := TwinPreparesAgain();
    hide Run;
    var w := Run(EMPTY, events);
    events, w := Then(events, w, Commit(2));
    events, w := Then(events, w, Go);
    events, w := Then(events, w, Go);
    events, w := Then(events, w, Go);
    events, w := Then(events, w, Go);
  }

  /** Such a journal is reachable without any crash: abort one transaction, then quarantine and finalize another. */
  lemma RestoredTwinIsReachable() returns (events: seq<Event>)
    ensures var d := Run(EMPTY, events).disk;
            && 1 in d.records && 2 in d.records && JournalOf(d, 1) == JournalOf(d, 2)
            && d.records[1].restored.Some? && d.records[2].finalized.Some?
  {
    events := TwinCommits();
    hide Run;
    var w := Run(EMPTY, events);
    events, w := Then(events, w, Finalize(2, "fact"));
    events, w := Then(events, w, Go);
  }

  lemma RunNothing(w: World)
    ensures Run(w, []) == w
  {}

  lemma OneName(d: Disk, tx: TxId)
    requires d.records.Keys == {tx}
    ensures Sorted(d.records.Keys) == [tx]
  {
    assert Least({tx}) == tx && {tx} - {tx} == {};
  }
}
