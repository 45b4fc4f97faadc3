/** The crash-consistent evidence quarantine (src/vllm_hust_ext/quarantine_transaction.py,
    src/vllm_hust_ext/host_event_sink.py, src/vllm_hust_ext/formal_lifecycle_source.py) as a step machine.

    Writers, the actuator, the runner and the reconciler share one lock: writers hold it shared, the others
    exclusively.  Each step is one durable action of one of them, and any of them may die between two steps. */
module Quarantine {
  import opened Basics

  newtype Byte = b: int | 0 <= b < 256

  const NEWLINE: Byte := 10
  const MAX_JOURNAL_BYTES := 512 * 1024

  type Name = string

  /** A transaction id is a fixed-length hexadecimal digest, so names sort as numbers. */
  type TxId = nat

  datatype File = File(inode: nat, bytes: seq<Byte>)

  datatype Snapshot = Snapshot(journal: Name, inode: nat, bytes: seq<Byte>)

  /** Digests are ideal, so a record that quotes a digest is modelled as quoting the record. */
  datatype Intent = Intent(transaction: TxId, snapshot: Snapshot)

  datatype Applied = Applied(intent: Intent, snapshot: Snapshot)

  datatype Finalized = Finalized(intent: Intent, applied: Applied, fact: string)

  datatype RestoreReason = CatchableFailure | NoMoveObserved | AfterApplied | AfterMove

  datatype Restored = Restored(intent: Intent, applied: Option<Applied>, reason: RestoreReason)

  datatype BlockReason =
    | MissingFromBoth | VerificationFailed | SourceChanged | ReplacementCollision | ReplacementAfterFinalize

  datatype Blocked = Blocked(intent: Intent, applied: Option<Applied>, finalized: Option<Finalized>,
                             reason: BlockReason)

  datatype Records = Records(intent: Intent, applied: Option<Applied>, finalized: Option<Finalized>,
                             restored: Option<Restored>, blocked: Option<Blocked>)

  /** The two directories: journals, source fences by journal, and transaction records. */
  datatype Disk = Disk(source: map<Name, File>, quarantine: map<Name, File>, fences: map<Name, Intent>,
                       records: map<TxId, Records>, nextInode: nat)

  datatype Error =
    | Conflict | Inconsistent | OperatorNeeded | ArtifactDiffers | FenceMissing | FenceDiffers | FenceRemains
    | BytesRemain | SourceUnsafe | NotContinuation | Collision | RestoreFailed | Changed | Missing | AlreadySettled

  datatype RecoveryStage = Examine | Unfence(reason: RestoreReason) | Settle(reason: RestoreReason)

  /** What a reconcile under the lease is for: itself, or the start of a prepare. */
  datatype Purpose = Standalone | ForPrepare(transaction: TxId, journal: Name)

  datatype CommitStage = InstallFence | MoveAway | MarkApplied | Audit

  datatype UndoStage = MoveBack | DropFence(mark: bool) | MarkRestored

  /** The exclusive holder of the lock and its program point. */
  datatype Holder =
    | Free
    | Reconciling(todo: seq<TxId>, stage: RecoveryStage, purpose: Purpose, restored: seq<TxId>, finalized: seq<TxId>)
    | Preparing(transaction: TxId, journal: Name)
    | Committing(transaction: TxId, at: CommitStage)
    | Undoing(transaction: TxId, undo: UndoStage)
    | Finalizing(transaction: TxId, fact: string)

  datatype Outcome = Nothing | Reconciled(restored: seq<TxId>, finalized: seq<TxId>) | Done | Failed(error: Error)

  datatype World = World(disk: Disk, holder: Holder, writers: map<nat, Name>, last: Outcome)

  const EMPTY := World(Disk(map[], map[], map[], map[], 1), Free, map[], Nothing)

  datatype Event =
    | WriterOpens(writer: nat, journal: Name)
    | WriterAppends(writer: nat, raw: seq<Byte>)
    | WriterEnds(writer: nat)
    | Reconcile
    | Prepare(transaction: TxId, journal: Name)
    | Commit(transaction: TxId)
    | Finalize(transaction: TxId, fact: string)
    | Go
    | Fails
    | Crash

  // ---------------------------------------------------------------- reading

  predicate Whole(bytes: seq<Byte>) { bytes == [] || bytes[|bytes| - 1] == NEWLINE }

  function FileAt(d: Disk, j: Name): Option<File> {
    if j in d.source then Some(d.source[j]) else if j in d.quarantine then Some(d.quarantine[j]) else None
  }

  /** Reads one stable journal; None where the source raises. */
  function SnapshotOf(directory: map<Name, File>, j: Name): Option<Snapshot> {
    if j in directory && |directory[j].bytes| <= MAX_JOURNAL_BYTES && Whole(directory[j].bytes)
    then Some(Snapshot(j, directory[j].inode, directory[j].bytes)) else None
  }

  predicate SameAppendOnly(current: Snapshot, s: Snapshot) {
    current.journal == s.journal && current.inode == s.inode && s.bytes <= current.bytes
  }

  predicate Unsettled(r: Records) { r.finalized == None && r.restored == None }

  predicate AppliedOk(r: Records) { r.applied.Some? ==> r.applied.value == Applied(r.intent, r.intent.snapshot) }

  predicate FinalizedOk(r: Records) {
    r.finalized.Some? ==>
        r.applied.Some? && r.finalized.value.intent == r.intent && r.finalized.value.applied == r.applied.value
  }

  predicate RestoredOk(r: Records) {
    r.restored.Some? ==> r.restored.value.intent == r.intent && r.restored.value.applied == r.applied
  }

  predicate HoldsFence(d: Disk, i: Intent) { i.snapshot.journal in d.fences && d.fences[i.snapshot.journal] == i }

  predicate IsLeast(s: set<TxId>, m: TxId) { m in s && forall x :: x in s ==> m <= x }

  lemma LeastExists(s: set<TxId>)
    requires s != {}
    ensures exists m :: IsLeast(s, m)
    decreases |s|
  {
    var m :| m in s;
    var rest := s - {m};
    assert s == rest + {m};
    if rest == {} { assert IsLeast(s, m); }
    else {
      LeastExists(rest);
      var k :| IsLeast(rest, k);
      assert IsLeast(s, if m <= k then m else k);
    }
  }

  /** The least element, for the sorted directory listing. */
  function Least(s: set<TxId>): (m: TxId)
    requires s != {}
    ensures IsLeast(s, m)
  {
    LeastExists(s);
    var m :| m in s && IsLeast(s, m);
    m
  }

  /** The intent names in directory order. */
  function Sorted(s: set<TxId>): (q: seq<TxId>)
    ensures forall x :: x in q <==> x in s
    ensures forall i, j :: 0 <= i < j < |q| ==> q[i] < q[j]
    decreases s
  {
    if s == {} then [] else [Least(s)] + Sorted(s - {Least(s)})
  }

  // ---------------------------------------------------------------- durable actions

  function Written(d: Disk, j: Name, raw: seq<Byte>): Disk {
    if j in d.source then d.(source := d.source[j := d.source[j].(bytes := d.source[j].bytes + raw)])
    else d.(source := d.source[j := File(d.nextInode, raw)], nextInode := d.nextInode + 1)
  }

  function Recorded(d: Disk, tx: TxId, r: Records): Disk { d.(records := d.records[tx := r]) }

  function Fenced(d: Disk, i: Intent): Disk { d.(fences := d.fences[i.snapshot.journal := i]) }

  function Unfenced(d: Disk, j: Name): Disk { d.(fences := d.fences - {j}) }

  /** The two atomic renames. */
  function MovedAway(d: Disk, j: Name): Disk
    requires j in d.source
  {
    d.(source := d.source - {j}, quarantine := d.quarantine[j := d.source[j]])
  }

  function MovedBack(d: Disk, j: Name): Disk
    requires j in d.quarantine
  {
    d.(quarantine := d.quarantine - {j}, source := d.source[j := d.quarantine[j]])
  }

  // ---------------------------------------------------------------- steps

  function Stop(w: World, e: Error): World { w.(holder := Free, last := Failed(e)) }

  function Release(w: World, o: Outcome): World { w.(holder := Free, last := o) }

  /** Publishes a blocked record (kept if one exists) and raises. */
  function Block(w: World, tx: TxId, reason: BlockReason, e: Error): World
    requires tx in w.disk.records
  {
    var r := w.disk.records[tx];
    Stop(w.(disk := Recorded(w.disk, tx, r.(blocked := Some(Blocked(r.intent, r.applied, r.finalized, reason))))), e)
  }

  function NextTransaction(w: World, h: Holder, restored: seq<TxId>, finalized: seq<TxId>): World
    requires h.Reconciling? && h.todo != []
  {
    w.(holder := Reconciling(h.todo[1..], Examine, h.purpose, restored, finalized))
  }

  /** The finalized branch of reconcile. */
  function ExamineFinalized(w: World, h: Holder, r: Records): World
    requires h.Reconciling? && h.todo != [] && h.todo[0] in w.disk.records
  {
    var d, s := w.disk, r.intent.snapshot;
    if r.applied == None || !FinalizedOk(r) then Stop(w, Inconsistent)
    else if SnapshotOf(d.quarantine, s.journal) != Some(s) then Stop(w, ArtifactDiffers)
    else if s.journal !in d.fences then Stop(w, FenceMissing)
    else if d.fences[s.journal] != r.intent then Stop(w, FenceDiffers)
    else if s.journal in d.source then Block(w, h.todo[0], ReplacementAfterFinalize, Collision)
    else NextTransaction(w, h, h.restored, h.finalized + [h.todo[0]])
  }

  /** The restored branch: it looks the fence up by journal name alone. */
  function ExamineRestored(w: World, h: Holder, r: Records): World
    requires h.Reconciling? && h.todo != []
  {
    var d, s := w.disk, r.intent.snapshot;
    if !RestoredOk(r) then Stop(w, Inconsistent)
    else if s.journal in d.fences then Stop(w, if d.fences[s.journal] != r.intent then FenceDiffers else FenceRemains)
    else if s.journal in d.quarantine then Stop(w, BytesRemain)
    else match SnapshotOf(d.source, s.journal)
      case None => Stop(w, SourceUnsafe)
      case Some(current) =>
        if !SameAppendOnly(current, s) then Stop(w, NotContinuation)
        else NextTransaction(w, h, h.restored + [h.todo[0]], h.finalized)
  }

  /** The branch for an unfinalized remnant. */
  function ExamineRemnant(w: World, h: Holder, r: Records): World
    requires h.Reconciling? && h.todo != [] && h.todo[0] in w.disk.records
  {
    var d, s, tx := w.disk, r.intent.snapshot, h.todo[0];
    var j := s.journal;
    if j in d.source && j in d.quarantine then Block(w, tx, ReplacementCollision, Collision)
    else if j in d.quarantine then
      if j !in d.fences then Stop(w, FenceMissing)
      else if d.fences[j] != r.intent then Stop(w, FenceDiffers)
      else if SnapshotOf(d.quarantine, j) != Some(s) then Block(w, tx, VerificationFailed, RestoreFailed)
      else w.(disk := MovedBack(d, j),
              holder := h.(stage := Unfence(if r.applied.Some? then AfterApplied else AfterMove)))
    else if j in d.source then
      match SnapshotOf(d.source, j)
      case None => Stop(w, SourceUnsafe)
      case Some(current) =>
        if !SameAppendOnly(current, s) then Block(w, tx, SourceChanged, Changed)
        else w.(holder := h.(stage := Unfence(NoMoveObserved)))
    else Block(w, tx, MissingFromBoth, Missing)
  }

  function ReconcileStep(w: World, h: Holder): World
    requires h.Reconciling?
  {
    if h.todo == [] then
      match h.purpose
      case Standalone => Release(w, Reconciled(h.restored, h.finalized))
      case ForPrepare(tx, j) => w.(holder := Preparing(tx, j))
    else if h.todo[0] !in w.disk.records then Stop(w, Inconsistent)
    else
      var tx := h.todo[0];
      var r := w.disk.records[tx];
      match h.stage
      case Examine =>
        if !AppliedOk(r) then Stop(w, Inconsistent)
        else if r.restored.Some? && (r.finalized.Some? || r.blocked.Some?) then Stop(w, Inconsistent)
        else if r.blocked.Some? then Stop(w, OperatorNeeded)
        else if r.finalized.Some? then ExamineFinalized(w, h, r)
        else if r.restored.Some? then ExamineRestored(w, h, r)
        else ExamineRemnant(w, h, r)
      case Unfence(reason) =>
        var j := r.intent.snapshot.journal;
        if j !in w.disk.fences then w.(holder := h.(stage := Settle(reason)))
        else if w.disk.fences[j] != r.intent then Stop(w, FenceDiffers)
        else w.(disk := Unfenced(w.disk, j), holder := h.(stage := Settle(reason)))
      case Settle(reason) =>
        var mark := Restored(r.intent, r.applied, reason);
        if r.restored.Some? && r.restored.value != mark then Stop(w, Conflict)
        else NextTransaction(w.(disk := Recorded(w.disk, tx, r.(restored := Some(mark)))), h, h.restored
                             + [tx], h.finalized)
  }

  /** Snapshot and durable intent, at the end of a prepare whose reconcile completed. */
  function PrepareStep(w: World, tx: TxId, j: Name): World {
    match SnapshotOf(w.disk.source, j)
    case None => Stop(w, SourceUnsafe)
    case Some(s) =>
      var i := Intent(tx, s);
      if tx in w.disk.records then
        if w.disk.records[tx].intent == i then Release(w, Done) else Stop(w, Conflict)
      else Release(w.(disk := Recorded(w.disk, tx, Records(i, None, None, None, None))), Done)
  }

  /** The pre-flight checks of commit_fault. */
  function CommitCall(w: World, tx: TxId): World {
    if tx !in w.disk.records then w.(last := Failed(Missing))
    else
      var r := w.disk.records[tx];
      if r.applied.Some? || r.finalized.Some? || r.restored.Some?
         || r.blocked.Some? then w.(last := Failed(AlreadySettled))
      else if SnapshotOf(w.disk.source, r.intent.snapshot.journal) != Some(r.intent.snapshot) then
              w.(last := Failed(Changed))
      else w.(holder := Committing(tx, InstallFence))
  }

  function CommitStep(w: World, tx: TxId, at: CommitStage): World {
    if tx !in w.disk.records then Stop(w, Missing)
    else
      var r := w.disk.records[tx];
      var d, s := w.disk, r.intent.snapshot;
      match at
      case InstallFence =>
        if s.journal in d.fences && d.fences[s.journal] != r.intent then Stop(w, FenceDiffers)
        else w.(disk := Fenced(d, r.intent), holder := Committing(tx, MoveAway))
      case MoveAway =>
        if s.journal in d.quarantine || SnapshotOf(d.source, s.journal) != Some(s)
        then w.(holder := Undoing(tx, DropFence(false)))
        else w.(disk := MovedAway(d, s.journal), holder := Committing(tx, MarkApplied))
      case MarkApplied =>
        w.(disk := Recorded(d, tx, r.(applied := Some(Applied(r.intent, s)))), holder := Committing(tx, Audit))
      case Audit => Release(w, Done)
  }

  /** An exception inside commit_fault: what its handler does next. */
  function CommitFails(w: World, tx: TxId, at: CommitStage): World {
    match at
    case InstallFence => Stop(w, Changed)
    case MoveAway => w.(holder := Undoing(tx, DropFence(false)))
    case MarkApplied | Audit => w.(holder := Undoing(tx, MoveBack))
  }

  function UndoStep(w: World, tx: TxId, at: UndoStage): World {
    if tx !in w.disk.records then Stop(w, Missing)
    else
      var r := w.disk.records[tx];
      var d, s := w.disk, r.intent.snapshot;
      match at
      case MoveBack =>
        if s.journal in d.source || SnapshotOf(d.quarantine, s.journal) != Some(s) then Stop(w, RestoreFailed)
        else w.(disk := MovedBack(d, s.journal), holder := Undoing(tx, DropFence(true)))
      case DropFence(mark) =>
        if s.journal in d.fences && d.fences[s.journal] != r.intent then Stop(w, FenceDiffers)
        else
          var dropped := w.(disk := if s.journal in d.fences then Unfenced(d, s.journal) else d);
          if mark then dropped.(holder := Undoing(tx, MarkRestored)) else Stop(dropped, Changed)
      case MarkRestored =>
        var mark := Restored(r.intent, r.applied, CatchableFailure);
        if r.restored.Some? && r.restored.value != mark then Stop(w, Conflict)
        else Stop(w.(disk := Recorded(d, tx, r.(restored := Some(mark)))), Changed)
  }

  function FinalizeStep(w: World, tx: TxId, fact: string): World {
    if tx !in w.disk.records then Stop(w, Missing)
    else
      var r := w.disk.records[tx];
      var d, s := w.disk, r.intent.snapshot;
      if r.applied == None then Stop(w, Missing)
      else if !AppliedOk(r) then Stop(w, Inconsistent)
      else if r.restored.Some? || r.blocked.Some? then Stop(w, AlreadySettled)
      else if SnapshotOf(d.quarantine, s.journal) != Some(s) then Stop(w, ArtifactDiffers)
      else if s.journal !in d.fences then Stop(w, FenceMissing)
      else if d.fences[s.journal] != r.intent then Stop(w, FenceDiffers)
      else if s.journal in d.source then Block(w, tx, ReplacementCollision, Collision)
      else
        var mark := Finalized(r.intent, r.applied.value, fact);
        if r.finalized.Some? then if r.finalized.value == mark then Release(w, Done) else Stop(w, Conflict)
        else Release(w.(disk := Recorded(d, tx, r.(finalized := Some(mark)))), Done)
  }

  function Begin(w: World, purpose: Purpose): World {
    w.(holder := Reconciling(Sorted(w.disk.records.Keys), Examine, purpose, [], []), last := Nothing)
  }

  function HolderStep(w: World): World {
    match w.holder
    case Free => w
    case Reconciling(_, _, _, _, _) => ReconcileStep(w, w.holder)
    case Preparing(tx, j) => PrepareStep(w, tx, j)
    case Committing(tx, at) => CommitStep(w, tx, at)
    case Undoing(tx, at) => UndoStep(w, tx, at)
    case Finalizing(tx, fact) => FinalizeStep(w, tx, fact)
  }

  /** One step of one actor.  A writer waits for the lock; the others give up when it is taken. */
  function Step(w: World, e: Event): World {
    match e
    case WriterOpens(id, j) =>
      if w.holder != Free || id in w.writers || j in w.disk.fences then w else w.(writers := w.writers[id := j])
    case WriterAppends(id, raw) =>
      if id !in w.writers || raw == [] || !Whole(raw) then w else w.(disk := Written(w.disk, w.writers[id], raw))
    case WriterEnds(id) => w.(writers := w.writers - {id})
    case Go => HolderStep(w)
    case Fails => if w.holder.Committing? then CommitFails(w, w.holder.transaction, w.holder.at) else w
    case Crash => w.(holder := Free, last := Nothing)
    case Reconcile => if w.holder != Free || w.writers != map[] then w else Begin(w, Standalone)
    case Prepare(tx, j) => if w.holder != Free || w.writers != map[] then w else Begin(w, ForPrepare(tx, j))
    case Commit(tx) => if w.holder != Free || w.writers != map[] then w else CommitCall(w, tx)
    case Finalize(tx, fact) =>
      if w.holder != Free || w.writers != map[] then w else w.(holder := Finalizing(tx, fact), last := Nothing)
  }

  function Run(w: World, events: seq<Event>): World {
    if events == [] then w else Step(Run(w, events[..|events| - 1]), events[|events| - 1])
  }
}
