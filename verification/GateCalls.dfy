/** What each gate call promises its caller, tracked through its continuations. */
module GateCalls {
  import opened Basics
  import opened Gate
  import opened GateSafety
  import opened GateSimulation

  datatype Call = ClosingCall | OpeningCall | ReconcilingCall | RollingBackCall | FailClosingCall

  predicate FailClosing(pc: Pc, after: Then) {
    (pc.FcIntent? || pc.FcEffect? || pc.FcQuery? || pc.FcDecide?) && pc.after == after
  }

  /** The program points a call may be at. */
  predicate Within(c: Call, pc: Pc) {
    match c
    case ClosingCall => pc.CloseEffect? || pc.CloseQuery? || pc.CloseDecide? || FailClosing(pc, ThenRaise)
    case OpeningCall => pc.OpenEffect? || pc.OpenQuery? || pc.OpenDecide? || FailClosing(pc, ThenRaise)
    case ReconcilingCall => InReconcile(pc)
    case RollingBackCall => pc.RbEffect? || pc.RbClose? || pc.RbDecide?
    case FailClosingCall => FailClosing(pc, ThenClass)
  }

  /** What a normal return says about the gate's state. */
  predicate Promised(c: Call, s: GateState, v: Value) {
    match c
    case ClosingCall => true
    case OpeningCall => s == CandidateOpen
    case ReconcilingCall => v == VState(s) && s != Opening
    case RollingBackCall => v.VClass? && s == TargetOf(v.outcome)
    case FailClosingCall => v.VClass? && s == TargetOf(v.outcome) && v.outcome in {ClassFailedSafe, ClassSafetyUnknown}
  }

  predicate During(c: Call, w: World) {
    && (w.pc == Idle || Within(c, w.pc))
    && (w.pc == Idle && w.ret.Returned? ==> w.db.Some? && Promised(c, w.db.value.state, w.ret.value))
  }

  /** The call an event makes, if it is one the coordinator tracks. */
  predicate Makes(e: Event, c: Call) {
    match c
    case ClosingCall => e.Close?
    case OpeningCall => e.Open?
    case ReconcilingCall => e.Reconcile?
    case RollingBackCall => e.Rollback?
    case FailClosingCall => e.FailClose?
  }

  lemma CallStarts(w: World, e: Event, c: Call)
    requires Inv(w) && w.pc == Idle && Makes(e, c)
    ensures During(c, Step(w, e))
  {
    hide DbOk, LastRow, IsSha256, Outstanding, Unanswered, LeaseValid, Note, Id;
  }

  lemma UndoContinues(w: World, db: Db, t: Traffic, c: Call)
    requires Inv(w) && w.db == Some(db) && Undoing(w.pc) && During(c, w)
    ensures During(c, AdvanceUndo(w, db, t))
  {
    hide DbOk, RowOf, Persuasive, RestoredRoute, RecoveredOutcome, IsClosed, Allowed;
    match w.pc
    case RbEffect(_) => return;
    case RbClose => return;
    case RbDecide(_) => return;
    case RecFcDecide(_) => return;
    case RecCloseDecide(_) => return;
    case RecRbDecide(seen) => return;
    case _ => return;
  }

  lemma ExamineContinues(w: World, db: Db, t: Traffic, c: Call)
    requires Inv(w) && w.db == Some(db) && Examining(w.pc) && During(c, w)
    ensures During(c, AdvanceExamine(w, db, t))
  {
    hide DbOk, RowOf, CandidateMatches, Allowed, IntentOk;
  }

  lemma ForwardContinues(w: World, db: Db, t: Traffic, c: Call)
    requires Inv(w) && w.db == Some(db) && w.pc != Idle && !Undoing(w.pc) && !Examining(w.pc) && During(c, w)
    ensures During(c, AdvanceForward(w, db, t))
  {
    hide DbOk, RowOf, CandidateMatches, LeaseValid, PredecessorBusy, IntentOk, Allowed, DrainStep, FinishStep;
  }

  /** An uninterrupted call keeps its promise, whatever the environment does meanwhile. */
  lemma CallContinues(w: World, e: Event, c: Call)
    requires Inv(w) && During(c, w) && Uninterrupted(e)
    ensures During(c, Step(w, e))
  {
    hide DbOk, AdvanceUndo, AdvanceExamine, AdvanceForward, Within, Promised;
    if e.Go? && w.pc != Idle {
      var db := w.db.value;
      if Undoing(w.pc) { UndoContinues(w, db, e.traffic, c); }
      else if Examining(w.pc) { ExamineContinues(w, db, e.traffic, c); }
      else { ForwardContinues(w, db, e.traffic, c); }
    }
  }

  /** Only a call of open brings the gate to OPENING. */
  lemma OnlyOpenOpens(w: World, e: Event)
    requires Inv(w) && !e.Open? && Step(w, e).db.Some? && Step(w, e).db.value.state == Opening
    ensures w.db.Some? && w.db.value.state == Opening
  {
    hide Advance, Begin, DbOk;
    if e.Go? && w.pc != Idle { AdvanceNeverOpens(w, w.db.value, e.traffic); }
    else if w.pc == Idle { BeginNeverOpens(w, e); }
  }

  lemma BeginNeverOpens(w: World, e: Event)
    requires !e.Open?
    ensures Begin(w, e).db.Some? && Begin(w, e).db.value.state == Opening ==> w.db.Some? && w.db.value.state == Opening
  {
    hide LastRow, IsSha256, PredecessorMatches, Outstanding, Unanswered, LeaseValid, Id;
  }

  /** The candidate is exposed and nothing is taking it away. */
  predicate Live(w: World) {
    && w.db.Some? && w.db.value.state in {CandidateOpen, Draining}
    && (w.pc == Idle || w.pc.DrainCheck? || w.pc.FinishRequest?)
  }

  /** Traffic, drains and the environment leave an exposed candidate exposed. */
  lemma LiveStays(w: World, e: Event)
    requires Inv(w) && Live(w) && (Uninterrupted(e) || e.Crash? || e.Drain? || e.Observe?)
    ensures Live(Step(w, e))
  {
    hide DbOk, LastRow, PredecessorMatches, PredecessorBusy, Id, AdvanceUndo, AdvanceExamine;
  }
}
