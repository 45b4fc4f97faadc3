/** ReferenceExposureGate as the program it is: methods that update the gate's tables and the route between fault
    points. Each is proved to be a run of the step machine, so that every law of that machine holds of the program. */
module GateProgram {
  import opened Basics
  import opened Gate
  import S = GateSafety

  /** `trace` goes on after `before` with continuations of the running call, or its crash. */
  ghost predicate Tail(before: seq<Event>, trace: seq<Event>) {
    |before| <= |trace| && trace[..|before|] == before && forall i :: |before| <= i < |trace| ==>
        trace[i].Go? || trace[i].Crash?
  }

  /** It goes on with continuations that all work. */
  ghost predicate Worked(before: seq<Event>, trace: seq<Event>) {
    |before| <= |trace| && trace[..|before|] == before && forall i :: |before| <= i < |trace| ==> trace[i] == Go(Works)
  }

  lemma Chain(a: seq<Event>, b: seq<Event>, c: seq<Event>, calm: bool)
    requires Tail(a, b) && Tail(b, c) && (calm ==> Worked(a, b) && Worked(b, c))
    ensures Tail(a, c) && (calm ==> Worked(a, c))
  {
    assert c[..|a|] == c[..|b|][..|a|];
    forall i | |a| <= i < |c| ensures (c[i].Go? || c[i].Crash?) && (calm ==> c[i] == Go(Works)) {
      if i < |b| { assert c[i] == c[..|b|][i]; }
    }
  }

  lemma Still(t: seq<Event>)
    ensures Tail(t, t) && Worked(t, t)
  {}

  /** What the machine does at each program point. */
  lemma StepAt(w: World, db: Db, t: Traffic)
    ensures match w.pc
            case CloseEffect => Advance(w, db, t) == if t == Works then w.(pc := CloseQuery) else Raising(w)
            case CloseQuery => Advance(w, db, t) == if t == Works then w.(pc := CloseDecide(w.route)) else Raising(w)
            case CloseDecide(actual) => Advance(w, db, t) == CloseStep(w, db, actual)
            case OpenEffect(proof, fence) => Advance(w, db, t) == OpenEffectStep(w, db, proof, fence, t)
            case OpenQuery(proof, fence) => Advance(w, db, t) == if t == Works then
                w.(pc := OpenDecide(proof, fence, w.route)) else Raising(w)
            case OpenDecide(proof, fence, actual) => Advance(w, db, t) == OpenStep(w, db, proof, fence, actual)
            case DrainCheck => Advance(w, db, t) == DrainStep(w, db)
            case FinishRequest(request, r) => Advance(w, db, t) == FinishStep(w, db, request, r)
            case FcIntent(after) => Advance(w, db, t) == FailCloseIntent(w, db, after)
            case FcEffect(after) => Advance(w, db, t) ==
                w.(route := if t == RaisesBefore then w.route else CLOSED_ROUTE, pc := FcQuery(after))
            case FcQuery(after) => Advance(w, db, t) == w.(pc := FcDecide(after, Seen(w, t)))
            case FcDecide(after, seen) => Advance(w, db, t) == FailCloseStep(w, db, after, seen)
            case RbEffect(oracle) => Advance(w, db, t) == RestoreStep(w, db, oracle, t)
            case RbDecide(outcome) => Advance(w, db, t) == RollbackStep(w, db, outcome)
            case RecFcQuery => Advance(w, db, t) == w.(pc := RecFcDecide(Seen(w, t)))
            case RecFcDecide(seen) => Advance(w, db, t) == RecoveredFailClose(w, db, seen)
            case RecCloseEffect => Advance(w, db, t) ==
                w.(route := if t == RaisesBefore then w.route else CLOSED_ROUTE, pc := RecCloseQuery)
            case RecCloseQuery => Advance(w, db, t) == w.(pc := RecCloseDecide(Seen(w, t)))
            case RecCloseDecide(seen) => Advance(w, db, t) == RecoveredClose(w, db, seen)
            case RecRbQuery => Advance(w, db, t) == w.(pc := RecRbDecide(Seen(w, t)))
            case RecRbDecide(seen) => Advance(w, db, t) == RecoveredRollback(w, db, seen)
            case _ => true
  {
    hide CloseStep, OpenEffectStep, OpenStep, DrainStep, FinishStep, FailCloseIntent, FailCloseStep, RestoreStep,
         RollbackStep,
         RecoveredFailClose, RecoveredClose, RecoveredRollback;
  }

  lemma ExamineAt(w: World, db: Db, t: Traffic)
    ensures match w.pc
            case RbClose => var c := ClosedBy(w, t); Advance(w, db, t) == c.(pc := RbDecide(ClassOf(Some(c.route))))
            case RecQuery(intent) =>
              Advance(w, db, t) == if t == Works then w.(pc := RecDecide(intent, w.route))
                                   else At(w, Note(db, Receipt, OpenOp, intent.fence, CANCELLED), FcIntent(ThenState))
            case RecDecide(intent, actual) => Advance(w, db, t) == RecoveryDecide(w, db, intent, actual)
            case RecCloseAllEffect(intent) =>
              Advance(w, db, t) ==
                  w.(route := if t == RaisesBefore then w.route
                     else CLOSED_ROUTE, pc := RecCloseAllQuery(intent, t != Works))
            case RecCloseAllQuery(intent, error) => Advance(w, db, t) ==
                w.(pc := RecCloseAllReceipt(intent, error || t != Works, Seen(w, t)))
            case RecCloseAllReceipt(intent, error, seen) =>
              Advance(w, db, t) ==
                  At(w, Note(db, Receipt, RecoveryCloseOp, Some(ClosedFence), EMPTY.(actual := seen)),
                     RecFinish(intent, error))
            case RecFinish(intent, error) => Advance(w, db, t) == RecoveryFinish(w, db, intent, error)
            case _ => true
  {
    hide RecoveryDecide, RecoveryFinish, Note, AdvanceForward;
  }

  class ReferenceExposureGate {
    var db: Option<Db>
    var route: RouteState
    var lease: LeaseGrant
    var now: int
    const behavioral: bool
    var faults: set<string>
    var answers: seq<Traffic> // how the traffic adapter answers its next calls; afterwards it works

    ghost const start: World
    ghost var trace: seq<Event>
    ghost var world: World

    /** The fields are those of the machine's world, and that world is where the trace leads. */
    ghost predicate Synced()
      reads this
    {
      && world.db == db && world.route == route && world.lease == lease && world.now == now
      && world.behavioral == behavioral
      && world == Run(start, trace)
    }

    ghost predicate Valid()
      reads this
    {
      Synced() && world.pc == Idle && S.Inv(start)
    }

    /** No fault is injected and the adapter works. */
    ghost predicate Calm()
      reads this
    {
      faults == {} && answers == []
    }

    /** What happened since `before`: the call and then only its continuations.  Unless the conditions are calm it may
        be cut by a crash, even before its first durable action. */
    ghost predicate Called(before: seq<Event>, e: Event, r: Ret, calm: bool)
      reads this
    {
      && (calm ==> r != Silent)
      && ((!calm && trace == before && r == Silent)
          || (Tail(before + [e], trace) && (calm ==> Worked(before + [e], trace)) && r == world.ret))
    }

    constructor (route: RouteState, lease: LeaseGrant, now: int, behavioral: bool, faults: set<string>,
                 answers: seq<Traffic>)
      ensures Valid() && start == Fresh(route, lease, now, behavioral) && trace == [] && db == None
    {
      this.db, this.route, this.lease, this.now, this.behavioral, this.faults, this.answers :=
        None, route, lease, now, behavioral, faults, answers;
      start, trace, world := Fresh(route, lease, now, behavioral), [], Fresh(route, lease, now, behavioral);
    }

    /** The machine takes one step. */
    ghost method Take(e: Event)
      requires world == Run(start, trace)
      modifies this`world, this`trace
      ensures world == Step(old(world), e) && trace == old(trace) + [e] && world == Run(start, trace)
    {
      S.RunLast(start, trace, e);
      trace := trace + [e];
      world := Step(world, e);
    }

    /** A fault point: true when the injected crash is raised here. */
    method Hit(point: string) returns (hit: bool)
      requires Synced()
      modifies this`faults, this`world, this`trace
      ensures Synced() && faults == old(faults) - {point} && hit == (point in old(faults))
      ensures !hit ==> world == old(world) && trace == old(trace)
      ensures hit ==> world == Step(old(world), Crash) && trace == old(trace) + [Crash]
    {
      hide Step, Run;
      hit := point in faults;
      faults := faults - {point};
      if hit { TakeCrash(); }
    }

    ghost method TakeCrash()
      requires Synced()
      modifies this`world, this`trace
      ensures Synced() && world == Step(old(world), Crash) && trace == old(trace) + [Crash]
    {
      Take(Crash);
    }

    /** How the traffic adapter answers its next call. */
    method Answer() returns (t: Traffic)
      modifies this`answers
      ensures old(answers) == [] ==> t == Works && answers == []
      ensures old(answers) != [] ==> t == old(answers)[0] && answers == old(answers)[1..]
    {
      if answers == [] { return Works; }
      t := answers[0];
      answers := answers[1..];
    }

    method Stage(candidate: Snapshot, predecessor: Snapshot) returns (r: Ret)
      requires Valid()
      modifies this`db, this`world, this`trace
      ensures Valid() && Called(old(trace), Event.Stage(candidate, predecessor), r, old(Calm()))
    {
      hide Run, S.Inv;
      Take(Event.Stage(candidate, predecessor));
      if !predecessor.Document? { return Raised; }
      var g := predecessor.generation;
      if db.Some? {
        var existing := db.value;
        if existing.candidateGeneration == g + 1 && existing.candidate == candidate
           && existing.predecessor == predecessor
           && existing.routeFence == PredecessorFence(g)
        {
          return Returned(VGeneration(g + 1));
        }
        return Raised;
      }
      if route.generation != Some(g) || route.fence != PredecessorFence(g) || route.snapshot != Some(predecessor) {
        return Raised;
      }
      var digest := Digest(Some(predecessor));
      var row := Db(PredecessorOpen, g, g + 1, predecessor, candidate, route.generation, route.fence, lease, 0,
                    None, Digest(Some(candidate)), None, digest, Some(digest), [], map[], []);
      db := Move(row, Receipt, StageOp, CandidateStaged, None, EMPTY);
      r := Returned(VGeneration(g + 1));
    }

    method Drain(generation: int) returns (r: Ret)
      requires Valid()
      modifies this`db, this`world, this`trace
      ensures Valid() && Called(old(trace), Event.Drain(generation), r, old(Calm()))
    {
      hide Run, S.Inv, Id;
      Take(Event.Drain(generation));
      if db.None? || db.value.candidateGeneration != generation { return Raised; }
      if db.value.state != Draining {
        var moved := Move(db.value, Intent, DrainOp, Draining, None, EMPTY);
        if moved == None { return Raised; }
        db := moved;
      }
      r := FinishDrain();
    }

    method FinishDrain() returns (r: Ret)
      requires Synced() && db.Some? && world.pc == DrainCheck
      modifies this`db, this`world, this`trace
      ensures Synced() && world.pc == Idle && r == world.ret && r != Silent && Tail(old(trace), trace)
              && Worked(old(trace), trace)
    {
      hide Run, Advance, Id, CanMove;
      StepAt(world, world.db.value, Works);
      Continue(Works);
      if PredecessorBusy(db.value) { return Returned(VBool(false)); }
      var moved := Move(db.value, Receipt, DrainOp, CandidateOpen, None, EMPTY);
      if moved == None { return Raised; }
      db := moved;
      return Returned(VBool(true));
    }

    /** Only continuations of the running call, or its crash, since `before`. */
    ghost predicate Continued(before: seq<Event>, calm: bool)
      reads this
    {
      Tail(before, trace) && (calm ==> Worked(before, trace))
    }

    /** The traffic side of close_all; errors are swallowed by its callers. */
    method CloseAll(t: Traffic)
      modifies this`route
      ensures route == if t == RaisesBefore then old(route) else CLOSED_ROUTE
    {
      if t != RaisesBefore { route := CLOSED_ROUTE; }
    }

    /** A fault point inside a call; when it is hit the call is over. */
    method Point(point: string) returns (hit: bool)
      requires Synced() && world.pc != Idle
      modifies this`faults, this`world, this`trace
      ensures Synced() && Continued(old(trace), old(faults) == {}) && faults <= old(faults)
      ensures !hit ==> world == old(world)
      ensures hit ==> old(faults) != {} && world.pc == Idle && world.ret == Silent
    {
      hide Run;
      hit := Hit(point);
    }

    /** A machine step that only continues the running call. */
    ghost method Continue(t: Traffic)
      requires world == Run(start, trace) && world.pc != Idle && world.db.Some?
      modifies this`world, this`trace
      ensures world == Run(start, trace) && world == Advance(old(world), old(world).db.value, t)
              && Continued(old(trace), t == Works)
    {
      hide Run, Advance;
      Take(Go(t));
    }

    /** A fault point of a call that began at `since`. */
    method PointSince(point: string, ghost since: seq<Event>, ghost calm: bool) returns (hit: bool)
      requires Synced() && world.pc != Idle && Continued(since, calm) && (calm ==> Calm())
      modifies this`faults, this`world, this`trace
      ensures Synced() && Continued(since, calm) && (calm ==> Calm() && !hit)
      ensures !hit ==> world == old(world)
      ensures hit ==> world.pc == Idle && world.ret == Silent
    {
      hide Run, Tail, Worked;
      ghost var t := trace;
      hit := Point(point);
      Chain(since, t, trace, calm);
    }

    ghost method ContinueSince(t: Traffic, since: seq<Event>, calm: bool)
      requires world == Run(start, trace) && world.pc != Idle && world.db.Some? && Continued(since, calm)
               && (calm ==> t == Works)
      modifies this`world, this`trace
      ensures world == Run(start, trace) && world == Advance(old(world), old(world).db.value, t)
              && Continued(since, calm)
    {
      hide Run, Advance, Tail, Worked;
      ghost var before := trace;
      Continue(t);
      Chain(since, before, trace, calm);
    }

    /** close_all between its fault points, then the query. */
    method FailCloseEffect(after: Then) returns (crashed: bool, seen: Option<RouteState>)
      requires Synced() && db.Some? && world.pc == FcEffect(after)
      modifies this`route, this`faults, this`answers, this`world, this`trace
      ensures Synced() && Continued(old(trace), old(Calm())) && (old(Calm()) ==> Calm())
      ensures crashed ==> !old(Calm()) && world.pc == Idle && world.ret == Silent
      ensures !crashed ==> world.pc == FcDecide(after, seen)
    {
      hide Run, Advance, FailCloseStep, Tail, Worked, CloseStep, OpenStep, DrainStep, FinishStep, OpenEffectStep;
      seen := None;
      Still(trace);
      crashed := PointSince("fail_close.before_effect", old(trace), old(Calm()));
      if crashed { return; }
      var t := Answer();
      CloseAll(t);
      StepAt(world, world.db.value, t);
      ContinueSince(t, old(trace), old(Calm()));
      crashed := PointSince("fail_close.after_effect", old(trace), old(Calm()));
      if crashed { return; }
      t := Answer();
      seen := if t == Works then Some(route) else None;
      StepAt(world, world.db.value, t);
      ContinueSince(t, old(trace), old(Calm()));
    }

    /** fail_close after its intent: close everything, look, record what was seen. */
    method FinishFailClose(after: Then) returns (r: Ret)
      requires Synced() && db.Some? && world.pc == FcEffect(after)
      modifies this`db, this`route, this`faults, this`answers, this`world, this`trace
      ensures Synced() && world.pc == Idle && r == world.ret && Continued(old(trace), old(Calm()))
      ensures old(Calm()) ==> Calm() && r != Silent
    {
      hide Run, Advance, IsClosed, Id, CanMove, Tail, Worked;
      var crashed, seen := FailCloseEffect(after);
      if crashed { return Silent; }
      var moved := Move(db.value, Receipt, FailCloseOp, ClosedTarget(seen), None,
                        EMPTY.(classification := Some(ClassOf(seen)), actual := seen));
      StepAt(world, world.db.value, Works);
      ContinueSince(Works, old(trace), old(Calm()));
      if moved == None { return Raised; }
      db := Some(Recorded(moved.value, seen));
      r := match after
           case ThenClass => Returned(VClass(ClassOf(seen)))
           case ThenRaise => Raised
           case ThenState => Returned(VState(ClosedTarget(seen)));
    }

    /** A call of fail_close from inside another call. */
    method FailCloseInside(after: Then) returns (r: Ret)
      requires Synced() && db.Some? && world.pc == FcIntent(after)
      modifies this`db, this`route, this`faults, this`answers, this`world, this`trace
      ensures Synced() && world.pc == Idle && r == world.ret && Continued(old(trace), old(Calm()))
      ensures old(Calm()) ==> Calm() && r != Silent
    {
      hide Run, Advance, Id, Tail, Worked;
      db := Some(Note(db.value, Intent, FailCloseOp, Some(ClosedFence), EMPTY));
      StepAt(world, world.db.value, Works);
      Continue(Works);
      ghost var t1 := trace;
      r := FinishFailClose(after);
      Chain(old(trace), t1, trace, old(Calm()));
    }

    method FailClose(generation: int) returns (r: Ret)
      requires Valid()
      modifies this`db, this`route, this`faults, this`answers, this`world, this`trace
      ensures Valid() && Called(old(trace), Event.FailClose(generation), r, old(Calm()))
    {
      hide Run, S.Inv, Id;
      Take(Event.FailClose(generation));
      if db.None? || db.value.candidateGeneration != generation { return Raised; }
      db := Some(Note(db.value, Intent, FailCloseOp, Some(ClosedFence), EMPTY));
      r := FinishFailClose(ThenClass);
    }

    method Close(generation: int) returns (r: Ret)
      requires Valid()
      modifies this`db, this`route, this`faults, this`answers, this`world, this`trace
      ensures Valid() && Called(old(trace), Event.Close(generation), r, old(Calm()))
    {
      hide Run, S.Inv, Id, Allowed;
      Take(Event.Close(generation));
      if db.None? || db.value.candidateGeneration != generation { return Raised; }
      if db.value.state == CandidateClosed { return Returned(VUnit); }
      if !Unanswered(db.value.rows, CloseOp) { db := Some(Note(db.value, Intent, CloseOp, None, EMPTY)); }
      r := FinishClose();
    }

    /** The effect and the query of close, each between fault points. */
    method CloseLook() returns (ended: bool, r: Ret, actual: RouteState)
      requires Synced() && db.Some? && world.pc == CloseEffect
      modifies this`faults, this`answers, this`world, this`trace
      ensures Synced() && Continued(old(trace), old(Calm())) && (old(Calm()) ==> Calm())
      ensures ended ==> world.pc == Idle && r == world.ret && (old(Calm()) ==> r != Silent)
      ensures !ended ==> world.pc == CloseDecide(actual)
    {
      hide Run, Advance, CloseStep, Tail, Worked;
      actual := route;
      Still(trace);
      ended := PointSince("close.before_effect", old(trace), old(Calm()));
      if ended { r := Silent; return; }
      var t := Answer();
      StepAt(world, world.db.value, t);
      ContinueSince(t, old(trace), old(Calm()));
      if t != Works { return true, Raised, actual; }
      ended := PointSince("close.after_effect", old(trace), old(Calm()));
      if ended { r := Silent; return; }
      t := Answer();
      StepAt(world, world.db.value, t);
      ContinueSince(t, old(trace), old(Calm()));
      if t != Works { return true, Raised, actual; }
      ended := PointSince("close.after_query", old(trace), old(Calm()));
      r := Silent;
    }

    method FinishClose() returns (r: Ret)
      requires Synced() && db.Some? && world.pc == CloseEffect
      modifies this`db, this`route, this`faults, this`answers, this`world, this`trace
      ensures Synced() && world.pc == Idle && r == world.ret && Continued(old(trace), old(Calm()))
      ensures old(Calm()) ==> Calm() && r != Silent
    {
      hide Run, Advance, Id, CanMove, Tail, Worked;
      var ended, early, actual := CloseLook();
      if ended { return early; }
      var row, observed := db.value, Digest(actual.snapshot);
      StepAt(world, world.db.value, Works);
      ContinueSince(Works, old(trace), old(Calm()));
      ghost var t2 := trace;
      if actual.generation != Some(row.predecessorGeneration) || actual.fence != row.routeFence
         || observed != row.predecessorDigest {
        db := Some(Note(row, Receipt, CloseOp, Some(actual.fence), CANCELLED.(observedPredecessor := Some(observed))));
        r := FailCloseInside(ThenRaise);
        Chain(old(trace), t2, trace, old(Calm()));
        return;
      }
      var moved := Move(row, Receipt, CloseOp, CandidateClosed, None,
                        EMPTY.(actual := Some(actual), observedPredecessor := Some(observed)));
      if moved == None { return Raised; }
      db := Some(moved.value.(observedPredecessor := Some(observed)));
      return Returned(VUnit);
    }

    method Open(generation: int, proof: OpenProof) returns (r: Ret)
      requires Valid()
      modifies this`db, this`route, this`faults, this`answers, this`world, this`trace
      ensures Valid() && Called(old(trace), Event.Open(generation, proof), r, old(Calm()))
    {
      hide Run, S.Inv, IsSha256, PlanIdOf;
      var early, fence := OpenIntent(generation, proof);
      if early.Some? { return early.value; }
      r := FinishOpen(proof, fence);
    }

    /** The checks of open and its intent; a result when the call ends there. */
    method OpenIntent(generation: int, proof: OpenProof) returns (early: Option<Ret>, fence: Fence)
      requires Valid()
      modifies this`db, this`faults, this`world, this`trace
      ensures faults <= old(faults)
      ensures Synced() && S.Inv(start)
      ensures early.Some? ==>
              world.pc == Idle && Called(old(trace), Event.Open(generation, proof), early.value, old(Calm()))
      ensures early == None ==>
              db.Some? && world.pc == OpenEffect(proof, fence) && trace == old(trace) + [Event.Open(generation, proof)]
    {
      hide Run, S.Inv, IsSha256, PlanIdOf, Id, Allowed;
      fence := ClosedFence;
      var e := Event.Open(generation, proof);
      if db.None? { Take(e); early := Some(Raised); return; }
      var row := db.value;
      if proof.generation != generation || row.candidateGeneration != generation
         || Some(proof.planId) != PlanIdOf(row.candidate)
         || proof.candidateDigest != row.candidateDigest
         || proof.evidenceCount < 1 || !IsSha256(proof.evidenceDigest) || !IsSha256(proof.coverageDigest)
         || proof.lease != row.lease || !LeaseHolds(proof.lease) || row.state == Opening
      {
        Take(e);
        early := Some(Raised);
        return;
      }
      if row.state == CandidateOpen {
        Take(e);
        early := Some(if row.proofDigest != Some(proof) then Raised else Returned(VFence(row.routeFence)));
        return;
      }
      fence := IssuedFence(generation, proof.lease.fencingToken, row.transitionSeq + 1);
      if "open.before_intent" in faults {
        faults := faults - {"open.before_intent"};
        early := Some(Silent);
        return;
      }
      var moved := Move(row, Intent, OpenOp, Opening, Some(fence),
                        EMPTY.(proof := Some(proof), proofDigest := Some(proof)));
      Take(e);
      if moved == None { early := Some(Raised); return; }
      db := Some(moved.value.(proofDigest := Some(proof)));
      early := None;
    }

    function LeaseHolds(grant: LeaseGrant): bool
      reads this
    {
      lease == grant && grant.expiresAt >= now
    }

    /** The adapter exposes the candidate; a lapsed lease makes it refuse. */
    method OpenLook(proof: OpenProof, fence: Fence) returns (ended: bool, r: Ret, actual: RouteState)
      requires Synced() && db.Some? && world.pc == OpenEffect(proof, fence)
      modifies this`route, this`faults, this`answers, this`world, this`trace
      ensures Synced() && Continued(old(trace), old(Calm())) && (old(Calm()) ==> Calm())
      ensures ended ==> world.pc == Idle && r == world.ret && (old(Calm()) ==> r != Silent)
      ensures !ended ==> world.pc == OpenDecide(proof, fence, actual)
    {
      hide Run, Advance, OpenStep, Tail, Worked;
      actual, r := route, Silent;
      Still(trace);
      ended := PointSince("open.after_intent", old(trace), old(Calm()));
      if ended { return; }
      var t := Answer();
      StepAt(world, world.db.value, t);
      ContinueSince(t, old(trace), old(Calm()));
      if t == RaisesBefore || !LeaseHolds(proof.lease) { return true, Raised, actual; }
      route := RouteState(Some(db.value.candidateGeneration), fence, Some(db.value.candidate));
      if t == RaisesAfter { return true, Raised, actual; }
      ended, r, actual := OpenSee(proof, fence, old(trace), old(Calm()));
    }

    method OpenSee(proof: OpenProof, fence: Fence, ghost since: seq<Event>, ghost calm: bool)
        returns (ended: bool, r: Ret, actual: RouteState)
      requires Synced() && db.Some? && Continued(since, calm) && (calm ==> Calm())
               && world.pc == OpenQuery(proof, fence)
      modifies this`faults, this`answers, this`world, this`trace
      ensures Synced() && Continued(since, calm) && (calm ==> Calm())
      ensures ended ==> world.pc == Idle && r == world.ret && (calm ==> r != Silent)
      ensures !ended ==> world.pc == OpenDecide(proof, fence, actual)
    {
      hide Run, Advance, OpenStep, Tail, Worked;
      actual, r := route, Silent;
      ended := PointSince("open.after_side_effect", since, calm);
      if ended { return; }
      var t := Answer();
      StepAt(world, world.db.value, t);
      ContinueSince(t, since, calm);
      if t != Works { return true, Raised, actual; }
      ended := PointSince("open.after_query", since, calm);
    }

    method FinishOpen(proof: OpenProof, fence: Fence) returns (r: Ret)
      requires Synced() && db.Some? && world.pc == OpenEffect(proof, fence)
      modifies this`db, this`route, this`faults, this`answers, this`world, this`trace
      ensures Synced() && world.pc == Idle && r == world.ret && Continued(old(trace), old(Calm()))
      ensures old(Calm()) ==> Calm() && r != Silent
    {
      hide Run, Advance, Id, CanMove, Tail, Worked;
      var ended, early, actual := OpenLook(proof, fence);
      if ended { return early; }
      var row, digest := db.value, Digest(actual.snapshot);
      StepAt(world, world.db.value, Works);
      ContinueSince(Works, old(trace), old(Calm()));
      ghost var t2 := trace;
      if actual.generation != Some(row.candidateGeneration) || actual.fence != fence
         || digest != proof.candidateDigest {
        db := Some(Note(row, Receipt, OpenOp, Some(fence), CANCELLED));
        r := FailCloseInside(ThenRaise);
        Chain(old(trace), t2, trace, old(Calm()));
        return;
      }
      var moved := Move(row, Receipt, OpenOp, CandidateOpen, Some(fence), EMPTY.(observedCandidate := Some(digest)));
      if moved == None { return Raised; }
      db := Some(moved.value.(routeGeneration := Some(row.candidateGeneration), routeFence := fence,
                              observedCandidate := Some(digest)));
      return Returned(VFence(fence));
    }

    method Observe(request: string, admittedAt: int, result: Option<AdmissionResult>) returns (r: Ret)
      requires Valid()
      modifies this`db, this`route, this`faults, this`answers, this`world, this`trace
      ensures Valid() && Called(old(trace), Event.Observe(request, admittedAt, result), r, old(Calm()))
    {
      hide Run, S.Inv, FinishStep;
      Take(Event.Observe(request, admittedAt, result));
      if db.None? { return Raised; }
      if request !in db.value.admissions {
        var row, actual := db.value, route;
        if row.state == Opening || Terminal(row.state) { return Raised; }
        if actual.generation == None || actual.fence == ClosedFence { return Raised; }
        if PreOpen(row.state) && !PredecessorMatches(row, actual) {
          r := FailCloseInside(ThenRaise);
          return;
        }
        if actual.generation != row.routeGeneration || actual.fence != row.routeFence
           || (actual.generation == Some(row.candidateGeneration)
               && Some(Digest(actual.snapshot)) != row.observedCandidate)
        {
          return Raised;
        }
        db := Some(row.(admissions := row.admissions[request := Admission(actual.fence, actual.generation.value,
                admittedAt, None, row.transitionSeq)],
                        events := row.events
                            + [AdmissionEvent(request, Admit, actual.generation.value, actual.fence,
                                              row.transitionSeq)]));
      }
      if result == None { return Returned(VGeneration(db.value.admissions[request].generation)); }
      r := Finish(request, result.value);
    }

    /** The finishing part of observe. */
    method Finish(request: string, result: AdmissionResult) returns (r: Ret)
      requires Synced() && db.Some? && request in db.value.admissions && world.pc == FinishRequest(request, result)
      modifies this`db, this`world, this`trace
      ensures Synced() && world.pc == Idle && r == world.ret && Continued(old(trace), old(Calm()))
      ensures old(Calm()) ==> Calm() && r != Silent
    {
      hide Run, Advance;
      var row := db.value;
      var existing := row.admissions[request];
      StepAt(world, world.db.value, Works);
      Continue(Works);
      if (result.result == None) == (result.abort == None) { return Raised; }
      if result.finishedAt < existing.admittedAt { return Raised; }
      if existing.finish.Some? { return Raised; }
      db := Some(row.(admissions := row.admissions[request := existing.(finish := Some(result))],
                      events := row.events
                          + [AdmissionEvent(request, AdmissionKind.Finish, existing.generation, existing.epoch,
                                            existing.transitionSeq)]));
      return Returned(VGeneration(existing.generation));
    }

    /** The adapter restores the predecessor, or everything is closed. */
    method Restore(oracle: Option<BehavioralOracle>) returns (crashed: bool, outcome: RollbackClass)
      requires Synced() && db.Some? && world.pc == RbEffect(oracle)
      modifies this`route, this`faults, this`answers, this`world, this`trace
      ensures Synced() && Continued(old(trace), old(Calm())) && (old(Calm()) ==> Calm())
      ensures crashed ==> !old(Calm()) && world.pc == Idle && world.ret == Silent
      ensures !crashed ==> world.pc == RbDecide(outcome)
    {
      hide Run, Advance, RollbackStep, Tail, Worked;
      outcome := ClassSafetyUnknown;
      Still(trace);
      crashed := PointSince("rollback.after_intent", old(trace), old(Calm()));
      if crashed { return; }
      outcome := RestoreOrClose(oracle, old(trace), old(Calm()));
      crashed := PointSince("rollback.after_effect", old(trace), old(Calm()));
    }

    method RestoreOrClose(oracle: Option<BehavioralOracle>, ghost since: seq<Event>, ghost calm: bool)
        returns (outcome: RollbackClass)
      requires Synced() && db.Some? && Continued(since, calm) && (calm ==> Calm()) && world.pc == RbEffect(oracle)
      modifies this`route, this`answers, this`world, this`trace
      ensures Synced() && Continued(since, calm) && (calm ==> Calm()) && world.pc == RbDecide(outcome)
    {
      hide Run, Advance, RollbackStep, Tail, Worked, RecoveredClose, RecoveredRollback, RecoveredFailClose;
      var row := db.value;
      var t := Answer();
      StepAt(world, world.db.value, t);
      ContinueSince(t, since, calm);
      if t != RaisesBefore {
        route := RouteState(Some(row.predecessorGeneration), PredecessorFence(row.predecessorGeneration),
                            Some(if behavioral then Equivalent else row.predecessor));
      }
      if t == Works && route.snapshot == Some(row.predecessor) { return RestoredStrong; }
      if t == Works && Persuasive(oracle) && behavioral { return Behavioral; }
      t := Answer();
      CloseAll(t);
      ExamineAt(world, world.db.value, t);
      ContinueSince(t, since, calm);
      outcome := ClassOf(Some(route));
    }

    method Rollback(generation: int, oracle: Option<BehavioralOracle>) returns (r: Ret)
      requires Valid()
      modifies this`db, this`route, this`faults, this`answers, this`world, this`trace
      ensures Valid() && Called(old(trace), Event.Rollback(generation, oracle), r, old(Calm()))
    {
      hide Run, S.Inv, Id;
      Take(Event.Rollback(generation, oracle));
      if db.None? || db.value.candidateGeneration != generation { return Raised; }
      db := Some(Note(db.value, Intent, RollbackOp, Some(PredecessorFence(db.value.predecessorGeneration)), EMPTY));
      r := FinishRollback(oracle);
    }

    method FinishRollback(oracle: Option<BehavioralOracle>) returns (r: Ret)
      requires Synced() && db.Some? && world.pc == RbEffect(oracle)
      modifies this`db, this`route, this`faults, this`answers, this`world, this`trace
      ensures Synced() && world.pc == Idle && r == world.ret && Continued(old(trace), old(Calm()))
      ensures old(Calm()) ==> Calm() && r != Silent
    {
      hide Run, Advance, Id, CanMove, Tail, Worked;
      var crashed, outcome := Restore(oracle);
      if crashed { return Silent; }
      var moved := Move(db.value, Receipt, RollbackOp, TargetOf(outcome), None,
                        EMPTY.(classification := Some(outcome), actual := Some(route)));
      StepAt(world, world.db.value, Works);
      ContinueSince(Works, old(trace), old(Calm()));
      if moved == None { return Raised; }
      db := Some(moved.value.(routeGeneration := route.generation, routeFence := route.fence));
      return Returned(VClass(outcome));
    }

    // -------------------------------------------------------------- reconcile

    method Reconcile() returns (r: Ret)
      requires Valid()
      modifies this`db, this`route, this`faults, this`answers, this`world, this`trace
      ensures Valid() && Called(old(trace), Event.Reconcile, r, old(Calm()))
    {
      hide Run, S.Inv, Outstanding, Unanswered, LastRow, Id;
      Take(Event.Reconcile);
      if db.None? { return Raised; }
      var row := db.value;
      if Outstanding(row.rows, FailCloseOp) { r := ReconcileFailClose(); return; }
      if Unanswered(row.rows, RecoveryCloseOp) { r := ReconcileRecoveryClose(); return; }
      if Outstanding(row.rows, RollbackOp) { r := ReconcileRollback(); return; }
      if row.state != Opening { return Returned(VState(row.state)); }
      var last := LastRow(row.rows, OpenOp, Intent);
      if last == None { return Raised; }
      var intent := row.rows[last.value];
      if intent.detail.proof == None { return Raised; }
      var proof := intent.detail.proof.value;
      if intent.detail.proofDigest != Some(proof) || proof.lease != row.lease || !LeaseHolds(proof.lease) {
        db := Some(Note(row, Receipt, OpenOp, intent.fence, CANCELLED));
        r := FailCloseInside(ThenState);
        return;
      }
      r := ReconcileOpen(intent);
    }

    /** Settles an interrupted fail_close by what the route shows. */
    method ReconcileFailClose() returns (r: Ret)
      requires Synced() && db.Some? && world.pc == RecFcQuery
      modifies this`db, this`answers, this`world, this`trace
      ensures Synced() && world.pc == Idle && r == world.ret && Continued(old(trace), old(Calm()))
      ensures old(Calm()) ==> Calm() && r != Silent
    {
      hide Run, Advance, Id, CanMove, IsClosed, Tail, Worked;
      var t := Answer();
      var seen := if t == Works then Some(route) else None;
      StepAt(world, world.db.value, t);
      Continue(t);
      var moved := Move(db.value, Receipt, FailCloseOp, ClosedTarget(seen), None,
                        EMPTY.(classification := Some(ClassOf(seen)), actual := seen));
      StepAt(world, world.db.value, Works);
      ContinueSince(Works, old(trace), old(Calm()));
      if moved == None { return Raised; }
      db := Some(Recorded(moved.value, seen));
      return Returned(VState(ClosedTarget(seen)));
    }

    /** Closes again after a recovery close that left no receipt. */
    method ReconcileRecoveryClose() returns (r: Ret)
      requires Synced() && db.Some? && world.pc == RecCloseEffect
      modifies this`db, this`route, this`faults, this`answers, this`world, this`trace
      ensures Synced() && world.pc == Idle && r == world.ret && Continued(old(trace), old(Calm()))
      ensures old(Calm()) ==> Calm() && r != Silent
    {
      hide Run, Advance, Id, CanMove, IsClosed, Tail, Worked;
      var crashed, seen := RecoveryCloseLook();
      if crashed { return Silent; }
      var row := db.value;
      var noted := Append(row,
                          RowOf(row, Receipt, RecoveryCloseOp, None, Some(ClosedFence),
                                EMPTY.(actual := seen)).(from := Opening));
      var moved := Move(noted, Receipt, OpenOp, ClosedTarget(seen), None, CANCELLED);
      StepAt(world, world.db.value, Works);
      ContinueSince(Works, old(trace), old(Calm()));
      if moved == None { return Raised; }
      db := moved;
      return Returned(VState(ClosedTarget(seen)));
    }

    method RecoveryCloseLook() returns (crashed: bool, seen: Option<RouteState>)
      requires Synced() && db.Some? && world.pc == RecCloseEffect
      modifies this`route, this`faults, this`answers, this`world, this`trace
      ensures Synced() && Continued(old(trace), old(Calm())) && (old(Calm()) ==> Calm())
      ensures crashed ==> !old(Calm()) && world.pc == Idle && world.ret == Silent
      ensures !crashed ==> world.pc == RecCloseDecide(seen)
    {
      hide Run, Advance, Tail, Worked;
      seen := None;
      Still(trace);
      crashed := PointSince("open_recovery_close.before_effect", old(trace), old(Calm()));
      if crashed { return; }
      var t := Answer();
      CloseAll(t);
      StepAt(world, world.db.value, t);
      ContinueSince(t, old(trace), old(Calm()));
      crashed, seen := RecoverySee(old(trace), old(Calm()));
    }

    method RecoverySee(ghost since: seq<Event>, ghost calm: bool) returns (crashed: bool, seen: Option<RouteState>)
      requires Synced() && db.Some? && Continued(since, calm) && (calm ==> Calm()) && world.pc == RecCloseQuery
      modifies this`faults, this`answers, this`world, this`trace
      ensures Synced() && Continued(since, calm) && (calm ==> Calm())
      ensures crashed ==> !calm && world.pc == Idle && world.ret == Silent
      ensures !crashed ==> world.pc == RecCloseDecide(seen)
    {
      hide Run, Advance, Tail, Worked;
      seen := None;
      crashed := PointSince("open_recovery_close.after_effect", since, calm);
      if crashed { return; }
      var t := Answer();
      seen := if t == Works then Some(route) else None;
      StepAt(world, world.db.value, t);
      ContinueSince(t, since, calm);
      crashed := PointSince("open_recovery_close.after_query", since, calm);
    }

    /** Settles an interrupted rollback by what the route shows. */
    method ReconcileRollback() returns (r: Ret)
      requires Synced() && db.Some? && world.pc == RecRbQuery
      modifies this`db, this`answers, this`world, this`trace
      ensures Synced() && world.pc == Idle && r == world.ret && Continued(old(trace), old(Calm()))
      ensures old(Calm()) ==> Calm() && r != Silent
    {
      hide Run, Advance, Id, CanMove, Tail, Worked;
      var t := Answer();
      var row, seen := db.value, if t == Works then Some(route) else None;
      StepAt(world, world.db.value, t);
      Continue(t);
      var outcome := if seen ==
          Some(RouteState(Some(row.predecessorGeneration), PredecessorFence(row.predecessorGeneration),
                          Some(row.predecessor)))
                     then RestoredStrong
                     else if seen.Some? && IsClosed(seen.value) then ClassFailedSafe else ClassSafetyUnknown;
      var moved := Move(row, Receipt, RollbackOp, TargetOf(outcome), None,
                        EMPTY.(classification := Some(outcome), actual := seen));
      StepAt(world, world.db.value, Works);
      ContinueSince(Works, old(trace), old(Calm()));
      if moved == None { return Raised; }
      db := moved;
      return Returned(VState(TargetOf(outcome)));
    }

    /** Examines the route an interrupted open may have exposed. */
    method ReconcileOpen(intent: Row) returns (r: Ret)
      requires Synced() && db.Some? && world.pc == RecQuery(intent)
      modifies this`db, this`route, this`faults, this`answers, this`world, this`trace
      ensures Synced() && world.pc == Idle && r == world.ret && Continued(old(trace), old(Calm()))
      ensures old(Calm()) ==> Calm() && r != Silent
    {
      hide Run, Advance, Id, CanMove, Tail, Worked;
      var t := Answer();
      ExamineAt(world, world.db.value, t);
      Continue(t);
      ghost var t1 := trace;
      if t != Works {
        db := Some(Note(db.value, Receipt, OpenOp, intent.fence, CANCELLED));
        r := FailCloseInside(ThenState);
        Chain(old(trace), t1, trace, old(Calm()));
        return;
      }
      r := ReconcileDecide(intent, route);
      Chain(old(trace), t1, trace, old(Calm()));
    }

    method ReconcileDecide(intent: Row, actual: RouteState) returns (r: Ret)
      requires Synced() && db.Some? && world.pc == RecDecide(intent, actual)
      modifies this`db, this`route, this`faults, this`answers, this`world, this`trace
      ensures Synced() && world.pc == Idle && r == world.ret && Continued(old(trace), old(Calm()))
      ensures old(Calm()) ==> Calm() && r != Silent
    {
      hide Run, Advance, Id, CanMove, Tail, Worked, RecoveryFinish;
      var row := db.value;
      ExamineAt(world, world.db.value, Works);
      Continue(Works);
      ghost var t1 := trace;
      if intent.fence == None || intent.detail.proof == None { return Raised; }
      if CandidateMatches(row, actual, intent.fence.value, intent.detail.proof.value.candidateDigest) {
        var digest := Digest(actual.snapshot);
        var moved := Move(row, Receipt, OpenReconcileOp, CandidateOpen, Some(actual.fence),
                          EMPTY.(observedCandidate := Some(digest)));
        if moved == None { return Raised; }
        db := Some(moved.value.(routeGeneration := Some(row.candidateGeneration), routeFence := actual.fence,
                                observedCandidate := Some(digest)));
        return Returned(VState(CandidateOpen));
      }
      db := Some(Note(row, Intent, RecoveryCloseOp, Some(ClosedFence), EMPTY));
      r := CloseUnknownRoute(intent);
      Chain(old(trace), t1, trace, old(Calm()));
    }

    /** The effect and query of the recovery close. */
    method UnknownRouteLook(intent: Row) returns (crashed: bool, error: bool, seen: Option<RouteState>)
      requires Synced() && db.Some? && world.pc == RecCloseAllEffect(intent)
      modifies this`route, this`faults, this`answers, this`world, this`trace
      ensures Synced() && Continued(old(trace), old(Calm())) && (old(Calm()) ==> Calm())
      ensures crashed ==> !old(Calm()) && world.pc == Idle && world.ret == Silent
      ensures !crashed ==> world.pc == RecCloseAllReceipt(intent, error, seen)
    {
      hide Run, Advance, Tail, Worked;
      seen, error := None, false;
      Still(trace);
      crashed := PointSince("open_recovery_close.before_effect", old(trace), old(Calm()));
      if crashed { return; }
      var t := Answer();
      CloseAll(t);
      ExamineAt(world, world.db.value, t);
      ContinueSince(t, old(trace), old(Calm()));
      crashed, error, seen := UnknownSee(intent, t != Works, old(trace), old(Calm()));
    }

    method UnknownSee(intent: Row, failed: bool, ghost since: seq<Event>, ghost calm: bool)
        returns (crashed: bool, error: bool, seen: Option<RouteState>)
      requires Synced() && db.Some? && Continued(since, calm) && (calm ==> Calm())
               && world.pc == RecCloseAllQuery(intent, failed)
      modifies this`faults, this`answers, this`world, this`trace
      ensures Synced() && Continued(since, calm) && (calm ==> Calm())
      ensures crashed ==> !calm && world.pc == Idle && world.ret == Silent
      ensures !crashed ==> world.pc == RecCloseAllReceipt(intent, error, seen)
    {
      hide Run, Advance, Tail, Worked;
      seen, error := None, failed;
      crashed := PointSince("open_recovery_close.after_effect", since, calm);
      if crashed { return; }
      var t := Answer();
      seen := if t == Works then Some(route) else None;
      error := failed || t != Works;
      ExamineAt(world, world.db.value, t);
      ContinueSince(t, since, calm);
      crashed := PointSince("open_recovery_close.after_query", since, calm);
    }

    /** Closes a route that is not the candidate's, and records it. */
    method CloseUnknownRoute(intent: Row) returns (r: Ret)
      requires Synced() && db.Some? && world.pc == RecCloseAllEffect(intent)
      modifies this`db, this`route, this`faults, this`answers, this`world, this`trace
      ensures Synced() && world.pc == Idle && r == world.ret && Continued(old(trace), old(Calm()))
      ensures old(Calm()) ==> Calm() && r != Silent
    {
      hide Run, Advance, Id, CanMove, Tail, Worked, RecoveryDecide, RecoveryFinish;
      var crashed, error, seen := UnknownRouteLook(intent);
      if crashed { return Silent; }
      db := Some(Note(db.value, Receipt, RecoveryCloseOp, Some(ClosedFence), EMPTY.(actual := seen)));
      ExamineAt(world, world.db.value, Works);
      ContinueSince(Works, old(trace), old(Calm()));
      ghost var t1 := trace;
      r := FinishRecovery(intent, error);
      Chain(old(trace), t1, trace, old(Calm()));
    }

    method FinishRecovery(intent: Row, error: bool) returns (r: Ret)
      requires Synced() && db.Some? && world.pc == RecFinish(intent, error)
      modifies this`db, this`route, this`faults, this`answers, this`world, this`trace
      ensures Synced() && world.pc == Idle && r == world.ret && Continued(old(trace), old(Calm()))
      ensures old(Calm()) ==> Calm() && r != Silent
    {
      hide Run, Advance, Id, CanMove, Tail, Worked, RecoveryDecide;
      var row := db.value;
      ExamineAt(world, world.db.value, Works);
      Continue(Works);
      ghost var t1 := trace;
      if error {
        db := Some(Note(row, Receipt, OpenOp, intent.fence, CANCELLED));
        r := FailCloseInside(ThenState);
        Chain(old(trace), t1, trace, old(Calm()));
        return;
      }
      var moved := Move(row, Receipt, OpenOp, FailedSafe, None, EMPTY);
      if moved == None { return Raised; }
      db := Some(moved.value.(routeGeneration := None, routeFence := ClosedFence));
      return Returned(VState(FailedSafe));
    }

    /** Moves of the environment between calls. */
    method Environment(newRoute: RouteState, newLease: LeaseGrant, newNow: int)
      requires Valid()
      modifies this`route, this`lease, this`now, this`world, this`trace
      ensures Valid() && route == newRoute && lease == newLease && now == newNow
      ensures trace == old(trace) + [Drift(newRoute), SetLease(newLease), Tick(newNow)]
    {
      hide Run, S.Inv, Begin, Advance;
      Take(Drift(newRoute));
      Take(SetLease(newLease));
      Take(Tick(newNow));
      route, lease, now := newRoute, newLease, newNow;
    }
  }

  /** Whatever calls were made and wherever they crashed, the tables of the gate satisfy the machine's invariant. */
  lemma ProgramIsSafe(gate: ReferenceExposureGate)
    requires gate.Valid()
    ensures S.Inv(gate.world) && (gate.db.Some? ==> S.DbOk(gate.db.value))
  {
    hide Run;
    S.RunKeeps(gate.start, gate.trace);
  }
}
