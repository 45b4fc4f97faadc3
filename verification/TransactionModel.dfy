/** The finite exposure-transaction abstraction and its breadth-first explorer
    (experiments/transaction_model/explore.py). */
module TransactionModel {
  import opened Basics

  datatype Phase =
    | PredecessorOpen | CandidateStaged | CandidateClosed | Opening | CandidateOpen
    | Draining | Recovering | RolledBack | FailedSafe | SafetyUnknown

  datatype Route = Predecessor | Candidate | Closed | Unknown

  datatype State = State(phase: Phase, route: Route, proofComplete: bool, leaseValid: bool,
                         generation: int, openIntent: bool, openReceipt: bool)

  datatype Action =
    | Stage | ObserveComplete | CloseCandidate | OpenIntent | OpenEffect | OpenReceipt
    | AdmitRequest | StartDrain | FinishDrain | LoseLease | RenewLease | Crash | Reconcile
    | RollbackStrong | RollbackFailedClosed | RollbackFailedUnknown

  const ACTIONS: seq<Action> :=
    [Stage, ObserveComplete, CloseCandidate, OpenIntent, OpenEffect, OpenReceipt,
     AdmitRequest, StartDrain, FinishDrain, LoseLease, RenewLease, Crash, Reconcile,
     RollbackStrong, RollbackFailedClosed, RollbackFailedUnknown]

  const INITIAL := State(PredecessorOpen, Predecessor, false, true, 0, false, false)

  predicate PreExposure(p: Phase) { p in {PredecessorOpen, CandidateStaged, CandidateClosed} }

  predicate RollbackPhase(p: Phase) {
    p in {CandidateStaged, CandidateClosed, Opening, CandidateOpen, Draining}
  }

  predicate CanAdmit(s: State) {
    if s.route == Predecessor then PreExposure(s.phase)
    else
      && s.route == Candidate && s.phase in {CandidateOpen, Draining}
      && s.proofComplete && s.leaseValid && s.generation == 1 && s.openReceipt
  }

  /** One action of the model; None is the source's RejectedTransition. */
  function Transition(s: State, a: Action): Option<State> {
    match a
    case Stage =>
      if s.phase == PredecessorOpen then Some(s.(phase := CandidateStaged)) else None
    case ObserveComplete =>
      if s.phase in {CandidateStaged, CandidateClosed} && s.leaseValid
      then Some(s.(proofComplete := true)) else None
    case CloseCandidate =>
      if s.phase == CandidateStaged then Some(s.(phase := CandidateClosed)) else None
    case OpenIntent =>
      if s.phase == CandidateClosed && s.proofComplete && s.leaseValid
      then Some(s.(phase := Opening, openIntent := true)) else None
    case OpenEffect =>
      if s.phase == Opening && s.route == Predecessor && s.openIntent && s.proofComplete && s.leaseValid
      then Some(s.(route := Candidate)) else None
    case OpenReceipt =>
      if s.phase == Opening && s.route == Candidate && s.proofComplete && s.leaseValid && s.openIntent
      then Some(s.(phase := CandidateOpen, generation := 1, openReceipt := true)) else None
    case AdmitRequest => if CanAdmit(s) then Some(s) else None
    case StartDrain =>
      if s.phase == CandidateOpen then Some(s.(phase := Draining)) else None
    case FinishDrain =>
      if s.phase == Draining then Some(s.(phase := CandidateOpen)) else None
    case LoseLease =>
      if !s.leaseValid then None
      else if s.route == Candidate
      then Some(s.(phase := SafetyUnknown, route := Unknown, leaseValid := false))
      else Some(s.(leaseValid := false))
    case RenewLease =>
      if !s.leaseValid && PreExposure(s.phase)
      then Some(s.(leaseValid := true, proofComplete := false)) else None
    case Crash =>
      if s.phase in {Opening, CandidateOpen, Draining} then Some(s.(phase := Recovering)) else None
    case Reconcile =>
      if s.phase != Recovering then None
      else if s.route == Unknown then Some(s.(phase := SafetyUnknown))
      else if s.route == Candidate && s.proofComplete && s.leaseValid
      then Some(s.(phase := CandidateOpen, generation := 1, openReceipt := true))
      else Some(s.(phase := FailedSafe, route := Closed))
    case RollbackStrong =>
      if RollbackPhase(s.phase)
      then Some(State(RolledBack, Predecessor, s.proofComplete, s.leaseValid, 0, false, false)) else None
    case RollbackFailedClosed =>
      if RollbackPhase(s.phase) then Some(s.(phase := FailedSafe, route := Closed)) else None
    case RollbackFailedUnknown =>
      if RollbackPhase(s.phase) then Some(s.(phase := SafetyUnknown, route := Unknown)) else None
  }

  datatype InvariantError =
    | ReceiptLacksProof | EffectBeforeReceipt | LostPredecessor | FailedSafeNotClosed
    | UnknownAdmitted | RollbackNotStrong | AdmissionLacksAuthority

  function When(c: bool, e: InvariantError): seq<InvariantError> { if c then [e] else [] }

  function InvariantErrors(s: State): seq<InvariantError> {
    When(s.route == Candidate && s.openReceipt
         && !(s.proofComplete && s.generation == 1 && s.openIntent), ReceiptLacksProof)
    + When(s.route == Candidate && !s.openReceipt
           && (!s.proofComplete || !s.leaseValid || s.phase !in {Opening, Recovering} || CanAdmit(s)),
           EffectBeforeReceipt)
    + When(PreExposure(s.phase) && (s.route != Predecessor || s.generation != 0), LostPredecessor)
    + When(s.phase == FailedSafe && (s.route != Closed || CanAdmit(s)), FailedSafeNotClosed)
    + When(s.phase == SafetyUnknown && CanAdmit(s), UnknownAdmitted)
    + When(s.phase == RolledBack
           && (s.route != Predecessor || s.generation != 0 || s.openIntent || s.openReceipt),
           RollbackNotStrong)
    + When(CanAdmit(s) && s.route == Candidate && !(s.proofComplete && s.leaseValid && s.openReceipt),
           AdmissionLacksAuthority)
  }

  /** Executes a list of actions; None as soon as one is rejected. */
  function Execute(s: State, trace: seq<Action>): Option<State> {
    if trace == [] then Some(s)
    else match Execute(s, trace[..|trace| - 1])
      case None => None
      case Some(m) => Transition(m, trace[|trace| - 1])
  }

  ghost predicate ReachableBy(s: State, trace: seq<Action>) { Execute(INITIAL, trace) == Some(s) }

  ghost predicate Reachable(s: State) { exists trace :: ReachableBy(s, trace) }

  /** An inductive strengthening of the model's invariants. */
  predicate Strong(s: State) {
    match s.phase
    case PredecessorOpen | CandidateStaged | CandidateClosed =>
      s.route == Predecessor && s.generation == 0 && !s.openIntent && !s.openReceipt
    case Opening =>
      && s.route in {Predecessor, Candidate} && (s.route == Candidate ==> s.leaseValid)
      && s.proofComplete && s.generation == 0 && s.openIntent && !s.openReceipt
    case CandidateOpen | Draining =>
      && s.route == Candidate && s.proofComplete && s.leaseValid
      && s.generation == 1 && s.openIntent && s.openReceipt
    case Recovering =>
      && s.route in {Predecessor, Candidate} && (s.route == Candidate ==> s.leaseValid)
      && s.proofComplete && s.openIntent
      && s.generation == (if s.openReceipt then 1 else 0) && (s.openReceipt ==> s.route == Candidate)
    case RolledBack => s.route == Predecessor && s.generation == 0 && !s.openIntent && !s.openReceipt
    case FailedSafe => s.route == Closed && s.generation in {0, 1}
    case SafetyUnknown => s.route == Unknown && s.generation in {0, 1}
  }

  lemma StrongImpliesInvariants(s: State)
    requires Strong(s)
    ensures InvariantErrors(s) == []
  {}

  lemma StrongIsInductive(s: State, a: Action)
    requires Strong(s) && Transition(s, a).Some?
    ensures Strong(Transition(s, a).value)
  {}

  lemma {:induction false} RunsAreStrong(s: State, trace: seq<Action>)
    requires ReachableBy(s, trace)
    ensures Strong(s)
    decreases |trace|
  {
    if trace != [] {
      var m := Execute(INITIAL, trace[..|trace| - 1]).value;
      RunsAreStrong(m, trace[..|trace| - 1]);
      StrongIsInductive(m, trace[|trace| - 1]);
    }
  }

  /** Every run of the model satisfies every invariant. */
  lemma EveryRunSatisfiesInvariants(s: State)
    requires Reachable(s)
    ensures InvariantErrors(s) == []
  {
    var trace :| ReachableBy(s, trace);
    RunsAreStrong(s, trace);
    StrongImpliesInvariants(s);
  }

  function Encoded(p: Phase, r: Route, proof: bool, lease: bool, raised: bool, intent: bool, receipt: bool): State {
    State(p, r, proof, lease, if raised then 1 else 0, intent, receipt)
  }

  /** The finite carrier that bounds the search. */
  ghost function Universe(): set<State> {
    set p: Phase, r: Route, a: bool, b: bool, c: bool, d: bool, e: bool :: Encoded(p, r, a, b, c, d, e)
  }

  lemma StrongIsFinite(s: State)
    requires Strong(s)
    ensures s in Universe()
  {
    assert s == Encoded(s.phase, s.route, s.proofComplete, s.leaseValid, s.generation ==
                        1, s.openIntent, s.openReceipt);
  }

  lemma ExtendTrace(trace: seq<Action>, a: Action)
    requires Execute(INITIAL, trace).Some?
    ensures Execute(INITIAL, trace + [a]) == Transition(Execute(INITIAL, trace).value, a)
  {
    assert (trace + [a])[..|trace|] == trace;
  }

  /** Distances closed under one step bound every trace from below. */
  lemma {:induction false} TracesAreNoShorter(distances: map<State, nat>, s: State, trace: seq<Action>)
    requires INITIAL in distances && distances[INITIAL] == 0
    requires forall x, a :: x in distances ==> Expanded(distances, x, a)
    requires ReachableBy(s, trace)
    ensures s in distances && distances[s] <= |trace|
    decreases |trace|
  {
    if trace != [] {
      var m := Execute(INITIAL, trace[..|trace| - 1]).value;
      TracesAreNoShorter(distances, m, trace[..|trace| - 1]);
      assert Expanded(distances, m, trace[|trace| - 1]);
    }
  }

  ghost predicate Sorted(queue: seq<(State, nat)>) {
    forall i, j :: 0 <= i <= j < |queue| ==> queue[i].1 <= queue[j].1
  }

  ghost predicate Queued(queue: seq<(State, nat)>, s: State) {
    exists i :: 0 <= i < |queue| && queue[i].0 == s
  }

  /** The action has been accounted for at a processed state. */
  ghost predicate Expanded(distances: map<State, nat>, s: State, a: Action)
    requires s in distances
  {
    Transition(s, a).Some? ==>
      Transition(s, a).value in distances && distances[Transition(s, a).value] <= distances[s] + 1
  }

  /** Each recorded state has a trace of its recorded length, and the queue holds recorded depths. */
  ghost predicate Recorded(distances: map<State, nat>, queue: seq<(State, nat)>) {
    && INITIAL in distances && distances[INITIAL] == 0
    && (forall s :: s in distances ==> exists trace :: ReachableBy(s, trace) && |trace| == distances[s])
    && (forall i :: 0 <= i < |queue| ==> queue[i].0 in distances && distances[queue[i].0] == queue[i].1)
    && Sorted(queue)
  }

  /** The edges and rejections recorded once `acts` actions of `s` are done. */
  ghost predicate Logged(edges: set<(State, Action, State)>, rejected: set<(State, Action)>, s: State, a: Action) {
    match Transition(s, a)
    case None => (s, a) in rejected
    case Some(t) => (s, a, t) in edges
  }

  ghost predicate Sound(distances: map<State, nat>, edges: set<(State, Action, State)>,
                        rejected: set<(State, Action)>) {
    && (forall e :: e in edges ==> e.0 in distances && Transition(e.0, e.1) == Some(e.2))
    && (forall r :: r in rejected ==> r.0 in distances && Transition(r.0, r.1) == None)
  }

  lemma RecordedStatesAreStrong(distances: map<State, nat>, queue: seq<(State, nat)>)
    requires Recorded(distances, queue)
    ensures forall s :: s in distances ==> Strong(s)
    ensures distances.Keys <= Universe()
  {
    forall s | s in distances ensures Strong(s) && s in Universe() {
      var trace :| ReachableBy(s, trace) && |trace| == distances[s];
      RunsAreStrong(s, trace);
      StrongIsFinite(s);
    }
  }

  lemma RecordSuccessor(distances: map<State, nat>, queue: seq<(State, nat)>, s: State, a: Action)
    requires Recorded(distances, queue) && s in distances
    requires Transition(s, a).Some? && Transition(s, a).value !in distances
    requires forall i :: 0 <= i < |queue| ==> queue[i].1 <= distances[s] + 1
    ensures var t := Transition(s, a).value; var k := distances[s] + 1;
            Recorded(distances[t := k], queue + [(t, k)])
  {
    var t := Transition(s, a).value;
    var trace :| ReachableBy(s, trace) && |trace| == distances[s];
    ExtendTrace(trace, a);
    assert ReachableBy(t, trace + [a]) && |trace + [a]| == distances[s] + 1;
    var grown := distances[t := distances[s] + 1];
    forall x | x in grown ensures exists tr :: ReachableBy(x, tr) && |tr| == grown[x] {
      if x != t { assert x in distances; }
    }
  }

  lemma InitiallyRecorded()
    ensures Recorded(map[INITIAL := 0], [(INITIAL, 0)])
    ensures Done(map[INITIAL := 0], {}, {}, [(INITIAL, 0)], INITIAL, [])
    ensures Sound(map[INITIAL := 0], {}, {})
  {
    assert [(INITIAL, 0)][0].0 == INITIAL;
    var none: seq<Action> := [];
    assert ReachableBy(INITIAL, none) && |none| == 0;
  }

  /** Every action of every state off the queue is accounted for, except those pending at `busy`. */
  ghost predicate Done(distances: map<State, nat>, edges: set<(State, Action, State)>, rejected: set<(State, Action)>,
                       queue: seq<(State, nat)>, busy: State, pending: seq<Action>)
  {
    forall s, a :: s in distances && !Queued(queue, s) && (s != busy || a !in pending) ==>
      Expanded(distances, s, a) && Logged(edges, rejected, s, a)
  }

  lemma QueuedAppend(queue: seq<(State, nat)>, item: (State, nat))
    ensures forall s :: Queued(queue + [item], s) <==> Queued(queue, s) || s == item.0
  {
    forall s ensures Queued(queue + [item], s) <==> Queued(queue, s) || s == item.0 {
      if Queued(queue, s) {
        var i :| 0 <= i < |queue| && queue[i].0 == s;
        assert (queue + [item])[i].0 == s;
      }
      assert (queue + [item])[|queue|].0 == item.0;
    }
  }

  lemma DoneGrows(distances: map<State, nat>, edges: set<(State, Action, State)>, rejected: set<(State, Action)>,
                  queue: seq<(State, nat)>, busy: State, pending: seq<Action>, target: State, k: nat)
    requires Done(distances, edges, rejected, queue, busy, pending) && target !in distances
    ensures Done(distances[target := k], edges, rejected, queue + [(target, k)], busy, pending)
  {
    hide Transition;
    QueuedAppend(queue, (target, k));
    var grown, longer := distances[target := k], queue + [(target, k)];
    forall s, a | s in grown && !Queued(longer, s) && (s != busy || a !in pending)
      ensures Expanded(grown, s, a) && Logged(edges, rejected, s, a)
    {
      assert s in distances && !Queued(queue, s);
      assert Expanded(distances, s, a);
    }
  }

  /** Recording the outcome of the first pending action. */
  lemma DoneLogged(distances: map<State, nat>, edges: set<(State, Action, State)>, rejected: set<(State, Action)>,
                   queue: seq<(State, nat)>, busy: State, pending: seq<Action>,
                   edges': set<(State, Action, State)>, rejected': set<(State, Action)>)
    requires pending != [] && busy in distances
    requires Done(distances, edges, rejected, queue, busy, pending) && edges <= edges' && rejected <= rejected'
    requires Expanded(distances, busy, pending[0]) && Logged(edges', rejected', busy, pending[0])
    ensures Done(distances, edges', rejected', queue, busy, pending[1..])
  {
    hide Transition;
    assert pending == [pending[0]] + pending[1..];
    forall s, a | s in distances && !Queued(queue, s) && (s != busy || a !in pending[1..])
      ensures Expanded(distances, s, a) && Logged(edges', rejected', s, a)
    {
      if s != busy || a !in pending { assert Logged(edges, rejected, s, a); }
    }
  }

  lemma DoneForAll(distances: map<State, nat>, edges: set<(State, Action, State)>, rejected: set<(State, Action)>,
                   queue: seq<(State, nat)>, busy: State)
    requires Done(distances, edges, rejected, queue, busy, [])
    ensures Done(distances, edges, rejected, queue, INITIAL, [])
  {}

  lemma ActionsAreComplete(a: Action)
    ensures a in ACTIONS
  {
    assert ACTIONS[0] == Stage && ACTIONS[1] == ObserveComplete && ACTIONS[2] == CloseCandidate
           && ACTIONS[3] == OpenIntent;
    assert ACTIONS[4] == OpenEffect && ACTIONS[5] == OpenReceipt && ACTIONS[6] == AdmitRequest
           && ACTIONS[7] == StartDrain;
    assert ACTIONS[8] == FinishDrain && ACTIONS[9] == LoseLease && ACTIONS[10] == RenewLease && ACTIONS[11] == Crash;
    assert ACTIONS[12] == Reconcile && ACTIONS[13] == RollbackStrong && ACTIONS[14] == RollbackFailedClosed;
    assert ACTIONS[15] == RollbackFailedUnknown;
  }

  /** The search invariant while the actions `pending` remain at the dequeued state. */
  ghost predicate Searching(distances: map<State, nat>, edges: set<(State, Action, State)>,
                            rejected: set<(State, Action)>,
                            queue: seq<(State, nat)>, state: State, depth: nat, pending: seq<Action>)
  {
    && Recorded(distances, queue)
    && state in distances && distances[state] == depth
    && (forall s :: s in distances ==> distances[s] <= depth + 1)
    && (forall i :: 0 <= i < |queue| ==> depth <= queue[i].1)
    && Done(distances, edges, rejected, queue, state, pending)
    && Sound(distances, edges, rejected)
  }

  lemma SearchRejected(distances: map<State, nat>, edges: set<(State, Action, State)>, rejected: set<(State, Action)>,
                       queue: seq<(State, nat)>, state: State, depth: nat, pending: seq<Action>)
    requires Searching(distances, edges, rejected, queue, state, depth, pending)
    requires pending != [] && Transition(state, pending[0]) == None
    ensures Searching(distances, edges, rejected + {(state, pending[0])}, queue, state, depth, pending[1..])
  {
    hide Transition;
    DoneLogged(distances, edges, rejected, queue, state, pending, edges, rejected + {(state, pending[0])});
  }

  lemma SearchKnown(distances: map<State, nat>, edges: set<(State, Action, State)>, rejected: set<(State, Action)>,
                    queue: seq<(State, nat)>, state: State, depth: nat, pending: seq<Action>, target: State)
    requires Searching(distances, edges, rejected, queue, state, depth, pending)
    requires pending != [] && Transition(state, pending[0]) == Some(target) && target in distances
    ensures Searching(distances, edges + {(state, pending[0], target)}, rejected, queue, state, depth, pending[1..])
  {
    hide Transition;
    DoneLogged(distances, edges, rejected, queue, state, pending, edges + {(state, pending[0], target)}, rejected);
  }

  lemma SearchFound(distances: map<State, nat>, edges: set<(State, Action, State)>, rejected: set<(State, Action)>,
                    queue: seq<(State, nat)>, state: State, depth: nat, pending: seq<Action>, target: State)
    requires Searching(distances, edges, rejected, queue, state, depth, pending)
    requires pending != [] && Transition(state, pending[0]) == Some(target) && target !in distances
    ensures Searching(distances[target := depth + 1], edges, rejected, queue
                      + [(target, depth + 1)], state, depth, pending)
  {
    hide Transition;
    RecordSuccessor(distances, queue, state, pending[0]);
    DoneGrows(distances, edges, rejected, queue, state, pending, target, depth + 1);
    var grown := distances[target := depth + 1];
    assert Sound(grown, edges, rejected) by { assert distances.Keys <= grown.Keys; }
  }

  /** Runs every action at one dequeued state. */
  method Expand(state: State, depth: nat, queue0: seq<(State, nat)>, distances0: map<State, nat>,
                edges0: set<(State, Action, State)>, rejected0: set<(State, Action)>)
    returns (queue: seq<(State, nat)>, distances: map<State, nat>, edges: set<(State, Action, State)>,
             rejected: set<(State, Action)>, counterexamples: seq<(State, Action, State, seq<InvariantError>)>)
    requires Searching(distances0, edges0, rejected0, queue0, state, depth, ACTIONS)
    ensures distances0.Keys <= distances.Keys
    ensures distances0.Keys == distances.Keys ==> queue == queue0
    ensures Searching(distances, edges, rejected, queue, state, depth, [])
    ensures counterexamples == []
  {
    hide Transition, InvariantErrors, Strong, Execute, Recorded, Done, Sound;
    queue, distances, edges, rejected, counterexamples := queue0, distances0, edges0, rejected0, [];
    for k := 0 to |ACTIONS|
      invariant distances0.Keys <= distances.Keys
      invariant distances0.Keys == distances.Keys ==> queue == queue0
      invariant Searching(distances, edges, rejected, queue, state, depth, ACTIONS[k..])
      invariant counterexamples == []
    {
      var action := ACTIONS[k];
      match Transition(state, action)
      case None =>
        SearchRejected(distances, edges, rejected, queue, state, depth, ACTIONS[k..]);
        rejected := rejected + {(state, action)};
      case Some(target) =>
        RecordedStatesAreStrong(distances, queue);
        StrongIsInductive(state, action);
        StrongImpliesInvariants(target);
        var errors := InvariantErrors(target);
        if errors != [] {
          counterexamples := counterexamples + [(state, action, target, errors)];
        }
        if target !in distances {
          SearchFound(distances, edges, rejected, queue, state, depth, ACTIONS[k..], target);
          distances := distances[target := depth + 1];
          queue := queue + [(target, depth + 1)];
        }
        SearchKnown(distances, edges, rejected, queue, state, depth, ACTIONS[k..], target);
        edges := edges + {(state, action, target)};
    }
    assert ACTIONS[|ACTIONS|..] == [];
  }

  lemma QueuedTail(queue: seq<(State, nat)>, s: State)
    requires queue != []
    ensures Queued(queue, s) ==> s == queue[0].0 || Queued(queue[1..], s)
  {
    if Queued(queue, s) {
      var i :| 0 <= i < |queue| && queue[i].0 == s;
      if i > 0 { assert queue[1..][i - 1].0 == s; }
    }
  }

  lemma Dequeue(distances: map<State, nat>, edges: set<(State, Action, State)>, rejected: set<(State, Action)>,
                queue: seq<(State, nat)>)
    requires queue != [] && Recorded(distances, queue) && Sound(distances, edges, rejected)
    requires forall s :: s in distances ==> distances[s] <= queue[0].1 + 1
    requires Done(distances, edges, rejected, queue, INITIAL, [])
    ensures Searching(distances, edges, rejected, queue[1..], queue[0].0, queue[0].1, ACTIONS)
  {
    hide Transition, Execute;
    forall s, a | s in distances && !Queued(queue[1..], s) && (s != queue[0].0 || a !in ACTIONS)
      ensures Expanded(distances, s, a) && Logged(edges, rejected, s, a)
    {
      ActionsAreComplete(a);
      QueuedTail(queue, s);
    }
  }

  /** What an empty queue means: the distances, edges and rejections are exact. */
  lemma Exhausted(distances: map<State, nat>, edges: set<(State, Action, State)>, rejected: set<(State, Action)>)
    requires Recorded(distances, []) && Sound(distances, edges, rejected)
    requires Done(distances, edges, rejected, [], INITIAL, [])
    ensures forall s :: s in distances <==> Reachable(s)
    ensures forall s, trace :: ReachableBy(s, trace) ==> s in distances && distances[s] <= |trace|
    ensures forall s, a, t :: (s, a, t) in edges <==> Reachable(s) && Transition(s, a) == Some(t)
    ensures forall s, a :: (s, a) in rejected <==> Reachable(s) && Transition(s, a) == None
  {
    hide Transition, Execute;
    assert forall s, a :: s in distances ==> Expanded(distances, s, a);
    forall s, trace | ReachableBy(s, trace) ensures s in distances && distances[s] <= |trace| {
      TracesAreNoShorter(distances, s, trace);
    }
    assert forall s :: s in distances <==> Reachable(s);
    forall s, a | Reachable(s) ensures Logged(edges, rejected, s, a) {}
    forall s, a, t ensures (s, a, t) in edges <==> Reachable(s) && Transition(s, a) == Some(t) {
      if Reachable(s) { assert Logged(edges, rejected, s, a); }
    }
    forall s, a ensures (s, a) in rejected <==> Reachable(s) && Transition(s, a) == None {
      if Reachable(s) { assert Logged(edges, rejected, s, a); }
    }
  }

  /** The breadth-first search: exact reachable set, exact shortest lengths, exact edge set,
      and no counterexample to any invariant. */
  method Explore()
    returns (distances: map<State, nat>, edges: set<(State, Action, State)>, rejected: set<(State, Action)>,
             counterexamples: seq<(State, Action, State, seq<InvariantError>)>)
    ensures forall s :: s in distances <==> Reachable(s)
    ensures forall s :: s in distances ==> exists trace :: ReachableBy(s, trace) && |trace| == distances[s]
    ensures forall s, trace :: ReachableBy(s, trace) ==> s in distances && distances[s] <= |trace|
    ensures forall s, a, t :: (s, a, t) in edges <==> Reachable(s) && Transition(s, a) == Some(t)
    ensures forall s, a :: (s, a) in rejected <==> Reachable(s) && Transition(s, a) == None
    ensures counterexamples == []
  {
    hide Transition, InvariantErrors, Strong, Universe, Execute, Done, Sound;
    var queue: seq<(State, nat)> := [(INITIAL, 0)];
    distances, edges, rejected, counterexamples := map[INITIAL := 0], {}, {}, [];
    InitiallyRecorded();
    while queue != []
      invariant Recorded(distances, queue)
      invariant queue != [] ==> forall s :: s in distances ==> distances[s] <= queue[0].1 + 1
      invariant Done(distances, edges, rejected, queue, INITIAL, [])
      invariant Sound(distances, edges, rejected)
      invariant counterexamples == []
      decreases Universe() - distances.Keys, |queue|
    {
      var (state, depth) := queue[0];
      Dequeue(distances, edges, rejected, queue);
      var found;
      queue, distances, edges, rejected, found := Expand(state, depth, queue[1..], distances, edges, rejected);
      counterexamples := counterexamples + found;
      RecordedStatesAreStrong(distances, queue);
      DoneForAll(distances, edges, rejected, queue, state);
    }
    Exhausted(distances, edges, rejected);
  }
}
