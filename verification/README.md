# Verification of the activation protocol

A Dafny model of the activation protocol of vllm-hust-ext and of the compiler and validators around it. It covers

- the finite transaction model and its breadth-first explorer,
- the exposure gate (a durable machine of intents, effects and receipts over a traffic route), its recovery and its offline oracle,
- the activation coordinator, alone and driving the gate,
- the evidence quarantine transaction over two directories,
- the contract compiler,
- the enabled set of extensions, host coverage observation, and the attestation envelope.

`dafny verify dfyconfig.toml` checks everything.

## How it is built

Each protocol is a step machine over its durable state. A step is one database transaction, one call on an outside component, one
rename, record or fence, one move of the environment, or a crash, so a crash may fall between any two durable actions. Laws are about
every sequence of events.

| part | machine or functions | laws | the program itself |
|---|---|---|---|
| transaction model | `TransactionModel` | `TransactionModel` | `TransactionModel.Explore` |
| gate | `Gate` | `GateSafety`, `GateCalls`, `GateRecovery`, `GateSimulation`, `GateOracle`, `GateWitness` | `GateProgram` (a class), `GateOracle.EvaluateTrace` |
| coordinator | `Coordinator` | `CoordinatorSafety`, `CoordinatorRecovery`, `CoordinatorStuck`, `CoordinatorWitness`, `CoordinatorEvidence` | `CoordinatorProgram` (a class) |
| quarantine | `Quarantine` | `QuarantineSafety`, `QuarantineRecovery` | `QuarantineProgram` (a class) |
| compiler | `Compiler`, `Ordering`, `Lexicographic` | `CapabilityLaws`, `ResourceLaws`, `CompilerLaws`, `CompilerTheorems`, `CompilerPlan` | `Ordering.OrderContracts`, `CompilerLoops` |
| extensions | `Extensions` | `Extensions` | `Extensions.DependencyWalk`, `Extensions.ExtensionManager` |
| host observation | `HostObserver` | `HostObserver` | `HostObserver.ObserveBound` |
| attestation | `Base64Url`, `Attestation` | the same | `Attestation.BuildStore` |

The three classes keep a ghost trace. Each of their methods is written as the source's method is (checks, effects, transactions and
fault points in order) and is proved to leave exactly the state the step machine reaches on the trace it records: the call's event,
then continuations, then perhaps the crash. When no fault is injected the trace holds no crash. So every law of a machine is a law of
the program. `ProgramIsSafe` and `ProgramIsSound` say this in one lemma each.

## Findings

Where the code does not meet a property one would expect, the code is modelled as it is, and the exact condition is proved.

- Two quarantine transactions on one journal need not converge: the restored branch of reconcile looks the fence up by journal name
  alone. `Passable` is the exact condition, `ReconcileConvergesExactly` proves it both ways, and `RestoredTwinIsReachable` reaches a
  journal that stops recovery for good without any crash.
- A rollback cut after its intent, followed by an open cut after its intent, leaves a gate whose reconcile raises for ever while the
  route is the predecessor (`RollbackThenOpenSticks`; `OpenSticks` reaches it from a fresh gate). `ReconcileOfOpening` is the exact
  condition over any behaviour of the route: a rollback outstanding, no fail_close outstanding, no recovery close unanswered (`Blocks`),
  and exactly the predecessor at the query. For a route that does not drift all of it can be read before the call
  (`ReconcileRaisesExactly`).
- `fail_close` on a ROLLED_BACK gate writes its intent, closes the restored predecessor and then raises; from then on every reconcile
  raises and changes nothing (`FailCloseSticks`, `StuckForEver`; `FailCloseAfterRollback` reaches it from a fresh gate). `Stuck` is the
  exact condition under which no answer about the route lets reconcile settle (`StuckIff`).
- So `recover` can leave a plan in Rollback that no later `recover` settles: its gate is rolled back, and either the host receipt is
  missing or the gate is stuck (`Hopeless`). `RecoverableIff` proves both directions, and `RecoveryGetsStuck` reaches such a plan from an
  empty store.
- The gate keeps admitting candidate requests after the lease is lost (`LeaseLossDoesNotStopTheGate`), so the simulation by the
  transaction model carries the lease as a hypothesis.
- The offline oracle judges a clean run PASS exactly when it does not rest in DRAINING and never left DRAINING for a terminal state
  (`OracleVerdict`): its DRAINING row is narrower than the gate's. `RestsInDraining` and `EscapesDraining` are two runs it refuses.
- `recover` can mark a plan FailedSafe and leave its gate unsettled, whether staged, closed or exposed. Over every run a FailedSafe
  plan has a gate in FAILED_SAFE or a last host receipt with an error or without an outcome (`EveryRunIsSafe`). A call of `recover`
  gives up like this if and only if that receipt is so, the gate is not terminal and its reconcile has nothing to settle (`GivesUp`,
  `FailedSafeStaysUnsettledIff`). `FailedSafeStaysExposed` reaches an exposed candidate under a FailedSafe plan from an empty store: the
  plan becomes Effective, its host rollback fails, and the process dies before the gate is closed.
- An obligation on an undeclared requirement makes `compile_contracts` fail with a key error (`CarelessContractFails`), exactly as
  `CompileVerdict` says. Parsed contracts exclude it (`ParsedContractsBind`).

## Model

| member | source | states |
|---|---|---|
| `TransactionModel.StrongImpliesInvariants` | experiments/transaction_model/explore.py:237-281 | the strengthening implies that no invariant of the model is violated |
| `TransactionModel.StrongIsInductive` | experiments/transaction_model/explore.py:125-234 | every accepted transition preserves the strengthening |
| `TransactionModel.EveryRunSatisfiesInvariants` | experiments/transaction_model/explore.py:237-281 | no reachable state violates an invariant, for traces of any length |
| `TransactionModel.TracesAreNoShorter` | experiments/transaction_model/explore.py:291-319 | distances closed under one step bound the length of every trace from below |
| `TransactionModel.Explore` | experiments/transaction_model/explore.py:291-319 | the queue loop ends with exactly the reachable states, each at its shortest trace length, exactly the accepted and rejected edges, and no counterexample |
| `Gate.LastRow` | src/vllm_hust_ext/exposure_gate.py:756-763 | the newest row of an operation and kind, none later |
| `GateSafety.StepKeeps` | src/vllm_hust_ext/exposure_gate.py:335-1225 | every step of any call, crash or environment move keeps the gate's invariant |
| `GateSafety.RunKeeps` | src/vllm_hust_ext/exposure_gate.py:335-1225 | the invariant holds after every sequence of events |
| `GateSafety.RunExtends` | src/vllm_hust_ext/exposure_gate.py:636-751 | logs only grow, an admission never changes its generation or epoch and finishes at most once, terminal states are absorbing |
| `GateSafety.EveryAdmissionIsSafe` | src/vllm_hust_ext/exposure_gate.py:1349-1378 | over every run: a candidate admission carries the open receipt's fence and follows it, no predecessor admission follows it |
| `GateSafety.NothingAdmittedWhenBlocked` | src/vllm_hust_ext/exposure_gate.py:636-697 | a new admission happens only in an idle, non-terminal, non-OPENING gate whose recorded route is the actual one |
| `GateSafety.EveryCallEnds` | src/vllm_hust_ext/exposure_gate.py:370-1225 | every call ends within ten continuations |
| `GateSafety.ReconcileIsJustified` | src/vllm_hust_ext/exposure_gate.py:753-1071 | an uninterrupted reconcile of OPENING that does not take its rollback branch never raises; it ends in CANDIDATE_OPEN if and only if it asked for the route, under a current lease, and the answer was the candidate under the intent's fence |
| `GateRecovery.ReconcileVerdict` | src/vllm_hust_ext/exposure_gate.py:753-1071 | reconcile in every state and for any behaviour of the route: with an intent to settle it ends in the state its one answer calls for, or raises with nothing changed exactly where the gate cannot move there; with none it returns the state it found, and from OPENING the verdict above |
| `GateRecovery.ReconcileOpensExactly` | src/vllm_hust_ext/exposure_gate.py:908-1071 | for a route that does not drift, reconcile of OPENING ends in CANDIDATE_OPEN if and only if the lease is current and the route is the candidate under the intent's fence, both read before the call |
| `GateRecovery.ReconcileOfOpening` | src/vllm_hust_ext/exposure_gate.py:753-1071 | an uninterrupted reconcile of OPENING, for any behaviour of the route, raises if and only if a rollback is outstanding, no fail_close or recovery close comes first, and the queried route is exactly the predecessor; it then changed nothing, and otherwise it returns the state it left OPENING for |
| `GateRecovery.ReconcileRaisesExactly` | src/vllm_hust_ext/exposure_gate.py:858-907 | for a route that does not drift the same condition on log and route before the call |
| `GateRecovery.AttemptsFreeze` | src/vllm_hust_ext/exposure_gate.py:858-907 | with a rollback outstanding, attempts crashed anywhere change no table of an OPENING gate until they settle it |
| `GateRecovery.AttemptsKeep` | src/vllm_hust_ext/exposure_gate.py:753-1071 | any number of reconcile attempts, crashed anywhere, keep the interrupted open's intent and add no rollback |
| `GateRecovery.InterruptedOpenRecovers` | src/vllm_hust_ext/exposure_gate.py:753-1071 | after a crash anywhere inside open and any crashed attempts, an uninterrupted reconcile raises exactly in the rollback case above and changes nothing, and otherwise leaves OPENING: for CANDIDATE_OPEN exactly when it asked under a current lease and was shown the candidate under the intent's fence, else for an absorbing state |
| `GateRecovery.RollbackThenOpenSticks` | src/vllm_hust_ext/exposure_gate.py:858-907 | a cut rollback and a cut open leave a gate whose reconcile raises and changes nothing |
| `GateWitness.OpenSticks` | src/vllm_hust_ext/exposure_gate.py:858-907 | a run from a fresh gate reaches that state |
| `GateRecovery.FailCloseSticks` | src/vllm_hust_ext/exposure_gate.py:1167-1213 | fail_close of a ROLLED_BACK gate leaves its intent outstanding and raises, whatever the route does |
| `GateRecovery.StuckForEver` | src/vllm_hust_ext/exposure_gate.py:753-800 | after it, through any number of crashed attempts, every uninterrupted reconcile raises and changes nothing |
| `GateRecovery.StuckIff` | src/vllm_hust_ext/exposure_gate.py:753-907 | a gate with an intent to settle is beyond every answer about the route if and only if it is rolled back with a close to settle |
| `GateWitness.FailCloseAfterRollback` | src/vllm_hust_ext/exposure_gate.py:1167-1213 | a run from a fresh gate reaches a stuck gate whose restored predecessor is closed |
| `GateSimulation.StepSimulates` | src/vllm_hust_ext/exposure_gate.py:335-1225 | with the staged lease current, each gate step is a stutter or a sequence of enabled model actions that keeps phase, lease and generation in step |
| `GateSimulation.RunSimulates` | experiments/transaction_model/explore.py:108-234 | every run, crashes and any route behaviour included, is matched in phase by a trace of the transaction model, which satisfies its invariants |
| `GateSimulation.RunSimulatesRoute` | experiments/transaction_model/explore.py:108-234 | when no behavioral oracle is offered, the matching model state also has the route the gate's tables show: recorded predecessor or candidate, a receipt of the exact restore, or a closing receipt |
| `GateSimulation.AdmissionIsEnabled` | experiments/transaction_model/explore.py:108-122 | each new admission is an enabled admit-request on the route it went to |
| `GateSimulation.LeaseLossDoesNotStopTheGate` | src/vllm_hust_ext/exposure_gate.py:636-710 | an open gate admits candidate requests whatever becomes of the lease, while the model stops all admission |
| `GateSimulation.StepIsStrict` | src/vllm_hust_ext/exposure_gate.py:1100-1165 | without a behavioral oracle ROLLED_BACK is entered only by a receipt of the exact predecessor restore and FAILED_SAFE only by a closing receipt |
| `GateSimulation.RunIsStrict` | src/vllm_hust_ext/exposure_gate.py:335-1225 | the same over every run from a fresh gate: each row that entered one of these states is such a receipt, and a gate in it has one; a closing receipt is one of class failed_safe, or an open receipt after a recovery close that reports its route, which the code then does not look at |
| `GateOracle.ReplayTransitions` | src/vllm_hust_ext/exposure_gate.py:1288-1319 | the replay loop reports no error exactly when sources, pairings, transitions and the final state all pass |
| `GateOracle.CheckEvents` | src/vllm_hust_ext/exposure_gate.py:1349-1353 | the event loop reports no error exactly when no request appears with two generations |
| `GateOracle.EvaluateTrace` | src/vllm_hust_ext/exposure_gate.py:1231-1379 | the oracle reports no error exactly on the stores that pass its declarative statement |
| `GateOracle.RunClean` | src/vllm_hust_ext/exposure_gate.py:370-1225 | the trace of normally returning calls stays replayable and paired |
| `GateOracle.OracleVerdict` | src/vllm_hust_ext/exposure_gate.py:1231-1379 | a run of normally returning calls passes exactly when it does not rest in DRAINING nor ever left it for a terminal state |
| `GateWitness.RestsInDraining` | src/vllm_hust_ext/exposure_gate.py:1286-1319 | a run of returning calls from a fresh gate that rests in DRAINING and is refused |
| `GateWitness.EscapesDraining` | src/vllm_hust_ext/exposure_gate.py:1286-1319 | a run of returning calls from a fresh gate that is rolled back from DRAINING and is refused |
| `GateCalls.CallStarts` | src/vllm_hust_ext/exposure_gate.py:438-1225 | what each call promises holds where it starts |
| `GateCalls.CallContinues` | src/vllm_hust_ext/exposure_gate.py:438-1225 | an uninterrupted call returns only with its promise: open with CANDIDATE_OPEN, reconcile with the actual non-OPENING state, rollback and fail_close with the state of their class |
| `GateCalls.LiveStays` | src/vllm_hust_ext/exposure_gate.py:608-751 | traffic, drains, crashes and the environment leave an exposed candidate exposed |
| `GateProgram.ReferenceExposureGate.Stage` | src/vllm_hust_ext/exposure_gate.py:370-436 | the method is the machine's stage call, idempotent branch and mismatches included |
| `GateProgram.ReferenceExposureGate.Close` | src/vllm_hust_ext/exposure_gate.py:438-510 | the method is a run of the machine's close call, cut at most at its fault points |
| `GateProgram.ReferenceExposureGate.Open` | src/vllm_hust_ext/exposure_gate.py:512-606 | the method is a run of the machine's open call, cut at most at its fault points |
| `GateProgram.ReferenceExposureGate.Drain` | src/vllm_hust_ext/exposure_gate.py:608-634 | the method is a run of the machine's drain call |
| `GateProgram.ReferenceExposureGate.Observe` | src/vllm_hust_ext/exposure_gate.py:636-751 | the method is a run of the machine's observe call, fail-close on a changed predecessor included |
| `GateProgram.ReferenceExposureGate.Reconcile` | src/vllm_hust_ext/exposure_gate.py:753-1071 | the method is a run of the machine's reconcile call, all five branches |
| `GateProgram.ReferenceExposureGate.Rollback` | src/vllm_hust_ext/exposure_gate.py:1073-1165 | the method is a run of the machine's rollback call |
| `GateProgram.ReferenceExposureGate.FailClose` | src/vllm_hust_ext/exposure_gate.py:1167-1225 | the method is a run of the machine's fail_close call |
| `GateProgram.ProgramIsSafe` | src/vllm_hust_ext/exposure_gate.py:177-1225 | whatever was called and wherever it was cut, the gate's tables satisfy the invariant |
| `CoordinatorSafety.StepKeeps` | src/vllm_hust_ext/durable_coordinator.py:344-845 | every coordinator or gate step keeps the composed invariant, faults and restarts included |
| `CoordinatorSafety.EveryRunIsSafe` | src/vllm_hust_ext/durable_coordinator.py:571-835 | over every run: the gate is staged for every plan past Planned, Effective means CANDIDATE_OPEN or DRAINING, RolledBack rests on an exact-restore receipt and an error-free host receipt, FailedSafe has a gate in FAILED_SAFE by a closing receipt or a last host receipt with an error or without outcome, and the gate never rolls back from OPENING |
| `CoordinatorSafety.SettledPlanNeverEffective` | src/vllm_hust_ext/durable_coordinator.py:615-835 | once the gate of a plan reached a terminal state no plan is Effective ever after |
| `CoordinatorRecovery.FailedSafeStaysUnsettledIff` | src/vllm_hust_ext/durable_coordinator.py:615-684 | an uninterrupted recover of a plan in Rollback, for any environment, ends FailedSafe over a gate that is not terminal if and only if the last host receipt has an error or no outcome, the gate is not terminal, and nothing is outstanding on it; it then leaves the gate's tables alone |
| `CoordinatorRecovery.GivingUpKeepsRoute` | src/vllm_hust_ext/durable_coordinator.py:615-684 | in that case the route is not touched either |
| `CoordinatorWitness.FailedSafeStaysExposed` | src/vllm_hust_ext/durable_coordinator.py:615-766 | a concrete run from an empty store reaches a FailedSafe plan whose gate is CANDIDATE_OPEN and whose route is the candidate |
| `CoordinatorStuck.HopelessStays` | src/vllm_hust_ext/durable_coordinator.py:615-684 | a recover of a plan in Rollback over a rolled back gate that lacks the host receipt or is stuck leaves plan and journal as they were and the plan still in that condition, whatever the environment does |
| `CoordinatorStuck.RecoverableIff` | src/vllm_hust_ext/durable_coordinator.py:615-684 | some behaviour of the environment lets recover settle a plan in Rollback if and only if the plan is not in that condition |
| `CoordinatorWitness.RecoveryGetsStuck` | src/vllm_hust_ext/durable_coordinator.py:615-727 | a concrete run from an empty store reaches a plan in Rollback over a stuck gate with its restored predecessor closed |
| `CoordinatorEvidence.CountedEvidenceIsCurrent` | src/vllm_hust_ext/durable_coordinator.py:503-542 | every counted evidence row matches the plan's launch id and the current inventory's start id and epoch |
| `CoordinatorEvidence.CommitsAreWitnessed` | src/vllm_hust_ext/durable_coordinator.py:571-587 | a commit is logged only when every obligation and ordinal has a counted row of this launch and of the process now in the slot |
| `CoordinatorEvidence.NonceIsNeverReplayed` | src/vllm_hust_ext/durable_coordinator.py:442-474 | no nonce is accepted twice, across plans, restarts and refreshes |
| `CoordinatorEvidence.BootOk` | src/vllm_hust_ext/durable_coordinator.py:268-277 | a boot invalidates every row and keeps the evidence and journal invariants |
| `CoordinatorEvidence.CommitsUseEachGenerationOnce` | src/vllm_hust_ext/durable_coordinator.py:571-587 | the commit write-ahead rows carry 0 to generation - 1, each once and in order |
| `CoordinatorProgram.ActivationCoordinator.Boot` | src/vllm_hust_ext/durable_coordinator.py:268-277 | the method is the machine's restart |
| `CoordinatorProgram.ActivationCoordinator.PlanActivation` | src/vllm_hust_ext/durable_coordinator.py:344-378 | the method is the machine's plan call; a plan with targets and a new id is stored as Planned, and the call succeeds exactly if the adapter then holds the predecessor; otherwise nothing changes |
| `CoordinatorProgram.ActivationCoordinator.Prepare` | src/vllm_hust_ext/durable_coordinator.py:380-393 | the method is a run of the machine's prepare call; it takes a Planned plan to Prepared, or leaves it Preparing if it raises, and with no fault succeeds exactly when the host does; no other plan changes |
| `CoordinatorProgram.ActivationCoordinator.Launch` | src/vllm_hust_ext/durable_coordinator.py:395-417 | the method is a run of the machine's launch call; it takes a Prepared plan to Observing, or leaves it Launching, and with no fault succeeds exactly when the host does and no slot repeats; no other plan changes |
| `CoordinatorProgram.ActivationCoordinator.ObserveEvidence` | src/vllm_hust_ext/durable_coordinator.py:419-474 | the method is the machine's observe call and accepts exactly when a new row appears |
| `CoordinatorProgram.ActivationCoordinator.Insert` | src/vllm_hust_ext/durable_coordinator.py:406-415 | row-by-row insertion yields the new inventory exactly when no slot repeats |
| `CoordinatorProgram.ActivationCoordinator.RefreshInventory` | src/vllm_hust_ext/durable_coordinator.py:476-501 | the method is the machine's refresh call; it succeeds exactly for an Observing or Reconcile plan and distinct slots, then leaves no valid row of the plan, and otherwise changes nothing |
| `CoordinatorProgram.ActivationCoordinator.EvidenceIsComplete` | src/vllm_hust_ext/durable_coordinator.py:503-542 | the nested loops decide the declarative completeness |
| `CoordinatorProgram.ActivationCoordinator.LogCommit` | src/vllm_hust_ext/durable_coordinator.py:578-587 | the write-ahead transaction commits exactly when transition and compare-and-swap succeed, and otherwise changes nothing |
| `CoordinatorProgram.ActivationCoordinator.Commit` | src/vllm_hust_ext/durable_coordinator.py:571-613 | the method is a run of the machine's commit call; it returns expected + 1, the new generation, exactly when it took the plan from Observing to Effective, only with complete evidence, and with no fault exactly when lease, evidence, both generations and the adapter allow it |
| `CoordinatorProgram.ActivationCoordinator.Recover` | src/vllm_hust_ext/durable_coordinator.py:615-727 | with a plain traffic adapter: the call returns the plan's new state, FailedSafe from Rollback, Reconcile from an interrupted state, else the state it had, and raises without change exactly for an unknown plan or a failed restore |
| `CoordinatorProgram.ActivationCoordinator.Resume` | src/vllm_hust_ext/durable_coordinator.py:729-731 | the call succeeds exactly from Reconcile or Launching and then leaves the plan Observing |
| `CoordinatorProgram.ActivationCoordinator.RollBack` | src/vllm_hust_ext/durable_coordinator.py:733-835 | host, traffic and mark in that order; refused exactly where the transition is not allowed, RolledBack exactly when the host reports an outcome and the traffic is restored, and otherwise FailedSafe with ROLLBACK_FAILED raised |
| `CoordinatorProgram.ActivationCoordinator.LoseLease` | src/vllm_hust_ext/durable_coordinator.py:837-845 | refused exactly outside Observing and Effective; Reconcile for a proven fallback, else as a rollback |
| `CoordinatorProgram.ProgramIsSound` | src/vllm_hust_ext/durable_coordinator.py:503-587 | whatever was called and wherever it was cut, counted evidence is current and each generation is committed once |
| `QuarantineSafety.StepKeeps` | src/vllm_hust_ext/quarantine_transaction.py:627-1307 | every durable step of writers, actuator, runner and reconciler, and any crash, keeps the protocol's invariant |
| `QuarantineSafety.EveryRunIsSafe` | src/vllm_hust_ext/quarantine_transaction.py:929-1307 | over every run: each journal is in exactly one root under its own inode, a restored one continues its snapshot, a finalized one equals it, a quarantined one is fenced, nothing is blocked, nothing is both finalized and restored |
| `QuarantineSafety.RunExtends` | src/vllm_hust_ext/quarantine_transaction.py:627-710 | bytes only grow under one inode and no step of any actor changes a settled transaction |
| `QuarantineRecovery.ReconcileConvergesExactly` | src/vllm_hust_ext/quarantine_transaction.py:929-1307 | from every reachable state an undisturbed reconcile settles everything and reports it if and only if every transaction is passable, and otherwise raises without blocking anything |
| `QuarantineRecovery.OnePerJournalConverges` | src/vllm_hust_ext/quarantine_transaction.py:929-1307 | one transaction per journal within the read limit suffices |
| `QuarantineRecovery.EveryCrashedRunRecovers` | src/vllm_hust_ext/quarantine_transaction.py:929-1307 | after any crash-interleaved run with one transaction per journal within the read limit, a reconcile, itself a run of the protocol's steps, settles every intent and blocks none |
| `QuarantineRecovery.ReconcileIsIdempotent` | src/vllm_hust_ext/quarantine_transaction.py:1087-1210 | a second reconcile returns the same result and changes nothing |
| `QuarantineRecovery.CrashedAttemptsStillConverge` | src/vllm_hust_ext/quarantine_transaction.py:929-1307 | after any number of crashed attempts an undisturbed reconcile completes |
| `QuarantineRecovery.RestoredTwinStopsRecovery` | src/vllm_hust_ext/quarantine_transaction.py:1178-1194 | a journal with a restored and a finalized transaction never converges again |
| `QuarantineRecovery.RestoredTwinIsReachable` | src/vllm_hust_ext/quarantine_transaction.py:1178-1194 | such a journal is reached by a concrete run |
| `QuarantineProgram.EvidenceRoots.AppendEvent` | src/vllm_hust_ext/host_event_sink.py:217-289 | a whole record is appended exactly when no fence covers the journal |
| `QuarantineProgram.EvidenceRoots.Reconcile` | src/vllm_hust_ext/quarantine_transaction.py:929-1307 | the loop over sorted intents is a run of the machine; unless it dies it succeeds exactly when every transaction is passable, and then everything is settled and reported |
| `QuarantineProgram.EvidenceRoots.Prepare` | src/vllm_hust_ext/quarantine_transaction.py:518-547 | reconcile, snapshot and durable intent, as a run of the machine |
| `QuarantineProgram.EvidenceRoots.Commit` | src/vllm_hust_ext/formal_lifecycle_source.py:585-764 | fence, move, applied record and audit, with the handler undoing what was done, as a run of the machine |
| `QuarantineProgram.EvidenceRoots.Finalize` | src/vllm_hust_ext/quarantine_transaction.py:627-710 | the checks and the finalized record, as one step of the machine |
| `QuarantineProgram.ProgramIsSafe` | src/vllm_hust_ext/quarantine_transaction.py:518-1307 | whatever was called and wherever it died, the roots satisfy the invariant |
| `Ordering.OrderContracts` | src/vllm_hust_ext/contract_compiler.py:751-780 | the heap loop reports a cycle exactly for cyclic graphs, and otherwise returns the lexicographically least arrangement with providers first |
| `Ordering.KahnCompleteIffAcyclic` | src/vllm_hust_ext/contract_compiler.py:765-780 | everything is placed if and only if no walk along dependencies returns to its start |
| `Ordering.KahnIsLeast` | src/vllm_hust_ext/contract_compiler.py:762-771 | every arrangement with providers first is lexicographically at least the one found |
| `Ordering.Dependents` | src/vllm_hust_ext/contract_compiler.py:755-761 | the reversed graph |
| `CapabilityLaws.ChooseIff` | src/vllm_hust_ext/contract_compiler.py:708-734 | one requirement is met exactly by a unique suitable offer, and each error code exactly in its case |
| `CapabilityLaws.ResolveIff` | src/vllm_hust_ext/contract_compiler.py:697-748 | resolution succeeds exactly when all requirements are met, and otherwise the code is that of the least failing consumer and requirement |
| `CapabilityLaws.GraphIsDeclared` | src/vllm_hust_ext/contract_compiler.py:744-745 | the dependency map is the declared relation without self-dependencies |
| `ResourceLaws.ResolveIff` | src/vllm_hust_ext/contract_compiler.py:783-848 | resource resolution fails with a conflict exactly when two claims clash, then with an authority violation exactly when a mediator does not claim, and otherwise succeeds |
| `ResourceLaws.PlanResources` | src/vllm_hust_ext/contract_compiler.py:836-848 | one entry per claimed resource, ascending, with exactly its claimants, their common mode and mediator, and a single owner unless shared or mediated |
| `CompilerTheorems.CompileVerdict` | src/vllm_hust_ext/contract_compiler.py:966-1004 | the code is the first failing class in the fixed precedence over the whole set as declared |
| `CompilerTheorems.CompileSucceedsIffAdmissible` | src/vllm_hust_ext/contract_compiler.py:966-1004 | compilation succeeds if and only if the set is admissible, said without compiling it |
| `CompilerTheorems.CompileForgetsOrder` | src/vllm_hust_ext/contract_compiler.py:994 | plan or code do not depend on the order of the contracts |
| `CompilerTheorems.CompileForgetsAliases` | src/vllm_hust_ext/contract_compiler.py:851-900 | plan or code do not depend on which alias of a taxonomy rule a claim uses, nor on the order of a contract's claims |
| `CompilerTheorems.CarelessContractFails` | src/vllm_hust_ext/contract_compiler.py:931 | on any host that admits it, a contract with a granted obligation on a requirement it does not declare fails with the key error |
| `CompilerTheorems.ParsedContractsBind` | src/vllm_hust_ext/contract_compiler.py:648-662 | contracts whose grants are declared never fail on an unbound obligation |
| `CompilerPlan.CompiledPlanMeans` | src/vllm_hust_ext/contract_compiler.py:998-1004 | the plan's order, bindings, ownership and obligations mean the prepared contracts |
| `CompilerLoops.ProvidersByName` | src/vllm_hust_ext/contract_compiler.py:700-703 | the providers of each name, in order |
| `CompilerLoops.ResolveCapabilities` | src/vllm_hust_ext/contract_compiler.py:697-748 | the nested loops compute bindings and dependencies, or stop at the first requirement that cannot be met |
| `CompilerLoops.Ownerships` | src/vllm_hust_ext/contract_compiler.py:783-848 | the claim tables and three error passes compute resource resolution |
| `CompilerLoops.CompileContracts` | src/vllm_hust_ext/contract_compiler.py:966-1004 | the composition of the loops computes the function the laws are about |
| `Extensions.DependencyWalk.Visit` | src/vllm_hust_ext/cli.py:256-270 | the recursive visit ends, reports a cycle only where there is one, and otherwise finishes the node after all below it |
| `Extensions.RejectsCycles` | src/vllm_hust_ext/cli.py:256-272 | the depth-first check ends and rejects exactly the cyclic graphs |
| `Extensions.ValidateDependencies` | src/vllm_hust_ext/cli.py:230-272 | accepted exactly when every dependency is selected in range and the graph is acyclic |
| `Extensions.ValidateOwnership` | src/vllm_hust_ext/cli.py:198-212 | accepted exactly when at most one bundle owns a StateAxis process tree |
| `Extensions.ValidateResources` | src/vllm_hust_ext/core.py:126-140 | the one pass with a dictionary of last claims accepts exactly when no exclusive resource is claimed twice |
| `Extensions.RemovalKeeps` | src/vllm_hust_ext/cli.py:275-291 | dropping a bundle nothing depends on keeps the rest sound |
| `Extensions.RemovalIff` | src/vllm_hust_ext/cli.py:275-291 | in a sound set the removal check passes if and only if the rest is sound |
| `Extensions.DisableUndoesEnable` | src/vllm_hust_ext/cli.py:386-416 | what was just enabled can be disabled, which gives back the enabled set and every stored configuration |
| `Extensions.EveryConfigurationIsSound` | src/vllm_hust_ext/cli.py:386-443 | every sequence of enable, disable, forget and configure keeps the enabled set closed, in range, acyclic, with one owner and no exclusive conflict |
| `Extensions.ExtensionManager.EnableExtension` | src/vllm_hust_ext/cli.py:386-404 | succeeds exactly when the bundle is installed, not blocked and the enlarged set is sound, so what it saves is sound; adds just this bundle, keeps its configuration and every other entry, and a refusal changes nothing |
| `Extensions.ExtensionManager.DisableExtension` | src/vllm_hust_ext/cli.py:405-416 | keeps a sound configuration sound and succeeds on it exactly when the remaining set is sound; removes just this bundle, keeps its configuration and every other entry, and a refusal changes nothing |
| `Extensions.ExtensionManager.ForgetExtension` | src/vllm_hust_ext/cli.py:417-429 | keeps a sound configuration sound and succeeds on it exactly for a stored, disabled bundle, which the dependents check can then never block; the entry is gone, the enabled set and every other entry stay |
| `Extensions.ExtensionManager.ConfigureExtension` | src/vllm_hust_ext/cli.py:430-443 | succeeds exactly for an installed bundle and a given configuration, which is then what is stored; soundness, the enabled set and every other entry stay |
| `HostObserver.Bind` | src/vllm_hust_ext/host_observer.py:150-169 | bindings are accepted exactly when unambiguous, declared and complete, and are then filed by entry point |
| `HostObserver.Pass` | src/vllm_hust_ext/host_observer.py:226-292 | the pass accepts exactly the journals whose records and pairs of records are acceptable, and its tables say what they hold |
| `HostObserver.Observe` | src/vllm_hust_ext/host_observer.py:171-345 | coverage is at most 1 and is 1 exactly when every required slot has a current live record; no Linux identity covers two slots of the plan |
| `HostObserver.RequiredProcesses` | src/vllm_hust_ext/host_observer.py:81-112 | the snapshot is accepted exactly when it is not empty, well formed, strictly ascending and without a repeated slot, and then gives the epoch of each slot |
| `HostObserver.ObserveBound` | src/vllm_hust_ext/host_observer.py:125-345 | the whole observation succeeds exactly for a snapshot and bindings in order, obligations that match the snapshot and a journal acceptable in the one setting they make, and is complete exactly when every target slot is covered there |
| `HostObserver.TargetsAreOrdinals` | src/vllm_hust_ext/host_observer.py:171-191 | the targets of an obligation are its ordinals on the local host |
| `Base64Url.DecodeInverts` | src/vllm_hust_ext/attestation/profile.py:62-87 | decoding inverts encoding on every byte string |
| `Base64Url.DecodeAcceptsExactlyEncodings` | src/vllm_hust_ext/attestation/profile.py:66-87 | a string decodes to bytes if and only if it is their encoding |
| `Attestation.VerifyOfSign` | src/vllm_hust_ext/attestation/profile.py:295-389 | verification of a signed statement returns it, or the first of the checks on critical claims, trust and time that it fails |
| `Attestation.VerifyIsSound` | src/vllm_hust_ext/attestation/profile.py:308-389 | an accepted envelope is a detached JWS with canonical header and payload, signed by a key trusted now for its issuer and subject, without critical claims and within its window |
| `Attestation.SigningInputBinds` | src/vllm_hust_ext/attestation/profile.py:295-306 | the signing input determines the header and the payload it was made of |
| `Attestation.AcceptedWasSigned` | src/vllm_hust_ext/attestation/profile.py:308-389 | with signatures that verify only for what was signed, the statement of every accepted envelope is one that was signed with the key the store trusts for it |
| `Attestation.BuildStore` | src/vllm_hust_ext/attestation/profile.py:175-207 | the store holds exactly the given entries; an invalid or repeated one is refused |

## Left out

- Digests are ideal: a record or receipt that quotes a digest quotes the value, and digests never collide. SQLite transactions, SHA-256, Ed25519 and canonical JSON are taken as atomic, injective and ideal.
- Gate details without a reader: the revision compare-and-swap and schema version (one writer), timestamps of transition rows, reason texts, the candidate digest inside an issued fence, and the automatic row numbers, which equal positions in the log.
- The coordinator composed with the gate is modelled on values, as one step machine. The coordinator class covers its plain traffic adapter. Aliasing between coordinator and gate is not modelled.
- CoordinatorProgram.ActivationCoordinator.Commit: the class follows the plain traffic adapter; the branch that opens the exposure gate is in the step machine, and its laws are proved there (`CoordinatorSafety`).
- CoordinatorProgram.ActivationCoordinator.Recover: the class follows the plain traffic adapter; the branches over the exposure gate are in the step machine, and their laws are proved there (`CoordinatorRecovery`, `CoordinatorStuck`).
- CoordinatorProgram.ActivationCoordinator.RollBack: the class follows the plain traffic adapter; the branch over the exposure gate is in the step machine, and its laws are proved there (`CoordinatorSafety`).
- A crash between inserting a plan and staging it is not among the coordinator's steps: it is not one of the code's fault points, and it would leave a plan the gate does not know.
- The rollback_outcome table and texts of errors; only error codes, or that a call raises, are modelled.
- Quarantine: failures of rename, fsync or unlink themselves (a step happens or the process dies), temporary files, file modes, symbolic links and ownership checks, and the size limit of records. A writer appends whole records.
- Quarantine reads bounded by the journal read limit are modelled; the audit of remaining peer evidence in commit_fault is one step that may fail.
- The contract parser: compilation starts from parsed contracts. PEP 440 parsing and membership and string trimming are functions handed in.
- Host observation: reading /proc is part of the record, trimming is a function handed in, and the immutable record excerpts of the report are not modelled.
- Attestation: JSON parsing is a function handed in, with the shape of a statement; values that canonicalization itself refuses are not distinguished from unreadable ones.
- Extensions: discovery of bundles is a fixed map, and the commands that only report are omitted.
- Process supervision, subprocesses, sockets, manifests, catalogs and providers: operating system plumbing, or one branch per claim.
