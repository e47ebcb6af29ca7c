# Voss router: governed admission and execution

A Dafny model of the Voss router's admission pipeline, its operator controls and its hash-linked
ledger, with proofs of what every run keeps. `dafny verify dfyconfig.toml` checks the project.

The router decides capability requests: it verifies its ledger, honours operator termination and
interruption, runs the nine stages of GRE-1001, the immune step, the provider registry and the adapter's
own check, re-reads the operator flags, and ledgers one decision. A governed execution re-reads the
flags once more, calls the provider's Generate under a deadline, and ledgers the result. Three operator
endpoints set a flag, force an execution state and ledger the order. Requests and operator calls run
concurrently; the only synchronisation is one mutex per store.

## How the model is laid out

| file | what it holds |
|---|---|
| Types.dfy | requests, policies, ledger entries; fixed texts as enumerations |
| Ledgers.dfy, LedgerMode.dfy | the ledger object, both verifiers, tampering, the ledger service mode |
| Stores.dfy | execution states and operator flags, one method per critical section |
| Usl.dfy, Gre.dfy | tenant searches, USL gate, Lambda.4, immune step, the nine-stage pipeline |
| Admission.dfy | admission in closed form: eighteen gates in a fixed order |
| Routing.dfy | the router object and the operator endpoints, one call at a time |
| Configs.dfy, Workflows.dfy | the configuration compiler and the workflow entry point |
| Protocol.dfy | the interleaved router: a program counter per request and per operator call |
| Invariants.dfy, Theorems.dfy | what every step keeps; safety and progress over all runs |
| Counting.dfy | conservation, and which process wrote which ledger entry |
| Isolation.dfy | interleaved decisions against the gate table |
| Precedence.dfy, Races.dfy | which orders keep a request from being admitted under every interleaving, and which come too late |
| Verdicts.dfy | what flags, refusals and entries tell under every interleaving |

One table of gates (`Admission.Gates`) is the reference for decisions. The router object is proved to
decide as the table says, and so is every interleaved run that no order on the request's own intent
disturbs. In `Protocol`, each mutex-guarded call of the source is one step; clock readings, identifiers
and adapter answers arrive with the step that uses them, and events may come in any order.
`Remaining` counts the program points a call still has ahead, so "before line 215" is a comparison, and
`Authors` names the process behind each entry that a run appends, so "this call wrote it" is a fact about the run.

## Where the code and its documentation differ

The model follows the code. Three differences are results here.

- The comment at deploy/voss/router/service/go/router.go:163 and README.md:44 give corrections precedence
  while a request passes the gates. `Admit` reads corrections for the last time at stage 6, and terminations and
  interrupts just before the ADMIT entry. An order set before the last read of its kind always wins
  (`AdmissionPrecedence`); `OrderWinsIffReadAhead` says exactly which come too late and `LateCorrectionIsMissed`
  gives a run. The final check before Generate does see corrections (`OperatorPrecedence`).
- README.md:43 draws PENDING, ADMITTED, RUNNING. The state machine makes just that (`HistoryShape`), but the router
  never makes the first transition, so its RUNNING attempt always fails silently and ADMITTED and RUNNING
  are unreachable (`ExecAgreesWithOrders`).
- Tenants that share a lane share lattice grants, so the router can admit a tenant for a pairing of class and
  scope that it lists only apart (`SharedLaneLeaks`); `ExactUnlessLeak` says exactly when.

Verification of a chain checks links and not content: `EditPasses` characterises the edits it lets through.

## Model

| member | source | states |
|---|---|---|
| Theorems.OperatorPrecedence | deploy/voss/router/service/go/router.go:213-222 | under every interleaving, if a termination, interrupt or correction on a request's intent takes effect before the matching final read, that request never starts Generate and none of the entries it appends is an execution |
| Theorems.OrderBoundsGenerate | deploy/voss/router/service/go/router.go:204-257 | once an order is in force, Generate starts for the intent only in requests already past the read that would see it (line 215 for a termination), at most that many; the ledger gains at most one execution for each of these and each Generate under way, so none if there are none, whatever was executed before |
| Theorems.OnlyOrdersStopExecution | deploy/voss/router/service/go/router.go:215-222 | the converse: on an intent without orders, an admitted governed execution that has ended did start Generate |
| Theorems.TerminationIsForGood | deploy/voss/router/service/go/router.go:92-100 | every request on a terminated intent that arrives later is refused with the termination error and nothing else |
| Theorems.ExecAgreesWithOrders | deploy/voss/router/service/go/execution.go:17-71 | in every reachable state TERMINATED implies the terminate flag and HALTED an interrupt or correction, ADMITTED and RUNNING do not occur, and outside an operator call's first two steps a state is terminal exactly when the intent carries an order |
| Theorems.TerminalIsAbsorbing | deploy/voss/router/service/go/server.go:87-128 | the set of terminal execution states is never left, in any continuation of a run |
| Theorems.StepKeepsTerminal | deploy/voss/router/service/go/router.go:224 | no step revives a halted intent, and the RUNNING attempt changes nothing in a router run |
| Theorems.EveryCallEnds | deploy/voss/router/service/go/router.go:71-257 | wait freedom: whatever else runs, each call and each operator action ends within 27 of its own steps |
| Theorems.ExecutionProvenance | deploy/voss/router/service/go/ledger.go:58-75 | in every reachable ledger an execution entry follows an ADMIT entry with the same decision id, request, intent, tenant, lane, capability and provider, carrying nine passed stage records in order |
| Theorems.CerIsNeverAnExecution | deploy/voss/router/service/go/ledger.go:128-153 | the record a CER is built from is never an execution entry, even if decision ids repeat |
| Theorems.ReachableLedgerIsAuditable | deploy/voss/router/service/go/ledger.go:37-75 | Admitted exactly when the result is ADMIT, a rule reference always, and for every refusal but ledger.integrity exactly one failed stage record, last, under the entry's own rule |
| Theorems.ReachableLedgerVerifies | deploy/voss/router/service/go/ledger.go:24-93 | every reachable ledger is sealed, its cached hash and index are true, and it verifies with no breaks |
| Theorems.BrokenLedgerFailsClosed | deploy/voss/router/service/go/router.go:75-89 | from any state, forged ones included, bad links never go away and every admission that has not started is refused with ledger.integrity before it reads a flag or asks an adapter |
| Invariants.RunKeepsInv | deploy/voss/router/service/go/router.go:71-257 | the joint invariant of ledger, stores and all processes survives every sequence of events |
| Invariants.RunGrows | deploy/voss/router/service/go/corrigibility.go:20-64 | ledger, orders and providers only grow over a run |
| Invariants.ExecutionFollowsAdmission | deploy/voss/router/service/go/router.go:252-253 | only a call that awaits Generate writes an execution, and its own ADMIT entry is already in the ledger |
| Counting.LedgerConservation | deploy/voss/router/service/go/router.go:204-281 | when every call has ended, the ledger holds one entry per admission, one more per admission that reached Generate, and one per accepted operator order |
| Counting.GenerateLeavesOneEntry | deploy/voss/router/service/go/router.go:226-256 | a call whose Generate has ended was asked to execute and wrote exactly two ledger positions, its ADMIT entry and one later entry: an execution bound to that decision, or a refusal whose reason is the timeout exactly if Generate timed out; the second missing-provider branch is unreachable |
| Counting.EveryEntryHasOneAuthor | deploy/voss/router/service/go/router.go:71-257 | in every run each entry has exactly one author, and each call or order has written exactly what it has to show: nothing before its decision, then the record of that refusal or order, or its ADMIT entry and the end of Generate |
| Counting.ExecutionsNeverOutnumberAdmits | deploy/voss/router/service/go/ledger.go:58-75 | in every prefix of every reachable ledger executions never outnumber ADMIT decisions, altogether and for each decision id |
| Isolation.InterleavingKeepsTheDecision | deploy/voss/router/service/go/router.go:71-191 | intent isolation: with no order on its intent, no drift steering and no registration of its provider, a request is decided exactly as the gate table says, whatever requests and orders on other intents are interleaved |
| Isolation.ReplayGivesTheSameDecision | deploy/voss/router/service/go/router.go:71-191 | two calls of one request in such a run are refused alike or both admitted |
| Isolation.AdmissionEntry | deploy/voss/router/service/go/router.go:186-187 | the entry an undisturbed admission ledgers is the table's verdict |
| Isolation.OrdersNeverAdmit | deploy/voss/router/service/go/corrigibility.go:20-64 | over runs of any length with any orders, a request that would be admitted afterwards would have been admitted before |
| Precedence.AdmissionPrecedence | deploy/voss/router/service/go/router.go:163-183 | under every interleaving, an order on a request's intent in force before the last read of its kind (lines 165 and 174 for terminations and interrupts, stage 6 for corrections) keeps it from being admitted: it appends no ADMIT entry and leaves Admit only refused |
| Precedence.OrderWinsIffReadAhead | deploy/voss/router/service/go/router.go:163-183 | an order of any kind that races an admission refuses it in every continuation if its last read is ahead; if not, the request is admitted provided the reads still ahead are clear, the immune step and registry let it through and the adapter agrees, whatever is corrected, steered or registered besides |
| Precedence.AdmissionIsSound | deploy/voss/router/service/go/router.go:71-191 | in every run, whatever is interleaved, a request is admitted only if the gate table admits it when nothing stands against it |
| Precedence.AdmittedEntriesAreSound | deploy/voss/router/service/go/ledger.go:37-56 | every entry marked admitted in a reachable ledger is about a request that the gate table admits |
| Precedence.WorkflowsNeverPassStageFour | deploy/voss/router/service/go/workflows.go:84-98 | on a built configuration no call with a workflow's capability gets past the fourth stage in any run, so it is never admitted and no provider is asked |
| Races.CorrectionVerdict | deploy/voss/router/service/go/gre.go:139-152 | in a run that is quiet but for one correction, an otherwise admissible request ends refused with stage 6's own verdict if the correction was early, and admitted if it was late |
| Races.LateCorrectionIsMissed | deploy/voss/router/service/go/router.go:163-183 | a run from a new router in which a correction is in force before the ADMIT entry and the request is admitted all the same |
| Verdicts.EveryRefusalIsExplained | deploy/voss/router/service/go/router.go:71-183 | in every run a refusal is the gate table's verdict in a world whose orders have really been given, or one of the four verdicts only a race gives (stage 6 and the in-flight reads), and then that order is in force |
| Verdicts.RefusalsNameTheirOrder | deploy/voss/router/service/go/router.go:92-183 | in every run an error or reason that names a termination, an interrupt or a correction names one that is in force, a correction with a directive that was given |
| Verdicts.ReadDecides | deploy/voss/router/service/go/router.go:163-183 | a call at a read of an order in force is refused, in every continuation, with that read's own verdict given in full: for the in-flight reads termination or interruption during flight, its error, and nine passed stages with one failed record |
| Verdicts.NoOrderIsReadPast | deploy/voss/router/service/go/router.go:92-222 | with an order in force no call gets past any of its reads of that kind still ahead, in Admit or in the final check, in any continuation |
| Verdicts.FinalCheckDecides | deploy/voss/router/service/go/router.go:213-222 | at the final check a terminated intent stops the call with the termination error, an interrupt or a directive with the interruption error |
| Verdicts.OrderedEndsForceTheState | deploy/voss/router/service/go/router.go:95-222 | a call that ended on an order seen in flight, at the first read or by the final check left its intent in a terminal state and names an order in force |
| Verdicts.FlagsComeFromOrders | deploy/voss/router/service/go/server.go:74-128 | in every run an intent is terminated, interrupted or corrected exactly if an order of that very kind on it has been set, and that order was issued by a named operator |
| Verdicts.CallsAnswerArrivals | deploy/voss/router/service/go/router.go:204-211 | every call in a run is for a request that arrived, and executes only if that was asked |
| Verdicts.SteeredSpikeHolds | deploy/voss/router/service/go/gre.go:128-138 | from a steered score of 0.5 or more until the next steering, no call that has not passed stage 5 gets past it |
| Verdicts.EntriesTellTheirStep | deploy/voss/router/service/go/ledger.go:37-75 | every entry of every run tells what the step that wrote it decided, with the decision id, marker and time of that step, and a result with the decision id of its admission |
| Admission.StageGates | deploy/voss/router/service/go/gre.go:85-171 | each pipeline stage passes when its gates hold and otherwise refuses as the first of them that fails |
| Admission.PipelineGates | deploy/voss/router/service/go/gre.go:62-76 | the whole pipeline settles gates 3 to 12, with the passing prefix and the failure as its log |
| Admission.ImmuneGates | deploy/voss/router/service/go/router.go:124-140 | the immune step with the sovereign operator's elevation settles gates 13 to 15 |
| Admission.MonotoneAuthority | deploy/voss/router/service/go/usl.go:93-116 | orders never turn a refusal into ADMIT; appending tenants or extending the lattice never turns ADMIT into a refusal |
| Routing.Router.Admit | deploy/voss/router/service/go/router.go:71-191 | the object decides as the gate table says of its stores, returns that error and those stages, and appends one entry that tells that verdict on that request under the returned decision id; it forces a state only for a terminated intent |
| Routing.Router.GovernAndExecute | deploy/voss/router/service/go/router.go:204-257 | no more than the admission unless ADMIT; then exactly two entries, the ADMIT decision and how Generate ended, a result under the same decision id or a refusal, each field spelled out |
| Routing.Router.Execute | deploy/voss/router/service/go/router.go:224-256 | the RUNNING attempt, and exactly one entry: the refusal of a missing provider, the result, the timeout as a timeout, or the failure with the adapter's own error |
| Routing.HandleOperator | deploy/voss/router/service/go/server.go:74-140 | an accepted order sets its own flag on its own intent and no other, forces its state and is ledgered under its own reason; the next admission then gives the order's own error; a rejected one changes nothing |
| Gre.GRE1001.Run | deploy/voss/router/service/go/gre.go:62-76 | the result is all nine passed records, or the passing prefix and the first failure |
| Gre.FailureIsEarly | deploy/voss/router/service/go/gre.go:154-171 | only the first six stages can ever be the failure |
| Gre.UslStageFailure | deploy/voss/router/service/go/gre.go:114-122 | with distinct tenant ids the USL stage refuses only with capability.lattice or tenant.capability_policy |
| Gre.StageLogsItself | deploy/voss/router/service/go/gre.go:85-171 | a passing stage logs the record the pipeline promises, and every record names its stage and a rule |
| Gre.PipelineResultUnique | deploy/voss/router/service/go/gre.go:62-76 | the pipeline's description determines its outputs and verdict |
| Gre.GRE1001.SteerDrift | deploy/voss/router/service/go/gre.go:42-44 | a steered score below 0.5 changes no stage's answer |
| Usl.ThreeLookupsOneTenant | deploy/voss/router/service/go/router.go:300-310 | for every tenant list, duplicates included, once Lambda.4 and the USL gate pass all three searches stop at the same policy |
| Usl.QuarantinedIffNoSovereign | deploy/voss/router/service/go/router.go:128-140 | such a NORMAL or EXPRESS request with a payload is stopped by the immune step exactly when its policy has no sovereign operator |
| Usl.FindTenant | deploy/voss/router/service/go/usl.go:93-100 | the first tenant with the id, or none |
| Usl.FindInLane | deploy/voss/router/service/go/lambda.go:28-41 | the first tenant with the id and the lane, or none |
| Usl.CapabilityGranted | deploy/voss/router/service/go/usl.go:102-116 | some grant names this capability and this lane |
| Usl.UslAnswers | deploy/voss/router/service/go/usl.go:38-74 | which refusal the gate gives, when and under which rule, and what an admission by it implies |
| Stores.HistoryShape | deploy/voss/router/service/go/execution.go:15-23 | the histories of legal transitions are exactly those drawn: part of PENDING, ADMITTED, RUNNING in order, with HALTED or TERMINATED as a last state after ADMITTED or RUNNING |
| Stores.ExecutionState.Transition | deploy/voss/router/service/go/execution.go:48-65 | succeeds exactly on the expected state and a legal step, and never from a terminal state |
| Stores.InterruptStore.Correction | deploy/voss/router/service/go/corrigibility.go:45-51 | the directive and whether there is one |
| Ledgers.OnlyPrefixesVerify | deploy/voss/router/service/go/ledger.go:111-126 | given an injective hash that is never genesis, any sequence of a sealed ledger's own entries passes verification exactly when it is a prefix |
| Ledgers.VerifyExport | deploy/voss/router/service/go/ledger.go:111-126 | valid exactly when head and links are sound; with a sound head the count is the number of bad links |
| Ledgers.Ledger.Verify | deploy/voss/router/service/go/ledger.go:77-93 | the same verdict and count for the live ledger, so it agrees with verifying its export |
| Ledgers.Ledger.Append | deploy/voss/router/service/go/ledger.go:24-35 | stores the caller's entry as it is but for position, time and seal, and keeps a well-formed ledger well formed with index equal to position |
| Ledgers.Ledger.WriteDecision | deploy/voss/router/service/go/ledger.go:37-56 | the stored entry is about the request and carries result, reason, rule, decision id, stage log and marker each in its own field |
| Ledgers.Ledger.WriteExecution | deploy/voss/router/service/go/ledger.go:58-75 | the stored entry is an admitted result under the given decision id, with its hash and no stages |
| Ledgers.Ledger.GenerateCER | deploy/voss/router/service/go/ledger.go:128-153 | the evidence record, field by field, of the first entry with the decision id, or none when there is no such entry |
| Ledgers.AppendNeverRepairs | deploy/voss/router/service/go/ledger.go:24-35 | from any state an append removes no bad link and never mends the head |
| Ledgers.AppendKeepsWellFormed | deploy/voss/router/service/go/ledger.go:24-35 | appending to a sealed ledger with a true cache gives another |
| Ledgers.BadLinksConcat | deploy/voss/router/service/go/ledger.go:119-125 | break counts add over concatenation, up to the joining link |
| Ledgers.EditPasses | deploy/voss/router/service/go/ledger.go:161-167 | a one-entry edit of a valid chain passes exactly when it keeps the entry's prev hash and, unless it is last, its hash |
| Ledgers.HashCoversContent | deploy/voss/router/service/go/ledger.go:161-167 | given a collision-free hash, two entries have one hash exactly when they differ at most in their links |
| Ledgers.TamperedHashIsOneBreak | deploy/voss/router/service/go/ledger.go:86-92 | rewriting the hash of an entry that is not last gives exactly one break, at the next link |
| Ledgers.DroppedEntryIsOneBreak | deploy/voss/router/service/go/ledger.go:86-92 | dropping an interior entry gives exactly one break when hashes are distinct |
| LedgerMode.CachedRefinesPlain | deploy/voss/router/service/go/modes.go:268-289 | for every run of appends with equal clock readings the cached and the plain append hold the same entries, well formed and verifying with no breaks |
| LedgerMode.LedgerCatalog.HandleAppend | deploy/voss/router/service/go/modes.go:134-151 | a valid store grows by one entry and stays valid; a broken one is left unchanged and its break count reported |
| Configs.ConfigIsExact | deploy/voss/router/service/go/config.go:65-121 | with distinct ids, one tenant per lane and two-part items, the gate over the built configuration admits exactly what the request's tenant lists, in its lane, for execute at low risk by a named operator |
| Configs.ExactUnlessLeak | deploy/voss/router/service/go/config.go:106-118 | with distinct ids and two-part items, the gate is as listed for a request if and only if that request is not a pairing listed only apart that a lane mate lists |
| Configs.SharedLaneLeaks | deploy/voss/router/service/go/config.go:106-118 | a configuration in the SAFE lane where the router admits an unlisted pairing because a lane mate lists it |
| Configs.BuiltGate | deploy/voss/router/service/go/usl.go:38-74 | the gate over any built configuration, items of any number of parts: the first tenant with the id lists the class, the scope or no scope at all, "execute" or no action at all, and its lane lists the pair as one item |
| Configs.NothingWithoutExecute | deploy/voss/router/service/go/config.go:69-92 | a tenant that lists actions but not "execute" is admitted for nothing |
| Configs.BuiltReach | deploy/voss/router/service/go/config.go:106-118 | nothing but execute at low risk is ever admitted through a built configuration |
| Configs.BuiltLattice | deploy/voss/router/service/go/config.go:106-118 | the built lattice grants a capability in a lane exactly when some tenant of that lane lists an item that compiles to it |
| Configs.GrantMeans | deploy/voss/router/service/go/config.go:106-118 | what a listed item grants, read off the text: "class" for the default scope, "class.scope", or "class.scope." and anything |
| Configs.BuiltElevation | deploy/voss/router/service/go/config.go:90-101 | through a built configuration nobody is admitted but the tenant's first listed operator, if it lists one, and in the NORMAL and EXPRESS lanes nobody if it lists none |
| Configs.Build | deploy/voss/router/service/go/config.go:65-121 | one policy per tenant, each compiled from what that tenant lists, and the lattice of all tenants in order |
| Configs.CompileClasses | deploy/voss/router/service/go/config.go:69-86 | first parts as classes, second parts as scopes without repeats, third parts as actions |
| Configs.JoinOfSplit | deploy/voss/router/service/go/config.go:74 | the parts of a dotted string hold no dot and joined give it back |
| Configs.SplitOfJoin | deploy/voss/router/service/go/config.go:74 | dot-free parts are recovered from their join |
| Workflows.Run | deploy/voss/router/service/go/workflows.go:84-98 | by id and lane alone: the router is reached exactly for the four workflows in the lanes each lists, and every entry it then writes bears that workflow's class, scope, action and risk; ledger, result and error are those of the governed execution |
| Workflows.WorkflowsStopAtTheLattice | deploy/voss/router/service/go/workflows.go:47-77 | on a built configuration each of the four workflows is refused at the lattice gate or before, so no provider is asked |

## Left out

- HTTP decoding, status codes, JSON, file reads and writes, environment variables and service-mode dispatch.
- The bearer-token check of the operator endpoints; operator calls are taken as authorised.
- SHA-256, random ids and clocks: the hash is a parameter, ids and clock readings arrive with each step. Only `OnlyPrefixesVerify` needs the hash to be collision free, as a hypothesis.
- Fixed texts of the source are enumeration constructors; the text each stands for is in Types.dfy.
- Metadata and coherence projection of a request, which no decision reads.
- EveryCallEnds: counts steps, not time; the deadline on Generate is a nondeterministic timeout, and a timed-out Generate that keeps running in the background has no further effect in the model.
- `Clear`, `ClearCorrection` and `Reset`, which have no caller outside the source's own test files.
- Data races on the provider map, the drift override and the ledger-mode store: each access is one step.
- NaN drift scores and 64-bit index wrap-around: scores are reals and indices naturals.
- The Lambda checks that the pipeline does not call, and `checkLambda5`, which always passes.
- Metrics, dashboards and deployment files.
- Admit, GovernAndExecute and Config.Build are split into several methods here. The in-flight and final operator checks cannot fire when nothing else runs, so their refusals are `assert false` in the router object; they are live in the interleaved model.
