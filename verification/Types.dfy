/** The records that cross the router's components (types.go, usl.go).

    Fixed texts of the source (rule references, reasons, stage names, errors) are
    enumerations here, with the text they stand for beside them; texts that come from
    a caller stay strings. A zero value that the source could leave behind ("") has a
    constructor of its own, so that "was filled in" is a claim and not a typing fact.
  */
module Types {

  datatype Option<+T> = None | Some(value: T)

  datatype AdmitResult = Admit | Deny | Quarantine

  datatype ImmuneClass = Allow | Clamp | Reroute | Reject | ImmuneQuarantine

  datatype Error = NoError | ErrLedgerBreak | ErrTerminated | ErrInterrupted

  /** Rule references, the `rule_ref` of decisions and stage records. */
  datatype RuleRef =
    | NoRule               // "", the zero value
    | Lambda1              // "Lambda.1"
    | Lambda2              // "Lambda.2"
    | Lambda4              // "Lambda.4"
    | Lambda5              // "Lambda.5"
    | Lambda6              // "Lambda.6"
    | Lambda7              // "Lambda.7"
    | CapabilityLattice    // "capability.lattice"
    | TenantPolicyRule     // "tenant.capability_policy"
    | UslGate              // "usl.gate"
    | LedgerRule           // "ledger"
    | LedgerIntegrity      // "ledger.integrity"
    | ImmuneRule           // "immune.protocol"
    | ProviderRegistry     // "provider.registry"
    | ProviderAdapter      // "provider.adapter"
    | ProviderExecution    // "provider.execution"

  /** Stage names: the nine of GRE-1001, in order, and the two that only refusals use. */
  datatype Stage =
    | InputValidation | CapabilityCheck | IdentitySeparation | UslGateStage | DriftCheck
    | OperatorCorrigibility | AuditTrail | LedgerWrite | OutputValidation
    | ImmuneStage | ProviderStage

  datatype Reason =
    | NoReason                       // "", the zero value
    | LedgerBroken                   // "ledger chain integrity broken"
    | OperatorTermination            // "operator termination"
    | OperatorInterruption           // "operator interruption"
    | OperatorInterrupt              // "operator interrupt"
    | OperatorCorrection(directive: string) // "operator correction: " + directive
    | IdsRequired                    // "request_id and intent_id required"
    | TenantAndOperatorRequired      // "tenant and operator required for auditability"
    | InputValid                     // "input valid"
    | CapabilityIncomplete           // "capability class incomplete"
    | CapabilityComplete             // "capability class complete"
    | NotSovereign                   // "operator is not the tenant's sovereign operator"
    | LaneMismatchOrUnknownTenant    // "tenant lane mismatch or unknown tenant"
    | LaneAligned                    // "tenant lane aligned and operator bound"
    | TenantIsolated                 // "tenant isolated"
    | GovernanceDisabled             // "governance enforcement disabled"
    | UnknownTenant                  // "unknown tenant"
    | LaneMismatch                   // "mlca lane mismatch"
    | NotGranted                     // "capability not granted in lattice"
    | NotAllowedForTenant            // "capability not allowed for tenant"
    | OperatorRequired               // "operator required"
    | Admitted                       // "admitted"
    | DriftSpike                     // "drift spike exceeds threshold"
    | NoDrift                        // "no drift"
    | TerminatedExecution            // "operator terminated execution"
    | InterruptActive                // "operator interrupt active"
    | CorrectionActive(directive: string) // "operator correction active: " + directive
    | NoActiveInterrupt              // "no active interrupt"
    | IntentRequired                 // "intent required for audit"
    | AuditAvailable                 // "audit trail available"
    | TenantRequired                 // "tenant required for ledger"
    | LedgerWritable                 // "ledger writable"
    | OutputDeterministic            // "output deterministic"
    | ImmuneUnknownTenant            // "unknown tenant: fail closed"
    | EmptyPayload                   // "empty payload: quarantine"
    | SafeLane                       // "safe lane: allowed"
    | NormalLane                     // "normal lane: clamped"
    | ExpressLane                    // "express lane: rerouted for inspection"
    | UnknownLane                    // "unknown lane: reject"
    | OperatorApproved(what: Reason) // "operator approved governed lane: " + what
    | Immune(what: Reason)           // "immune: " + what
    | NoEnabledProvider              // "no enabled provider for capability"
    | NoProviderRegistered           // "no provider registered"
    | NoProviderAtExecute            // "no enabled provider for capability at execute"
    | Adapter(why: string)           // "adapter: " + why
    | AdapterSays(why: string)       // why, as the adapter gave it
    | TerminationInFlight            // "operator termination during flight"
    | InterruptionInFlight           // "operator interruption during flight"
    | ExecutionFailed                // "provider execution failed"
    | ExecutionTimedOut              // "provider execution timed out"
    | ExecutedUnderGovernance        // "executed under governance"

  datatype Capability = Capability(cls: string, scope: string, action: string, risk: string)

  datatype ModelRef = ModelRef(providerID: string, modelID: string, keyRef: string)

  /** A capability request. Lanes are free strings, as in the source; the three known ones are constants. */
  datatype Request = Request(
    requestID: string, tenantID: string, lane: string, capability: Capability,
    intentID: string, operatorID: string, modelRef: ModelRef, payload: string)

  const LANE_SAFE := "SAFE"
  const LANE_NORMAL := "NORMAL"
  const LANE_EXPRESS := "EXPRESS"

  datatype TenantPolicy = TenantPolicy(
    tenantID: string, name: string, lane: string, classes: seq<string>, scopes: seq<string>,
    actions: seq<string>, risks: seq<string>, requiresApproval: bool,
    identityNamespace: string, sovereign: string)

  datatype Grant = Grant(capability: Capability, lanes: seq<string>)

  datatype StageRecord = StageRecord(stage: Stage, passed: bool, reason: Reason, rule: RuleRef)

  datatype Entry = Entry(
    index: nat, timestamp: int, requestID: string, intentID: string, tenantID: string, lane: string,
    capability: Capability, provider: string, admitted: bool, result: AdmitResult, reason: Reason,
    rule: RuleRef, decisionID: string, stageLog: seq<StageRecord>, prevHash: string, hash: string,
    replayID: string, executionHash: string)

  const GENESIS := "genesis"
}
