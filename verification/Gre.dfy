/** The GRE-1001 pipeline (gre.go): nine stages in a fixed order, halting at the first failure. */
module Gre {
  import opened Types
  import opened Stores
  import opened Usl

  const STAGES: seq<Stage> := [
    InputValidation, CapabilityCheck, IdentitySeparation, UslGateStage, DriftCheck,
    OperatorCorrigibility, AuditTrail, LedgerWrite, OutputValidation
  ]

  /** What each stage logs when it passes, in pipeline order. */
  const PASSED: seq<StageRecord> := [
    StageRecord(InputValidation, true, InputValid, Lambda1),
    StageRecord(CapabilityCheck, true, CapabilityComplete, CapabilityLattice),
    StageRecord(IdentitySeparation, true, TenantIsolated, Lambda4),
    StageRecord(UslGateStage, true, Admitted, UslGate),
    StageRecord(DriftCheck, true, NoDrift, Lambda5),
    StageRecord(OperatorCorrigibility, true, NoActiveInterrupt, Lambda6),
    StageRecord(AuditTrail, true, AuditAvailable, Lambda2),
    StageRecord(LedgerWrite, true, LedgerWritable, LedgerRule),
    StageRecord(OutputValidation, true, OutputDeterministic, Lambda1)
  ]

  /** Everything a stage may read. */
  datatype StageInput = StageInput(
    req: Request, tenants: seq<TenantPolicy>, lattice: seq<Grant>, drift: Option<real>, flags: Flags)

  function CheckInput(r: Request): StageRecord {
    if r.requestID == "" || r.intentID == "" then StageRecord(InputValidation, false, IdsRequired, Lambda1)
    else if r.tenantID == "" || r.operatorID == "" then
      StageRecord(InputValidation, false, TenantAndOperatorRequired, Lambda2)
    else StageRecord(InputValidation, true, InputValid, Lambda1)
  }

  function CheckCapability(c: Capability): StageRecord {
    if c.cls == "" || c.scope == "" || c.action == "" || c.risk == "" then
      StageRecord(CapabilityCheck, false, CapabilityIncomplete, CapabilityLattice)
    else StageRecord(CapabilityCheck, true, CapabilityComplete, CapabilityLattice)
  }

  function CheckIdentity(r: Request, tenants: seq<TenantPolicy>): StageRecord {
    var res := CheckLambda4(r, tenants);
    if !res.passed then StageRecord(IdentitySeparation, false, res.reason, Lambda4)
    else StageRecord(IdentitySeparation, true, TenantIsolated, Lambda4)
  }

  function CheckUsl(r: Request, tenants: seq<TenantPolicy>, lattice: seq<Grant>): StageRecord {
    var ad := UslCheck(true, tenants, lattice, r);
    if ad.result.Deny? || ad.result.Quarantine? then StageRecord(UslGateStage, false, ad.reason, ad.rule)
    else StageRecord(UslGateStage, true, Admitted, UslGate)
  }

  /** Only a steered score can fail this stage; the built-in monitor always passes. */
  function CheckDrift(drift: Option<real>): StageRecord {
    if drift.Some? && drift.value >= 0.5 then StageRecord(DriftCheck, false, DriftSpike, Lambda5)
    else StageRecord(DriftCheck, true, NoDrift, Lambda5)
  }

  function CheckOperator(intentID: string, flags: Flags): StageRecord {
    if intentID in flags.terminated then StageRecord(OperatorCorrigibility, false, TerminatedExecution, Lambda6)
    else if intentID in flags.interrupted then StageRecord(OperatorCorrigibility, false, InterruptActive, Lambda6)
    else if CorrectionOf(flags, intentID).Some? then
      StageRecord(OperatorCorrigibility, false, CorrectionActive(CorrectionOf(flags, intentID).value), Lambda6)
    else StageRecord(OperatorCorrigibility, true, NoActiveInterrupt, Lambda6)
  }

  function Check(stage: Stage, si: StageInput): StageRecord {
    match stage
    case InputValidation => CheckInput(si.req)
    case CapabilityCheck => CheckCapability(si.req.capability)
    case IdentitySeparation => CheckIdentity(si.req, si.tenants)
    case UslGateStage => CheckUsl(si.req, si.tenants, si.lattice)
    case DriftCheck => CheckDrift(si.drift)
    case OperatorCorrigibility => CheckOperator(si.req.intentID, si.flags)
    case AuditTrail =>
      if si.req.intentID == "" then StageRecord(AuditTrail, false, IntentRequired, Lambda2)
      else StageRecord(AuditTrail, true, AuditAvailable, Lambda2)
    case LedgerWrite =>
      if si.req.tenantID == "" then StageRecord(LedgerWrite, false, TenantRequired, Lambda2)
      else StageRecord(LedgerWrite, true, LedgerWritable, LedgerRule)
    case _ => StageRecord(OutputValidation, true, OutputDeterministic, Lambda1)
  }

  /** A stage passes with the record the pipeline promises, or fails under its own name with a rule. */
  lemma StageLogsItself(k: nat, si: StageInput)
    requires k < 9
    ensures Check(STAGES[k], si).passed ==> Check(STAGES[k], si) == PASSED[k]
    ensures Check(STAGES[k], si).stage == STAGES[k]
    ensures Check(STAGES[k], si).rule != NoRule
  {
  }

  /** The pipeline's result: every stage passed, or the passing prefix and the first failure. */
  ghost predicate IsPipelineResult(si: StageInput, outs: seq<StageRecord>, ok: bool) {
    if ok then
      outs == PASSED && forall k :: 0 <= k < 9 ==> Check(STAGES[k], si).passed
    else
      && 0 < |outs| <= 9
      && outs == PASSED[..|outs| - 1] + [Check(STAGES[|outs| - 1], si)]
      && !Check(STAGES[|outs| - 1], si).passed
      && forall k :: 0 <= k < |outs| - 1 ==> Check(STAGES[k], si).passed
  }

  lemma PipelineResultUnique(si: StageInput, outs: seq<StageRecord>, ok: bool, outs': seq<StageRecord>, ok': bool)
    requires IsPipelineResult(si, outs, ok) && IsPipelineResult(si, outs', ok')
    ensures outs == outs' && ok == ok'
  {
    if !ok && !ok' {
      assert |outs| - 1 < |outs'| - 1 || |outs'| - 1 < |outs| - 1 || |outs| == |outs'|;
    }
  }

  /** Only the first six stages can ever be the failure, since later ones repeat what stage one checked. */
  lemma FailureIsEarly(si: StageInput, outs: seq<StageRecord>)
    requires IsPipelineResult(si, outs, false)
    ensures |outs| <= 6
  {
    assert |outs| > 1 ==> Check(STAGES[0], si).passed;
  }

  ghost predicate DistinctTenants(tenants: seq<TenantPolicy>) {
    forall i, j :: 0 <= i < j < |tenants| ==> tenants[i].tenantID != tenants[j].tenantID
  }

  /** With distinct tenant ids, a failure at the USL stage is about the lattice or the tenant's policy. */
  lemma UslStageFailure(si: StageInput, outs: seq<StageRecord>)
    requires IsPipelineResult(si, outs, false) && |outs| == 4
    requires DistinctTenants(si.tenants)
    ensures outs[3].rule == CapabilityLattice || outs[3].rule == TenantPolicyRule
  {
    assert Check(STAGES[0], si).passed && Check(STAGES[2], si).passed;
    var k, m := FindTenant(si.tenants, si.req.tenantID), FindInLane(si.tenants, si.req.tenantID, si.req.lane);
    assert k < |si.tenants| && m == k;
  }

  class GRE1001 {
    const interrupts: InterruptStore
    var driftOverride: Option<real>

    constructor (interrupts: InterruptStore)
      ensures this.interrupts == interrupts && driftOverride == None
    {
      this.interrupts := interrupts;
      driftOverride := None;
    }

    ghost function Input(req: Request, tenants: seq<TenantPolicy>, lattice: seq<Grant>): StageInput
      reads this, interrupts
    {
      StageInput(req, tenants, lattice, driftOverride, interrupts.State())
    }

    /** Below 0.5 the steered score changes no stage's answer. */
    method SteerDrift(v: real)
      modifies this
      ensures driftOverride == Some(v)
      ensures v < 0.5 ==> CheckDrift(driftOverride) == CheckDrift(None)
    {
      driftOverride := Some(v);
    }

    method StageOperatorCorrigibility(req: Request) returns (out: StageRecord)
      ensures out == CheckOperator(req.intentID, interrupts.State())
    {
      var t := interrupts.IsTerminated(req.intentID);
      if t {
        return StageRecord(OperatorCorrigibility, false, TerminatedExecution, Lambda6);
      }
      var i := interrupts.IsInterrupted(req.intentID);
      if i {
        return StageRecord(OperatorCorrigibility, false, InterruptActive, Lambda6);
      }
      var directive, c := interrupts.Correction(req.intentID);
      if c {
        return StageRecord(OperatorCorrigibility, false, CorrectionActive(directive), Lambda6);
      }
      return StageRecord(OperatorCorrigibility, true, NoActiveInterrupt, Lambda6);
    }

    method Run(req: Request, tenants: seq<TenantPolicy>, lattice: seq<Grant>)
      returns (outputs: seq<StageRecord>, ok: bool)
      ensures IsPipelineResult(Input(req, tenants, lattice), outputs, ok)
    {
      outputs := [];
      ghost var si := Input(req, tenants, lattice);
      for k := 0 to |STAGES|
        invariant outputs == PASSED[..k]
        invariant forall j :: 0 <= j < k ==> Check(STAGES[j], si).passed
      {
        var out;
        if STAGES[k] == OperatorCorrigibility {
          out := StageOperatorCorrigibility(req);
        } else {
          out := Check(STAGES[k], StageInput(req, tenants, lattice, driftOverride, NO_FLAGS));
        }
        StageLogsItself(k, si);
        if !out.passed {
          return outputs + [out], false;
        }
        outputs := outputs + [out];
      }
      return outputs, true;
    }
  }
}
